/**
 * Frames that arrive before there are handlers: held, and replayed by the thread that installs the handlers while the
 * reader goes on. A frame is named by its place in the order of arrival.
 */
module Handover {
  import opened Common

  datatype State = State(
    arrived: nat,
    installed: bool,
    held: seq<nat>,
    replay: seq<nat>,       // what the installing thread still has to deliver
    direct: Option<nat>,    // what the reader is delivering itself
    delivered: seq<nat>,
    cut: nat,               // how many frames had arrived when the handlers were installed
    overtook: bool)         // the reader has delivered a frame with the replay not finished

  datatype Action = Arrive | Hand | Install | Replay

  const EMPTY := State(0, false, [], [], None, [], 0, false)

  predicate Enabled(s: State, a: Action) {
    match a
    case Arrive => s.direct.None?
    case Hand => s.direct.Some?
    case Install => !s.installed
    case Replay => s.replay != []
  }

  function Apply(s: State, a: Action): State
    requires Enabled(s, a)
  {
    match a
    case Arrive =>
      // one critical section: hold the frame, or find that there are handlers
      if !s.installed then s.(arrived := s.arrived + 1, held := s.held + [s.arrived])
      else s.(arrived := s.arrived + 1, direct := Some(s.arrived))
    case Hand =>
      s.(direct := None, delivered := s.delivered + [s.direct.value], overtook := s.overtook || s.replay != [])
    case Install => s.(installed := true, held := [], replay := s.held, cut := s.arrived)
    case Replay => s.(replay := s.replay[1..], delivered := s.delivered + [s.replay[0]])
  }

  /** The two critical sections on the object's own fields. */
  class Backlog<Frame> {
    var handlers: bool
    var backlog: seq<Frame>

    constructor ()
      ensures !handlers && backlog == []
    {
      handlers := false;
      backlog := [];
    }

    /** The locked part of `enqueue_or_deliver`; the frame is the caller's to deliver when it is not held. */
    method Enqueue(frame: Frame) returns (holds: bool)
      modifies this`backlog
      ensures holds == !handlers
      ensures backlog == if holds then old(backlog) + [frame] else old(backlog)
    {
      if !handlers {
        backlog := backlog + [frame];
        return true;
      }
      return false;
    }

    /** The locked part of `set_handlers`. */
    method SwapOut() returns (replay: seq<Frame>)
      modifies this
      ensures handlers && backlog == [] && replay == old(backlog)
    {
      handlers := true;
      replay := backlog;
      backlog := [];
    }
  }

  // ---- orders of arrival ----

  function Span(from: nat, to: nat): (r: seq<nat>)
    requires from <= to
    ensures |r| == to - from && forall k | 0 <= k < |r| :: r[k] == from + k
  {
    seq(to - from, k requires 0 <= k => from + k)
  }

  function Below(ds: seq<nat>, cut: nat): seq<nat> {
    if ds == [] then []
    else Below(ds[..|ds| - 1], cut) + (if ds[|ds| - 1] < cut then [ds[|ds| - 1]] else [])
  }

  function From(ds: seq<nat>, cut: nat): seq<nat> {
    if ds == [] then []
    else From(ds[..|ds| - 1], cut) + (if ds[|ds| - 1] >= cut then [ds[|ds| - 1]] else [])
  }

  lemma Delivered(ds: seq<nat>, d: nat, cut: nat)
    ensures Below(ds + [d], cut) == if d < cut then Below(ds, cut) + [d] else Below(ds, cut)
    ensures From(ds + [d], cut) == if d >= cut then From(ds, cut) + [d] else From(ds, cut)
  {
    assert (ds + [d])[..|ds|] == ds;
  }

  lemma {:induction false} Partition(ds: seq<nat>, cut: nat)
    ensures multiset(ds) == multiset(Below(ds, cut)) + multiset(From(ds, cut))
    ensures |ds| == |Below(ds, cut)| + |From(ds, cut)|
  {
    if ds != [] {
      var init, d := ds[..|ds| - 1], ds[|ds| - 1];
      Partition(init, cut);
      assert ds == init + [d];
      Delivered(init, d, cut);
      hide Below, From;
    }
  }

  function InHand(s: State): seq<nat> {
    if s.direct.Some? then [s.direct.value] else []
  }

  predicate InOrder(ds: seq<nat>) {
    forall p | 0 <= p < |ds| :: ds[p] == p
  }

  /** What was delivered is a merge of the held frames and the later ones, each in order of arrival. */
  ghost predicate Inv(s: State) {
    && (!s.installed ==>
          s.held == Span(0, s.arrived) && s.replay == [] && s.direct.None? && s.delivered == [] && !s.overtook)
    && (s.installed ==>
          && s.held == [] && s.cut <= s.arrived
          && Below(s.delivered, s.cut) + s.replay == Span(0, s.cut)
          && From(s.delivered, s.cut) + InHand(s) == Span(s.cut, s.arrived))
    && (!s.overtook <==> InOrder(s.delivered))
    && (!s.overtook && s.replay != [] ==> From(s.delivered, s.cut) == [])
  }

  lemma OrderGrows(ds: seq<nat>, d: nat)
    ensures InOrder(ds + [d]) <==> InOrder(ds) && d == |ds|
  {
    assert (ds + [d])[|ds|] == d;
    if p: nat :| p < |ds| && ds[p] != p {
      assert (ds + [d])[p] != p;
    }
  }

  lemma StepKeepsInv(s: State, a: Action)
    requires Inv(s) && Enabled(s, a)
    ensures Inv(Apply(s, a))
  {
    if a.Arrive? {
      ArriveKeepsInv(s);
    } else if a.Hand? {
      HandKeepsInv(s);
    } else if a.Replay? {
      ReplayKeepsInv(s);
    } else {
      assert [] + s.held == Span(0, s.arrived);
    }
  }

  lemma ArriveKeepsInv(s: State)
    requires Inv(s) && s.direct.None?
    ensures Inv(Apply(s, Arrive))
  {
    hide Below, From;
    var t := Apply(s, Arrive);
    if s.installed {
      var late := From(s.delivered, s.cut);
      assert late + [] == late && late + [s.arrived] == Span(t.cut, t.arrived);
    }
  }

  lemma HandKeepsInv(s: State)
    requires Inv(s) && s.direct.Some?
    ensures Inv(Apply(s, Hand))
  {
    hide Below, From, InOrder;
    var d, late := s.direct.value, From(s.delivered, s.cut);
    Delivered(s.delivered, d, s.cut);
    Partition(s.delivered, s.cut);
    OrderGrows(s.delivered, d);
    assert (late + [d])[|late|] == d == s.cut + |late|;
    assert |Below(s.delivered, s.cut) + s.replay| == s.cut;
    assert late + [d] + [] == late + [d];
  }

  lemma ReplayKeepsInv(s: State)
    requires Inv(s) && s.replay != []
    ensures Inv(Apply(s, Replay))
  {
    hide Below, From, InOrder;
    var d, early := s.replay[0], Below(s.delivered, s.cut);
    Delivered(s.delivered, d, s.cut);
    Partition(s.delivered, s.cut);
    OrderGrows(s.delivered, d);
    FirstOf(early, s.replay);
    assert d == |early|;
  }

  lemma FirstOf(front: seq<nat>, rest: seq<nat>)
    requires rest != []
    ensures (front + rest)[|front|] == rest[0] && front + [rest[0]] + rest[1..] == front + rest
  {
  }

  ghost predicate Run(ss: seq<State>, acts: seq<Action>) {
    && |ss| == |acts| + 1 && ss[0] == EMPTY
    && forall k | 0 <= k < |acts| :: Enabled(ss[k], acts[k]) && ss[k + 1] == Apply(ss[k], acts[k])
  }

  lemma {:induction false} RunKeepsInv(ss: seq<State>, acts: seq<Action>, k: nat)
    requires Run(ss, acts) && k < |ss|
    ensures Inv(ss[k])
  {
    if k > 0 {
      RunKeepsInv(ss, acts, k - 1);
      StepKeepsInv(ss[k - 1], acts[k - 1]);
    }
  }

  lemma Halves(a: seq<nat>, b: seq<nat>)
    ensures multiset(a + b) == multiset(a) + multiset(b)
  {
  }

  /** Under every interleaving each frame that has arrived is in one place: delivered once, or still to be. */
  lemma ExactlyOnce(ss: seq<State>, acts: seq<Action>, k: nat)
    requires Run(ss, acts) && k < |ss|
    ensures var s := ss[k];
            (multiset(s.delivered) + multiset(s.held) + multiset(s.replay) + multiset(InHand(s))
             == multiset(Span(0, s.arrived)))
  {
    var s := ss[k];
    RunKeepsInv(ss, acts, k);
    hide Below, From, Run;
    if s.installed {
      Partition(s.delivered, s.cut);
      Halves(Below(s.delivered, s.cut), s.replay);
      Halves(From(s.delivered, s.cut), InHand(s));
      Halves(Span(0, s.cut), Span(s.cut, s.arrived));
      assert Span(0, s.arrived) == Span(0, s.cut) + Span(s.cut, s.arrived);
    }
  }

  /** What has been delivered merges a first part of the held frames with a first part of the later ones. */
  lemma DeliveredMerges(ss: seq<State>, acts: seq<Action>, k: nat)
    requires Run(ss, acts) && k < |ss|
    ensures var s := ss[k];
            && s.cut <= s.arrived
            && Below(s.delivered, s.cut) <= Span(0, s.cut)
            && From(s.delivered, s.cut) <= Span(s.cut, s.arrived)
            && (s.installed && s.replay == [] ==> Below(s.delivered, s.cut) == Span(0, s.cut))
            && (s.installed && s.direct.None? ==> From(s.delivered, s.cut) == Span(s.cut, s.arrived))
  {
    var s := ss[k];
    RunKeepsInv(ss, acts, k);
    CutStays(ss, acts, k);
    assert s.installed ==> Below(s.delivered, s.cut) <= Below(s.delivered, s.cut) + s.replay;
    assert s.installed ==> From(s.delivered, s.cut) <= From(s.delivered, s.cut) + InHand(s);
  }

  lemma {:induction false} CutStays(ss: seq<State>, acts: seq<Action>, k: nat)
    requires Run(ss, acts) && k < |ss|
    ensures ss[k].cut <= ss[k].arrived && (!ss[k].installed ==> ss[k].cut == 0)
  {
    if k > 0 {
      CutStays(ss, acts, k - 1);
    }
  }

  /** Delivery is in order of arrival exactly as long as the reader has delivered nothing during the replay. */
  lemma ArrivalOrder(ss: seq<State>, acts: seq<Action>, k: nat)
    requires Run(ss, acts) && k < |ss|
    ensures ss[k].overtook <==> exists j | 0 <= j < k :: acts[j].Hand? && ss[j].replay != []
    ensures InOrder(ss[k].delivered) <==> !ss[k].overtook
  {
    RunKeepsInv(ss, acts, k);
    Overtakes(ss, acts, k);
  }

  lemma {:induction false} Overtakes(ss: seq<State>, acts: seq<Action>, k: nat)
    requires Run(ss, acts) && k < |ss|
    ensures ss[k].overtook <==> exists j | 0 <= j < k :: acts[j].Hand? && ss[j].replay != []
  {
    if k > 0 {
      Overtakes(ss, acts, k - 1);
      assert ss[k] == Apply(ss[k - 1], acts[k - 1]);
    }
  }

  /** If nothing arrives while the held frames are replayed, nothing overtakes them. */
  lemma {:induction false} QuietReplayKeepsOrder(ss: seq<State>, acts: seq<Action>, k: nat)
    requires Run(ss, acts) && k < |ss|
    requires forall j | 0 <= j < k :: acts[j].Arrive? ==> ss[j].replay == []
    ensures InOrder(ss[k].delivered) && (ss[k].replay != [] ==> ss[k].direct.None?)
  {
    RunKeepsInv(ss, acts, k);
    if k > 0 {
      QuietReplayKeepsOrder(ss, acts, k - 1);
      RunKeepsInv(ss, acts, k - 1);
    }
  }

  /** The other case happens: frame 1 arrives during the replay and is delivered before frame 0. */
  lemma ReplayCanBeOvertaken() returns (ss: seq<State>, acts: seq<Action>)
    ensures Run(ss, acts) && ss[|acts|].delivered == [1, 0]
  {
    acts := [Arrive, Install, Arrive, Hand, Replay];
    var s1 := EMPTY.(arrived := 1, held := [0]);
    var s2 := EMPTY.(arrived := 1, installed := true, replay := [0], cut := 1);
    var s3 := s2.(arrived := 2, direct := Some(1));
    var s4 := s3.(direct := None, delivered := [1], overtook := true);
    var s5 := s4.(replay := [], delivered := [1, 0]);
    ss := [EMPTY, s1, s2, s3, s4, s5];
    assert s4.replay[1..] == [];
  }
}

/** Many threads sending at once: `send_raw` under the write lock, one write call at a time. */
module SendLock {
  import opened Common
  import opened Frames
  import Utf8

  /** A sender past its look at `active` waits for the lock, then writes its frame piece by piece. */
  datatype Sender = Idle | Waiting(payload: string) | Holding(payload: string, sent: nat)

  datatype State = State(
    senders: map<nat, Sender>,
    holder: Option<nat>,
    active: bool,
    isOpen: bool,
    wire: string,           // the bytes the kernel has taken
    order: seq<string>,     // the payloads in the order their senders took the lock
    failed: bool,           // some send has failed
    late: bool)             // a byte has been written after that

  datatype Action =
    | Begin(id: nat, payload: string)
    | Take(id: nat)
    | Put(id: nat, count: nat)
    | Interrupt(id: nat)
    | Fail(id: nat)
    | Done(id: nat)
    | Deactivate
    | Close

  predicate Start(s: State) {
    s == State(map[], None, true, true, "", [], false, false)
  }

  function Of(s: State, id: nat): Sender {
    if id in s.senders then s.senders[id] else Idle
  }

  predicate Enabled(s: State, a: Action) {
    match a
    case Begin(id, _) => Of(s, id).Idle?
    case Take(id) => Of(s, id).Waiting? && s.holder.None?
    case Put(id, count) =>
      && Of(s, id).Holding? && count > 0
      && var sent := Of(s, id).sent;
      // the header and the payload are written by calls of their own
      && sent + count <= (if sent < 4 then 4 else |Frame(Of(s, id).payload)|)
    case Interrupt(id) => Of(s, id).Holding?
    case Fail(id) => Of(s, id).Holding? && Of(s, id).sent < |Frame(Of(s, id).payload)|
    case Done(id) => Of(s, id).Holding? && Of(s, id).sent == |Frame(Of(s, id).payload)|
    case Deactivate => true
    case Close => s.holder.None?
  }

  function Apply(s: State, a: Action): State
    requires Enabled(s, a)
  {
    match a
    case Begin(id, payload) => if s.active then s.(senders := s.senders[id := Waiting(payload)]) else s
    case Take(id) =>
      if !s.isOpen then s.(senders := s.senders[id := Idle])
      else
        var p := s.senders[id].payload;
        s.(senders := s.senders[id := Holding(p, 0)], holder := Some(id), order := s.order + [p])
    case Put(id, count) =>
      var h := s.senders[id];
      s.(senders := s.senders[id := h.(sent := h.sent + count)],
         wire := s.wire + Frame(h.payload)[h.sent..h.sent + count], late := s.late || s.failed)
    case Interrupt(_) => s
    case Fail(id) =>
      s.(senders := s.senders[id := Idle], holder := None, active := false, failed := true)
    case Done(id) => s.(senders := s.senders[id := Idle], holder := None)
    case Deactivate => s.(active := false)
    case Close => s.(isOpen := false)
  }

  /** One sender holds the lock, and the wire holds whole frames in lock order and as much of its own as it wrote. */
  ghost predicate Inv(s: State) {
    && (forall id | id in s.senders :: s.senders[id].Holding? <==> s.holder == Some(id))
    && (s.holder.Some? ==>
          && s.holder.value in s.senders && s.order != []
          && var h := s.senders[s.holder.value];
          && h.payload == s.order[|s.order| - 1] && h.sent <= |Frame(h.payload)|)
    && (!s.failed ==>
          if s.holder.None? then s.wire == Stream(s.order)
          else
            var h := s.senders[s.holder.value];
            s.wire == Stream(s.order[..|s.order| - 1]) + Frame(h.payload)[..h.sent])
    && (s.failed && !s.late ==> s.wire <= Stream(s.order))
  }

  lemma OrderGrows(order: seq<string>, p: string)
    ensures Stream(order + [p]) == Stream(order) + Frame(p)
  {
    StreamJoins(order, [p]);
    assert Stream([p]) == Frame(p) + "" == Frame(p);
  }

  /** What the holder has written is a first part of the stream with its whole frame. */
  lemma PartOfStream(order: seq<string>, n: nat)
    requires order != [] && n <= |Frame(order[|order| - 1])|
    ensures Stream(order[..|order| - 1]) + Frame(order[|order| - 1])[..n] <= Stream(order)
    ensures n == |Frame(order[|order| - 1])| ==>
              Stream(order[..|order| - 1]) + Frame(order[|order| - 1])[..n] == Stream(order)
  {
    var init, last := order[..|order| - 1], order[|order| - 1];
    assert order == init + [last];
    OrderGrows(init, last);
    assert Frame(last)[..n] <= Frame(last);
  }

  lemma StepKeepsInv(s: State, a: Action)
    requires Inv(s) && Enabled(s, a)
    ensures Inv(Apply(s, a))
  {
    hide Frame, Stream;
    if a.Put? {
      PutKeepsInv(s, a);
    } else if a.Take? {
      if s.isOpen {
        var p := s.senders[a.id].payload;
        var order := s.order + [p];
        OrderGrows(s.order, p);
        assert order[..|order| - 1] == s.order;
        assert Frame(p)[..0] == "" && Stream(s.order) + "" == Stream(s.order);
      }
    } else if a.Fail? || a.Done? {
      PartOfStream(s.order, s.senders[a.id].sent);
    }
  }

  lemma PutKeepsInv(s: State, a: Action)
    requires Inv(s) && Enabled(s, a) && a.Put?
    ensures Inv(Apply(s, a))
  {
    hide Stream, Frame;
    var h := s.senders[a.id];
    if !s.failed {
      NextPiece(Stream(s.order[..|s.order| - 1]), Frame(h.payload), h.sent, h.sent + a.count);
    }
  }

  lemma NextPiece(base: string, f: string, from: nat, to: nat)
    requires from <= to <= |f|
    ensures (base + f[..from]) + f[from..to] == base + f[..to]
  {
  }

  ghost predicate Run(ss: seq<State>, acts: seq<Action>) {
    && |ss| == |acts| + 1 && Start(ss[0])
    && forall k | 0 <= k < |acts| :: Enabled(ss[k], acts[k]) && ss[k + 1] == Apply(ss[k], acts[k])
  }

  lemma {:induction false} RunKeepsInv(ss: seq<State>, acts: seq<Action>, k: nat)
    requires Run(ss, acts) && k < |ss|
    ensures Inv(ss[k])
  {
    if k > 0 {
      RunKeepsInv(ss, acts, k - 1);
      StepKeepsInv(ss[k - 1], acts[k - 1]);
    } else {
      assert Stream([]) == "";
    }
  }

  /**
   * Any number of senders, whatever the kernel makes of their writes: as long as nothing is written after a failed
   * send, a reader of any first part of the bytes dispatches frames in the order their senders took the lock, each of
   * them whole; and while no send has failed, between sends, all of them.
   */
  lemma SentInLockOrder(ss: seq<State>, acts: seq<Action>, k: nat, n: nat)
    requires Run(ss, acts) && k < |ss| && !ss[k].late && Fits(ss[k].order) && n <= |ss[k].wire|
    ensures n <= |Stream(ss[k].order)|
    ensures Received(ss[k].wire[..n]) == ss[k].order[..Whole(ss[k].order, n)]
    ensures !ss[k].failed && ss[k].holder.None? ==> Received(ss[k].wire) == ss[k].order
  {
    var s := ss[k];
    RunKeepsInv(ss, acts, k);
    WireIsPrefix(s);
    hide Inv, Received, Run, Stream, Whole;
    assert s.wire[..n] == Stream(s.order)[..n];
    PrefixReceived(s.order, n);
    PrefixReceived(s.order, |s.wire|);
    assert Stream(s.order)[..|s.wire|] == s.wire;
    assert s.order[..|s.order|] == s.order;
  }

  /** Nobody is past the look at `active`. */
  predicate NobodyUnderWay(s: State) {
    forall id | id in s.senders :: s.senders[id].Idle?
  }

  /** If nobody else is past its look at `active` when a send fails, nothing is ever written after it. */
  lemma {:induction false} AloneFailsSafely(ss: seq<State>, acts: seq<Action>, k: nat, l: nat)
    requires Run(ss, acts) && k <= l < |ss| && ss[k].failed && !ss[k].late && NobodyUnderWay(ss[k])
    ensures ss[l].failed && !ss[l].active && !ss[l].late && NobodyUnderWay(ss[l]) && ss[l].wire == ss[k].wire
  {
    hide Frame, Stream;
    if k < l {
      AloneFailsSafely(ss, acts, k, l - 1);
    } else {
      InactiveForGood(ss, acts, k, k);
    }
  }

  lemma WireIsPrefix(s: State)
    requires Inv(s) && !s.late
    ensures s.wire <= Stream(s.order)
    ensures !s.failed && s.holder.None? ==> s.wire == Stream(s.order)
  {
    hide Frame, Stream;
    if !s.failed && s.holder.Some? {
      PartOfStream(s.order, s.senders[s.holder.value].sent);
    }
  }

  /** Nobody begins a send on a channel that a failure has made inactive. */
  lemma {:induction false} InactiveForGood(ss: seq<State>, acts: seq<Action>, k: nat, l: nat)
    requires Run(ss, acts) && k <= l < |ss|
    ensures ss[k].failed ==> ss[l].failed && !ss[l].active
  {
    if k < l {
      InactiveForGood(ss, acts, k, l - 1);
    } else if k > 0 {
      InactiveForGood(ss, acts, k - 1, k - 1);
    }
  }

  /**
   * The condition is needed. A send fails after part of its frame; another, already past its look at `active`, finds
   * the socket working again. The reader dispatches a payload that nobody sent.
   */
  lemma LateBytesMixFrames() returns (ss: seq<State>, acts: seq<Action>)
    ensures Run(ss, acts) && Fits(ss[|acts|].order)
    ensures ss[|acts|].late
    ensures Received(ss[|acts|].wire) != [] && Received(ss[|acts|].wire)[0] !in ss[|acts|].order
  {
    var p, q := "ab", "c";
    hide Run, Frame, Header, Received;
    var s := State(map[], None, true, true, "", [], false, false);
    ss, acts := Begun(s);
    ss, acts, s := Go(ss, acts, s, Begin(1, p));
    ss, acts, s := Go(ss, acts, s, Begin(2, q));
    ss, acts, s := Go(ss, acts, s, Take(1));
    assert s.senders == map[1 := Holding(p, 0), 2 := Waiting(q)] && s.order == [p];
    ss, acts, s := SendsPart(ss, acts, s, 1, 1);
    assert s.senders == map[1 := Holding(p, 5), 2 := Waiting(q)] && s.wire == Header(2) + "a";
    ss, acts, s := Go(ss, acts, s, Fail(1));
    ss, acts, s := Go(ss, acts, s, Take(2));
    assert s.senders == map[1 := Idle, 2 := Holding(q, 0)] && s.order == [p, q];
    ss, acts, s := SendsPart(ss, acts, s, 2, 1);
    assert s.wire == Header(2) + "a" + Header(1) + "c";
    MixedFrame();
  }

  /** The holder writes its header and the first bytes of its payload. */
  lemma SendsPart(ss: seq<State>, acts: seq<Action>, s: State, id: nat, count: nat)
      returns (longer: seq<State>, more: seq<Action>, next: State)
    requires Run(ss, acts) && ss[|acts|] == s
    requires Of(s, id).Holding? && Of(s, id).sent == 0 && 0 < count <= |Of(s, id).payload|
    ensures Run(longer, more) && longer[|more|] == next
    ensures var p := s.senders[id].payload;
            next == s.(senders := s.senders[id := Holding(p, 4 + count)], wire := s.wire + Header(|p|) + p[..count],
                       late := s.late || s.failed)
  {
    var p := s.senders[id].payload;
    hide Run, Header;
    assert Frame(p)[0..4] == Header(|p|) && Frame(p)[4..4 + count] == p[..count];
    longer, more, next := Go(ss, acts, s, Put(id, 4));
    longer, more, next := Go(longer, more, next, Put(id, count));
    assert next.senders == s.senders[id := Holding(p, 4 + count)];
  }

  lemma Begun(s: State) returns (ss: seq<State>, acts: seq<Action>)
    requires Start(s)
    ensures Run(ss, acts) && ss[|acts|] == s
  {
    ss, acts := [s], [];
  }

  /** A run taken one step further. */
  lemma Go(ss: seq<State>, acts: seq<Action>, s: State, a: Action)
      returns (longer: seq<State>, more: seq<Action>, next: State)
    requires Run(ss, acts) && ss[|acts|] == s && Enabled(s, a)
    ensures Run(longer, more) && longer[|more|] == next == Apply(s, a)
  {
    next := Apply(s, a);
    longer, more := ss + [next], acts + [a];
  }

  /** The first byte of the second header completes the first payload. */
  lemma MixedFrame()
    ensures var r := Received(Header(2) + "a" + Header(1) + "c");
            r != [] && r[0] != "ab" && r[0] != "c"
  {
    var data := Header(2) + "a" + Header(1) + "c";
    HeaderLength(2);
    assert data[..4] == Header(2);
    assert data[4..6] == "a" + [Header(1)[0]];
    assert data[4..6][1] == Header(1)[0] == Utf8.Byte(1);
  }
}

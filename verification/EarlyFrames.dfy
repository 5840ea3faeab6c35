/**
 * The hand-over of held frames and the load manager together: what the order of delivery is for. The reader and the
 * thread that installs the handlers each run the handler of the frame they deliver, from start to end.
 */
module EarlyFrames {
  import opened Common
  import opened LoadTables
  import opened LoadProtocol
  import opened LoadInvariant
  import opened LoadTheorems
  import opened LoadAnswers
  import Handover

  datatype Cargo =
    | LoadFrame(seqNo: nat, plugin: string, available: bool)
    | QueryFrame(asked: Option<nat>, about: Option<nat>)
    | CancelFrame(id: nat, reason: string)

  const READER: nat := 0
  const INSTALLER: nat := 1

  datatype Joint = Joint(
    h: Handover.State,
    s: State,
    cargo: seq<Cargo>,    // the frames in order of arrival
    reading: bool,        // the reader is in the handler of the frame it delivers
    replaying: bool)      // the installing thread is in the handler of the first frame left to replay

  datatype Step =
    | Arrive(f: Cargo)
    | Install
    | ReadBegin
    | ReadEnd
    | ReplayBegin
    | ReplayEnd
    | Manager(a: Action)

  /** The call of the frame's handler. */
  function Call(c: nat, f: Cargo): Action {
    match f
    case LoadFrame(n, plugin, available) => BeginLoad(c, Socket(n), plugin, available)
    case QueryFrame(asked, about) => BeginQuery(c, asked, about)
    case CancelFrame(id, reason) => BeginCancel(c, id, reason)
  }

  predicate Starts(j: Joint) {
    && j.h == Handover.EMPTY && Init(j.s) && j.cargo == [] && !j.reading && !j.replaying
    && READER in j.s.clients && INSTALLER in j.s.clients
  }

  predicate IsIdle(s: State, c: nat) {
    c in s.clients && s.clients[c].Idle?
  }

  /** The frame the reader, or the installing thread, is at. */
  function Current(j: Joint, c: nat): Option<nat> {
    if c == READER then j.h.direct
    else if c == INSTALLER && j.h.replay != [] then Some(j.h.replay[0])
    else None
  }

  predicate Busy(j: Joint, c: nat) {
    (c == READER && j.reading) || (c == INSTALLER && j.replaying)
  }

  predicate CanBegin(j: Joint, c: nat) {
    && Current(j, c).Some? && Current(j, c).value < |j.cargo|
    && Enabled(j.s, Call(c, j.cargo[Current(j, c).value]))
  }

  predicate Possible(j: Joint, t: Step) {
    match t
    case Arrive(_) => Handover.Enabled(j.h, Handover.Arrive)
    case Install => Handover.Enabled(j.h, Handover.Install)
    case ReadBegin => !j.reading && CanBegin(j, READER)
    case ReadEnd => j.reading && j.h.direct.Some? && IsIdle(j.s, READER)
    case ReplayBegin => !j.replaying && CanBegin(j, INSTALLER)
    case ReplayEnd => j.replaying && j.h.replay != [] && IsIdle(j.s, INSTALLER)
    case Manager(a) => Enabled(j.s, a) && !Begins(a, READER) && !Begins(a, INSTALLER)
  }

  function Next(j: Joint, t: Step): Joint
    requires Possible(j, t)
  {
    match t
    case Arrive(f) => j.(h := Handover.Apply(j.h, Handover.Arrive), cargo := j.cargo + [f])
    case Install => j.(h := Handover.Apply(j.h, Handover.Install))
    case ReadBegin => j.(s := Apply(j.s, Call(READER, j.cargo[j.h.direct.value])), reading := true)
    case ReadEnd => j.(h := Handover.Apply(j.h, Handover.Hand), reading := false)
    case ReplayBegin => j.(s := Apply(j.s, Call(INSTALLER, j.cargo[j.h.replay[0]])), replaying := true)
    case ReplayEnd => j.(h := Handover.Apply(j.h, Handover.Replay), replaying := false)
    case Manager(a) => j.(s := Apply(j.s, a))
  }

  ghost predicate JointRun(js: seq<Joint>, ts: seq<Step>) {
    && |js| == |ts| + 1 && Starts(js[0])
    && forall k | 0 <= k < |ts| :: Possible(js[k], ts[k]) && js[k + 1] == Next(js[k], ts[k])
  }

  /** Nothing arrives while held frames are being replayed. */
  predicate Quietly(js: seq<Joint>, ts: seq<Step>, k: nat)
    requires k <= |ts| && |js| == |ts| + 1
  {
    forall i | 0 <= i < k :: ts[i].Arrive? ==> js[i].h.replay == []
  }

  // ---------- the manager in a joint run ----------

  /** The numbers of accepted loads name loads asked for with them. */
  ghost predicate Named(s: State) {
    forall n | n in s.tables.seqToId ::
      s.tables.seqToId[n] in s.loads && s.loads[s.tables.seqToId[n]].origin == Socket(n)
  }

  /** What every step of the manager keeps. */
  ghost predicate Keeps(s: State, s': State) {
    && s.tables.seqToId.Keys <= s'.tables.seqToId.Keys
    && (forall id | id in s.loads :: id in s'.loads && s'.loads[id].origin == s.loads[id].origin)
  }

  lemma ManagerKeeps(s: State, a: Action)
    requires Inv(s) && Enabled(s, a) && !Apply(s, a).exhausted
    ensures Inv(Apply(s, a)) && Keeps(s, Apply(s, a)) && (Named(s) ==> Named(Apply(s, a)))
  {
    hide Inv, Apply, Enabled, Named;
    StepSplits(s, a);
    StepEvolves(s, a);
    if a.ClientStep? {
      OwnStep(s, a, a.c);
      if s.clients[a.c].Reserved? {
        InsertNames(s, a.c);
      } else {
        SameNames(s, Apply(s, a));
      }
    } else {
      OthersKeepNames(s, a);
      SameNames(s, Apply(s, a));
    }
  }

  lemma OthersKeepNames(s: State, a: Action)
    requires Enabled(s, a) && !a.ClientStep?
    ensures Apply(s, a).tables.seqToId == s.tables.seqToId
  {
    hide Apply, Enabled;
    if a.BeginLoad? || a.BeginQuery? || a.BeginCancel? || a.BeginUnload? {
      BeginKeepsNames(s, a);
    } else {
      RestLeaveClients(s, a);
    }
  }

  lemma BeginKeepsNames(s: State, a: Action)
    requires Enabled(s, a) && (a.BeginLoad? || a.BeginQuery? || a.BeginCancel? || a.BeginUnload?)
    ensures Apply(s, a).tables.seqToId == s.tables.seqToId
  {
    hide Onward, OwnClient;
  }

  lemma SameNames(s: State, s': State)
    requires LoadsEvolve(s, s') && s'.tables.seqToId == s.tables.seqToId
    ensures Keeps(s, s') && (Named(s) ==> Named(s'))
  {
    assert forall id | id in s.loads :: Evolves(s.loads[id], s'.loads[id], |s.wire|);
  }

  lemma InsertNames(s: State, c: nat)
    requires ClientEnabled(s, c) && s.clients[c].Reserved? && LoadsEvolve(s, ClientApply(s, c))
    ensures Keeps(s, ClientApply(s, c)) && (Named(s) ==> Named(ClientApply(s, c)))
  {
    hide Onward, OwnClient, Moves;
    var k, s' := s.clients[c], ClientApply(s, c);
    assert s' == InsertLoad(s, c, k.origin, k.plugin, k.id);
    assert forall id | id in s.loads :: Evolves(s.loads[id], s'.loads[id], |s.wire|);
    hide ClientApply, Evolves;
    assert s'.loads[k.id].origin == k.origin;
  }

  // ---------- one frame at a time ----------

  /** While nothing arrives during the replay there is one frame in hand, the next in order of arrival. */
  lemma OneInHand(h: Handover.State)
    requires Handover.Inv(h) && !h.overtook && (h.replay != [] ==> h.direct.None?)
    ensures h.replay != [] ==> h.replay[0] == |h.delivered|
    ensures h.direct.Some? ==> h.direct.value == |h.delivered|
    ensures |h.delivered| <= h.arrived && (h.direct.Some? || h.replay != [] ==> |h.delivered| < h.arrived)
  {
    if h.installed {
      Handover.Partition(h.delivered, h.cut);
      var early, late := Handover.Below(h.delivered, h.cut), Handover.From(h.delivered, h.cut);
      hide Handover.Below, Handover.From, Handover.InOrder;
      assert |early + h.replay| == h.cut && |late + Handover.InHand(h)| == h.arrived - h.cut;
      if h.replay != [] {
        assert (early + h.replay)[|early|] == h.replay[0];
      }
      if h.direct.Some? {
        assert (late + Handover.InHand(h))[|late|] == h.direct.value;
      }
    }
  }

  /** The frames whose handlers have run. */
  ghost predicate HandledInv(j: Joint) {
    forall d | 0 <= d < |j.h.delivered| && d < |j.cargo| ::
      Mapped(j.cargo[d], j.s)
  }

  /** A load frame with a plugin that exists and a number of its own leaves the number mapped. */
  predicate Mapped(f: Cargo, s: State) {
    f.LoadFrame? && f.available && f.seqNo != 0 ==> f.seqNo in s.tables.seqToId
  }

  /** Where the handler of `f` may be in client `k`. */
  ghost predicate Underway(f: Cargo, k: Client, s: State, cargo: seq<Cargo>, d: nat) {
    match f
    case LoadFrame(n, plugin, available) =>
      available && n != 0 ==> (k.Reserved? && k.origin == Socket(n)) || n in s.tables.seqToId
    case QueryFrame(asked, about) =>
      asked.Some? && about.None? && LoadedBefore(cargo, d, asked.value) ==>
        || k.Idle? || k == QueryPending(asked, None)
        || (k.QueryChildren? && k.asked == asked && Informed(s, asked.value, k.id, k.known))
        || (k.QueryUnknown? && k.asked == asked && Informed(s, asked.value, k.id, k.known))
    case CancelFrame(_, _) => true
  }

  /** A load frame with number `n` stands before frame `d`. */
  predicate LoadedBefore(cargo: seq<Cargo>, d: nat, n: nat) {
    n != 0 && exists l :: 0 <= l < d && l < |cargo| && cargo[l].LoadFrame? && cargo[l].available && cargo[l].seqNo == n
  }

  predicate Informed(s: State, n: nat, id: nat, known: bool) {
    known && id in s.loads && s.loads[id].origin == Socket(n)
  }

  ghost predicate HandInv(j: Joint, c: nat)
    requires c == READER || c == INSTALLER
  {
    && c in j.s.clients
    && (Busy(j, c) ==> Current(j, c).Some?)
    && (!Busy(j, c) ==> j.s.clients[c].Idle?)
    && (Busy(j, c) ==>
          && Current(j, c).value == |j.h.delivered| < |j.cargo|
          && Underway(j.cargo[|j.h.delivered|], j.s.clients[c], j.s, j.cargo, |j.h.delivered|))
  }

  ghost predicate JointInv(j: Joint) {
    && Handover.Inv(j.h) && !j.h.overtook && (j.h.replay != [] ==> j.h.direct.None?)
    && |j.cargo| == j.h.arrived
    && Inv(j.s) && Named(j.s)
    && HandledInv(j) && HandInv(j, READER) && HandInv(j, INSTALLER)
  }

  lemma HandledStays(j: Joint, j': Joint)
    requires HandledInv(j) && |j.h.delivered| <= |j.cargo|
    requires j'.h.delivered == j.h.delivered && j.cargo <= j'.cargo
    requires j.s.tables.seqToId.Keys <= j'.s.tables.seqToId.Keys
    ensures HandledInv(j')
  {
    forall d | 0 <= d < |j'.h.delivered| && d < |j'.cargo|
      ensures Mapped(j'.cargo[d], j'.s)
    {
      assert Mapped(j.cargo[d], j.s);
    }
  }

  lemma ArriveKeeps(j: Joint, f: Cargo)
    requires JointInv(j) && Possible(j, Arrive(f)) && j.h.replay == []
    ensures JointInv(Next(j, Arrive(f)))
  {
    hide Inv, Named, Handover.Inv, Underway, HandledInv;
    var j' := Next(j, Arrive(f));
    Handover.StepKeepsInv(j.h, Handover.Arrive);
    OneInHand(j.h);
    HandledStays(j, j');
  }

  lemma InstallKeeps(j: Joint)
    requires JointInv(j) && Possible(j, Install)
    ensures JointInv(Next(j, Install))
  {
    Handover.StepKeepsInv(j.h, Handover.Install);
    InstallShape(j.h);
    hide Inv, Named, Handover.Inv, Underway;
  }

  lemma InstallShape(h: Handover.State)
    requires Handover.Inv(h) && !h.installed
    ensures h.replay == [] && h.direct.None? && h.delivered == [] && !h.overtook
  {
  }

  /** The end of a handler: the frame is handled. */
  lemma EndKeeps(j: Joint, t: Step, c: nat)
    requires JointInv(j) && Possible(j, t) && ((t.ReadEnd? && c == READER) || (t.ReplayEnd? && c == INSTALLER))
    ensures JointInv(Next(j, t))
  {
    hide Inv, Named, Handover.Inv;
    var j', d := Next(j, t), |j.h.delivered|;
    Handover.StepKeepsInv(j.h, if t.ReadEnd? then Handover.Hand else Handover.Replay);
    OneInHand(j.h);
    assert Mapped(j.cargo[d], j.s);
    forall e | 0 <= e < |j'.h.delivered| && e < |j'.cargo|
      ensures Mapped(j'.cargo[e], j'.s)
    {
      if e < d {
        assert Mapped(j.cargo[e], j.s);
      }
    }
  }

  /** The start of one. */
  lemma BeginKeeps(j: Joint, t: Step, c: nat)
    requires JointInv(j) && Possible(j, t) && !Next(j, t).s.exhausted
    requires (t.ReadBegin? && c == READER) || (t.ReplayBegin? && c == INSTALLER)
    ensures JointInv(Next(j, t))
  {
    hide Inv, Named, Handover.Inv, HandledInv, Underway;
    var j', d := Next(j, t), |j.h.delivered|;
    var a := Call(c, j.cargo[Current(j, c).value]);
    OneInHand(j.h);
    ManagerKeeps(j.s, a);
    HandledStays(j, j');
    CallStarts(j.s, c, j.cargo[d], j.cargo, d);
    var other := if c == READER then INSTALLER else READER;
    hide Apply, Enabled;
    OthersLeaveClients(j.s, a, other);
  }

  lemma CallStarts(s: State, c: nat, f: Cargo, cargo: seq<Cargo>, d: nat)
    requires Enabled(s, Call(c, f)) && !Apply(s, Call(c, f)).exhausted
    ensures var s' := Apply(s, Call(c, f));
            c in s'.clients && Underway(f, s'.clients[c], s', cargo, d)
  {
    hide Onward, OwnClient, LoadedBefore;
    if f.LoadFrame? {
      hide Underway;
      LoadStarts(s, c, f.seqNo, f.plugin, f.available);
      assert Apply(s, Call(c, f)) == BeginLoadApply(s, c, Socket(f.seqNo), f.plugin, f.available);
      hide Apply, BeginLoadApply, Enabled;
      LoadUnderway(f, BeginLoadApply(s, c, Socket(f.seqNo), f.plugin, f.available), c, cargo, d);
    } else {
      hide BeginLoadApply;
    }
  }

  lemma LoadStarts(s: State, c: nat, n: nat, plugin: string, available: bool)
    ensures var s' := BeginLoadApply(s, c, Socket(n), plugin, available);
            c in s'.clients
            && (available && !s'.exhausted ==> s'.clients[c].Reserved? && s'.clients[c].origin == Socket(n))
  {
    hide Onward, OwnClient;
  }

  lemma LoadUnderway(f: Cargo, s: State, c: nat, cargo: seq<Cargo>, d: nat)
    requires f.LoadFrame? && c in s.clients
    requires f.available ==> s.clients[c].Reserved? && s.clients[c].origin == Socket(f.seqNo)
    ensures Underway(f, s.clients[c], s, cargo, d)
  {
  }

  lemma ManagerStepKeeps(j: Joint, a: Action)
    requires JointInv(j) && Possible(j, Manager(a)) && !Next(j, Manager(a)).s.exhausted
    ensures JointInv(Next(j, Manager(a)))
  {
    hide Inv, Named, Handover.Inv, HandledInv;
    var j' := Next(j, Manager(a));
    OneInHand(j.h);
    ManagerKeeps(j.s, a);
    HandledStays(j, j');
    HandMoves(j, a, READER);
    HandMoves(j, a, INSTALLER);
  }

  lemma HandMoves(j: Joint, a: Action, c: nat)
    requires JointInv(j) && Possible(j, Manager(a)) && (c == READER || c == INSTALLER)
    requires Keeps(j.s, Apply(j.s, a))
    ensures HandInv(Next(j, Manager(a)), c)
  {
    hide Inv, Named, Handover.Inv;
    var s, s' := j.s, Apply(j.s, a);
    var d := |j.h.delivered|;
    if a == ClientStep(c) {
      OwnStep(s, a, c);
      hide Apply, Enabled, HandledInv;
      if Busy(j, c) {
        MappedBefore(j, d);
        HandlerStep(s, c, j.cargo[d], j.cargo, d);
      }
    } else {
      hide Enabled, HandledInv;
      OthersLeaveClients(s, a, c);
      hide Apply;
      if Busy(j, c) {
        StillUnderway(j.cargo[d], s.clients[c], s, s', j.cargo, d);
      }
    }
  }

  lemma StillUnderway(f: Cargo, k: Client, s: State, s': State, cargo: seq<Cargo>, d: nat)
    requires Underway(f, k, s, cargo, d) && Keeps(s, s')
    ensures Underway(f, k, s', cargo, d)
  {
    hide LoadedBefore;
  }

  /** The numbers of the load frames before `d` are mapped. */
  lemma MappedBefore(j: Joint, d: nat)
    requires HandledInv(j) && d == |j.h.delivered| <= |j.cargo|
    ensures forall n | LoadedBefore(j.cargo, d, n) :: n in j.s.tables.seqToId
  {
    forall n | LoadedBefore(j.cargo, d, n)
      ensures n in j.s.tables.seqToId
    {
      var l :| 0 <= l < d && l < |j.cargo| && j.cargo[l].LoadFrame? && j.cargo[l].available && j.cargo[l].seqNo == n;
      assert Mapped(j.cargo[l], j.s);
    }
  }

  lemma HandlerStep(s: State, c: nat, f: Cargo, cargo: seq<Cargo>, d: nat)
    requires ClientEnabled(s, c) && Named(s) && Keeps(s, ClientApply(s, c))
    requires Underway(f, s.clients[c], s, cargo, d)
    requires forall n | LoadedBefore(cargo, d, n) :: n in s.tables.seqToId
    ensures var s' := ClientApply(s, c);
            c in s'.clients && Underway(f, s'.clients[c], s', cargo, d)
  {
    hide LoadedBefore;
    match f
    case LoadFrame(n, _, available) =>
      if available && n != 0 && s.clients[c].Reserved? && n !in s.tables.seqToId {
        InsertMaps(s, c, n);
      }
    case QueryFrame(asked, about) =>
      if asked.Some? && about.None? && LoadedBefore(cargo, d, asked.value) {
        QueryStaysInformed(s, c, asked.value);
      }
    case CancelFrame(_, _) =>
  }

  lemma InsertMaps(s: State, c: nat, n: nat)
    requires ClientEnabled(s, c) && s.clients[c].Reserved? && s.clients[c].origin == Socket(n) && n != 0
    ensures n in ClientApply(s, c).tables.seqToId
  {
    hide Onward, OwnClient;
  }

  lemma QueryStaysInformed(s: State, c: nat, n: nat)
    requires ClientEnabled(s, c) && Named(s) && n in s.tables.seqToId && Keeps(s, ClientApply(s, c))
    requires var k := s.clients[c];
             || k == QueryPending(Some(n), None)
             || (k.QueryChildren? && k.asked == Some(n) && Informed(s, n, k.id, k.known))
             || (k.QueryUnknown? && k.asked == Some(n) && Informed(s, n, k.id, k.known))
    ensures var s' := ClientApply(s, c);
            && c in s'.clients
            && var k := s'.clients[c];
               || k.Idle?
               || (k.QueryChildren? && k.asked == Some(n) && Informed(s', n, k.id, k.known))
               || (k.QueryUnknown? && k.asked == Some(n) && Informed(s', n, k.id, k.known))
  {
    hide Onward, OwnClient, Moves, TurnAway, InsertLoad, AnnounceLoad, SubmitLoad, AskPending, AskChildren,
         AnswerUnknown, FlagLoad, KillVictim, LookAgain, CheckUnload, UnloadLoad, ReportUnload;
    var k := s.clients[c];
    assert k.QueryPending? ==> ClientApply(s, c) == AskPending(s, c, Some(n), None);
    assert k.QueryChildren? ==> ClientApply(s, c) == AskChildren(s, c, Some(n), k.id, k.known);
    assert k.QueryUnknown? ==> ClientApply(s, c) == AnswerUnknown(s, c, Some(n), k.id);
    NamedOne(s, n);
    hide ClientApply, ClientEnabled, Named;
    if k.QueryPending? {
      AskPendingKnows(s, c, n);
    } else if k.QueryChildren? {
      AskChildrenKnows(s, c, n, k.id, k.known);
    } else {
      AnswerEnds(s, c, n, k.id);
    }
  }

  lemma NamedOne(s: State, n: nat)
    requires Named(s) && n in s.tables.seqToId
    ensures s.tables.seqToId[n] in s.loads && s.loads[s.tables.seqToId[n]].origin == Socket(n)
  {
  }

  lemma AskPendingKnows(s: State, c: nat, n: nat)
    ensures var s', id := AskPending(s, c, Some(n), None), Resolve(s.tables, Some(n), None);
            c in s'.clients && (s'.clients[c].Idle? || s'.clients[c] == QueryChildren(Some(n), id, id in s.loads))
  {
    hide Onward, Moves, OwnClient, PendingReport, Send, Resolve;
    var hit := PendingReport(s.tables, Resolve(s.tables, Some(n), None));
    if hit.Some? {
      assert AskPending(s, c, Some(n), None) == SetClient(Send(s, Status(Some(n), hit.value)), c, Idle);
    }
  }

  lemma AskChildrenKnows(s: State, c: nat, n: nat, id: nat, known: bool)
    ensures var s' := AskChildren(s, c, Some(n), id, known);
            c in s'.clients && (s'.clients[c].Idle? || s'.clients[c] == QueryUnknown(Some(n), id, known))
  {
    hide Onward, Moves, OwnClient, ChildReport, Send;
    var hit := ChildReport(s.tables, id);
    if hit.Some? {
      assert AskChildren(s, c, Some(n), id, known) == SetClient(Send(s, Status(Some(n), hit.value)), c, Idle);
    }
  }

  lemma AnswerEnds(s: State, c: nat, n: nat, id: nat)
    ensures var s' := AnswerUnknown(s, c, Some(n), id); c in s'.clients && s'.clients[c].Idle?
  {
    hide Onward, Moves;
  }

  lemma {:induction false} JointRunKeepsInv(js: seq<Joint>, ts: seq<Step>, k: nat)
    requires JointRun(js, ts) && k <= |ts| && Quietly(js, ts, k) && !js[k].s.exhausted
    ensures JointInv(js[k])
  {
    hide JointInv, Possible, Next;
    if k == 0 {
      StartKeeps(js[0]);
    } else {
      assert !js[k - 1].s.exhausted by {
        NotYet(js[k - 1], ts[k - 1]);
      }
      JointRunKeepsInv(js, ts, k - 1);
      JointStepKeeps(js[k - 1], ts[k - 1]);
    }
  }

  lemma StartKeeps(j: Joint)
    requires Starts(j)
    ensures JointInv(j)
  {
    InitInv(j.s);
    hide Inv;
  }

  lemma NotYet(j: Joint, t: Step)
    requires Possible(j, t) && !Next(j, t).s.exhausted
    ensures !j.s.exhausted
  {
    hide Enabled, Apply;
  }

  lemma JointStepKeeps(j: Joint, t: Step)
    requires JointInv(j) && Possible(j, t) && !Next(j, t).s.exhausted && (t.Arrive? ==> j.h.replay == [])
    ensures JointInv(Next(j, t))
  {
    hide JointInv, Possible, Next;
    match t
    case Arrive(f) => ArriveKeeps(j, f);
    case Install => InstallKeeps(j);
    case ReadBegin => BeginKeeps(j, t, READER);
    case ReadEnd => EndKeeps(j, t, READER);
    case ReplayBegin => BeginKeeps(j, t, INSTALLER);
    case ReplayEnd => EndKeeps(j, t, INSTALLER);
    case Manager(a) => ManagerStepKeeps(j, a);
  }

  /**
   * As long as nothing arrives during the replay, a query by sequence number never misses a load whose frame arrived
   * before its own, held or not: if it comes to answer `unknown`, the load its number names was asked for with that
   * number, no process runs for it, and none will be forked.
   */
  lemma QueryBehindLoadIsInformed(js: seq<Joint>, ts: seq<Step>, k: nat, c: nat, n: nat)
    requires JointRun(js, ts) && k <= |ts| && Quietly(js, ts, k) && !js[k].s.exhausted
    requires (c == READER || c == INSTALLER) && Busy(js[k], c)
    requires var j := js[k];
             && Current(j, c).Some? && Current(j, c).value < |j.cargo|
             && j.cargo[Current(j, c).value] == QueryFrame(Some(n), None)
             && LoadedBefore(j.cargo, Current(j, c).value, n)
             && c in j.s.clients && j.s.clients[c].QueryUnknown?
    ensures var s := js[k].s;
            var id := s.clients[c].id;
            id in s.loads && s.loads[id].origin == Socket(n) && Quiet(s.loads[id])
  {
    hide Possible, Next, Starts;
    JointRunKeepsInv(js, ts, k);
    var s := js[k].s;
    assert Informed(s, n, s.clients[c].id, s.clients[c].known);
    KnownIsQuiet(s, c);
  }

  lemma KnownIsQuiet(s: State, c: nat)
    requires Inv(s) && c in s.clients && s.clients[c].QueryUnknown? && s.clients[c].known
    ensures s.clients[c].id in s.loads && Quiet(s.loads[s.clients[c].id])
  {
    assert ClientSound(s, c, s.clients[c]);
  }

  // ---------- exactly when a query is informed ----------

  /** The manager's part of a step. */
  function ActionOf(j: Joint, t: Step): Option<Action>
    requires Possible(j, t)
  {
    match t
    case ReadBegin => Some(Call(READER, j.cargo[j.h.direct.value]))
    case ReplayBegin => Some(Call(INSTALLER, j.cargo[j.h.replay[0]]))
    case Manager(a) => Some(a)
    case _ => None
  }

  lemma ManagerPart(j: Joint, t: Step)
    requires Possible(j, t)
    ensures match ActionOf(j, t)
            case Some(a) => Enabled(j.s, a) && Next(j, t).s == Apply(j.s, a) && (!t.Manager? ==> !a.ClientStep?)
            case None => Next(j, t).s == j.s
  {
    hide Enabled, Apply;
  }

  lemma AnyStepKeeps(j: Joint, t: Step)
    requires Possible(j, t) && Inv(j.s) && Named(j.s) && !Next(j, t).s.exhausted
    ensures Inv(Next(j, t).s) && Named(Next(j, t).s) && Keeps(j.s, Next(j, t).s)
  {
    hide Inv, Named, Possible, Next, Enabled, Apply;
    ManagerPart(j, t);
    if ActionOf(j, t).Some? {
      ManagerKeeps(j.s, ActionOf(j, t).value);
    }
  }

  /** Whatever arrives when. */
  lemma {:induction false} AnyRunKeepsInv(js: seq<Joint>, ts: seq<Step>, k: nat)
    requires JointRun(js, ts) && k <= |ts| && !js[k].s.exhausted
    ensures Inv(js[k].s) && Named(js[k].s)
  {
    hide Inv, Possible, Next;
    if k == 0 {
      InitInv(js[0].s);
    } else {
      NotYet(js[k - 1], ts[k - 1]);
      AnyRunKeepsInv(js, ts, k - 1);
      AnyStepKeeps(js[k - 1], ts[k - 1]);
    }
  }

  /** Step `t` puts the load asked for with number `n` on record. */
  predicate Inserts(j: Joint, t: Step, n: nat) {
    && t.Manager? && t.a.ClientStep? && ClientEnabled(j.s, t.a.c)
    && j.s.clients[t.a.c].Reserved? && j.s.clients[t.a.c].origin == Socket(n)
  }

  lemma InsertNumbers(s: State, c: nat)
    requires ClientEnabled(s, c) && s.clients[c].Reserved?
    ensures forall n :: n in ClientApply(s, c).tables.seqToId
                        <==> n in s.tables.seqToId || (n != 0 && s.clients[c].origin == Socket(n))
  {
    hide Onward, OwnClient;
  }

  lemma StepNumbers(j: Joint, t: Step, n: nat)
    requires Possible(j, t)
    ensures n in Next(j, t).s.tables.seqToId <==> n in j.s.tables.seqToId || (n != 0 && Inserts(j, t, n))
  {
    hide Possible, Next, Enabled, Apply, ClientApply, ClientEnabled;
    ManagerPart(j, t);
    if ActionOf(j, t).Some? {
      var a := ActionOf(j, t).value;
      if a.ClientStep? {
        OwnStep(j.s, a, a.c);
        if j.s.clients[a.c].Reserved? {
          InsertNumbers(j.s, a.c);
        }
      } else {
        OthersKeepNames(j.s, a);
      }
    }
  }

  /** A number is mapped exactly once the load asked for with it has been put on record. */
  lemma {:induction false} MappedIffInserted(js: seq<Joint>, ts: seq<Step>, m: nat, n: nat)
    requires JointRun(js, ts) && m <= |ts|
    ensures n in js[m].s.tables.seqToId <==> n != 0 && exists k :: 0 <= k < m && Inserts(js[k], ts[k], n)
  {
    hide Possible, Next, Inserts;
    if m > 0 {
      MappedIffInserted(js, ts, m - 1, n);
      StepNumbers(js[m - 1], ts[m - 1], n);
      if k :| 0 <= k < m - 1 && Inserts(js[k], ts[k], n) {
      }
    }
  }

  /** A query by number `n` that looked when its number was `mapped`, and has not been answered yet. */
  ghost predicate Looked(s: State, c: nat, n: nat, mapped: bool) {
    && c in s.clients
    && var k := s.clients[c];
    && (k.QueryChildren? || k.QueryUnknown?)
    && k.known == mapped && k.asked == Some(n)
    && (if mapped then k.id in s.loads && s.loads[k.id].origin == Socket(n) else k.id == 0)
  }

  /** The state of a query between its look at the pending loads and its last answer. */
  predicate Between(s: State, c: nat) {
    c in s.clients && (s.clients[c].QueryChildren? || s.clients[c].QueryUnknown?)
  }

  lemma LookTakes(s: State, c: nat, n: nat)
    requires Inv(s) && Named(s) && ClientEnabled(s, c) && s.clients[c] == QueryPending(Some(n), None)
    requires Between(ClientApply(s, c), c) && Keeps(s, ClientApply(s, c))
    ensures Looked(ClientApply(s, c), c, n, n in s.tables.seqToId)
  {
    NobodyIsZero(s);
    hide Inv, AskPending, Onward, Moves, OwnClient;
    assert ClientApply(s, c) == AskPending(s, c, Some(n), None);
    AskPendingKnows(s, c, n);
    hide ClientApply, ClientEnabled;
    if n in s.tables.seqToId {
      NamedOne(s, n);
    }
  }

  lemma NobodyIsZero(s: State)
    requires Inv(s)
    ensures 0 !in s.loads
  {
  }

  lemma LookedStays(j: Joint, t: Step, c: nat, n: nat, mapped: bool)
    requires Possible(j, t) && Looked(j.s, c, n, mapped) && Between(Next(j, t).s, c) && Keeps(j.s, Next(j, t).s)
    ensures Looked(Next(j, t).s, c, n, mapped)
  {
    hide Possible, Next, Enabled, Apply, ClientApply, ClientEnabled;
    ManagerPart(j, t);
    if ActionOf(j, t).Some? {
      var a := ActionOf(j, t).value;
      if a == ClientStep(c) {
        OwnStep(j.s, a, c);
        NextSection(j.s, c, n);
      } else {
        OthersLeaveClients(j.s, a, c);
      }
    }
  }

  lemma NextSection(s: State, c: nat, n: nat)
    requires ClientEnabled(s, c) && Between(s, c) && s.clients[c].asked == Some(n)
    ensures var k, s' := s.clients[c], ClientApply(s, c);
            c in s'.clients && (s'.clients[c].Idle? || s'.clients[c] == QueryUnknown(Some(n), k.id, k.known))
  {
    hide Onward, Moves, OwnClient, AskChildren, AnswerUnknown;
    var k := s.clients[c];
    if k.QueryChildren? {
      assert ClientApply(s, c) == AskChildren(s, c, Some(n), k.id, k.known);
      AskChildrenKnows(s, c, n, k.id, k.known);
    } else {
      assert ClientApply(s, c) == AnswerUnknown(s, c, Some(n), k.id);
      AnswerEnds(s, c, n, k.id);
    }
  }

  lemma {:induction false} LookedSince(js: seq<Joint>, ts: seq<Step>, m: nat, i: nat, c: nat, n: nat)
    requires JointRun(js, ts) && m < i <= |ts| && !js[i].s.exhausted
    requires ts[m] == Manager(ClientStep(c))
    requires c in js[m].s.clients && js[m].s.clients[c] == QueryPending(Some(n), None)
    requires forall k | m < k <= i :: Between(js[k].s, c)
    ensures Looked(js[i].s, c, n, n in js[m].s.tables.seqToId)
  {
    hide Inv, Possible, Next, Looked, Starts, Between;
    NotYet(js[i - 1], ts[i - 1]);
    AnyRunKeepsInv(js, ts, i - 1);
    AnyStepKeeps(js[i - 1], ts[i - 1]);
    if i == m + 1 {
      ManagerPart(js[m], ts[m]);
      OwnStep(js[m].s, ClientStep(c), c);
      LookTakes(js[m].s, c, n);
    } else {
      LookedSince(js, ts, m, i - 1, c, n);
      LookedStays(js[i - 1], ts[i - 1], c, n, n in js[m].s.tables.seqToId);
    }
  }

  /**
   * Whatever arrives when: a query by number `n` that comes to answer `unknown` does so of a load asked for with that
   * number, with no process running or to be forked, exactly if the number was mapped when the query looked at the
   * pending loads; if it was not, the answer names no load.
   */
  lemma InformedIffMapped(js: seq<Joint>, ts: seq<Step>, m: nat, i: nat, c: nat, n: nat)
    requires JointRun(js, ts) && m < i <= |ts| && !js[i].s.exhausted
    requires ts[m] == Manager(ClientStep(c))
    requires c in js[m].s.clients && js[m].s.clients[c] == QueryPending(Some(n), None)
    requires forall k | m < k <= i :: Between(js[k].s, c)
    requires c in js[i].s.clients && js[i].s.clients[c].QueryUnknown?
    ensures var s := js[i].s;
            var id := s.clients[c].id;
            && (n in js[m].s.tables.seqToId
                <==> id in s.loads && s.loads[id].origin == Socket(n) && Quiet(s.loads[id]))
            && (n !in js[m].s.tables.seqToId <==> id == 0)
  {
    hide Possible, Next, Starts, Quiet;
    LookedSince(js, ts, m, i, c, n);
    AnyRunKeepsInv(js, ts, i);
    NobodyIsZero(js[i].s);
    hide Inv;
    if js[i].s.clients[c].known {
      KnownIsQuiet(js[i].s, c);
    }
  }

  // ---------- and when something does arrive ----------

  lemma Onto(js: seq<Joint>, ts: seq<Step>, j: Joint, t: Step)
      returns (longer: seq<Joint>, more: seq<Step>, next: Joint)
    requires JointRun(js, ts) && js[|ts|] == j && Possible(j, t)
    ensures JointRun(longer, more) && longer[|more|] == next == Next(j, t)
  {
    hide Possible, Next, Starts;
    next := Next(j, t);
    longer, more := js + [next], ts + [t];
  }

  const THE_LOAD := LoadFrame(7, "p", true)
  const THE_QUERY := QueryFrame(Some(7), None)

  function Scene(t: Tables, reader: Client, installer: Client, drawn: map<nat, nat>, loads: map<nat, Load>,
                 wire: seq<Msg>): State {
    State(t, false, true, true, false, drawn, loads, [], map[READER := reader, INSTALLER := installer], map[], true,
          Joined, NotStarted, map[], wire)
  }

  const ONE := Tables(1, map[], map[], map[])
  const TWO := Tables(2, map[], map[], map[])
  const LOADING := Reserved(Socket(7), "p", 1)
  const HELD := Handover.EMPTY.(arrived := 1, installed := true, replay := [0], cut := 1)

  /** A load frame is held until the handlers are installed. */
  lemma LoadIsHeld() returns (js: seq<Joint>, ts: seq<Step>, j: Joint)
    ensures JointRun(js, ts) && js[|ts|] == j
    ensures j == Joint(HELD, Scene(ONE, Idle, Idle, map[], map[], []), [THE_LOAD], false, false)
  {
    hide Apply, Enabled;
    j := Joint(Handover.EMPTY, Scene(ONE, Idle, Idle, map[], map[], []), [], false, false);
    js, ts := [j], [];
    assert JointRun(js, ts);
    hide JointRun;
    js, ts, j := Onto(js, ts, j, Arrive(THE_LOAD));
    assert j.cargo == [THE_LOAD] && j.h.held == [0];
    js, ts, j := Onto(js, ts, j, Install);
    assert j.h == HELD;
  }

  /** Its replay begins: an id is drawn, the load not yet on record. */
  lemma ReplayBegins() returns (js: seq<Joint>, ts: seq<Step>, j: Joint)
    ensures JointRun(js, ts) && js[|ts|] == j
    ensures j == Joint(HELD, Scene(TWO, Idle, LOADING, map[1 := 1], map[], []), [THE_LOAD], false, true)
  {
    hide JointRun, Onward, OwnClient;
    js, ts, j := LoadIsHeld();
    js, ts, j := Onto(js, ts, j, ReplayBegin);
    assert j.s.clients == map[READER := Idle, INSTALLER := LOADING] && j.s.drawn == map[1 := 1];
  }

  /** A query for it arrives, and its handler begins. */
  lemma QueryArrives() returns (js: seq<Joint>, ts: seq<Step>, j: Joint)
    ensures JointRun(js, ts) && js[|ts|] == j
    ensures j == Joint(HELD.(arrived := 2, direct := Some(1)),
                       Scene(TWO, QueryPending(Some(7), None), LOADING, map[1 := 1], map[], []),
                       [THE_LOAD, THE_QUERY], true, true)
  {
    hide JointRun, Onward, OwnClient;
    js, ts, j := ReplayBegins();
    js, ts, j := Onto(js, ts, j, Arrive(THE_QUERY));
    assert j.cargo == [THE_LOAD, THE_QUERY];
    js, ts, j := Onto(js, ts, j, ReadBegin);
    assert j.s.clients == map[READER := QueryPending(Some(7), None), INSTALLER := LOADING];
  }

  /** It misses the load in both maps. */
  lemma QueryMisses() returns (js: seq<Joint>, ts: seq<Step>, j: Joint)
    ensures JointRun(js, ts) && js[|ts|] == j
    ensures j == Joint(HELD.(arrived := 2, direct := Some(1)),
                       Scene(TWO, QueryUnknown(Some(7), 0, false), LOADING, map[1 := 1], map[], []),
                       [THE_LOAD, THE_QUERY], true, true)
  {
    hide JointRun, Onward, Moves, OwnClient;
    js, ts, j := QueryArrives();
    js, ts, j := Onto(js, ts, j, Manager(ClientStep(READER)));
    assert j.s.clients == map[READER := QueryChildren(Some(7), 0, false), INSTALLER := LOADING];
    js, ts, j := Onto(js, ts, j, Manager(ClientStep(READER)));
    assert j.s.clients == map[READER := QueryUnknown(Some(7), 0, false), INSTALLER := LOADING];
  }

  /** And is answered. */
  lemma QueryEnds() returns (js: seq<Joint>, ts: seq<Step>, j: Joint)
    ensures JointRun(js, ts) && js[|ts|] == j
    ensures j.s == Scene(TWO, Idle, LOADING, map[1 := 1], map[], [Status(Some(7), NothingReport(0))])
    ensures j.cargo == [THE_LOAD, THE_QUERY] && j.h.delivered == [1]
  {
    hide JointRun, Onward, Moves, OwnClient;
    js, ts, j := QueryMisses();
    js, ts, j := Onto(js, ts, j, Manager(ClientStep(READER)));
    assert j.s == Scene(TWO, Idle, LOADING, map[1 := 1], map[], [Status(Some(7), NothingReport(0))]);
    js, ts, j := Onto(js, ts, j, ReadEnd);
  }

  /**
   * The condition is needed. A query that arrives while the load in front of it is being replayed is answered
   * `unknown`, and the load is put on record, to be forked, afterwards.
   */
  lemma QueryCanOvertakeLoad() returns (js: seq<Joint>, ts: seq<Step>)
    ensures JointRun(js, ts)
    ensures var j := js[|ts|];
            && j.cargo == [THE_LOAD, THE_QUERY] && j.h.delivered == [1]
            && j.s.wire == [Status(Some(7), NothingReport(0))]
            && j.s.tables.seqToId == map[7 := 1] && 1 in j.s.loads && j.s.loads[1].task.Unqueued?
  {
    hide JointRun, Onward, Moves, OwnClient;
    var j: Joint;
    js, ts, j := QueryEnds();
    js, ts, j := Onto(js, ts, j, Manager(ClientStep(INSTALLER)));
    assert j.s.loads == map[1 := NewLoad(Socket(7), "p", 1)] && j.s.tables.seqToId == map[7 := 1];
  }
}

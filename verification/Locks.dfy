/** Which mutexes each routine takes and in which order, and that no set of threads can block itself on them. */
module Locks {
  import opened Common

  datatype Lock = LoadLock | AdmitLock | QueueLock | HandlerLock | ChildrenLock | PendingLock | WriteLock

  /** Locks are taken in rising order: children, then pending, then write; admit before write; the others alone. */
  function Rank(l: Lock): nat {
    match l
    case ChildrenLock => 1
    case PendingLock => 2
    case WriteLock => 3
    case _ => 0
  }

  /** A step of a routine. `Park` waits for a notification and `Join` for other threads to end. */
  datatype Op = Take(l: Lock) | Drop(l: Lock) | Work | Park | Join(threads: set<nat>)

  // ---- the routines of the source, one `Ops` for each path through them ----

  datatype Delivery =
    | Rejected(sends: bool)
    | Overflowed(sends: bool)
    | Accepted(sends: bool)
    | Asked(q: Question)
    | CancelKills
    | CancelFlags
    | CancelFindsNone(q: Question)

  datatype Question = FoundPending(sends: bool) | FoundChild(sends: bool) | FoundNothing(sends: bool)

  /** How the handler of a frame ends: it may throw anywhere, and is then answered with a rejection or a failure. */
  datatype Handling = Returns(d: Delivery) | Throws(d: Delivery, at: nat, sends: bool)

  datatype Item =
    | Skipped
    | CancelledEarly(gate: Gate, sends: bool)
    | Failed(gate: Gate, forked: bool, progress: seq<bool>, sends: bool)
    | ShutDown(gate: Gate, progress: seq<bool>)
    | Loaded(gate: Gate, progress: seq<bool>, sends: bool)

  /** The memory gate: not there, or passed with so many reports. */
  datatype Gate = NoGate | Passed(reports: seq<bool>)

  datatype Routine =
    | ReaderHolds
    | ReaderDelivers(h: Handling)
    | SetHandlers(replay: seq<Handling>)
    | WorkerWaits(wakes: nat)
    | WorkerRuns(item: Item)
    | LoadService
    | LoadServiceOverflows
    | UnloadPending
    | UnloadMissing
    | Unload(sends: bool)
    | ListNodes
    | DeathUnknown
    | Death(sends: bool)
    | Stop(reader: set<nat>)
    | Destroy(reader: set<nat>, monitor: set<nat>, workers: set<nat>)

  function Section(l: Lock): seq<Op> {
    [Take(l), Work, Drop(l)]
  }

  /** `send_raw`, on an active channel or not. */
  function Send(on: bool): seq<Op> {
    if on then Section(WriteLock) else []
  }

  function Sends(each: seq<bool>): seq<Op> {
    if each == [] then [] else Send(each[0]) + Sends(each[1..])
  }

  function Reserve(): seq<Op> {
    Section(LoadLock) + Section(PendingLock)
  }

  function Query(q: Question): seq<Op> {
    match q
    case FoundPending(sends) => [Take(PendingLock)] + Send(sends) + [Drop(PendingLock)]
    case FoundChild(sends) =>
      Section(PendingLock) + [Take(ChildrenLock)] + Send(sends) + [Drop(ChildrenLock)]
    case FoundNothing(sends) => Section(PendingLock) + Section(ChildrenLock) + Send(sends)
  }

  function Deliver(d: Delivery): seq<Op> {
    match d
    case Rejected(sends) => Send(sends)
    case Overflowed(sends) => Section(LoadLock) + Send(sends)
    case Accepted(sends) => Reserve() + Send(sends) + Section(QueueLock)
    case Asked(q) => Query(q)
    case CancelKills => Section(PendingLock) + [Work]
    case CancelFlags => Section(PendingLock) + Section(PendingLock)
    case CancelFindsNone(q) => Section(PendingLock) + Section(PendingLock) + Query(q)
  }

  const ALL := [LoadLock, AdmitLock, QueueLock, HandlerLock, ChildrenLock, PendingLock, WriteLock]

  /** The guards on the stack give their mutexes back. */
  function Unwind(held: set<Lock>, locks: seq<Lock>): seq<Op> {
    if locks == [] then []
    else (if locks[0] in held then [Drop(locks[0])] else []) + Unwind(held - {locks[0]}, locks[1..])
  }

  function Before(ops: seq<Op>, at: nat): seq<Op> {
    if at < |ops| then ops[..at] else ops
  }

  function Handle(h: Handling): seq<Op> {
    match h
    case Returns(d) => Deliver(d)
    case Throws(d, at, sends) =>
      var done := Before(Deliver(d), at);
      done + Unwind(After({}, done).GetOr({}), ALL) + Send(sends)
  }

  function HandleAll(hs: seq<Handling>): seq<Op> {
    if hs == [] then [] else Handle(hs[0]) + HandleAll(hs[1..])
  }

  function Admission(g: Gate): seq<Op> {
    match g
    case NoGate => []
    case Passed(reports) => [Take(AdmitLock)] + Sends(reports) + [Drop(AdmitLock)]
  }

  function RunItem(item: Item): seq<Op> {
    match item
    case Skipped => Section(PendingLock)
    case CancelledEarly(gate, sends) => Admission(gate) + Section(PendingLock) + Send(sends)
    case Failed(gate, forked, progress, sends) =>
      Admission(gate) + Section(PendingLock)
      + (if forked then Section(PendingLock) + Sends(progress) else [])
      + Section(PendingLock) + Send(sends)
    case ShutDown(gate, progress) =>
      Admission(gate) + Section(PendingLock) + Section(PendingLock) + Sends(progress) + [Work] + Section(PendingLock)
    case Loaded(gate, progress, sends) =>
      Admission(gate) + Section(PendingLock) + Section(PendingLock) + Sends(progress)
      + Section(ChildrenLock) + Section(PendingLock) + Send(sends)
  }

  /** A condition variable gives the mutex back while it waits. */
  function Wakes(n: nat): seq<Op> {
    if n == 0 then [] else [Drop(QueueLock), Park, Take(QueueLock)] + Wakes(n - 1)
  }

  function Ops(r: Routine): seq<Op> {
    match r
    case ReaderHolds => Section(HandlerLock)
    case ReaderDelivers(h) => Section(HandlerLock) + Handle(h)
    case SetHandlers(replay) => Section(HandlerLock) + HandleAll(replay)
    case WorkerWaits(wakes) => [Take(QueueLock)] + Wakes(wakes) + [Drop(QueueLock)]
    case WorkerRuns(item) => RunItem(item)
    case LoadService => Reserve() + Section(QueueLock)
    case LoadServiceOverflows => Section(LoadLock)
    case UnloadPending => Section(PendingLock)
    case UnloadMissing => Section(PendingLock) + Section(ChildrenLock)
    case Unload(sends) => Section(PendingLock) + Section(ChildrenLock) + Send(sends)
    case ListNodes => [Take(ChildrenLock), Take(PendingLock), Work, Drop(PendingLock), Drop(ChildrenLock)]
    case DeathUnknown => Section(ChildrenLock)
    case Death(sends) => [Take(ChildrenLock), Work] + Send(sends) + [Work, Drop(ChildrenLock)]
    case Stop(reader) => [Work, Join(reader)] + Section(WriteLock)
    case Destroy(reader, monitor, workers) =>
      [Work, Join(reader)] + Section(WriteLock) + [Work, Join(monitor)]
      + Section(ChildrenLock) + Section(PendingLock) + [Work]
      + Section(QueueLock) + [Join(workers)] + Section(ChildrenLock)
  }

  // ---- taking locks in order ----

  /** The locks held after `ops`, if they keep the order: nothing is waited for but a higher lock, or with none held. */
  function After(held: set<Lock>, ops: seq<Op>): Option<set<Lock>>
    decreases |ops|
  {
    if ops == [] then Some(held)
    else
      match ops[0]
      case Take(l) => if forall h | h in held :: Rank(h) < Rank(l) then After(held + {l}, ops[1..]) else None
      case Drop(l) => if l in held then After(held - {l}, ops[1..]) else None
      case Work => After(held, ops[1..])
      case Park => if held == {} then After(held, ops[1..]) else None
      case Join(_) => if held == {} then After(held, ops[1..]) else None
  }

  lemma {:induction false} AfterBoth(held: set<Lock>, a: seq<Op>, b: seq<Op>)
    requires After(held, a).Some?
    ensures After(held, a + b) == After(After(held, a).value, b)
    decreases |a|
  {
    if a == [] {
      assert a + b == b;
    } else {
      assert (a + b)[1..] == a[1..] + b;
      match a[0]
      case Take(l) => AfterBoth(held + {l}, a[1..], b);
      case Drop(l) => AfterBoth(held - {l}, a[1..], b);
      case _ => AfterBoth(held, a[1..], b);
    }
  }

  /** `ops` leaves the held locks as it found them. */
  ghost predicate Balanced(held: set<Lock>, ops: seq<Op>) {
    After(held, ops) == Some(held)
  }

  lemma BothBalanced(held: set<Lock>, a: seq<Op>, b: seq<Op>)
    requires Balanced(held, a) && Balanced(held, b)
    ensures Balanced(held, a + b)
  {
    AfterBoth(held, a, b);
  }

  lemma SectionBalanced(held: set<Lock>, l: Lock)
    requires forall h | h in held :: Rank(h) < Rank(l)
    ensures Balanced(held, Section(l))
  {
    var ops := Section(l);
    assert ops[1..] == [Work, Drop(l)] && ops[1..][1..] == [Drop(l)] && ops[1..][1..][1..] == [];
    assert l !in held && held + {l} - {l} == held;
  }

  lemma {:induction false} SendsBalanced(held: set<Lock>, each: seq<bool>)
    requires held !! {WriteLock}
    ensures Balanced(held, Sends(each))
  {
    if each != [] {
      SectionBalanced(held, WriteLock);
      SendsBalanced(held, each[1..]);
      BothBalanced(held, Send(each[0]), Sends(each[1..]));
    }
  }

  lemma SendBalanced(held: set<Lock>, on: bool)
    requires held !! {WriteLock}
    ensures Balanced(held, Send(on))
  {
    if on {
      SectionBalanced(held, WriteLock);
    }
  }

  /** A lock around a balanced part. */
  lemma Wrapped(l: Lock, ops: seq<Op>)
    requires Balanced({l}, ops)
    ensures Balanced({}, [Take(l)] + ops + [Drop(l)])
  {
    assert [Take(l)][1..] == [] && [Drop(l)][1..] == [];
    assert {} + {l} == {l} && {l} - {l} == {};
    assert After({}, [Take(l)]) == Some({l});
    AfterBoth({}, [Take(l)], ops);
    AfterBoth({}, [Take(l)] + ops, [Drop(l)]);
    assert After({l}, [Drop(l)]) == Some({});
  }

  lemma QueryBalanced(q: Question)
    ensures Balanced({}, Query(q))
  {
    hide After, Send, Section;
    SectionBalanced({}, PendingLock);
    SectionBalanced({}, ChildrenLock);
    match q
    case FoundPending(sends) =>
      SendBalanced({PendingLock}, sends);
      Wrapped(PendingLock, Send(sends));
    case FoundChild(sends) =>
      SendBalanced({ChildrenLock}, sends);
      Wrapped(ChildrenLock, Send(sends));
      BothBalanced({}, Section(PendingLock), [Take(ChildrenLock)] + Send(sends) + [Drop(ChildrenLock)]);
      assert Query(q) == Section(PendingLock) + ([Take(ChildrenLock)] + Send(sends) + [Drop(ChildrenLock)]);
    case FoundNothing(sends) =>
      SendBalanced({}, sends);
      BothBalanced({}, Section(PendingLock), Section(ChildrenLock));
      BothBalanced({}, Section(PendingLock) + Section(ChildrenLock), Send(sends));
  }

  lemma WorkBalanced(held: set<Lock>)
    ensures Balanced(held, [Work]) && Balanced(held, [])
  {
    assert [Work][1..] == [];
  }

  lemma DeliverBalanced(d: Delivery)
    ensures Balanced({}, Deliver(d))
  {
    hide After, Send, Section, Query;
    SectionBalanced({}, PendingLock);
    SectionBalanced({}, LoadLock);
    SectionBalanced({}, QueueLock);
    WorkBalanced({});
    BothBalanced({}, Section(PendingLock), Section(PendingLock));
    match d
    case Rejected(sends) => SendBalanced({}, sends);
    case Overflowed(sends) =>
      SendBalanced({}, sends);
      BothBalanced({}, Section(LoadLock), Send(sends));
    case Accepted(sends) =>
      SendBalanced({}, sends);
      BothBalanced({}, Section(LoadLock), Section(PendingLock));
      BothBalanced({}, Reserve(), Send(sends));
      BothBalanced({}, Reserve() + Send(sends), Section(QueueLock));
    case Asked(q) => QueryBalanced(q);
    case CancelKills => BothBalanced({}, Section(PendingLock), [Work]);
    case CancelFlags =>
    case CancelFindsNone(q) =>
      QueryBalanced(q);
      BothBalanced({}, Section(PendingLock) + Section(PendingLock), Query(q));
  }

  /** A first part of an ordered path is ordered. */
  lemma {:induction false} PartOrdered(held: set<Lock>, a: seq<Op>, b: seq<Op>)
    requires After(held, a + b).Some?
    ensures After(held, a).Some?
    decreases |a|
  {
    if a != [] {
      assert (a + b)[0] == a[0] && (a + b)[1..] == a[1..] + b;
      match a[0]
      case Take(l) => PartOrdered(held + {l}, a[1..], b);
      case Drop(l) => PartOrdered(held - {l}, a[1..], b);
      case _ => PartOrdered(held, a[1..], b);
    }
  }

  lemma {:induction false} UnwindDrops(held: set<Lock>, locks: seq<Lock>)
    ensures After(held, Unwind(held, locks)) == Some(set l | l in held && l !in locks)
  {
    if locks == [] {
      assert held == set l | l in held && l !in locks;
    } else {
      var l, rest := locks[0], Unwind(held - {locks[0]}, locks[1..]);
      UnwindDrops(held - {l}, locks[1..]);
      assert (set k | k in held - {l} && k !in locks[1..]) == set k | k in held && k !in locks;
      if l in held {
        assert ([Drop(l)] + rest)[1..] == rest;
      } else {
        assert held - {l} == held && [] + rest == rest;
      }
    }
  }

  lemma NothingLeft(held: set<Lock>)
    ensures After(held, Unwind(held, ALL)) == Some({})
  {
    UnwindDrops(held, ALL);
    hide After, Unwind;
    forall l: Lock
      ensures l in ALL
    {
      var i := match l case LoadLock => 0 case AdmitLock => 1 case QueueLock => 2 case HandlerLock => 3
                       case ChildrenLock => 4 case PendingLock => 5 case WriteLock => 6;
      assert ALL[i] == l;
    }
    assert (set l | l in held && l !in ALL) == {};
  }

  /** Wherever a handler throws, what it held is given back before the answer is sent. */
  lemma HandleBalanced(h: Handling)
    ensures Balanced({}, Handle(h))
  {
    hide Deliver, Unwind, Send;
    DeliverBalanced(h.d);
    if h.Throws? {
      var ops, done := Deliver(h.d), Before(Deliver(h.d), h.at);
      assert done + ops[|done|..] == ops;
      PartOrdered({}, done, ops[|done|..]);
      var held := After({}, done).value;
      NothingLeft(held);
      AfterBoth({}, done, Unwind(held, ALL));
      SendBalanced({}, h.sends);
      BothBalanced({}, done + Unwind(held, ALL), Send(h.sends));
    }
  }

  lemma {:induction false} HandleAllBalanced(hs: seq<Handling>)
    ensures Balanced({}, HandleAll(hs))
  {
    if hs != [] {
      HandleBalanced(hs[0]);
      HandleAllBalanced(hs[1..]);
      BothBalanced({}, Handle(hs[0]), HandleAll(hs[1..]));
    }
  }

  lemma AdmissionBalanced(g: Gate)
    ensures Balanced({}, Admission(g))
  {
    if g.Passed? {
      SendsBalanced({AdmitLock}, g.reports);
      Wrapped(AdmitLock, Sends(g.reports));
    }
  }

  lemma ItemBalanced(item: Item)
    ensures Balanced({}, RunItem(item))
  {
    hide After, Send, Sends, Section, Admission, Balanced;
    var p := Section(PendingLock);
    SectionBalanced({}, PendingLock);
    SectionBalanced({}, ChildrenLock);
    WorkBalanced({});
    if !item.Skipped? {
      AdmissionBalanced(item.gate);
      BothBalanced({}, Admission(item.gate), p);
      var start := Admission(item.gate) + p;
      match item
      case CancelledEarly(_, sends) =>
        SendBalanced({}, sends);
        BothBalanced({}, start, Send(sends));
      case Failed(_, forked, progress, sends) =>
        SendsBalanced({}, progress);
        SendBalanced({}, sends);
        BothBalanced({}, p, Sends(progress));
        var middle := if forked then p + Sends(progress) else [];
        BothBalanced({}, start, middle);
        BothBalanced({}, start + middle, p);
        BothBalanced({}, start + middle + p, Send(sends));
      case ShutDown(_, progress) =>
        SendsBalanced({}, progress);
        BothBalanced({}, start, p);
        BothBalanced({}, start + p, Sends(progress));
        BothBalanced({}, start + p + Sends(progress), [Work]);
        BothBalanced({}, start + p + Sends(progress) + [Work], p);
      case Loaded(_, progress, sends) =>
        SendsBalanced({}, progress);
        SendBalanced({}, sends);
        BothBalanced({}, start, p);
        BothBalanced({}, start + p, Sends(progress));
        BothBalanced({}, start + p + Sends(progress), Section(ChildrenLock));
        BothBalanced({}, start + p + Sends(progress) + Section(ChildrenLock), p);
        BothBalanced({}, start + p + Sends(progress) + Section(ChildrenLock) + p, Send(sends));
    }
  }

  lemma {:induction false} WakesBalanced(n: nat)
    ensures Balanced({QueueLock}, Wakes(n))
  {
    if n > 0 {
      var one := [Drop(QueueLock), Park, Take(QueueLock)];
      assert one[1..] == [Park, Take(QueueLock)] && one[1..][1..] == [Take(QueueLock)] && one[1..][1..][1..] == [];
      assert {QueueLock} - {QueueLock} == {} && {} + {QueueLock} == {QueueLock};
      WakesBalanced(n - 1);
      BothBalanced({QueueLock}, one, Wakes(n - 1));
    }
  }

  lemma JoinBalanced(ts: set<nat>)
    ensures Balanced({}, [Join(ts)]) && Balanced({}, [Work, Join(ts)])
  {
    assert [Join(ts)][1..] == [] && [Work, Join(ts)][1..] == [Join(ts)];
  }

  lemma DestroyBalanced(reader: set<nat>, monitor: set<nat>, workers: set<nat>)
    ensures Balanced({}, Ops(Stop(reader))) && Balanced({}, Ops(Destroy(reader, monitor, workers)))
  {
    hide After, Section, Balanced;
    JoinBalanced(reader);
    JoinBalanced(monitor);
    JoinBalanced(workers);
    WorkBalanced({});
    SectionBalanced({}, WriteLock);
    SectionBalanced({}, ChildrenLock);
    SectionBalanced({}, PendingLock);
    SectionBalanced({}, QueueLock);
    var a := [Work, Join(reader)] + Section(WriteLock);
    BothBalanced({}, [Work, Join(reader)], Section(WriteLock));
    BothBalanced({}, a, [Work, Join(monitor)]);
    var b := a + [Work, Join(monitor)];
    BothBalanced({}, b, Section(ChildrenLock));
    BothBalanced({}, b + Section(ChildrenLock), Section(PendingLock));
    var c := b + Section(ChildrenLock) + Section(PendingLock);
    BothBalanced({}, c, [Work]);
    BothBalanced({}, c + [Work], Section(QueueLock));
    BothBalanced({}, c + [Work] + Section(QueueLock), [Join(workers)]);
    BothBalanced({}, c + [Work] + Section(QueueLock) + [Join(workers)], Section(ChildrenLock));
  }

  lemma ListBalanced()
    ensures Balanced({}, Ops(ListNodes))
  {
    var ops := Ops(ListNodes);
    assert ops[1..] == [Take(PendingLock), Work, Drop(PendingLock), Drop(ChildrenLock)];
    assert ops[1..][1..] == [Work, Drop(PendingLock), Drop(ChildrenLock)];
    assert ops[1..][1..][1..] == [Drop(PendingLock), Drop(ChildrenLock)];
    assert ops[1..][1..][1..][1..] == [Drop(ChildrenLock)];
    assert ops[1..][1..][1..][1..][1..] == [];
    assert {} + {ChildrenLock} + {PendingLock} - {PendingLock} - {ChildrenLock} == {};
  }

  /** Every path takes locks in rising order, waits and joins with none held, and ends with none held. */
  lemma RoutinesKeepOrder(r: Routine)
    ensures Balanced({}, Ops(r))
  {
    if r.Stop? {
      DestroyBalanced(r.reader, {}, {});
    } else if r.Destroy? {
      DestroyBalanced(r.reader, r.monitor, r.workers);
    } else if r.ListNodes? {
      ListBalanced();
    } else {
      OthersKeepOrder(r);
    }
  }

  lemma OthersKeepOrder(r: Routine)
    requires !r.Stop? && !r.Destroy? && !r.ListNodes?
    ensures Balanced({}, Ops(r))
  {
    hide After, Section, Balanced, Send, Handle, HandleAll, RunItem, Wakes;
    forall l: Lock
      ensures Balanced({}, Section(l))
    {
      SectionBalanced({}, l);
    }
    match r
    case ReaderDelivers(h) =>
      HandleBalanced(h);
      BothBalanced({}, Section(HandlerLock), Handle(h));
    case SetHandlers(replay) =>
      HandleAllBalanced(replay);
      BothBalanced({}, Section(HandlerLock), HandleAll(replay));
    case WorkerWaits(wakes) =>
      WakesBalanced(wakes);
      Wrapped(QueueLock, Wakes(wakes));
    case WorkerRuns(item) => ItemBalanced(item);
    case LoadService =>
      BothBalanced({}, Section(LoadLock), Section(PendingLock));
      BothBalanced({}, Reserve(), Section(QueueLock));
    case UnloadMissing => BothBalanced({}, Section(PendingLock), Section(ChildrenLock));
    case Unload(sends) =>
      SendBalanced({}, sends);
      BothBalanced({}, Section(PendingLock), Section(ChildrenLock));
      BothBalanced({}, Section(PendingLock) + Section(ChildrenLock), Send(sends));
    case Death(sends) =>
      SendBalanced({ChildrenLock}, sends);
      WorkBalanced({ChildrenLock});
      BothBalanced({ChildrenLock}, [Work], Send(sends));
      BothBalanced({ChildrenLock}, [Work] + Send(sends), [Work]);
      Wrapped(ChildrenLock, [Work] + Send(sends) + [Work]);
      assert Ops(r) == [Take(ChildrenLock)] + ([Work] + Send(sends) + [Work]) + [Drop(ChildrenLock)];
    case _ =>
  }

  // ---- any number of threads ----

  datatype Thread = Thread(held: set<Lock>, todo: seq<Op>)

  type State = map<nat, Thread>

  /** Nobody else holds `l`. */
  predicate Free(s: State, l: Lock) {
    forall t | t in s :: l !in s[t].held
  }

  predicate CanStep(s: State, t: nat, ended: set<nat>) {
    && t in s && s[t].todo != []
    && match s[t].todo[0]
       case Take(l) => Free(s, l)
       case Join(ts) => ts <= ended
       case Park => false      // until somebody notifies it
       case _ => true
  }

  predicate Blocked(s: State, t: nat) {
    t in s && s[t].todo != [] && s[t].todo[0].Take? && !Free(s, s[t].todo[0].l)
  }

  datatype Action = Begin(t: nat, r: Routine) | Step(t: nat) | Wake(t: nat)

  predicate Enabled(s: State, a: Action, ended: set<nat>) {
    match a
    case Begin(t, _) => t !in s || s[t].todo == []
    case Step(t) => CanStep(s, t, ended)
    case Wake(t) => t in s && s[t].todo != [] && s[t].todo[0].Park?
  }

  function Apply(s: State, a: Action): State
    requires (a.Step? || a.Wake?) ==> a.t in s && s[a.t].todo != []
  {
    match a
    case Begin(t, r) => s[t := Thread(if t in s then s[t].held else {}, Ops(r))]
    case Step(t) =>
      var held := match s[t].todo[0]
                  case Take(l) => s[t].held + {l}
                  case Drop(l) => s[t].held - {l}
                  case _ => s[t].held;
      s[t := Thread(held, s[t].todo[1..])]
    case Wake(t) => s[t := s[t].(todo := s[t].todo[1..])]
  }

  /** Each thread is somewhere on an ordered path that ends with nothing held, and no lock has two owners. */
  ghost predicate Inv(s: State) {
    && (forall t | t in s :: After(s[t].held, s[t].todo) == Some({}))
    && (forall t, u | t in s && u in s && t != u :: s[t].held !! s[u].held)
  }

  lemma StepKeepsInv(s: State, a: Action, ended: set<nat>)
    requires Inv(s) && Enabled(s, a, ended)
    ensures Inv(Apply(s, a))
  {
    if a.Begin? {
      RoutinesKeepOrder(a.r);
      hide Ops;
      if a.t in s {
        assert After(s[a.t].held, s[a.t].todo) == Some(s[a.t].held);
      }
    } else {
      hide Ops;
      assert After(s[a.t].held, s[a.t].todo) == Some({});
    }
  }

  /** A run of any threads through any of the routines; `endeds` says which threads have ended at each state. */
  ghost predicate Run(ss: seq<State>, acts: seq<Action>, endeds: seq<set<nat>>) {
    && |ss| == |acts| + 1 && |endeds| == |ss| && ss[0] == map[]
    && forall k | 0 <= k < |acts| :: Enabled(ss[k], acts[k], endeds[k]) && ss[k + 1] == Apply(ss[k], acts[k])
  }

  lemma {:induction false} RunKeepsInv(ss: seq<State>, acts: seq<Action>, endeds: seq<set<nat>>, k: nat)
    requires Run(ss, acts, endeds) && k < |ss|
    ensures Inv(ss[k])
  {
    if k > 0 {
      RunKeepsInv(ss, acts, endeds, k - 1);
      StepKeepsInv(ss[k - 1], acts[k - 1], endeds[k - 1]);
    }
  }

  /** Following the owners of the locks waited for, ranks rise, so the chain ends at a thread that can go on. */
  lemma {:induction false} ChainEnds(s: State, t: nat, ended: set<nat>) returns (u: nat)
    requires Inv(s) && Blocked(s, t)
    ensures CanStep(s, u, ended) && s[u].held != {}
    decreases 3 - Rank(s[t].todo[0].l)
  {
    var l := s[t].todo[0].l;
    u :| u in s && l in s[u].held;
    assert s[u].todo != [] && s[u].held != {};
    var op := s[u].todo[0];
    assert !op.Park? && !op.Join?;
    if op.Take? {
      if !Free(s, op.l) {
        assert Rank(l) < Rank(op.l);
        u := ChainEnds(s, u, ended);
      }
    }
  }

  /**
   * In every state of every run, if some thread waits for a mutex then another can go on, one that holds a mutex; so
   * the threads never all wait for each other. A thread that joins others or waits to be notified holds none.
   */
  lemma NoDeadlock(ss: seq<State>, acts: seq<Action>, endeds: seq<set<nat>>, k: nat, t: nat)
    requires Run(ss, acts, endeds) && k < |ss|
    ensures Blocked(ss[k], t) ==> exists u :: CanStep(ss[k], u, endeds[k]) && ss[k][u].held != {}
    ensures t in ss[k] && ss[k][t].todo != [] && (ss[k][t].todo[0].Join? || ss[k][t].todo[0].Park?) ==>
              ss[k][t].held == {}
    ensures t in ss[k] && ss[k][t].todo == [] ==> ss[k][t].held == {}
  {
    RunKeepsInv(ss, acts, endeds, k);
    if Blocked(ss[k], t) {
      var u := ChainEnds(ss[k], t, endeds[k]);
    }
  }
}

/**
 * The invariant every interleaving keeps until the id counter is exhausted.
 *
 * What concerns a single id is gathered in a `View` and described stage by
 * stage; the rest ties queue, workers, clients, monitor, destructor and wire to
 * the loads.
 */
module LoadInvariant {
  import opened Common
  import opened LoadTables
  import opened LoadProtocol

  /** All there is about one id: its entries in the three maps and its record. */
  datatype View = View(pending: Option<Pending>, child: Option<Child>, stopping: Option<Child>, load: Load)

  function ViewOf(s: State, id: nat): View
    requires id in s.loads
  {
    View(Lookup(s.tables.pending, id), Lookup(s.tables.children, id), Lookup(s.stopping, id), s.loads[id])
  }

  // ---------- one load, stage by stage ----------

  ghost predicate Dead(l: Load) {
    l.proc.Zombie? || l.proc.Reaped?
  }

  /** Nothing has been forked, written or opened for this load. */
  ghost predicate Fresh(l: Load) {
    && l.pid == 0 && l.proc.NoProc?
    && !l.fileMade && l.unlinks == 0
    && !l.fdOpened && !l.watched && l.closes == 0
  }

  /** The process is not running and every resource taken has been given back exactly once. */
  ghost predicate Released(l: Load) {
    && !l.proc.Alive?
    && l.unlinks == (if l.fileMade then 1 else 0)
    && l.closes == (if l.fdOpened then 1 else 0)
    && !l.watched
  }

  /** A forked child waiting to report: the file may exist, the pidfd does not yet. */
  ghost predicate Building(l: Load, pid: nat, file: bool) {
    && l.pid == pid > 0
    && (l.proc.Alive? || l.proc.Zombie?)
    && l.fileMade == file && l.unlinks == 0
    && !l.fdOpened && !l.watched && l.closes == 0
  }

  /** `child` holds the only claim on the process, its pidfd and its file; the pidfd is watched. */
  ghost predicate Held(l: Load, child: Child, monitorOn: bool) {
    && l.pid == child.pid > 0
    && !l.proc.NoProc?
    && l.fileMade == child.file && l.unlinks == 0
    && l.line == SaysOk(child.name)
    && l.fdOpened == child.fd && l.closes == 0
    && l.watched == (child.fd && monitorOn)
  }

  ghost predicate HeldUnreaped(l: Load, child: Child, monitorOn: bool) {
    Held(l, child, monitorOn) && !l.proc.Reaped?
  }

  ghost predicate Nowhere(v: View) {
    v.child.None? && v.stopping.None?
  }

  /** After registration the child is in `children_`, in the destructor's map, or released. */
  ghost predicate Placed(v: View, monitorOn: bool) {
    && (v.child.Some? ==>
          v.stopping.None? && v.load.removal.NotRemoved? && HeldUnreaped(v.load, v.child.value, monitorOn))
    && (v.stopping.Some? ==> v.load.removal.ByShutdown? && Held(v.load, v.stopping.value, monitorOn))
    && (Nowhere(v) ==> Released(v.load))
  }

  ghost predicate Parked(v: View, pid: nat) {
    && v.pending.Some?
    && v.pending.value.pid == pid
    && (v.pending.value.phase == if pid == 0 then Queued else Constructing)
  }

  /** What the program points of a load have in common, seen from outside. */
  datatype Stage =
    | Unforked(file: bool)                          // pending, perhaps with its file written
    | InConstruction(pid: nat, noted: nat, file: bool)  // pending, child not ready; `noted` is the pid on record
    | Undoing(file: bool)                           // pending, process gone, file still there
    | Undone(pending: bool)                         // nothing left to release
    | Owned(child: Child)                           // pending, child ready and held by the worker alone
    | Delivered(pending: bool)                      // child handed over

  ghost function StageOf(t: Task): Stage {
    match t
    case Unqueued(_) => Unforked(false)
    case InQueue => Unforked(false)
    case Finished(handedOver) => if handedOver then Delivered(false) else Undone(false)
    case Running(_, pc) =>
      match pc
      case Guard => Unforked(false)
      case Admission => Unforked(false)
      case PreFork => Unforked(false)
      case Params => Unforked(false)
      case PipeFork(file) => Unforked(file)
      case Forked(pid, file) => InConstruction(pid, 0, file)
      case Waiting(pid, file) => InConstruction(pid, pid, file)
      case KillChild(pid, file) => InConstruction(pid, pid, file)
      case OpenFd(pid, file, _) => InConstruction(pid, pid, file)
      case UnlinkFailed(file) => Undoing(file)
      case Drop => Undone(true)
      case Catch => Undone(true)
      case SendCancelled => Undone(false)
      case CheckOk(_) => Undone(false)
      case SendFailed(_) => Undone(false)
      case Recheck(child) => Owned(child)
      case Cleanup(child) => Owned(child)
      case Registering(child) => Owned(child)
      case Unpending(_) => Delivered(true)
      case SendLoaded(_) => Delivered(false)
  }

  ghost predicate InStage(v: View, stage: Stage, monitorOn: bool) {
    var l := v.load;
    match stage
    case Unforked(file) => Parked(v, 0) && Nowhere(v) && Fresh(l.(fileMade := false)) && l.fileMade == file
    case InConstruction(pid, noted, file) => Parked(v, noted) && Nowhere(v) && Building(l, pid, file)
    case Undoing(file) =>
      && v.pending.Some? && Nowhere(v)
      && !l.proc.Alive? && l.fileMade == file && l.unlinks == 0
      && !l.fdOpened && !l.watched && l.closes == 0
    case Undone(pending) => v.pending.Some? == pending && Nowhere(v) && Released(l)
    case Owned(child) => Parked(v, child.pid) && Nowhere(v) && HeldUnreaped(l, child, monitorOn)
    case Delivered(pending) =>
      && v.pending.Some? == pending && (pending ==> l.pid > 0 && Parked(v, l.pid))
      && Placed(v, monitorOn)
  }

  /** What a worker at `task` is about to say of the load is what its child wrote. */
  ghost predicate SpokenFor(l: Load, task: Task) {
    task.Running? ==>
      match task.pc
      case OpenFd(_, _, name) => l.line == SaysOk(name)
      case Unpending(child) => l.pid == child.pid > 0 && l.line == SaysOk(child.name)
      case SendLoaded(child) => l.pid == child.pid > 0 && l.line == SaysOk(child.name)
      case _ => true
  }

  /** What is on record of the load is what was asked for, and what its child wrote. */
  ghost predicate Truthful(v: View) {
    var l := v.load;
    && (v.pending.Some? ==>
          && v.pending.value.phase == (if v.pending.value.pid == 0 then Queued else Constructing)
          && v.pending.value.plugin == l.plugin && v.pending.value.seqNo == SeqOf(l.origin))
    && SpokenFor(l, l.task)
  }

  ghost predicate Sound(v: View, monitorOn: bool) {
    var l := v.load;
    var stage := StageOf(l.task);
    && InStage(v, stage, monitorOn) && Truthful(v)
    && (!stage.Delivered? ==> l.removal.NotRemoved?)
    && (l.proc.NoProc? <==> l.pid == 0)
    && (v.pending.Some? && v.pending.value.pid > 0 ==> l.pid == v.pending.value.pid)
    && (l.answerAt.Some? ==> l.task.Finished?)
    && (l.goneAt.Some? ==> l.removal.ByCrash? || l.removal.ByUnload?)
  }

  /** While the context is up and the channel takes frames, a finished load has been answered. */
  ghost predicate Answered(l: Load, ok: bool, active: bool) {
    && (l.task.Finished? && ok && active ==> l.answerAt.Some?)
    && (l.removal.ByCrash? && active ==> l.goneAt.Some?)
    && (!l.task.Unqueued? && l.origin.Socket? && active ==> l.acceptedAt.Some?)
    && (l.task.Running? && (l.task.pc.Cleanup? || l.task.pc.Drop?) ==> !ok)
  }

  /** Past `take_pending`. */
  ghost predicate PastUnpend(t: Task) {
    t.Finished? || (t.Running? && (t.pc.SendCancelled? || t.pc.CheckOk? || t.pc.SendFailed? || t.pc.SendLoaded?))
  }

  /** Program points from which no fork can follow. */
  ghost predicate NoMoreFork(t: Task) {
    || t.Finished?
    || (t.Running? && !t.pc.Guard? && !t.pc.Admission? && !t.pc.PreFork? && !t.pc.Params? && !t.pc.PipeFork?)
  }

  ghost predicate Quiet(l: Load) {
    !l.proc.Alive? && NoMoreFork(l.task)
  }

  // ---------- the groups ----------

  /** One past the largest id drawn so far. */
  function Bound(s: State): nat {
    if s.tables.counter == 0 then ID_LIMIT else s.tables.counter
  }

  ghost predicate IdsInv(s: State) {
    && s.tables.counter < ID_LIMIT
    && (forall id | id in s.loads :: 0 < id < Bound(s))
    && (forall id | id in s.drawn :: 0 < id < Bound(s) && id !in s.loads)
    && s.tables.pending.Keys <= s.loads.Keys
    && s.tables.children.Keys <= s.loads.Keys
    && s.stopping.Keys <= s.loads.Keys
    && (forall q | q in s.tables.seqToId ::
          s.tables.seqToId[q] in s.loads && s.loads[s.tables.seqToId[q]].origin == Socket(q))
  }

  ghost predicate LoadsInv(s: State) {
    forall id | id in s.loads :: Sound(ViewOf(s, id), s.monitorOn) && Answered(s.loads[id], s.ok, s.active)
  }

  /** Who is going to move this load on. */
  ghost predicate Carried(s: State, id: nat)
    requires id in s.loads
  {
    match s.loads[id].task
    case Unqueued(c) =>
      c in s.clients && ((s.clients[c].Announce? && s.clients[c].id == id) || s.clients[c] == Submit(id))
    case InQueue => id in s.queue
    case Running(w, _) => w in s.workers && s.workers[w] == Busy(id)
    case Finished(_) => true
  }

  ghost predicate CarriedInv(s: State) {
    forall id | id in s.loads :: Carried(s, id)
  }

  ghost predicate QueueInv(s: State) {
    && (forall i | 0 <= i < |s.queue| :: s.queue[i] in s.loads && s.loads[s.queue[i]].task.InQueue?)
    && (forall i, j | 0 <= i < j < |s.queue| :: s.queue[i] != s.queue[j])
  }

  ghost predicate WorkersInv(s: State) {
    forall w | w in s.workers && s.workers[w].Busy? ::
      && s.workers[w].id in s.loads
      && s.loads[s.workers[w].id].task.Running?
      && s.loads[s.workers[w].id].task.worker == w
  }

  ghost predicate ClientSound(s: State, c: nat, k: Client) {
    match k
    case Reserved(_, _, id) => id in s.drawn && s.drawn[id] == c
    case Announce(seqNo, id) =>
      && id in s.loads && s.loads[id].task == Unqueued(c)
      && s.loads[id].origin == Socket(seqNo) && s.loads[id].acceptedAt.None?
    case Submit(id) =>
      && id in s.loads && s.loads[id].task == Unqueued(c)
      && (s.loads[id].origin.Socket? && s.active ==> s.loads[id].acceptedAt.Some?)
    case QueryChildren(_, id, known) => known ==> id in s.loads && PastUnpend(s.loads[id].task)
    case QueryUnknown(_, id, known) => known ==> id in s.loads && Quiet(s.loads[id])
    case CancelKill(id, pid, mark) =>
      && id in s.loads && s.loads[id].pid == pid > 0 && mark <= |s.wire|
      && (s.loads[id].answerAt.Some? ==> mark <= s.loads[id].answerAt.value)
      && (id in s.tables.pending ==> Flagged(s.tables, id))
    case UnloadSend(id) =>
      id in s.loads && s.loads[id].removal == ByUnload(c) && s.loads[id].goneAt.None?
    case _ => true
  }

  ghost predicate ClientsInv(s: State) {
    forall c | c in s.clients :: ClientSound(s, c, s.clients[c])
  }

  ghost predicate MonitorInv(s: State) {
    s.monitor.Handling? ==>
      forall i | 0 <= i < |s.monitor.batch| ::
        s.monitor.batch[i] == 0 || (s.monitor.batch[i] in s.loads && Dead(s.loads[s.monitor.batch[i]]))
  }

  ghost predicate DtorInv(s: State) {
    && (s.dtor.Rank() >= 1 ==> !s.active)
    && (s.dtor.Rank() >= 2 ==> forall c | c in s.clients :: s.clients[c].Idle?)
    && (s.dtor.Rank() >= 3 ==> s.monitor.Joined?)
    && (s.stopping != map[] ==> s.dtor.ReadPending? || s.dtor.Reap? || s.dtor.Release?)
    && (s.dtor.Release? ==> forall id | id in s.stopping :: id in s.loads && s.loads[id].proc.Reaped?)
    && (s.dtor.Rank() >= 9 ==> forall w | w in s.workers :: s.workers[w].Exited?)
    && (s.dtor.Rank() >= 10 ==> s.tables.children == map[])
    && (s.workersRunning <==> s.dtor.Rank() < 8)
    && (forall w | w in s.workers && s.workers[w].Exited? :: !s.workersRunning)
  }

  // ---------- the wire ----------

  ghost predicate Outcome(m: Msg) {
    m.LoadedMsg? || m.LoadFailed?
  }

  ghost predicate AboutLoad(m: Msg) {
    Outcome(m) || m.Progress?
  }

  ghost predicate Farewell(m: Msg) {
    m.Crashed? || m.Unloaded?
  }

  /** What the message says of the load's process and name is true. */
  ghost predicate Tells(l: Load, m: Msg) {
    && (m.LoadedMsg? ==> l.pid == m.pid > 0 && l.line == SaysOk(m.name))
    && (m.Progress? ==> if m.phase.Queued? then m.pid == 0 else m.phase.Constructing? && l.pid == m.pid > 0)
    && (m.Crashed? ==> l.pid == m.pid > 0)
  }

  /** The message at `i` agrees with the marks of the load it speaks of. */
  ghost predicate MsgSound(loads: map<nat, Load>, m: Msg, i: nat) {
    && (m.Accepted? ==>
          && m.id in loads
          && loads[m.id].origin == Socket(m.seqNo) && loads[m.id].acceptedAt == Some(i))
    && (AboutLoad(m) ==>
          && m.id in loads && Tells(loads[m.id], m)
          && (loads[m.id].origin.Socket? ==>
                loads[m.id].acceptedAt.Some? && loads[m.id].acceptedAt.value < i))
    && (Outcome(m) ==> loads[m.id].answerAt == Some(i) && loads[m.id].task == Finished(m.LoadedMsg?))
    && (Farewell(m) ==>
          && m.id in loads && loads[m.id].goneAt == Some(i) && Tells(loads[m.id], m)
          && (if m.Crashed? then loads[m.id].removal.ByCrash? else loads[m.id].removal.ByUnload?))
  }

  /** And the other way round: a mark points at such a message. */
  ghost predicate MarksSound(wire: seq<Msg>, id: nat, l: Load) {
    && (l.acceptedAt.Some? ==>
          && l.acceptedAt.value < |wire| && l.origin.Socket?
          && wire[l.acceptedAt.value] == Accepted(l.origin.seqNo, id))
    && (l.answerAt.Some? ==>
          && l.answerAt.value < |wire|
          && Outcome(wire[l.answerAt.value]) && wire[l.answerAt.value].id == id)
    && (l.goneAt.Some? ==>
          && l.goneAt.value < |wire|
          && Farewell(wire[l.goneAt.value]) && wire[l.goneAt.value].id == id)
  }

  ghost predicate WireInv(s: State) {
    && (forall i | 0 <= i < |s.wire| :: MsgSound(s.loads, s.wire[i], i))
    && (forall id | id in s.loads :: MarksSound(s.wire, id, s.loads[id]))
  }

  ghost predicate Inv(s: State) {
    && IdsInv(s)
    && LoadsInv(s)
    && CarriedInv(s)
    && QueueInv(s)
    && WorkersInv(s)
    && ClientsInv(s)
    && MonitorInv(s)
    && DtorInv(s)
    && WireInv(s)
  }

  lemma InitInv(s: State)
    requires Init(s)
    ensures Inv(s)
  {
  }

  // ---------- how one load may change in one step ----------

  /** What no step ever takes back about a load. */
  ghost predicate Evolves(l: Load, l': Load, sent: nat) {
    && l'.origin == l.origin && l'.plugin == l.plugin && (l.task.Finished? ==> l'.line == l.line)
    && (l.pid != 0 ==> l'.pid == l.pid)
    && (Dead(l) ==> Dead(l')) && (l.proc.Reaped? ==> l'.proc.Reaped?)
    && (PastUnpend(l.task) ==> PastUnpend(l'.task)) && (l.task.Finished? ==> l'.task == l.task)
    && (Quiet(l) ==> Quiet(l'))
    && (!l.removal.NotRemoved? ==> l'.removal == l.removal)
    && (l'.acceptedAt == l.acceptedAt || (l.acceptedAt.None? && l'.acceptedAt == Some(sent)))
    && (l'.answerAt == l.answerAt || (l.answerAt.None? && l'.answerAt == Some(sent)))
    && (l'.goneAt == l.goneAt || (l.goneAt.None? && l'.goneAt == Some(sent)))
  }

  /** Program points up to and including the pre-fork check. */
  ghost predicate Early(t: Task) {
    || t.Unqueued? || t.InQueue?
    || (t.Running? && (t.pc.Guard? || t.pc.Admission? || t.pc.PreFork?))
  }

  /** What a step other than the load's own task step cannot do to it: fork, answer, or run its code. */
  ghost predicate Aside(l: Load, l': Load) {
    && l'.pid == l.pid
    && (l'.proc.Alive? ==> l.proc.Alive?)
    && (l.proc.NoProc? ==> l'.proc.NoProc?)
    && (l'.line == l.line || (l.line.Silent? && l.proc.Alive?))
    && l'.answerAt == l.answerAt
    && (l'.task == l.task || (l.task.Unqueued? && l'.task.InQueue?)
        || (l.task.InQueue? && l'.task.Running? && l'.task.pc.Guard?))
  }

  ghost predicate LoadsEvolve(s: State, s': State) {
    && (forall id | id in s.loads :: id in s'.loads && Evolves(s.loads[id], s'.loads[id], |s.wire|))
  }

  /** A step that runs no load's own code. */
  ghost predicate Forward(s: State, s': State) {
    && LoadsEvolve(s, s')
    && (forall id | id in s.loads :: Aside(s.loads[id], s'.loads[id]))
    && (forall id | id in s.tables.pending && s.tables.pending[id].cancelled :: Flagged(s'.tables, id))
    && (forall id | id in s'.loads && id !in s.loads ::
          s'.loads[id].pid == 0 && s'.loads[id].removal.NotRemoved? && s'.loads[id].task.Unqueued?)
  }

  ghost predicate WireGrows(s: State, s': State) {
    s'.wire == s.wire || (|s'.wire| == |s.wire| + 1 && s'.wire[..|s.wire|] == s.wire)
  }

  /** The flags only ever go down. */
  ghost predicate FlagsFall(s: State, s': State) {
    && (s'.ok ==> s.ok)
    && (s'.active ==> s.active)
    && s'.monitorOn == s.monitorOn
  }
}

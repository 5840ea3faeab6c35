/**
 * The isolated load manager as a state machine.
 *
 * Actors: any number of clients (the control socket's reader, the thread that
 * replays held frames, the executor running the services), a pool of spawn
 * workers, the epoll monitor, the destructor, and an environment in which a
 * child may write its line, a process may exit, the channel may break and `rclcpp::ok()` may turn false at
 * any point.  One action is one critical section or one effect visible outside
 * (fork, kill, reap, a frame on the wire, an unlink, a close).
 */
module LoadProtocol {
  import opened Common
  import opened LoadTables

  datatype Origin = Socket(seqNo: nat) | Service

  /** The process forked for a load.  A zombie is dead and not yet waited for. */
  datatype Proc = NoProc | Alive | Zombie | Reaped

  /** The line a child has written into its ready pipe, as its parent will read it: it writes one, if any. */
  datatype Line = Silent | SaysOk(name: string) | SaysBad

  /** Program counter inside the body of `submit_spawn`, with its local variables. */
  datatype Pc =
    | Guard                                   // is the context still up?
    | Drop                                    // take_pending without an answer
    | Admission                               // await_spawn_capacity
    | PreFork                                 // was it cancelled while it waited?
    | SendCancelled
    | Params                                  // write_params_file
    | PipeFork(file: bool)
    | Forked(pid: nat, file: bool)            // note_constructing comes next
    | Waiting(pid: nat, file: bool)           // poll loop on the ready pipe
    | KillChild(pid: nat, file: bool)         // SIGKILL and waitpid
    | UnlinkFailed(file: bool)
    | Catch                                   // the exception handler's take_pending
    | CheckOk(cancelled: bool)
    | SendFailed(cancelled: bool)
    | OpenFd(pid: nat, file: bool, name: string)
    | Recheck(child: Child)                   // is the context still up?
    | Cleanup(child: Child)
    | Registering(child: Child)
    | Unpending(child: Child)
    | SendLoaded(child: Child)

  /** Finished with the child handed over, or without one. */
  datatype Task = Unqueued(client: nat) | InQueue | Running(worker: nat, pc: Pc) | Finished(handedOver: bool)

  /** Who took the child out of `children_`. */
  datatype Removal = NotRemoved | ByCrash | ByUnload(client: nat) | ByShutdown

  /**
   * Everything about one id outside the tables.  `unlinks` and `closes` count the
   * calls made for its parameter file and its pidfd; `acceptedAt`, `answerAt` and
   * `goneAt` record where on the wire its `accepted`, its outcome and its
   * `crashed`/`unloaded` stand.
   */
  datatype Load = Load(
    origin: Origin, plugin: string, task: Task, pid: nat, proc: Proc, line: Line,
    fileMade: bool, unlinks: nat,
    fdOpened: bool, watched: bool, closes: nat,
    removal: Removal,
    acceptedAt: Option<nat>, answerAt: Option<nat>, goneAt: Option<nat>)

  datatype Msg =
    | Accepted(seqNo: nat, id: nat)
    | Rejected(seqNo: nat)
    | Progress(id: nat, pid: nat, phase: Phase)
    | LoadedMsg(id: nat, pid: nat, name: string)
    | LoadFailed(id: nat, cancelled: bool)
    | Status(asked: Option<nat>, report: Report)
    | Crashed(id: nat, pid: nat)
    | Unloaded(id: nat)

  /** `known`: the id had been announced when the pending map was read; `mark`: frames sent when the flag was set. */
  datatype Client =
    | Idle
    | Rejecting(seqNo: nat)
    | Reserved(origin: Origin, plugin: string, id: nat)
    | Announce(seqNo: nat, id: nat)
    | Submit(id: nat)
    | QueryPending(asked: Option<nat>, about: Option<nat>)
    | QueryChildren(asked: Option<nat>, id: nat, known: bool)
    | QueryUnknown(asked: Option<nat>, id: nat, known: bool)
    | CancelFlag(id: nat, reason: string)
    | CancelKill(id: nat, pid: nat, mark: nat)
    | CancelRecheck(id: nat)
    | UnloadPending(id: nat)
    | UnloadChild(id: nat)
    | UnloadSend(id: nat)

  datatype Worker = Free | Busy(id: nat) | Exited
  datatype Monitor = Polling | Handling(batch: seq<nat>) | Joined

  /** Where the destructor is; each name is what it does next. */
  datatype Dtor =
    | NotStarted | JoinReader | JoinMonitor | SwapChildren | ReadPending
    | Reap(constructing: map<nat, nat>)   // the pids read from pending_loads_, by id
    | Release | StopWorkers | JoinWorkers | FinalCleanup | Done
  {
    function Rank(): nat {
      match this
      case NotStarted => 0 case JoinReader => 1 case JoinMonitor => 2 case SwapChildren => 3
      case ReadPending => 4 case Reap(_) => 5 case Release => 6 case StopWorkers => 7 case JoinWorkers => 8
      case FinalCleanup => 9 case Done => 10
    }
  }

  datatype State = State(
    tables: Tables,
    exhausted: bool,              // the counter has wrapped and a caller has been turned away
    ok: bool,                     // rclcpp::ok()
    active: bool,                 // the control channel still takes frames
    monitorOn: bool,              // epoll and eventfd were set up
    drawn: map<nat, nat>,         // ids drawn and not yet in pending_loads_, with the drawing client
    loads: map<nat, Load>,
    queue: seq<nat>,
    clients: map<nat, Client>,
    workers: map<nat, Worker>,
    workersRunning: bool,
    monitor: Monitor,
    dtor: Dtor,
    stopping: map<nat, Child>,    // terminate_children's own map
    wire: seq<Msg>)

  /** What the environment, or the rest of the code, decides at a task's step. */
  datatype Choice =
    | Go | Report | Made(file: bool) | ForkFail | Fork(newPid: nat)
    | ReplyOk(name: string) | ReplyBad | Gone | GiveUp | Fd(got: bool)

  datatype Action =
    | ShutdownSignal
    | ProcessExits(id: nat)
    | ChildWrites(id: nat, line: Line)
    | ChannelBreaks
    | BeginLoad(c: nat, origin: Origin, plugin: string, available: bool)
    | BeginQuery(c: nat, asked: Option<nat>, about: Option<nat>)
    | BeginCancel(c: nat, id: nat, reason: string)
    | BeginUnload(c: nat, id: nat)
    | ClientStep(c: nat)
    | Pop(w: nat)
    | WorkerExit(w: nat)
    | TaskStep(id: nat, choice: Choice)
    | Fetch(batch: seq<nat>)
    | HandleEvent
    | DtorStep
    | Collect(id: nat)
    | ForceKill(id: nat)
    | ReleaseChild(id: nat)
    | CleanChild(id: nat)

  // ---------- small effects ----------

  /** `send_raw` on an inactive channel is a no-op. */
  function Send(s: State, m: Msg): State {
    if s.active then s.(wire := s.wire + [m]) else s
  }

  function Written(wire: seq<Msg>, frame: Option<Msg>, active: bool): (w: seq<Msg>)
    ensures wire <= w && |w| <= |wire| + 1
  {
    if frame.Some? && active then wire + [frame.value] else wire
  }

  /** Where the next frame will stand, if it is going to be written. */
  function Here(s: State): Option<nat> {
    if s.active then Some(|s.wire|) else None
  }

  function Put(s: State, id: nat, l: Load): State {
    s.(loads := s.loads[id := l])
  }

  function GoTo(l: Load, pc: Pc): Load
    requires l.task.Running?
  {
    l.(task := Running(l.task.worker, pc))
  }

  function Dies(l: Load): Load {
    if l.proc.Alive? then l.(proc := Zombie) else l
  }

  function Unlink(l: Load, file: bool): Load {
    if file then l.(unlinks := l.unlinks + 1) else l
  }

  /** Closing a pidfd also takes it out of the epoll set. */
  function Close(l: Load, fd: bool): Load {
    if fd then l.(closes := l.closes + 1, watched := false) else l
  }

  /** `cleanup_child`: stopped, waited for, descriptor closed, file unlinked. */
  function CleanUp(l: Load, child: Child): Load {
    Unlink(Close(l.(proc := Reaped), child.fd), child.file)
  }

  /** `kill(pid, SIGKILL)` reaches whichever process has that pid. */
  function Kill(loads: map<nat, Load>, pid: nat): map<nat, Load> {
    map id | id in loads :: if loads[id].pid == pid then Dies(loads[id]) else loads[id]
  }

  /** A level-triggered epoll reports a watched, open pidfd of a dead process. */
  predicate Ready(s: State, id: nat) {
    && id in s.loads
    && s.loads[id].watched
    && (s.loads[id].proc.Zombie? || s.loads[id].proc.Reaped?)
  }

  predicate FreshPid(s: State, pid: nat) {
    pid > 0 && forall id | id in s.loads :: s.loads[id].pid != pid
  }

  /** The reader is joined in `stop()`, and the executor no longer spins by then. */
  predicate ClientsRun(s: State) {
    s.dtor.Rank() <= 1
  }

  /** No step un-exhausts the counter, takes a frame back, sends two or raises a flag again. */
  predicate Onward(s: State, s': State) {
    && (s.exhausted ==> s'.exhausted)
    && s.wire <= s'.wire && |s'.wire| <= |s.wire| + 1
    && (s'.ok ==> s.ok) && (s'.active ==> s.active)
  }

  /** A request is moved on by its own client alone. */
  predicate OwnClient(s: State, s': State, c: nat) {
    c in s'.clients && s'.clients == s.clients[c := s'.clients[c]]
  }

  /** And only a new load touches the counter and the sequence numbers. */
  predicate Moves(s: State, s': State, c: nat) {
    && OwnClient(s, s', c)
    && s'.tables.counter == s.tables.counter && s'.tables.seqToId == s.tables.seqToId
  }

  predicate Stays(s: State, s': State) {
    && s'.clients == s.clients
    && s'.tables.counter == s.tables.counter && s'.tables.seqToId == s.tables.seqToId
  }

  // ---------- submit_spawn ----------

  predicate TaskEnabled(s: State, id: nat, choice: Choice) {
    && id in s.loads
    && s.loads[id].task.Running?
    && match s.loads[id].task.pc
       case Admission => choice.Go? || choice.Report?
       case Params => choice.Made?
       case PipeFork(_) => choice.ForkFail? || (choice.Fork? && FreshPid(s, choice.newPid))
       case Waiting(_, _) => WaitEnds(s.loads[id], choice)
       case OpenFd(_, _, _) => choice.Fd?
       case _ => choice.Go?
  }

  /**
   * What one turn of the wait may find. An answer is the line the child wrote, if it wrote one. A read of end-of-file
   * without a newline, or a failed `kill(pid, 0)`, means the process is gone; the latter looks at the process after a
   * poll that found nothing, so a line written in between does not hinder it.
   */
  predicate WaitEnds(l: Load, choice: Choice) {
    || choice.Report? || choice.GiveUp?
    || (choice.ReplyOk? && l.line == SaysOk(choice.name))
    || (choice.ReplyBad? && l.line.SaysBad?)
    || (choice.Gone? && !l.proc.Alive?)
  }

  /** The child is forked, and its parent has not come to an end of the wait for its line. */
  predicate Listening(t: Task) {
    t.Running? && (t.pc.Forked? || t.pc.Waiting?)
  }

  /** Where the step takes the worker. */
  function NextTask(w: nat, pc: Pc, choice: Choice, ok: bool, flagged: bool): (task: Task)
    ensures task.Finished? || (task.Running? && task.worker == w)
  {
    match pc
    case Guard => Running(w, if ok then Admission else Drop)
    case Drop => Finished(false)
    case Admission => Running(w, if choice.Report? then pc else PreFork)
    case PreFork => Running(w, if flagged then SendCancelled else Params)
    case SendCancelled => Finished(false)
    case Params => Running(w, if choice.Made? then PipeFork(choice.file) else pc)
    case PipeFork(file) => Running(w, if choice.Fork? then Forked(choice.newPid, file) else UnlinkFailed(file))
    case Forked(pid, file) => Running(w, Waiting(pid, file))
    case Waiting(pid, file) => Running(w, AfterWait(pid, file, choice))
    case KillChild(_, file) => Running(w, UnlinkFailed(file))
    case UnlinkFailed(_) => Running(w, Catch)
    case Catch => Running(w, CheckOk(flagged))
    case CheckOk(cancelled) => if ok then Running(w, SendFailed(cancelled)) else Finished(false)
    case SendFailed(_) => Finished(false)
    case OpenFd(pid, file, name) =>
      Running(w, if choice.Fd? then Recheck(Child(pid, name, choice.got, file)) else pc)
    case Recheck(child) => Running(w, if ok then Registering(child) else Cleanup(child))
    case Cleanup(_) => Running(w, Drop)
    case Registering(child) => Running(w, Unpending(child))
    case Unpending(child) => Running(w, SendLoaded(child))
    case SendLoaded(_) => Finished(true)
  }

  /** One turn of the wait for the ready line. */
  function AfterWait(pid: nat, file: bool, choice: Choice): Pc {
    match choice
    case ReplyOk(name) => OpenFd(pid, file, name)
    case ReplyBad => KillChild(pid, file)
    case GiveUp => KillChild(pid, file)
    case Gone => UnlinkFailed(file)
    case _ => Waiting(pid, file)
  }

  /** The steps that send an outcome. */
  predicate Answers(pc: Pc) {
    pc.SendCancelled? || pc.SendFailed? || pc.SendLoaded?
  }

  /** What the step makes of the load's record; `here` is where a frame sent now would stand. */
  function NextLoad(
    l: Load, choice: Choice, ok: bool, flagged: bool, monitorOn: bool, here: Option<nat>): (l': Load)
    requires l.task.Running?
    ensures l'.task == NextTask(l.task.worker, l.task.pc, choice, ok, flagged)
    ensures l'.acceptedAt == l.acceptedAt && l'.goneAt == l.goneAt && l'.removal == l.removal
    ensures l'.answerAt == if Answers(l.task.pc) then here else l.answerAt
    ensures l'.pid == if l.task.pc.PipeFork? && choice.Fork? then choice.newPid else l.pid
    ensures l'.line == if l.task.pc.PipeFork? && choice.Fork? then Silent else l.line
  {
    var next := l.(task := NextTask(l.task.worker, l.task.pc, choice, ok, flagged));
    match l.task.pc
    case SendCancelled => next.(answerAt := here)
    case SendFailed(_) => next.(answerAt := here)
    case SendLoaded(_) => next.(answerAt := here)
    case Params => if choice.Made? then next.(fileMade := choice.file) else next
    case PipeFork(_) => if choice.Fork? then next.(pid := choice.newPid, proc := Alive, line := Silent) else next
    case KillChild(_, _) => next.(proc := Reaped)
    case UnlinkFailed(file) => Unlink(next, file)
    case OpenFd(_, _, _) =>
      if choice.Fd? then next.(fdOpened := choice.got, watched := choice.got && monitorOn) else next
    case Cleanup(child) => CleanUp(next, child)
    case _ => next
  }

  /** The critical section the step runs, if it runs one. */
  function Section(t: Tables, id: nat, pc: Pc): (t': Tables)
    ensures t'.counter == t.counter && t'.seqToId == t.seqToId
  {
    match pc
    case Drop => Unpend(t, id)
    case PreFork => LoadTables.PreFork(t, id)
    case Forked(pid, _) => NoteConstructing(t, id, pid)
    case Catch => Unpend(t, id)
    case Registering(child) => Register(t, id, child)
    case Unpending(_) => Unpend(t, id)
    case _ => t
  }

  /** The frame the step sends, if it sends one. */
  function FrameOf(id: nat, pc: Pc, choice: Choice): Option<Msg> {
    match pc
    case Admission => if choice.Report? then Some(Progress(id, 0, Queued)) else None
    case SendCancelled => Some(LoadFailed(id, true))
    case Waiting(pid, _) => if choice.Report? then Some(Progress(id, pid, Constructing)) else None
    case SendFailed(cancelled) => Some(LoadFailed(id, cancelled))
    case SendLoaded(child) => Some(LoadedMsg(id, child.pid, child.name))
    case _ => None
  }

  function TaskApply(s: State, id: nat, choice: Choice): (s': State)
    requires TaskEnabled(s, id, choice)
    ensures Onward(s, s') && Stays(s, s')
  {
    var l := s.loads[id];
    var l' := NextLoad(l, choice, s.ok, Flagged(s.tables, id), s.monitorOn, Here(s));
    var frame := FrameOf(id, l.task.pc, choice);
    s.(loads := s.loads[id := l'],
       tables := Section(s.tables, id, l.task.pc),
       workers := if l'.task.Finished? then s.workers[l.task.worker := Free] else s.workers,
       wire := Written(s.wire, frame, s.active))
  }

  // ---------- clients ----------

  function SetClient(s: State, c: nat, k: Client): State {
    s.(clients := s.clients[c := k])
  }

  function NewLoad(origin: Origin, plugin: string, c: nat): Load {
    Load(origin, plugin, Unqueued(c), 0, NoProc, Silent, false, 0, false, false, 0, NotRemoved, None, None, None)
  }

  function SeqOf(origin: Origin): nat {
    if origin.Socket? then origin.seqNo else 0
  }

  /** The plugin lookup and the first section of `reserve_node_id`. */
  function BeginLoadApply(s: State, c: nat, origin: Origin, plugin: string, available: bool): (s': State)
    ensures Onward(s, s') && OwnClient(s, s', c)
  {
    var turnedAway := if origin.Socket? then Rejecting(origin.seqNo) else Idle;
    if !available then SetClient(s, c, turnedAway)
    else
      var (id, t) := Draw(s.tables);
      if id == 0 then SetClient(s, c, turnedAway).(tables := t, exhausted := true)
      else SetClient(s, c, Reserved(origin, plugin, id)).(tables := t, drawn := s.drawn[id := c])
  }

  /** The second section of `reserve_node_id`. */
  function InsertLoad(s: State, c: nat, origin: Origin, plugin: string, id: nat): (s': State)
    ensures Onward(s, s') && OwnClient(s, s', c) && s'.tables.counter == s.tables.counter
  {
    Put(SetClient(s, c, if origin.Socket? then Announce(origin.seqNo, id) else Submit(id)), id,
        NewLoad(origin, plugin, c))
    .(tables := Insert(s.tables, id, SeqOf(origin), plugin), drawn := s.drawn - {id})
  }

  function AnnounceLoad(s: State, c: nat, seqNo: nat, id: nat): (s': State)
    requires id in s.loads
    ensures Onward(s, s') && Moves(s, s', c)
  {
    SetClient(Send(Put(s, id, s.loads[id].(acceptedAt := Here(s))), Accepted(seqNo, id)), c, Submit(id))
  }

  function SubmitLoad(s: State, c: nat, id: nat): (s': State)
    requires id in s.loads
    ensures Onward(s, s') && Moves(s, s', c)
  {
    SetClient(Put(s, id, s.loads[id].(task := InQueue)), c, Idle).(queue := s.queue + [id])
  }

  function AskPending(s: State, c: nat, asked: Option<nat>, about: Option<nat>): (s': State)
    ensures Onward(s, s') && Moves(s, s', c)
  {
    var id := Resolve(s.tables, asked, about);
    var hit := PendingReport(s.tables, id);
    if hit.Some? then SetClient(Send(s, Status(asked, hit.value)), c, Idle)
    else SetClient(s, c, QueryChildren(asked, id, id in s.loads))
  }

  function AskChildren(s: State, c: nat, asked: Option<nat>, id: nat, known: bool): (s': State)
    ensures Onward(s, s') && Moves(s, s', c)
  {
    var hit := ChildReport(s.tables, id);
    if hit.Some? then SetClient(Send(s, Status(asked, hit.value)), c, Idle)
    else SetClient(s, c, QueryUnknown(asked, id, known))
  }

  function AnswerUnknown(s: State, c: nat, asked: Option<nat>, id: nat): (s': State)
    ensures Onward(s, s') && Moves(s, s', c)
  {
    SetClient(Send(s, Status(asked, NothingReport(id))), c, Idle)
  }

  function FlagLoad(s: State, c: nat, id: nat, reason: string): (s': State)
    ensures Onward(s, s') && Moves(s, s', c)
  {
    var victim := Victim(s.tables, id);
    SetClient(s, c, if victim > 0 then CancelKill(id, victim, |s.wire|) else CancelRecheck(id))
    .(tables := Flag(s.tables, id, reason))
  }

  /** `on_unload_node` under `children_mutex_`: out of the epoll set, stopped, cleaned up, erased. */
  function UnloadLoad(s: State, c: nat, id: nat): (s': State)
    requires id in s.tables.children ==> id in s.loads
    ensures Onward(s, s') && Moves(s, s', c)
  {
    if id in s.tables.children then
      var l := CleanUp(s.loads[id].(watched := false), s.tables.children[id]).(removal := ByUnload(c));
      SetClient(Put(s, id, l), c, UnloadSend(id)).(tables := Forget(s.tables, id))
    else SetClient(s, c, Idle)
  }

  function ReportUnload(s: State, c: nat, id: nat): (s': State)
    requires id in s.loads
    ensures Onward(s, s') && Moves(s, s', c)
  {
    SetClient(Send(Put(s, id, s.loads[id].(goneAt := Here(s))), Unloaded(id)), c, Idle)
  }

  function TurnAway(s: State, c: nat, seqNo: nat): (s': State)
    ensures Onward(s, s') && Moves(s, s', c)
  {
    SetClient(Send(s, Rejected(seqNo)), c, Idle)
  }

  function KillVictim(s: State, c: nat, pid: nat): (s': State)
    ensures Onward(s, s') && Moves(s, s', c)
  {
    SetClient(s, c, Idle).(loads := Kill(s.loads, pid))
  }

  /** The second look of `handle_control_cancel`: still queued, or else answer as a query. */
  function LookAgain(s: State, c: nat, id: nat): (s': State)
    ensures Onward(s, s') && Moves(s, s', c)
  {
    SetClient(s, c, if id in s.tables.pending then Idle else QueryPending(None, Some(id)))
  }

  /** `on_unload_node` refuses a load still under construction. */
  function CheckUnload(s: State, c: nat, id: nat): (s': State)
    ensures Onward(s, s') && Moves(s, s', c)
  {
    SetClient(s, c, if id in s.tables.pending then Idle else UnloadChild(id))
  }

  predicate ClientEnabled(s: State, c: nat) {
    && c in s.clients
    && match s.clients[c]
       case Idle => false
       case Announce(_, id) => id in s.loads
       case Submit(id) => id in s.loads
       case UnloadChild(id) => id in s.tables.children ==> id in s.loads
       case UnloadSend(id) => id in s.loads
       case _ => true
  }

  function ClientApply(s: State, c: nat): (s': State)
    requires ClientEnabled(s, c)
    ensures Onward(s, s') && OwnClient(s, s', c) && s'.tables.counter == s.tables.counter
    ensures !s.clients[c].Reserved? ==> s'.tables.seqToId == s.tables.seqToId
  {
    match s.clients[c]
    case Rejecting(seqNo) => TurnAway(s, c, seqNo)
    case Reserved(origin, plugin, id) => InsertLoad(s, c, origin, plugin, id)
    case Announce(seqNo, id) => AnnounceLoad(s, c, seqNo, id)
    case Submit(id) => SubmitLoad(s, c, id)
    case QueryPending(asked, about) => AskPending(s, c, asked, about)
    case QueryChildren(asked, id, known) => AskChildren(s, c, asked, id, known)
    case QueryUnknown(asked, id, _) => AnswerUnknown(s, c, asked, id)
    case CancelFlag(id, reason) => FlagLoad(s, c, id, reason)
    case CancelKill(_, pid, _) => KillVictim(s, c, pid)
    case CancelRecheck(id) => LookAgain(s, c, id)
    case UnloadPending(id) => CheckUnload(s, c, id)
    case UnloadChild(id) => UnloadLoad(s, c, id)
    case UnloadSend(id) => ReportUnload(s, c, id)
  }

  // ---------- monitor and destructor ----------

  /** `handle_child_death` on a registered child, one section under `children_mutex_`. */
  function BuryChild(s: State, id: nat): (s': State)
    requires id in s.tables.children && id in s.loads
    ensures Onward(s, s') && Stays(s, s')
  {
    var child := s.tables.children[id];
    var l := CleanUp(s.loads[id], child).(removal := ByCrash, goneAt := Here(s));
    Send(Put(s, id, l), Crashed(id, child.pid)).(tables := Forget(s.tables, id))
  }

  /** The next event of the batch; the stop descriptor and ids no longer registered are passed over. */
  function HandleApply(s: State): (s': State)
    requires s.monitor.Handling? && s.monitor.batch != []
    requires s.monitor.batch[0] in s.tables.children ==> s.monitor.batch[0] in s.loads
    ensures Stays(s, s')
  {
    var id := s.monitor.batch[0];
    var s1 := if id == 0 || id !in s.tables.children then s else BuryChild(s, id);
    s1.(monitor := Handling(s.monitor.batch[1..]))
  }

  /** A free worker takes the item at the head of the queue. */
  function PopItem(s: State, w: nat): (s': State)
    requires s.queue != [] && s.queue[0] in s.loads
    ensures Onward(s, s') && Stays(s, s')
  {
    Put(s, s.queue[0], s.loads[s.queue[0]].(task := Running(w, Guard)))
    .(queue := s.queue[1..], workers := s.workers[w := Busy(s.queue[0])])
  }

  function TakenOver(loads: map<nat, Load>, children: map<nat, Child>): map<nat, Load> {
    map id | id in loads :: if id in children then loads[id].(removal := ByShutdown) else loads[id]
  }

  /** The children under construction as far as `pending_loads_` knows: `terminate_children` signals them too. */
  function Constructed(t: Tables): map<nat, nat> {
    map id | id in t.pending && t.pending[id].phase.Constructing? && t.pending[id].pid > 0 :: t.pending[id].pid
  }

  /** `terminate_children` takes the whole map. */
  function SwapOut(s: State): (s': State)
    ensures Onward(s, s') && Stays(s, s') && s'.wire == s.wire && s'.queue == s.queue
    ensures s'.tables.pending == s.tables.pending
  {
    s.(dtor := ReadPending, stopping := s.tables.children, tables := s.tables.(children := map[]),
       loads := TakenOver(s.loads, s.tables.children))
  }

  /** Descriptor and file of a collected child. */
  function ReleaseOne(s: State, id: nat): (s': State)
    requires id in s.loads && id in s.stopping
    ensures Onward(s, s') && Stays(s, s')
  {
    Put(s, id, Unlink(Close(s.loads[id], s.stopping[id].fd), s.stopping[id].file))
    .(stopping := s.stopping - {id})
  }

  /** The destructor's last pass over `children_`. */
  function CleanOne(s: State, id: nat): (s': State)
    requires id in s.loads && id in s.tables.children
    ensures Onward(s, s') && Stays(s, s')
  {
    Put(s, id, CleanUp(s.loads[id], s.tables.children[id]).(removal := ByShutdown))
    .(tables := Forget(s.tables, id))
  }

  predicate DtorEnabled(s: State) {
    match s.dtor
    case NotStarted => true
    case JoinReader => forall c | c in s.clients :: s.clients[c].Idle?
    case JoinMonitor => !s.monitor.Handling?
    case SwapChildren => true
    case ReadPending => true
    case Reap(_) => forall id | id in s.stopping :: id in s.loads && s.loads[id].proc.Reaped?
    case Release => s.stopping == map[]
    case StopWorkers => true
    case JoinWorkers => forall w | w in s.workers :: s.workers[w].Exited?
    case FinalCleanup => s.tables.children == map[]
    case Done => false
  }

  function DtorApply(s: State): (s': State)
    requires DtorEnabled(s)
    ensures Onward(s, s') && Stays(s, s') && s'.wire == s.wire && s'.queue == s.queue
    ensures s'.tables.pending == s.tables.pending
  {
    match s.dtor
    case NotStarted => s.(dtor := JoinReader, active := false)
    case JoinReader => s.(dtor := JoinMonitor)
    case JoinMonitor => s.(dtor := SwapChildren, monitor := Joined)
    case SwapChildren => SwapOut(s)
    case ReadPending => s.(dtor := Reap(Constructed(s.tables)))
    case Reap(_) => s.(dtor := Release)
    case Release => s.(dtor := StopWorkers)
    case StopWorkers => s.(dtor := JoinWorkers, workersRunning := false)
    case JoinWorkers => s.(dtor := FinalCleanup)
    case FinalCleanup => s.(dtor := Done)
  }

  // ---------- one step ----------

  predicate Enabled(s: State, a: Action) {
    match a
    case ShutdownSignal => true
    case ProcessExits(id) => id in s.loads && s.loads[id].proc.Alive?
    case ChildWrites(id, line) =>
      && id in s.loads && s.loads[id].proc.Alive? && Listening(s.loads[id].task)
      && s.loads[id].line.Silent? && !line.Silent?
    case ChannelBreaks => true
    case BeginLoad(c, _, _, _) => ClientsRun(s) && c in s.clients && s.clients[c].Idle?
    case BeginQuery(c, _, _) => ClientsRun(s) && c in s.clients && s.clients[c].Idle?
    case BeginCancel(c, _, _) => ClientsRun(s) && c in s.clients && s.clients[c].Idle?
    case BeginUnload(c, _) => ClientsRun(s) && c in s.clients && s.clients[c].Idle?
    case ClientStep(c) => ClientEnabled(s, c)
    case Pop(w) =>
      w in s.workers && s.workers[w].Free? && s.workersRunning && s.queue != [] && s.queue[0] in s.loads
    case WorkerExit(w) => w in s.workers && s.workers[w].Free? && !s.workersRunning
    case TaskStep(id, choice) => TaskEnabled(s, id, choice)
    case Fetch(batch) =>
      s.monitorOn && s.monitor.Polling? && forall i | 0 <= i < |batch| :: batch[i] == 0 || Ready(s, batch[i])
    case HandleEvent =>
      s.monitor.Handling? && (s.monitor.batch != [] && s.monitor.batch[0] in s.tables.children
                              ==> s.monitor.batch[0] in s.loads)
    case DtorStep => DtorEnabled(s)
    case Collect(id) =>
      s.dtor.Reap? && id in s.stopping && id in s.loads && !s.loads[id].proc.Alive?
    case ForceKill(id) => s.dtor.Reap? && id in s.stopping && id in s.loads
    case ReleaseChild(id) => s.dtor.Release? && id in s.stopping && id in s.loads
    case CleanChild(id) => s.dtor.FinalCleanup? && id in s.tables.children && id in s.loads
  }

  function Apply(s: State, a: Action): (s': State)
    requires Enabled(s, a)
    ensures Onward(s, s')
  {
    match a
    case ShutdownSignal => s.(ok := false)
    case ProcessExits(id) => Put(s, id, Dies(s.loads[id]))
    case ChildWrites(id, line) => Put(s, id, s.loads[id].(line := line))
    case ChannelBreaks => s.(active := false)
    case BeginLoad(c, origin, plugin, available) => BeginLoadApply(s, c, origin, plugin, available)
    case BeginQuery(c, asked, about) => SetClient(s, c, QueryPending(asked, about))
    case BeginCancel(c, id, reason) => SetClient(s, c, CancelFlag(id, reason))
    case BeginUnload(c, id) => SetClient(s, c, UnloadPending(id))
    case ClientStep(c) => ClientApply(s, c)
    case Pop(w) => PopItem(s, w)
    case WorkerExit(w) => s.(workers := s.workers[w := Exited])
    case TaskStep(id, choice) => TaskApply(s, id, choice)
    case Fetch(batch) => s.(monitor := Handling(batch))
    case HandleEvent => if s.monitor.batch == [] then s.(monitor := Polling) else HandleApply(s)
    case DtorStep => DtorApply(s)
    case Collect(id) => Put(s, id, s.loads[id].(proc := Reaped))
    case ForceKill(id) => Put(s, id, s.loads[id].(proc := Reaped))
    case ReleaseChild(id) => ReleaseOne(s, id)
    case CleanChild(id) => CleanOne(s, id)
  }

  // ---------- runs ----------

  predicate Init(s: State) {
    && s.tables == Tables(1, map[], map[], map[])
    && !s.exhausted && s.ok
    && s.drawn == map[] && s.loads == map[] && s.queue == [] && s.stopping == map[] && s.wire == []
    && (forall c | c in s.clients :: s.clients[c].Idle?)
    && (forall w | w in s.workers :: s.workers[w].Free?)
    && s.workersRunning
    && s.monitor == (if s.monitorOn then Polling else Joined)
    && s.dtor.NotStarted?
  }

  /** `acts` leads through `ss`, one state more than there are actions. */
  predicate Run(ss: seq<State>, acts: seq<Action>) {
    && |ss| == |acts| + 1
    && Init(ss[0])
    && forall i | 0 <= i < |acts| :: Enabled(ss[i], acts[i]) && ss[i + 1] == Apply(ss[i], acts[i])
  }
}

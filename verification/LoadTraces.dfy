/** Runs that show where a stronger claim would be false: five interleavings of one load with another thread. */
module LoadTraces {
  import opened Common
  import opened LoadTables
  import opened LoadProtocol
  import opened LoadInvariant

  // ---------- scenes with one load, a second client and one worker ----------

  datatype Scene = Scene(tables: Tables, load: Load, client: Client, monitor: Monitor, dtor: Dtor, active: bool,
                         wire: seq<Msg>)

  function Snap(c: Scene): State {
    State(c.tables, false, true, c.active, true, map[], map[1 := c.load], [], map[1 := Idle, 2 := c.client],
          map[1 := if c.load.task.Finished? then Free else Busy(1)], true, c.monitor, c.dtor, map[], c.wire)
  }

  ghost predicate Reached(ss: seq<State>, acts: seq<Action>, c: Scene) {
    Run(ss, acts) && ss[|acts|] == Snap(c)
  }

  lemma Go(ss: seq<State>, acts: seq<Action>, s: State, a: Action)
      returns (longer: seq<State>, more: seq<Action>, next: State)
    requires Run(ss, acts) && ss[|acts|] == s && Enabled(s, a)
    ensures Run(longer, more) && |longer| == |more| + 1
    ensures longer[|more|] == next == Apply(s, a) && ss <= longer
  {
    hide Enabled, Apply, Init;
    next := Apply(s, a);
    longer, more := ss + [next], acts + [a];
  }

  /** The load's worker takes a step. */
  lemma TaskGo(ss: seq<State>, acts: seq<Action>, c: Scene, choice: Choice)
      returns (longer: seq<State>, more: seq<Action>, next: Scene)
    requires Reached(ss, acts, c) && TaskEnabled(Snap(c), 1, choice)
    requires c.load.task.Running? && c.load.task.worker == 1
    ensures Reached(longer, more, next) && ss <= longer
    ensures var pc := c.load.task.pc;
            next == c.(load := NextLoad(c.load, choice, true, Flagged(c.tables, 1), true, Here(Snap(c))),
                       tables := Section(c.tables, 1, pc),
                       wire := Written(c.wire, FrameOf(1, pc, choice), c.active))
  {
    hide Run, NextLoad, FrameOf, Section, Written, Flagged, TaskEnabled;
    var s;
    longer, more, s := Go(ss, acts, Snap(c), TaskStep(1, choice));
    var pc := c.load.task.pc;
    next := c.(load := NextLoad(c.load, choice, true, Flagged(c.tables, 1), true, Here(Snap(c))),
               tables := Section(c.tables, 1, pc),
               wire := Written(c.wire, FrameOf(1, pc, choice), c.active));
    assert s.loads == map[1 := next.load];
    assert s.workers == map[1 := if next.load.task.Finished? then Free else Busy(1)];
  }

  /** The second client begins a cancel, and sets the flag. */
  lemma CancelGo(ss: seq<State>, acts: seq<Action>, c: Scene)
      returns (longer: seq<State>, more: seq<Action>, next: Scene)
    requires Reached(ss, acts, c) && c.client.Idle? && c.dtor.NotStarted?
    ensures Reached(longer, more, next) && ss <= longer
    ensures var victim := Victim(c.tables, 1);
            next == c.(tables := Flag(c.tables, 1, "stop"),
                       client := if victim > 0 then CancelKill(1, victim, |c.wire|) else CancelRecheck(1))
  {
    hide Run, Onward, Stays, Moves, OwnClient, Flag, Victim;
    var s;
    longer, more, s := Go(ss, acts, Snap(c), BeginCancel(2, 1, "stop"));
    assert s == Snap(c.(client := CancelFlag(1, "stop")));
    longer, more, s := Go(longer, more, s, ClientStep(2));
    next := c.(tables := Flag(c.tables, 1, "stop"),
               client := if Victim(c.tables, 1) > 0 then CancelKill(1, Victim(c.tables, 1), |c.wire|)
                         else CancelRecheck(1));
    assert s.clients == map[1 := Idle, 2 := next.client];
  }

  const ENTRY := Pending(7, "p", Queued, 0, false, "")
  const CHILD := Child(5, "n", true, false)
  const START := Tables(1, map[], map[], map[])
  const LAUNCHED := Tables(2, map[1 := ENTRY], map[7 := 1], map[])

  function LoadAt(pc: Pc): Load {
    Load(Socket(7), "p", Running(1, pc), 0, NoProc, Silent, false, 0, false, false, 0, NotRemoved, Some(0), None, None)
  }

  function ChildAt(pc: Pc): Load {
    LoadAt(pc).(pid := 5, proc := Alive)
  }

  /** The same with the line written that says it is up. */
  function UpAt(pc: Pc): Load {
    ChildAt(pc).(line := SaysOk("n"))
  }

  function Idling(t: Tables, client: Client, drawn: map<nat, nat>, loads: map<nat, Load>, wire: seq<Msg>): State {
    State(t, false, true, true, true, drawn, loads, [], map[1 := client, 2 := Idle], map[1 := Free], true, Polling,
          NotStarted, map[], wire)
  }

  const TOLD := NewLoad(Socket(7), "p", 1).(acceptedAt := Some(0))
  const QUEUED := Idling(LAUNCHED, Idle, map[], map[1 := TOLD.(task := InQueue)], [Accepted(7, 1)]).(queue := [1])

  lemma InsertStep()
    ensures var s := Idling(START.(counter := 2), Reserved(Socket(7), "p", 1), map[1 := 1], map[], []);
            Enabled(s, ClientStep(1))
            && Apply(s, ClientStep(1))
            == Idling(LAUNCHED, Announce(7, 1), map[], map[1 := NewLoad(Socket(7), "p", 1)], [])
  {
    hide Onward, OwnClient;
    var s := Idling(START.(counter := 2), Reserved(Socket(7), "p", 1), map[1 := 1], map[], []);
    var s' := InsertLoad(s, 1, Socket(7), "p", 1);
    assert s'.clients == map[1 := Announce(7, 1), 2 := Idle] && s'.drawn == map[];
    assert s'.tables == LAUNCHED && s'.loads == map[1 := NewLoad(Socket(7), "p", 1)];
  }

  /** Load 7 comes over the socket and gets id 1. */
  lemma Reserves() returns (ss: seq<State>, acts: seq<Action>)
    ensures Run(ss, acts) && |ss| == |acts| + 1
    ensures ss[|acts|] == Idling(LAUNCHED, Announce(7, 1), map[], map[1 := NewLoad(Socket(7), "p", 1)], [])
  {
    hide Onward, OwnClient;
    var s := Idling(START, Idle, map[], map[], []);
    ss, acts := [s], [];
    assert Run(ss, acts);
    hide Run;
    ss, acts, s := Go(ss, acts, s, BeginLoad(1, Socket(7), "p", true));
    assert s == Idling(START.(counter := 2), Reserved(Socket(7), "p", 1), map[1 := 1], map[], []);
    hide Apply, Enabled, Idling;
    InsertStep();
    ss, acts, s := Go(ss, acts, s, ClientStep(1));
  }

  lemma AnnounceStep()
    ensures var s := Idling(LAUNCHED, Announce(7, 1), map[], map[1 := NewLoad(Socket(7), "p", 1)], []);
            Enabled(s, ClientStep(1))
            && Apply(s, ClientStep(1)) == Idling(LAUNCHED, Submit(1), map[], map[1 := TOLD], [Accepted(7, 1)])
  {
    hide Onward, Moves, OwnClient;
    var s := Idling(LAUNCHED, Announce(7, 1), map[], map[1 := NewLoad(Socket(7), "p", 1)], []);
    assert AnnounceLoad(s, 1, 7, 1).loads == map[1 := TOLD];
    assert AnnounceLoad(s, 1, 7, 1).clients == map[1 := Submit(1), 2 := Idle];
  }

  lemma SubmitStep()
    ensures var s := Idling(LAUNCHED, Submit(1), map[], map[1 := TOLD], [Accepted(7, 1)]);
            Enabled(s, ClientStep(1)) && Apply(s, ClientStep(1)) == QUEUED
  {
    hide Onward, Moves, OwnClient;
    var s := Idling(LAUNCHED, Submit(1), map[], map[1 := TOLD], [Accepted(7, 1)]);
    assert SubmitLoad(s, 1, 1).loads == map[1 := TOLD.(task := InQueue)];
    assert SubmitLoad(s, 1, 1).clients == map[1 := Idle, 2 := Idle];
  }

  /** It is announced and queued. */
  lemma Queues() returns (ss: seq<State>, acts: seq<Action>)
    ensures Run(ss, acts) && |ss| == |acts| + 1 && ss[|acts|] == QUEUED
  {
    hide Run, Apply, Enabled, Idling;
    ss, acts := Reserves();
    var s := ss[|acts|];
    AnnounceStep();
    ss, acts, s := Go(ss, acts, s, ClientStep(1));
    SubmitStep();
    ss, acts, s := Go(ss, acts, s, ClientStep(1));
  }

  /** A worker takes it. */
  lemma Begun() returns (ss: seq<State>, acts: seq<Action>, c: Scene)
    ensures Reached(ss, acts, c)
    ensures c == Scene(LAUNCHED, LoadAt(Guard), Idle, Polling, NotStarted, true, [Accepted(7, 1)])
  {
    hide Run, Onward, Stays;
    ss, acts := Queues();
    var s := ss[|acts|];
    ss, acts, s := Go(ss, acts, s, Pop(1));
    assert s.loads == map[1 := LoadAt(Guard)] && s.workers == map[1 := Busy(1)] && s.queue == [];
    c := Scene(LAUNCHED, LoadAt(Guard), Idle, Polling, NotStarted, true, [Accepted(7, 1)]);
  }

  /** It is not cancelled before the check. */
  lemma Passes() returns (ss: seq<State>, acts: seq<Action>, c: Scene)
    ensures Reached(ss, acts, c)
    ensures c == Scene(LAUNCHED, LoadAt(Params), Idle, Polling, NotStarted, true, [Accepted(7, 1)])
  {
    hide Reached;
    ss, acts, c := Begun();
    ss, acts, c := TaskGo(ss, acts, c, Choice.Go);
    ss, acts, c := TaskGo(ss, acts, c, Choice.Go);
    ss, acts, c := TaskGo(ss, acts, c, Choice.Go);
  }

  /** A child is forked. */
  lemma Forks() returns (ss: seq<State>, acts: seq<Action>, c: Scene)
    ensures Reached(ss, acts, c)
    ensures c == Scene(LAUNCHED, ChildAt(Forked(5, false)), Idle, Polling, NotStarted, true, [Accepted(7, 1)])
  {
    hide Reached;
    ss, acts, c := Passes();
    ss, acts, c := TaskGo(ss, acts, c, Made(false));
    ss, acts, c := TaskGo(ss, acts, c, Fork(5));
  }

  /** From the fork to the pid on record. */
  lemma Notes(ss: seq<State>, acts: seq<Action>, c: Scene)
      returns (longer: seq<State>, more: seq<Action>, next: Scene)
    requires Reached(ss, acts, c) && c.load == ChildAt(Forked(5, false)) && 1 in c.tables.pending
    ensures Reached(longer, more, next) && ss <= longer
    ensures next == c.(tables := NoteConstructing(c.tables, 1, 5), load := ChildAt(Waiting(5, false)))
  {
    hide Reached;
    longer, more, next := TaskGo(ss, acts, c, Choice.Go);
  }

  /** The child writes its line. */
  lemma Writes(ss: seq<State>, acts: seq<Action>, c: Scene, line: Line)
      returns (longer: seq<State>, more: seq<Action>, next: Scene)
    requires Reached(ss, acts, c) && c.load == ChildAt(Waiting(5, false)) && !line.Silent?
    ensures Reached(longer, more, next) && ss <= longer
    ensures next == c.(load := ChildAt(Waiting(5, false)).(line := line))
  {
    hide Run, Onward;
    var s;
    longer, more, s := Go(ss, acts, Snap(c), ChildWrites(1, line));
    next := c.(load := c.load.(line := line));
    assert s.loads == map[1 := next.load];
  }

  /** The line is read, and the pidfd opened. */
  lemma Opens(ss: seq<State>, acts: seq<Action>, c: Scene)
      returns (longer: seq<State>, more: seq<Action>, next: Scene)
    requires Reached(ss, acts, c) && c.load == UpAt(Waiting(5, false)) && c.active
    ensures Reached(longer, more, next) && ss <= longer
    ensures next == c.(load := UpAt(Recheck(CHILD)).(fdOpened := true, watched := true))
  {
    hide Reached;
    longer, more, next := TaskGo(ss, acts, c, ReplyOk("n"));
    longer, more, next := TaskGo(longer, more, next, Fd(true));
  }

  /** And the child put into `children_`. */
  lemma Registers(ss: seq<State>, acts: seq<Action>, c: Scene)
      returns (longer: seq<State>, more: seq<Action>, next: Scene)
    requires Reached(ss, acts, c) && c.load == UpAt(Waiting(5, false)) && c.active
    ensures Reached(longer, more, next) && ss <= longer
    ensures next == c.(tables := LoadTables.Register(c.tables, 1, CHILD),
                       load := UpAt(Unpending(CHILD)).(fdOpened := true, watched := true))
  {
    hide Reached;
    longer, more, next := Opens(ss, acts, c);
    longer, more, next := TaskGo(longer, more, next, Choice.Go);
    longer, more, next := TaskGo(longer, more, next, Choice.Go);
  }

  /** Its pending entry is taken away. */
  lemma Unpends(ss: seq<State>, acts: seq<Action>, c: Scene)
      returns (longer: seq<State>, more: seq<Action>, next: Scene)
    requires Reached(ss, acts, c) && c.load.task == Running(1, Unpending(CHILD))
    ensures Reached(longer, more, next) && ss <= longer
    ensures next == c.(tables := Unpend(c.tables, 1), load := GoTo(c.load, SendLoaded(CHILD)))
  {
    hide Reached;
    longer, more, next := TaskGo(ss, acts, c, Choice.Go);
  }

  /** And it is reported. */
  lemma SendsLoaded(ss: seq<State>, acts: seq<Action>, c: Scene)
      returns (longer: seq<State>, more: seq<Action>, next: Scene)
    requires Reached(ss, acts, c) && c.load.task == Running(1, SendLoaded(CHILD)) && c.active
    ensures Reached(longer, more, next) && ss <= longer
    ensures next.wire == c.wire + [LoadedMsg(1, 5, "n")]
    ensures next.load == c.load.(task := Finished(true), answerAt := Some(|c.wire|))
  {
    hide Reached;
    longer, more, next := TaskGo(ss, acts, c, Choice.Go);
  }

  /** Its second look finds the load still pending, and the cancel returns. */
  lemma LooksAgain(ss: seq<State>, acts: seq<Action>, c: Scene)
      returns (longer: seq<State>, more: seq<Action>, next: Scene)
    requires Reached(ss, acts, c) && c.client == CancelRecheck(1) && 1 in c.tables.pending
    ensures Reached(longer, more, next) && ss <= longer && next == c.(client := Idle)
  {
    hide Run, Onward, Stays, Moves, OwnClient;
    var s;
    longer, more, s := Go(ss, acts, Snap(c), ClientStep(2));
    next := c.(client := Idle);
    assert s.clients == map[1 := Idle, 2 := Idle];
  }

  lemma ReachedMeans(ss: seq<State>, acts: seq<Action>, c: Scene)
    requires Reached(ss, acts, c)
    ensures Run(ss, acts) && |ss| == |acts| + 1 && ss[|acts|] == Snap(c)
  {
  }

  // ---------- the five runs ----------

  /**
   * A cancel can be overtaken. It comes after the pre-fork check and before the
   * pid is on record, finds the load pending, sets the flag and returns with
   * nothing to kill; the flag is then dropped. The cancelled load ends as
   * `loaded`, with its process running.
   */
  lemma CancelCanBeOvertaken() returns (ss: seq<State>, acts: seq<Action>, i: nat)
    ensures Run(ss, acts) && i <= |acts|
    ensures Flagged(ss[i].tables, 1) && ss[i].clients == map[1 := Idle, 2 := Idle]
    ensures ss[|acts|].wire == [Accepted(7, 1), LoadedMsg(1, 5, "n")]
    ensures 1 in ss[|acts|].loads && ss[|acts|].loads[1].proc.Alive? && ss[|acts|].loads[1].task.Finished?
  {
    hide Reached, Run;
    var c: Scene;
    ss, acts, c := Forks();
    ss, acts, c := CancelGo(ss, acts, c);
    ss, acts, c := LooksAgain(ss, acts, c);
    ReachedMeans(ss, acts, c);
    i := |acts|;
    var early, cancelled := ss, c;
    ss, acts, c := Notes(ss, acts, c);
    ss, acts, c := Writes(ss, acts, c, SaysOk("n"));
    ss, acts, c := Registers(ss, acts, c);
    ss, acts, c := Unpends(ss, acts, c);
    ss, acts, c := SendsLoaded(ss, acts, c);
    ReachedMeans(ss, acts, c);
    assert ss[i] == early[i] == Snap(cancelled);
  }

  /** `crashed` can reach the wire before `loaded`: the child is registered before its worker reports it. */
  lemma CrashCanComeFirst() returns (ss: seq<State>, acts: seq<Action>)
    ensures Run(ss, acts)
    ensures ss[|acts|].wire == [Accepted(7, 1), Crashed(1, 5), LoadedMsg(1, 5, "n")]
  {
    hide Reached, Run;
    var c: Scene;
    ss, acts, c := Forks();
    ss, acts, c := Notes(ss, acts, c);
    ss, acts, c := Writes(ss, acts, c, SaysOk("n"));
    ss, acts, c := Registers(ss, acts, c);
    ss, acts, c := ChildDies(ss, acts, c);
    ss, acts, c := Unpends(ss, acts, c);
    ss, acts, c := SendsLoaded(ss, acts, c);
    ReachedMeans(ss, acts, c);
  }

  /** The registered child dies and the monitor reports it. */
  lemma ChildDies(ss: seq<State>, acts: seq<Action>, c: Scene)
      returns (longer: seq<State>, more: seq<Action>, next: Scene)
    requires Reached(ss, acts, c) && c.monitor.Polling? && c.active
    requires c.load == UpAt(Unpending(CHILD)).(fdOpened := true, watched := true)
    requires c.tables.children == map[1 := CHILD]
    ensures Reached(longer, more, next) && ss <= longer
    ensures next.wire == c.wire + [Crashed(1, 5)] && next.load.task == c.load.task && next.active
  {
    hide Run, Onward, Stays, Enabled, Apply;
    var c2;
    longer, more, c2 := ChildIsFetched(ss, acts, c);
    next := Buried(c2);
    var s;
    HandlingIsEnabled(c2);
    longer, more, s := Go(longer, more, Snap(c2), HandleEvent);
  }

  lemma HandlingIsEnabled(c: Scene)
    requires c.monitor == Handling([1])
    ensures Enabled(Snap(c), HandleEvent)
  {
    hide Onward, Stays;
  }

  /** The child exits and the monitor's wait reports it. */
  lemma ChildIsFetched(ss: seq<State>, acts: seq<Action>, c: Scene)
      returns (longer: seq<State>, more: seq<Action>, next: Scene)
    requires Reached(ss, acts, c) && c.monitor.Polling? && c.active
    requires c.load == UpAt(Unpending(CHILD)).(fdOpened := true, watched := true)
    ensures Reached(longer, more, next) && ss <= longer
    ensures next == c.(load := c.load.(proc := Zombie), monitor := Handling([1]))
  {
    hide Run, Onward, Stays, HandleApply;
    var s;
    longer, more, s := Go(ss, acts, Snap(c), ProcessExits(1));
    var c1 := c.(load := c.load.(proc := Zombie));
    assert s.loads == map[1 := c1.load] && s == Snap(c1);
    longer, more, s := Go(longer, more, s, Fetch([1]));
    next := c1.(monitor := Handling([1]));
    assert s == Snap(next);
  }

  /** The scene after the monitor has handled its one event. */
  lemma Buried(c: Scene) returns (next: Scene)
    requires c.monitor == Handling([1]) && c.active && c.tables.children == map[1 := CHILD] && c.load.task.Running?
    ensures Snap(next) == Apply(Snap(c), HandleEvent)
    ensures next.wire == c.wire + [Crashed(1, 5)] && next.load.task == c.load.task && next.active
  {
    hide Onward, Stays;
    var s := HandleApply(Snap(c));
    assert c.monitor.batch[1..] == [];
    next := c.(load := s.loads[1], tables := s.tables, monitor := Handling([]), wire := c.wire + [Crashed(1, 5)]);
    assert s.loads == map[1 := next.load];
  }

  /** So can `unloaded`: an unload finds the child registered and no longer pending before it is reported. */
  lemma UnloadCanComeFirst() returns (ss: seq<State>, acts: seq<Action>)
    ensures Run(ss, acts)
    ensures ss[|acts|].wire == [Accepted(7, 1), Unloaded(1), LoadedMsg(1, 5, "n")]
  {
    hide Reached, Run;
    var c: Scene;
    ss, acts, c := Forks();
    ss, acts, c := Notes(ss, acts, c);
    ss, acts, c := Writes(ss, acts, c, SaysOk("n"));
    ss, acts, c := Registers(ss, acts, c);
    ss, acts, c := Unpends(ss, acts, c);
    ss, acts, c := UnloadBegins(ss, acts, c);
    ss, acts, c := Unloads(ss, acts, c);
    ss, acts, c := SendsLoaded(ss, acts, c);
    ReachedMeans(ss, acts, c);
  }

  /** The second client's unload passes its look at the pending loads. */
  lemma UnloadBegins(ss: seq<State>, acts: seq<Action>, c: Scene)
      returns (longer: seq<State>, more: seq<Action>, next: Scene)
    requires Reached(ss, acts, c) && c.client.Idle? && c.dtor.NotStarted? && 1 !in c.tables.pending
    ensures Reached(longer, more, next) && ss <= longer && next == c.(client := UnloadChild(1))
  {
    hide Run, Onward, Stays, Moves, OwnClient;
    var s;
    longer, more, s := Go(ss, acts, Snap(c), BeginUnload(2, 1));
    assert s == Snap(c.(client := UnloadPending(1)));
    longer, more, s := Go(longer, more, s, ClientStep(2));
    next := c.(client := UnloadChild(1));
    assert s.clients == map[1 := Idle, 2 := UnloadChild(1)];
  }

  /** It takes the child out and reports it. */
  lemma Unloads(ss: seq<State>, acts: seq<Action>, c: Scene)
      returns (longer: seq<State>, more: seq<Action>, next: Scene)
    requires Reached(ss, acts, c) && c.client == UnloadChild(1) && c.active
    requires c.tables.children == map[1 := CHILD] && c.load.task == Running(1, SendLoaded(CHILD))
    ensures Reached(longer, more, next) && ss <= longer
    ensures next.wire == c.wire + [Unloaded(1)] && next.load.task == c.load.task && next.active
  {
    hide Run, Apply, Enabled, UnloadLoad, ReportUnload;
    var s;
    var c1 := TakesOut(c);
    longer, more, s := Go(ss, acts, Snap(c), ClientStep(2));
    next := Tells(c1);
    longer, more, s := Go(longer, more, s, ClientStep(2));
  }

  /** The scene after the report. */
  lemma Tells(c: Scene) returns (next: Scene)
    requires c.client == UnloadSend(1) && c.active && c.load.task.Running?
    ensures Enabled(Snap(c), ClientStep(2)) && Snap(next) == Apply(Snap(c), ClientStep(2))
    ensures next.wire == c.wire + [Unloaded(1)] && next.load.task == c.load.task && next.active
  {
    hide Onward, Moves, OwnClient;
    next := c.(client := Idle, load := c.load.(goneAt := Some(|c.wire|)), wire := c.wire + [Unloaded(1)]);
    var s := ReportUnload(Snap(c), 2, 1);
    assert s.clients == map[1 := Idle, 2 := Idle] && s.loads == map[1 := next.load];
  }

  /** The scene after the child has been taken out. */
  lemma TakesOut(c: Scene) returns (next: Scene)
    requires c.client == UnloadChild(1) && c.tables.children == map[1 := CHILD]
    requires c.load.task == Running(1, SendLoaded(CHILD))
    ensures Enabled(Snap(c), ClientStep(2)) && Snap(next) == Apply(Snap(c), ClientStep(2))
    ensures next.client == UnloadSend(1) && next.wire == c.wire && next.load.task == c.load.task
    ensures next.active == c.active
  {
    hide Onward, Moves, OwnClient;
    var s := UnloadLoad(Snap(c), 2, 1);
    next := c.(client := UnloadSend(1), load := s.loads[1], tables := s.tables);
    assert s.clients == map[1 := Idle, 2 := UnloadSend(1)] && s.loads == map[1 := next.load];
  }

  /**
   * A cancel that goes on to kill can return with nothing owed any more: the
   * child fails by itself between the flag and the kill, and its worker reports
   * the load as cancelled before the killing thread has come to its kill.
   */
  lemma CancelKillCanComeLate() returns (ss: seq<State>, acts: seq<Action>)
    ensures Run(ss, acts)
    ensures ss[|acts|].clients == map[1 := Idle, 2 := CancelKill(1, 5, 1)]
    ensures ss[|acts|].wire == [Accepted(7, 1), LoadFailed(1, true)]
    ensures 1 in ss[|acts|].loads && ss[|acts|].loads[1].task.Finished? && 1 !in ss[|acts|].tables.pending
  {
    hide Reached, Run;
    var c: Scene;
    ss, acts, c := Forks();
    ss, acts, c := Notes(ss, acts, c);
    ss, acts, c := CancelGo(ss, acts, c);
    ss, acts, c := Writes(ss, acts, c, SaysBad);
    ss, acts, c := Refuses(ss, acts, c);
    ss, acts, c := Kills(ss, acts, c);
    ss, acts, c := Fails(ss, acts, c);
    ReachedMeans(ss, acts, c);
  }

  /** Its error is read. */
  lemma Refuses(ss: seq<State>, acts: seq<Action>, c: Scene)
      returns (longer: seq<State>, more: seq<Action>, next: Scene)
    requires Reached(ss, acts, c) && c.load == ChildAt(Waiting(5, false)).(line := SaysBad)
    ensures Reached(longer, more, next) && ss <= longer
    ensures next == c.(load := ChildAt(KillChild(5, false)).(line := SaysBad))
  {
    hide Reached;
    longer, more, next := TaskGo(ss, acts, c, ReplyBad);
  }

  /** It is killed, and its file removed. */
  lemma Kills(ss: seq<State>, acts: seq<Action>, c: Scene)
      returns (longer: seq<State>, more: seq<Action>, next: Scene)
    requires Reached(ss, acts, c) && c.load == ChildAt(KillChild(5, false)).(line := SaysBad)
    ensures Reached(longer, more, next) && ss <= longer
    ensures next == c.(load := ChildAt(Catch).(line := SaysBad, proc := Reaped))
  {
    hide Reached;
    longer, more, next := TaskGo(ss, acts, c, Choice.Go);
    longer, more, next := TaskGo(longer, more, next, Choice.Go);
  }

  /** And its load is reported as cancelled. */
  lemma Fails(ss: seq<State>, acts: seq<Action>, c: Scene)
      returns (longer: seq<State>, more: seq<Action>, next: Scene)
    requires Reached(ss, acts, c) && c.load == ChildAt(Catch).(line := SaysBad, proc := Reaped)
    requires c.active && Flagged(c.tables, 1)
    ensures Reached(longer, more, next) && ss <= longer
    ensures next.wire == c.wire + [LoadFailed(1, true)] && next.load.task.Finished?
    ensures next.client == c.client && 1 !in next.tables.pending
  {
    hide Reached;
    longer, more, next := TaskGo(ss, acts, c, Choice.Go);
    assert next == c.(load := GoTo(c.load, CheckOk(true)), tables := Unpend(c.tables, 1));
    longer, more, next := TaskGo(longer, more, next, Choice.Go);
    longer, more, next := TaskGo(longer, more, next, Choice.Go);
  }

  /**
   * The destructor can find one process in both of its lists, in `children_` and
   * still pending under construction, and then signals it twice.
   */
  lemma OneProcessInBothLists() returns (ss: seq<State>, acts: seq<Action>)
    ensures Run(ss, acts)
    ensures var s := ss[|acts|];
            && s.stopping == map[1 := CHILD] && s.dtor == Reap(map[1 := CHILD.pid])
            && 1 in s.loads && s.loads[1].proc.Alive? && s.loads[1].pid == CHILD.pid
  {
    hide Reached, Run;
    var c: Scene;
    ss, acts, c := Forks();
    ss, acts, c := Notes(ss, acts, c);
    ss, acts, c := Writes(ss, acts, c, SaysOk("n"));
    ss, acts, c := Registers(ss, acts, c);
    ss, acts, c := Stops(ss, acts, c);
    ss, acts := Signals(ss, acts, c);
  }

  /** It takes one list and reads the other. */
  lemma Signals(ss: seq<State>, acts: seq<Action>, c: Scene) returns (longer: seq<State>, more: seq<Action>)
    requires Reached(ss, acts, c) && c.dtor.SwapChildren? && c.tables.children == map[1 := CHILD]
    requires c.tables.pending == map[1 := ENTRY.(phase := Constructing, pid := CHILD.pid)]
    ensures Run(longer, more)
    ensures var s := longer[|more|];
            && s.stopping == map[1 := CHILD] && s.dtor == Reap(map[1 := CHILD.pid])
            && 1 in s.loads && s.loads[1] == c.load.(removal := ByShutdown)
  {
    hide Run, Onward, Stays;
    var s;
    longer, more, s := Go(ss, acts, Snap(c), DtorStep);
    assert s.tables.pending == c.tables.pending && s.dtor.ReadPending? && s.stopping == map[1 := CHILD];
    longer, more, s := Go(longer, more, s, DtorStep);
    assert Constructed(c.tables) == map[1 := CHILD.pid];
  }

  /** The destructor comes to `terminate_children`. */
  lemma Stops(ss: seq<State>, acts: seq<Action>, c: Scene)
      returns (longer: seq<State>, more: seq<Action>, next: Scene)
    requires Reached(ss, acts, c) && c.dtor.NotStarted? && c.client.Idle? && c.monitor.Polling?
    ensures Reached(longer, more, next) && ss <= longer
    ensures next == c.(dtor := SwapChildren, active := false, monitor := Joined)
  {
    hide Run, Onward, Stays, Moves, OwnClient;
    var s;
    longer, more, s := Go(ss, acts, Snap(c), DtorStep);
    longer, more, s := Go(longer, more, s, DtorStep);
    longer, more, s := Go(longer, more, s, DtorStep);
    next := c.(dtor := SwapChildren, active := false, monitor := Joined);
  }
}

/** What the invariant says of whole runs, up to the first exhaustion of the id counter. */
module LoadTheorems {
  import opened Common
  import opened LoadTables
  import opened LoadProtocol
  import opened LoadInvariant
  import opened LoadTaskSteps
  import opened LoadSharedSteps
  import opened LoadClientSteps
  import opened LoadOtherSteps

  // ---------- every state of a run ----------

  lemma {:induction false} ExhaustionStaysTo(ss: seq<State>, acts: seq<Action>, i: nat, j: nat)
    requires Run(ss, acts) && i <= j <= |acts| && ss[i].exhausted
    ensures ss[j].exhausted
  {
    if i < j {
      ExhaustionStaysTo(ss, acts, i, j - 1);
    }
  }

  /** In every run, every state before the counter is exhausted satisfies the invariant. */
  lemma {:induction false} RunKeepsInv(ss: seq<State>, acts: seq<Action>, i: nat)
    requires Run(ss, acts) && i <= |acts| && !ss[i].exhausted
    ensures Inv(ss[i])
  {
    hide Inv, Apply, Enabled;
    if i == 0 {
      InitInv(ss[0]);
    } else {
      RunKeepsInv(ss, acts, i - 1);
      StepKeepsInv(ss[i - 1], acts[i - 1]);
    }
  }

  /** The states the theorems speak of: those of any run, up to the first exhaustion of the id counter. */
  ghost predicate Reachable(s: State) {
    !s.exhausted && exists ss: seq<State>, acts: seq<Action> :: Run(ss, acts) && ss[|acts|] == s
  }

  lemma ReachableInv(s: State)
    requires Reachable(s)
    ensures Inv(s) && !s.exhausted
  {
    var ss: seq<State>, acts: seq<Action> :| Run(ss, acts) && ss[|acts|] == s;
    RunKeepsInv(ss, acts, |acts|);
  }

  lemma RunReaches(ss: seq<State>, acts: seq<Action>, i: nat)
    requires Run(ss, acts) && i <= |acts| && !ss[i].exhausted
    ensures Reachable(ss[i])
  {
    hide Init, Enabled, Apply;
    assert Run(ss[..i + 1], acts[..i]);
    assert ss[..i + 1][|acts[..i]|] == ss[i];
  }

  /** No frame is ever taken back. */
  lemma {:induction false} WireOnlyGrows(ss: seq<State>, acts: seq<Action>, i: nat, j: nat)
    requires Run(ss, acts) && i <= j <= |acts|
    ensures ss[i].wire <= ss[j].wire && |ss[j].wire| <= |ss[i].wire| + (j - i)
    ensures (ss[j].ok ==> ss[i].ok) && (ss[j].active ==> ss[i].active)
  {
    hide Apply, Enabled, Init;
    if i < j {
      WireOnlyGrows(ss, acts, i, j - 1);
      assert Onward(ss[j - 1], Apply(ss[j - 1], acts[j - 1]));
    }
  }

  /** What the invariant says of one load. */
  lemma LoadIsSound(s: State, id: nat)
    requires Inv(s) && id in s.loads
    ensures Sound(ViewOf(s, id), s.monitorOn) && Answered(s.loads[id], s.ok, s.active) && Carried(s, id)
    ensures MarksSound(s.wire, id, s.loads[id])
  {
    hide Sound, Answered, MarksSound, IdsInv, QueueInv, WorkersInv, ClientsInv, MonitorInv, DtorInv, MsgSound;
  }

  lemma MessageIsSound(s: State, i: nat)
    requires Inv(s) && i < |s.wire|
    ensures MsgSound(s.loads, s.wire[i], i)
  {
    hide MsgSound, IdsInv, LoadsInv, CarriedInv, QueueInv, WorkersInv, ClientsInv, MonitorInv, DtorInv;
  }

  // ---------- loads only ever move forward ----------

  /** A step either runs one load's own code or leaves all loads aside; the invariant holds after it. */
  lemma StepSplits(s: State, a: Action)
    requires Inv(s) && Enabled(s, a) && !Apply(s, a).exhausted
    ensures Inv(Apply(s, a))
    ensures a.TaskStep? ==> Profile(s, Apply(s, a), a.id)
    ensures !a.TaskStep? ==> Forward(s, Apply(s, a))
  {
    StepKeepsInv(s, a);
    if a.TaskStep? {
      TaskProfile(s, a.id, a.choice);
    }
  }

  lemma StepEvolves(s: State, a: Action)
    requires Inv(s) && Enabled(s, a) && !Apply(s, a).exhausted
    ensures LoadsEvolve(s, Apply(s, a))
  {
    hide Inv, Apply, Enabled;
    StepSplits(s, a);
  }

  /** Once no process runs for a load and its worker is past the fork, that is so for good. */
  lemma {:induction false} QuietForever(ss: seq<State>, acts: seq<Action>, id: nat, i: nat, j: nat)
    requires Run(ss, acts) && i <= j <= |acts| && !ss[j].exhausted
    requires id in ss[i].loads && Quiet(ss[i].loads[id])
    ensures id in ss[j].loads && Quiet(ss[j].loads[id])
  {
    hide Inv, Apply, Enabled;
    if i < j {
      QuietForever(ss, acts, id, i, j - 1);
      RunKeepsInv(ss, acts, j - 1);
      StepEvolves(ss[j - 1], acts[j - 1]);
      assert Evolves(ss[j - 1].loads[id], ss[j].loads[id], |ss[j - 1].wire|);
    }
  }

  // ---------- `unknown` ----------

  /** The supervisor has been told of the load, or may ask for it by its sequence number. */
  ghost predicate Announced(s: State, asked: Option<nat>, about: Option<nat>) {
    || (about.Some? && exists i | 0 <= i < |s.wire| :: s.wire[i].Accepted? && s.wire[i].id == about.value)
    || (about.None? && asked.Some? && asked.value in s.tables.seqToId)
  }

  /** An announced load is one the manager has on record. */
  lemma AnnouncedIsOnRecord(s: State, asked: Option<nat>, about: Option<nat>)
    requires Inv(s) && Announced(s, asked, about)
    ensures Resolve(s.tables, asked, about) in s.loads
  {
    if about.Some? {
      var i :| 0 <= i < |s.wire| && s.wire[i].Accepted? && s.wire[i].id == about.value;
      assert MsgSound(s.loads, s.wire[i], i);
    }
  }

  /** So a query for an announced load that misses its pending entry goes on knowing the load. */
  lemma AnnouncedIsKnown(s: State, c: nat, asked: Option<nat>, about: Option<nat>)
    requires Reachable(s) && Announced(s, asked, about)
    requires PendingReport(s.tables, Resolve(s.tables, asked, about)).None?
    ensures var id := Resolve(s.tables, asked, about);
            AskPending(s, c, asked, about).clients == s.clients[c := QueryChildren(asked, id, true)]
  {
    ReachableInv(s);
    AnnouncedIsOnRecord(s, asked, about);
  }

  /** A process that runs is visible: its load is pending, registered, or in the hands of the destructor. */
  lemma RunningIsVisible(s: State, id: nat)
    requires Reachable(s) && id in s.loads && s.loads[id].proc.Alive?
    ensures id in s.tables.pending || id in s.tables.children || id in s.stopping
  {
    ReachableInv(s);
    assert Sound(ViewOf(s, id), s.monitorOn);
  }

  /**
   * `unknown` is a positive statement: in every run, when a query that found its
   * load announced is about to answer `unknown`, no process runs for that load,
   * then or at any later moment, however the threads interleave.
   */
  lemma UnknownMeansNothingRuns(ss: seq<State>, acts: seq<Action>, c: nat, i: nat, j: nat)
    requires Run(ss, acts) && i <= j <= |acts| && !ss[j].exhausted
    requires c in ss[i].clients && ss[i].clients[c].QueryUnknown? && ss[i].clients[c].known
    ensures var id := ss[i].clients[c].id;
            id in ss[j].loads && !ss[j].loads[id].proc.Alive? && NoMoreFork(ss[j].loads[id].task)
  {
    if ss[i].exhausted {
      ExhaustionStaysTo(ss, acts, i, j);
    }
    RunKeepsInv(ss, acts, i);
    assert ClientSound(ss[i], c, ss[i].clients[c]);
    QuietForever(ss, acts, ss[i].clients[c].id, i, j);
  }

  /** A process comes into being only at a fork of the load's own worker. */
  lemma ForkNeedsTask(s: State, a: Action, id: nat)
    requires Reachable(s) && Enabled(s, a) && !Apply(s, a).exhausted && id in s.loads && id in Apply(s, a).loads
    requires !s.loads[id].proc.Alive? && Apply(s, a).loads[id].proc.Alive?
    ensures a.TaskStep? && a.id == id && !NoMoreFork(s.loads[id].task)
  {
    hide Inv, Apply, Enabled, OnlyEntry, OwnFrame, Sound, Answered, Reachable;
    ReachableInv(s);
    StepSplits(s, a);
  }

  // ---------- who owns a child ----------

  datatype Place = AtWorker | InChildren | InShutdown | LetGo

  ghost function Places(s: State, id: nat): set<Place>
    requires id in s.loads
  {
    var stage := StageOf(s.loads[id].task);
    (if stage.Undone? || stage.Delivered? then {} else {AtWorker})
    + (if id in s.tables.children then {InChildren} else {})
    + (if id in s.stopping then {InShutdown} else {})
    + (if (stage.Undone? || stage.Delivered?) && Nowhere(ViewOf(s, id)) then {LetGo} else {})
  }

  /**
   * In every state a load's child, pidfd and parameter file have exactly one
   * owner; while they have one they are unreleased, and once let go the process
   * is not running and each has been released exactly once.
   */
  lemma OneOwner(s: State, id: nat)
    requires Reachable(s) && id in s.loads
    ensures exists p :: Places(s, id) == {p}
    ensures LetGo in Places(s, id) ==> Released(s.loads[id])
    ensures LetGo !in Places(s, id) ==> s.loads[id].unlinks == 0 && s.loads[id].closes == 0
  {
    hide Inv, Reachable, Sound, Answered, Carried, MarksSound;
    ReachableInv(s);
    LoadIsSound(s, id);
    OneStage(ViewOf(s, id), s.monitorOn);
    var stage := StageOf(s.loads[id].task);
    var p := if id in s.tables.children then InChildren
             else if id in s.stopping then InShutdown
             else if stage.Undone? || stage.Delivered? then LetGo
             else AtWorker;
    assert Places(s, id) == {p};
  }

  lemma OneStage(v: View, monitorOn: bool)
    requires Sound(v, monitorOn)
    ensures v.child.None? || v.stopping.None?
    ensures var stage := StageOf(v.load.task);
            && (!Nowhere(v) ==> stage.Delivered? && v.load.unlinks == 0 && v.load.closes == 0)
            && (Nowhere(v) && (stage.Undone? || stage.Delivered?) ==> Released(v.load))
            && (Nowhere(v) && !stage.Undone? && !stage.Delivered? ==> v.load.unlinks == 0 && v.load.closes == 0)
  {
  }

  /** Two loads never own the same process. */
  ghost predicate PidsDistinct(s: State) {
    forall i, j | i in s.loads && j in s.loads && i != j && s.loads[i].pid != 0 :: s.loads[i].pid != s.loads[j].pid
  }

  lemma PidChange(s: State, a: Action, id: nat)
    requires Inv(s) && Enabled(s, a) && !Apply(s, a).exhausted && id in Apply(s, a).loads
    ensures id !in s.loads ==> Apply(s, a).loads[id].pid == 0
    ensures id in s.loads && Apply(s, a).loads[id].pid != s.loads[id].pid ==> FreshPid(s, Apply(s, a).loads[id].pid)
  {
    hide Inv, Apply;
    StepSplits(s, a);
    if a.TaskStep? {
      assert Apply(s, a) == TaskApply(s, a.id, a.choice) by {
        StepIsTask(s, a);
      }
      TaskPid(s, a.id, a.choice);
    }
  }

  lemma StepIsTask(s: State, a: Action)
    requires Enabled(s, a) && a.TaskStep?
    ensures Apply(s, a) == TaskApply(s, a.id, a.choice)
  {
  }

  lemma TaskPid(s: State, id: nat, choice: Choice)
    requires TaskEnabled(s, id, choice)
    ensures var pid := TaskApply(s, id, choice).loads[id].pid;
            pid == s.loads[id].pid || FreshPid(s, pid)
  {
    hide TaskApply, NextLoad, NextTask, Onward, Stays, Section, FrameOf, FreshPid;
    ShapeOfStep(s, id, choice);
  }

  lemma StepKeepsPidsDistinct(s: State, a: Action)
    requires Inv(s) && PidsDistinct(s) && Enabled(s, a) && !Apply(s, a).exhausted
    ensures PidsDistinct(Apply(s, a))
  {
    var s' := Apply(s, a);
    StepEvolves(s, a);
    forall i, j | i in s'.loads && j in s'.loads && i != j && s'.loads[i].pid != 0
      ensures s'.loads[i].pid != s'.loads[j].pid
    {
      OnePidChange(s, a, i, j);
    }
  }

  /** At most one load gets a pid in a step, and no load had it before. */
  lemma OnePidChange(s: State, a: Action, i: nat, j: nat)
    requires Inv(s) && PidsDistinct(s) && Enabled(s, a) && !Apply(s, a).exhausted
    requires i in Apply(s, a).loads && j in Apply(s, a).loads && i != j && Apply(s, a).loads[i].pid != 0
    ensures Apply(s, a).loads[i].pid != Apply(s, a).loads[j].pid
  {
    hide Inv, Apply, Enabled;
    PidChange(s, a, i);
    PidChange(s, a, j);
    StepSplits(s, a);
  }

  /** When the destructor returns, every child ever forked is dead and everything it held is released once. */
  lemma ShutdownReleasesEverything(ss: seq<State>, acts: seq<Action>, id: nat)
    requires Run(ss, acts) && var s := ss[|acts|]; s.dtor.Done? && !s.exhausted && id in s.loads
    ensures var l := ss[|acts|].loads[id];
            && !l.proc.Alive?
            && l.unlinks == (if l.fileMade then 1 else 0)
            && l.closes == (if l.fdOpened then 1 else 0)
  {
    hide Inv, Apply, Enabled;
    RunKeepsInv(ss, acts, |acts|);
    DoneIsReleased(ss[|acts|], id);
  }

  lemma DoneIsReleased(s: State, id: nat)
    requires Inv(s) && s.dtor.Done? && id in s.loads
    ensures Released(s.loads[id])
  {
    hide LoadsInv, CarriedInv, QueueInv, WorkersInv, ClientsInv, MonitorInv, WireInv, Sound, Answered, MarksSound;
    LoadIsSound(s, id);
    assert Carried(s, id) && s.stopping == map[] && s.tables.children == map[];
    RestIsReleased(ViewOf(s, id), s.monitorOn);
  }

  lemma RestIsReleased(v: View, monitorOn: bool)
    requires Sound(v, monitorOn) && Nowhere(v) && (v.load.task.InQueue? || v.load.task.Finished?)
    ensures Released(v.load)
  {
  }

  // ---------- every load is answered, once, and not before it was accepted ----------

  lemma PendingView(v: View, monitorOn: bool)
    requires Sound(v, monitorOn) && v.pending.Some?
    ensures !v.load.task.Finished? && v.load.answerAt.None?
  {
  }

  /** A pending load is still somebody's to move on: its client's, the queue's or a worker's. */
  lemma PendingIsCarried(s: State, id: nat)
    requires Reachable(s) && id in s.tables.pending
    ensures id in s.loads && !s.loads[id].task.Finished? && s.loads[id].answerAt.None?
    ensures || (exists c :: c in s.clients && s.loads[id].task == Unqueued(c) && !s.clients[c].Idle?)
            || id in s.queue
            || (exists w :: w in s.workers && s.workers[w] == Busy(id) && s.loads[id].task.Running?)
    ensures forall i | 0 <= i < |s.wire| && Outcome(s.wire[i]) :: s.wire[i].id != id
  {
    hide Reachable, LoadsInv, CarriedInv, QueueInv, WorkersInv, ClientsInv, MonitorInv, DtorInv, WireInv;
    hide Sound, Answered, MarksSound;
    ReachableInv(s);
    LoadIsSound(s, id);
    PendingView(ViewOf(s, id), s.monitorOn);
    match s.loads[id].task {
      case Unqueued(c) => assert c in s.clients;
      case InQueue =>
      case Running(w, _) => assert w in s.workers;
    }
    forall i | 0 <= i < |s.wire| && Outcome(s.wire[i])
      ensures s.wire[i].id != id
    {
      MessageIsSound(s, i);
    }
  }

  /** While the context is up and the channel open, a load whose work is over has exactly one outcome on the wire. */
  lemma FinishedIsAnswered(s: State, id: nat)
    requires Reachable(s) && s.ok && s.active && id in s.loads && s.loads[id].task.Finished?
    ensures exists i :: 0 <= i < |s.wire| && Outcome(s.wire[i]) && s.wire[i].id == id
                        && forall j | 0 <= j < |s.wire| && Outcome(s.wire[j]) && s.wire[j].id == id :: j == i
  {
    ReachableInv(s);
    assert Answered(s.loads[id], s.ok, s.active) && MarksSound(s.wire, id, s.loads[id]);
    var i := s.loads[id].answerAt.value;
    forall j | 0 <= j < |s.wire| && Outcome(s.wire[j]) && s.wire[j].id == id
      ensures j == i
    {
      assert MsgSound(s.loads, s.wire[j], j);
    }
    assert Outcome(s.wire[i]) && s.wire[i].id == id;
  }

  /** No load is answered twice, whatever happens. */
  lemma AtMostOneOutcome(s: State, i: nat, j: nat)
    requires Reachable(s) && i < |s.wire| && j < |s.wire|
    requires Outcome(s.wire[i]) && Outcome(s.wire[j]) && s.wire[i].id == s.wire[j].id
    ensures i == j
  {
    ReachableInv(s);
    assert MsgSound(s.loads, s.wire[i], i) && MsgSound(s.loads, s.wire[j], j);
  }

  /** For a load asked for over the socket, `accepted` stands before everything else said about its construction. */
  lemma AcceptedComesFirst(s: State, i: nat)
    requires Reachable(s) && i < |s.wire| && AboutLoad(s.wire[i])
    ensures s.wire[i].id in s.loads
    ensures var l := s.loads[s.wire[i].id];
            l.origin.Socket? ==>
              exists j :: 0 <= j < i && s.wire[j] == Accepted(l.origin.seqNo, s.wire[i].id)
  {
    ReachableInv(s);
    var id := s.wire[i].id;
    assert MsgSound(s.loads, s.wire[i], i);
    assert MarksSound(s.wire, id, s.loads[id]);
    if s.loads[id].origin.Socket? {
      var j := s.loads[id].acceptedAt.value;
      assert s.wire[j] == Accepted(s.loads[id].origin.seqNo, id);
    }
  }

  // ---------- cancels ----------

  /** The worker still owes this load its one outcome. */
  ghost predicate Owes(s: State, id: nat) {
    && id in s.loads && id in s.tables.pending && !s.loads[id].task.Finished?
    && forall i | 0 <= i < |s.wire| && Outcome(s.wire[i]) :: s.wire[i].id != id
  }

  /** A cancel that finds its load pending, at either look, finds it owed an outcome. */
  lemma CancelFindsDebt(s: State, c: nat)
    requires Reachable(s) && ClientEnabled(s, c)
    requires s.clients[c].CancelFlag? || s.clients[c].CancelRecheck?
    requires s.clients[c].id in s.tables.pending
    ensures Owes(s, s.clients[c].id)
  {
    ReachableInv(s);
    PendingIsCarried(s, s.clients[c].id);
  }

  /** The sections of a query: one status and done, or on to the next in silence; the last one always sends. */
  lemma PendingAnswers(s: State, c: nat, asked: Option<nat>, about: Option<nat>)
    requires s.active
    ensures var s', id := AskPending(s, c, asked, about), Resolve(s.tables, asked, about);
            match PendingReport(s.tables, id)
            case Some(r) => s'.wire == s.wire + [Status(asked, r)] && r.id == id && s'.clients == s.clients[c := Idle]
            case None => s'.wire == s.wire && s'.clients == s.clients[c := QueryChildren(asked, id, id in s.loads)]
  {
    hide Onward, Moves, OwnClient;
  }

  lemma ChildrenAnswer(s: State, c: nat, asked: Option<nat>, id: nat, known: bool)
    requires s.active
    ensures var s' := AskChildren(s, c, asked, id, known);
            match ChildReport(s.tables, id)
            case Some(r) => s'.wire == s.wire + [Status(asked, r)] && r.id == id && s'.clients == s.clients[c := Idle]
            case None => s'.wire == s.wire && s'.clients == s.clients[c := QueryUnknown(asked, id, known)]
  {
    hide Onward, Moves, OwnClient;
  }

  lemma UnknownAnswers(s: State, c: nat, asked: Option<nat>, id: nat)
    requires s.active
    ensures var s' := AnswerUnknown(s, c, asked, id);
            && s'.wire == s.wire + [Status(asked, NothingReport(id))]
            && s'.clients == s.clients[c := Idle]
  {
  }

  /**
   * A cancel about to kill: the outcome was owed when the flag was set, and by
   * now it either is still owed or stands on the wire after that moment.
   */
  lemma CancelKillIsAnswered(s: State, c: nat)
    requires Reachable(s) && s.ok && s.active && c in s.clients && s.clients[c].CancelKill?
    ensures var k := s.clients[c];
            && k.id in s.loads && k.mark <= |s.wire|
            && (forall i | 0 <= i < k.mark && Outcome(s.wire[i]) :: s.wire[i].id != k.id)
            && (s.loads[k.id].task.Finished? ==>
                  exists i :: k.mark <= i < |s.wire| && Outcome(s.wire[i]) && s.wire[i].id == k.id)
  {
    ReachableInv(s);
    var k := s.clients[c];
    assert ClientSound(s, c, k);
    assert Answered(s.loads[k.id], s.ok, s.active) && MarksSound(s.wire, k.id, s.loads[k.id]);
    forall i | 0 <= i < k.mark && Outcome(s.wire[i])
      ensures s.wire[i].id != k.id
    {
      assert MsgSound(s.loads, s.wire[i], i);
    }
    if s.loads[k.id].task.Finished? {
      assert Outcome(s.wire[s.loads[k.id].answerAt.value]);
    }
  }

  /** The kill reaches the cancelled load's own process. */
  lemma CancelKillsItsVictim(s: State, c: nat)
    requires Reachable(s) && ClientEnabled(s, c) && s.clients[c].CancelKill?
    ensures var id := s.clients[c].id;
            id in s.loads && Dead(ClientApply(s, c).loads[id])
  {
    ReachableInv(s);
    assert ClientSound(s, c, s.clients[c]);
    assert Sound(ViewOf(s, s.clients[c].id), s.monitorOn);
  }

  // ---------- a cancel in time ----------

  /** Cancelled before the check, and everything such a load can still become. */
  ghost predicate Doomed(s: State, id: nat) {
    && id in s.loads && s.loads[id].proc.NoProc?
    && var t := s.loads[id].task;
    && (Early(t) || t.Finished? || (t.Running? && (t.pc.Drop? || t.pc.SendCancelled?)))
    && (Early(t) ==> Flagged(s.tables, id))
    && (s.loads[id].answerAt.Some? ==>
          s.loads[id].answerAt.value < |s.wire| && s.wire[s.loads[id].answerAt.value] == LoadFailed(id, true))
  }

  /** What a step of another actor cannot do to a doomed load. */
  lemma DoomedAside(s: State, s': State, id: nat)
    requires Doomed(s, id) && id in s'.loads && s.wire <= s'.wire && Aside(s.loads[id], s'.loads[id])
    requires Flagged(s.tables, id) ==> Flagged(s'.tables, id)
    ensures Doomed(s', id)
  {
  }

  /** What the load's own step makes of a doomed load. */
  lemma DoomedNext(l: Load, choice: Choice, ok: bool, flagged: bool, monitorOn: bool, here: Option<nat>)
    requires l.task.Running? && (l.task.pc.Drop? || l.task.pc.SendCancelled? || (Early(l.task) && flagged))
    ensures var l' := NextLoad(l, choice, ok, flagged, monitorOn, here);
            && l'.proc == l.proc && (Early(l'.task) ==> !l.task.pc.PreFork?)
            && (l'.task.Finished?
                || (l'.task.Running? && (l'.task.pc.Drop? || l'.task.pc.SendCancelled? || Early(l'.task))))
  {
  }

  lemma SectionKeepsFlag(t: Tables, id: nat, pc: Pc)
    requires Flagged(t, id) && (pc.Guard? || pc.Admission?)
    ensures Flagged(Section(t, id, pc), id)
  {
  }

  lemma DoomedTask(s: State, id: nat, choice: Choice)
    requires Inv(s) && Doomed(s, id) && TaskEnabled(s, id, choice)
    ensures Doomed(TaskApply(s, id, choice), id)
  {
    hide TaskApply, Onward, Stays, Inv, Sound, Answered, Carried, MarksSound, NextLoad, Section, Flagged;
    LoadIsSound(s, id);
    RunningIsUnanswered(ViewOf(s, id), s.monitorOn);
    ShapeOfStep(s, id, choice);
    var l := s.loads[id];
    DoomedNext(l, choice, s.ok, Flagged(s.tables, id), s.monitorOn, Here(s));
    if l.task.pc.Guard? || l.task.pc.Admission? {
      SectionKeepsFlag(s.tables, id, l.task.pc);
    }
  }

  lemma DoomedStays(s: State, a: Action, id: nat)
    requires Inv(s) && Doomed(s, id) && Enabled(s, a) && !Apply(s, a).exhausted
    ensures Doomed(Apply(s, a), id)
  {
    hide Inv, Apply, OwnFrame, Sound, Answered, Evolves, TaskApply, TaskEnabled;
    if a.TaskStep? && a.id == id {
      StepIsTask(s, a);
      DoomedTask(s, id, a.choice);
    } else {
      StepSplits(s, a);
      if a.TaskStep? {
        assert Lookup(Apply(s, a).tables.pending, id) == Lookup(s.tables.pending, id);
      }
      DoomedAside(s, Apply(s, a), id);
    }
  }

  /**
   * A cancel flagged before the worker's pre-fork check: in no continuation is a
   * process forked for the load, and its outcome, if it gets one, is
   * `load_failed` with `cancelled` set.
   */
  lemma {:induction false} EarlyCancelPreventsFork(ss: seq<State>, acts: seq<Action>, id: nat, i: nat, j: nat)
    requires Run(ss, acts) && i <= j <= |acts| && !ss[j].exhausted
    requires id in ss[i].loads && Early(ss[i].loads[id].task) && Flagged(ss[i].tables, id)
    ensures Doomed(ss[j], id)
  {
    hide Inv, Apply, Enabled;
    if i < j {
      EarlyCancelPreventsFork(ss, acts, id, i, j - 1);
      RunKeepsInv(ss, acts, j - 1);
      DoomedStays(ss[j - 1], acts[j - 1], id);
    } else {
      RunKeepsInv(ss, acts, i);
      EarlyIsDoomed(ss[i], id);
    }
  }

  lemma EarlyIsDoomed(s: State, id: nat)
    requires Inv(s) && id in s.loads && Early(s.loads[id].task) && Flagged(s.tables, id)
    ensures Doomed(s, id)
  {
    EarlyIsFresh(ViewOf(s, id), s.monitorOn);
  }

  lemma EarlyIsFresh(v: View, monitorOn: bool)
    requires Sound(v, monitorOn) && Early(v.load.task)
    ensures v.load.proc.NoProc? && v.load.answerAt.None?
  {
  }

  /** What being doomed means to the supervisor: nothing runs, and the one answer it can get says `cancelled`. */
  lemma DoomedIsCancelled(s: State, id: nat, k: nat)
    requires Reachable(s) && Doomed(s, id)
    ensures s.loads[id].proc.NoProc?
    ensures k < |s.wire| && Outcome(s.wire[k]) && s.wire[k].id == id ==> s.wire[k] == LoadFailed(id, true)
    ensures s.loads[id].task.Finished? && s.ok && s.active ==>
              exists i :: 0 <= i < |s.wire| && s.wire[i] == LoadFailed(id, true)
  {
    ReachableInv(s);
    assert Answered(s.loads[id], s.ok, s.active);
    if k < |s.wire| && Outcome(s.wire[k]) && s.wire[k].id == id {
      assert MsgSound(s.loads, s.wire[k], k);
    }
  }

  // ---------- crashes ----------

  /** With monitoring up, a registered child whose pidfd was opened is watched; when it dies, epoll shows it. */
  lemma NoCrashIsLost(s: State, id: nat)
    requires Reachable(s) && s.monitorOn && id in s.tables.children && s.tables.children[id].fd
    ensures id in s.loads && s.loads[id].watched && s.loads[id].closes == 0
    ensures Dead(s.loads[id]) <==> Ready(s, id)
  {
    ReachableInv(s);
    RegisteredIsWatched(ViewOf(s, id), s.monitorOn);
  }

  lemma RegisteredIsWatched(v: View, monitorOn: bool)
    requires Sound(v, monitorOn) && v.child.Some?
    ensures v.load.watched == (v.child.value.fd && monitorOn) && v.load.closes == 0 && v.load.pid == v.child.value.pid
    ensures v.load.proc.Alive? || v.load.proc.Zombie?
  {
  }

  /** A child that dies before it is registered stays visible to epoll: handling the event early does not lose it. */
  lemma EarlyEventIsKept(s: State, id: nat)
    requires s.monitor.Polling? && s.monitorOn && Ready(s, id) && id !in s.tables.children
    ensures Enabled(s, Fetch([id]))
    ensures var s1 := Apply(s, Fetch([id]));
            Enabled(s1, HandleEvent) && Ready(Apply(s1, HandleEvent), id)
            && Apply(s1, HandleEvent).tables == s.tables && Apply(s1, HandleEvent).wire == s.wire
  {
    hide Onward, Stays, Inv;
  }

  /** Two steps of the monitor report a registered child's death and let it go. */
  lemma CrashIsReported(s: State, id: nat)
    requires Reachable(s) && s.monitor.Polling? && s.monitorOn && s.active
    requires id in s.tables.children && s.tables.children[id].fd && id in s.loads && Dead(s.loads[id])
    ensures Ready(s, id)
    ensures var s' := HandleApply(s.(monitor := Handling([id])));
            && s'.wire == s.wire + [Crashed(id, s.loads[id].pid)]
            && id !in s'.tables.children && Released(s'.loads[id])
  {
    ReachableInv(s);
    NoCrashIsLost(s, id);
    RegisteredIsWatched(ViewOf(s, id), s.monitorOn);
    assert id != 0;
    BuriedIsReleased(s, id);
    HandleIsBury(s, id);
  }

  lemma HandleIsBury(s: State, id: nat)
    requires id != 0 && id in s.tables.children && id in s.loads
    ensures HandleApply(s.(monitor := Handling([id]))) == BuryChild(s, id).(monitor := Handling([]))
  {
    var s1 := s.(monitor := Handling([id]));
    assert s1.monitor.batch[1..] == [];
    assert BuryChild(s1, id) == BuryChild(s, id).(monitor := Handling([id]));
  }

  lemma BuriedIsReleased(s: State, id: nat)
    requires id in s.tables.children && id in s.loads && s.active && Sound(ViewOf(s, id), s.monitorOn)
    ensures var s', child := BuryChild(s, id), s.tables.children[id];
            s'.wire == s.wire + [Crashed(id, child.pid)] && id !in s'.tables.children && Released(s'.loads[id])
  {
    RemovedIsSound(ViewOf(s, id), s.monitorOn, ByCrash, Here(s));
    BuriedCounts(ViewOf(s, id), s.monitorOn, Here(s));
  }

  lemma BuriedCounts(v: View, monitorOn: bool, goneAt: Option<nat>)
    requires Sound(v, monitorOn) && v.child.Some?
    ensures Released(CleanUp(v.load, v.child.value).(removal := ByCrash, goneAt := goneAt))
  {
    assert HeldUnreaped(v.load, v.child.value, monitorOn);
  }

  /** The monitor never buries a live child. */
  lemma OnlyDeadAreReported(s: State, id: nat)
    requires Reachable(s) && s.monitor.Handling? && s.monitor.batch != [] && s.monitor.batch[0] == id
    requires id in s.tables.children
    ensures id in s.loads && Dead(s.loads[id])
  {
    ReachableInv(s);
    assert id in s.loads && id != 0;
  }

  /** A child the monitor has taken out of the table is reported as crashed, exactly once. */
  lemma RemovedIsReported(s: State, id: nat)
    requires Reachable(s) && s.active && id in s.loads && s.loads[id].removal.ByCrash?
    ensures exists i :: 0 <= i < |s.wire| && s.wire[i].Crashed? && s.wire[i].id == id
                        && forall j | 0 <= j < |s.wire| && s.wire[j].Crashed? && s.wire[j].id == id :: j == i
  {
    ReachableInv(s);
    assert Answered(s.loads[id], s.ok, s.active) && MarksSound(s.wire, id, s.loads[id]);
    var i := s.loads[id].goneAt.value;
    assert MsgSound(s.loads, s.wire[i], i);
    forall j | 0 <= j < |s.wire| && s.wire[j].Crashed? && s.wire[j].id == id
      ensures j == i
    {
      assert MsgSound(s.loads, s.wire[j], j);
    }
  }

  /** Each id is reported gone at most once, as crashed or as unloaded. */
  lemma AtMostOneFarewell(s: State, i: nat, j: nat)
    requires Reachable(s) && i < |s.wire| && j < |s.wire|
    requires Farewell(s.wire[i]) && Farewell(s.wire[j]) && s.wire[i].id == s.wire[j].id
    ensures i == j
  {
    ReachableInv(s);
    assert MsgSound(s.loads, s.wire[i], i) && MsgSound(s.loads, s.wire[j], j);
  }

  // ---------- ids ----------

  /**
   * After its overflow the counter starts again: the caller that draws zero is turned away and adds nothing, and the
   * next gets id 1, whatever has become of the first load of that id.
   */
  lemma IdsRestartAfterOverflow(s: State, c: nat, d: nat, e: nat, q: nat, plugin: string)
    requires s.tables.counter == ID_LIMIT - 1
    ensures var s1 := BeginLoadApply(s, c, Socket(q), plugin, true);
            var s2 := BeginLoadApply(s1, d, Socket(q), plugin, true);
            var s3 := BeginLoadApply(s2, e, Socket(q), plugin, true);
            && s1.clients == s.clients[c := Reserved(Socket(q), plugin, ID_LIMIT - 1)] && s1.exhausted == s.exhausted
            && s2.clients == s1.clients[d := Rejecting(q)] && s2.exhausted
            && s2.drawn == s1.drawn && s2.loads == s.loads && s2.tables.pending == s.tables.pending
            && s3.clients == s2.clients[e := Reserved(Socket(q), plugin, 1)]
  {
    hide Onward, OwnClient;
  }

  lemma ListedView(v: View, monitorOn: bool)
    requires Sound(v, monitorOn) && v.child.Some? && v.pending.None?
    ensures PastUnpend(v.load.task)
  {
  }

  /** What `on_list_nodes` lists has left construction and is owned by `children_`. */
  lemma ListedIsLoaded(s: State, id: nat)
    requires Reachable(s) && id in Listed(s.tables)
    ensures id in s.loads && PastUnpend(s.loads[id].task) && Places(s, id) == {InChildren}
  {
    hide Reachable, LoadsInv, CarriedInv, QueueInv, WorkersInv, ClientsInv, MonitorInv, DtorInv, WireInv;
    hide Sound, Answered, Carried, MarksSound;
    ReachableInv(s);
    OneOwner(s, id);
    LoadIsSound(s, id);
    ListedView(ViewOf(s, id), s.monitorOn);
  }

  /** No guard of the model stops a thread the source would let run. */
  lemma NobodyIsStuck(s: State)
    requires Reachable(s)
    ensures forall c | c in s.clients && !s.clients[c].Idle? :: Enabled(s, ClientStep(c))
    ensures forall w | w in s.workers && s.workers[w].Free? && s.workersRunning && s.queue != [] :: Enabled(s, Pop(w))
    ensures forall w | w in s.workers && s.workers[w].Free? && !s.workersRunning :: Enabled(s, WorkerExit(w))
    ensures forall id | id in s.loads && s.loads[id].task.Running? :: exists x :: Enabled(s, TaskStep(id, x))
    ensures s.monitor.Handling? ==> Enabled(s, HandleEvent)
  {
    hide LoadsInv, CarriedInv, WorkersInv, DtorInv, WireInv, ClientEnabled, TaskEnabled;
    ReachableInv(s);
    forall c | c in s.clients && !s.clients[c].Idle?
      ensures Enabled(s, ClientStep(c))
    {
      ClientNotStuck(s, c);
    }
    forall id | id in s.loads && s.loads[id].task.Running?
      ensures exists x :: Enabled(s, TaskStep(id, x))
    {
      var x := TaskNotStuck(s, id);
    }
  }

  lemma ClientNotStuck(s: State, c: nat)
    requires IdsInv(s) && c in s.clients && !s.clients[c].Idle? && ClientSound(s, c, s.clients[c])
    ensures ClientEnabled(s, c)
  {
  }

  lemma TaskNotStuck(s: State, id: nat) returns (x: Choice)
    requires id in s.loads && s.loads[id].task.Running?
    ensures Enabled(s, TaskStep(id, x))
  {
    var pc := s.loads[id].task.pc;
    x := if pc.Params? then Made(false)
         else if pc.PipeFork? then ForkFail
         else if pc.Waiting? then GiveUp
         else if pc.OpenFd? then Fd(false)
         else Choice.Go;
  }

  /** And the destructor goes on, or waits for a thread or a child that can. */
  lemma DestructorIsNotStuck(s: State) returns (a: Action)
    requires Reachable(s) && !s.dtor.Done?
    ensures Enabled(s, a) && (a.DtorStep? || DtorAwaits(s, a))
  {
    ReachableInv(s);
    NobodyIsStuck(s);
    hide Reachable, DtorEnabled, ClientEnabled, TaskEnabled, LoadsInv, CarriedInv, QueueInv, ClientsInv, WireInv;
    if DtorEnabled(s) {
      a := DtorStep;
    } else {
      a := Awaited(s);
    }
  }

  /** What the destructor waits for where it is. */
  ghost predicate DtorAwaits(s: State, a: Action) {
    match s.dtor
    case JoinReader => a.ClientStep?
    case JoinMonitor => a.HandleEvent?
    case Reap(_) => a.ForceKill?
    case Release => a.ReleaseChild?
    case JoinWorkers => a.WorkerExit? || a.TaskStep?
    case FinalCleanup => a.CleanChild?
    case _ => false
  }

  lemma Awaited(s: State) returns (a: Action)
    requires IdsInv(s) && WorkersInv(s) && DtorInv(s) && !s.dtor.Done? && !DtorEnabled(s)
    requires forall c | c in s.clients && !s.clients[c].Idle? :: Enabled(s, ClientStep(c))
    requires s.monitor.Handling? ==> Enabled(s, HandleEvent)
    ensures Enabled(s, a) && DtorAwaits(s, a)
  {
    hide ClientEnabled, TaskEnabled;
    match s.dtor
    case JoinReader =>
      var c :| c in s.clients && !s.clients[c].Idle?;
      a := ClientStep(c);
    case JoinMonitor => a := HandleEvent;
    case Reap(_) =>
      var id :| id in s.stopping && !(id in s.loads && s.loads[id].proc.Reaped?);
      a := ForceKill(id);
    case Release =>
      var id :| id in s.stopping;
      a := ReleaseChild(id);
    case JoinWorkers => a := WorkerNotStuck(s);
    case FinalCleanup =>
      var id :| id in s.tables.children;
      a := CleanChild(id);
  }

  lemma WorkerNotStuck(s: State) returns (a: Action)
    requires WorkersInv(s) && DtorInv(s) && s.dtor.JoinWorkers? && !DtorEnabled(s)
    ensures Enabled(s, a) && (a.WorkerExit? || a.TaskStep?)
  {
    var w :| w in s.workers && !s.workers[w].Exited?;
    if s.workers[w].Free? {
      a := WorkerExit(w);
    } else {
      var x := TaskNotStuck(s, s.workers[w].id);
      a := TaskStep(s.workers[w].id, x);
    }
  }
}

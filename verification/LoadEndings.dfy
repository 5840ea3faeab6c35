/** How loads end: which cancels are honoured, and in which order an outcome and a farewell reach the wire. */
module LoadEndings {
  import opened Common
  import opened LoadTables
  import opened LoadProtocol
  import opened LoadInvariant
  import LoadOtherSteps
  import opened LoadTaskSteps
  import opened LoadClientSteps
  import opened LoadTheorems
  import opened LoadAnswers

  // ---------- continuations ----------

  /** A way on from `s`, until the id counter is exhausted. */
  ghost predicate Continues(s: State, ss: seq<State>, acts: seq<Action>) {
    && |ss| == |acts| + 1 && ss[0] == s && !ss[|acts|].exhausted
    && forall i | 0 <= i < |acts| :: Enabled(ss[i], acts[i]) && ss[i + 1] == Apply(ss[i], acts[i])
  }

  /** `loaded` has been sent for `id`. */
  ghost predicate SaysLoaded(s: State, id: nat) {
    exists k :: 0 <= k < |s.wire| && s.wire[k].LoadedMsg? && s.wire[k].id == id
  }

  lemma {:induction false} ContinuationKeepsInv(s: State, ss: seq<State>, acts: seq<Action>, i: nat)
    requires Inv(s) && !s.exhausted && Continues(s, ss, acts) && i <= |acts|
    ensures !ss[i].exhausted && Inv(ss[i])
  {
    hide Inv, Enabled, Apply;
    NotYetUsedUp(s, ss, acts, i, |acts|);
    if i > 0 {
      ContinuationKeepsInv(s, ss, acts, i - 1);
      LoadOtherSteps.StepKeepsInv(ss[i - 1], acts[i - 1]);
    }
  }

  lemma {:induction false} NotYetUsedUp(s: State, ss: seq<State>, acts: seq<Action>, i: nat, j: nat)
    requires Continues(s, ss, acts) && i <= j <= |acts|
    ensures ss[i].exhausted ==> ss[j].exhausted
  {
    hide Enabled, Apply;
    if i < j {
      NotYetUsedUp(s, ss, acts, i, j - 1);
      assert Onward(ss[j - 1], Apply(ss[j - 1], acts[j - 1]));
    }
  }

  // ---------- loads that can no longer end as loaded ----------

  /** The child will never say that it is up: it has written something else, or died without a word. */
  ghost predicate Mute(l: Load) {
    l.line.SaysBad? || (l.line.Silent? && !l.proc.Alive?)
  }

  /** Program points that lead to no `loaded`. */
  ghost predicate Lost(t: Task) {
    || t == Finished(false)
    || (t.Running? && (t.pc.Drop? || t.pc.SendCancelled? || t.pc.KillChild? || t.pc.UnlinkFailed? || t.pc.Catch?
                       || t.pc.CheckOk? || t.pc.SendFailed? || t.pc.Cleanup?))
  }

  ghost predicate Barred(s: State, id: nat) {
    && id in s.loads
    && var l := s.loads[id];
    Lost(l.task) || (Listening(l.task) && Mute(l)) || (Early(l.task) && Flagged(s.tables, id))
  }

  lemma BarredAside(s: State, s': State, id: nat)
    requires Barred(s, id) && id in s'.loads && Aside(s.loads[id], s'.loads[id])
    requires Flagged(s.tables, id) ==> Flagged(s'.tables, id)
    ensures Barred(s', id)
  {
  }

  lemma BarredTask(s: State, id: nat, choice: Choice)
    requires Barred(s, id) && TaskEnabled(s, id, choice)
    ensures Barred(TaskApply(s, id, choice), id)
  {
    hide TaskApply, Onward, Stays, FrameOf, Section, Flagged, NextLoad;
    var l := s.loads[id];
    ShapeOfStep(s, id, choice);
    BarredNext(l, choice, s.ok, Flagged(s.tables, id), s.monitorOn, Here(s));
    if l.task.pc.Guard? || l.task.pc.Admission? {
      SectionKeepsFlag(s.tables, id, l.task.pc);
    }
  }

  /** Where such a load's own step takes it. */
  lemma BarredNext(l: Load, choice: Choice, ok: bool, flagged: bool, monitorOn: bool, here: Option<nat>)
    requires l.task.Running? && (l.task.pc.Waiting? ==> WaitEnds(l, choice))
    requires Lost(l.task) || (Listening(l.task) && Mute(l)) || (Early(l.task) && flagged)
    ensures var l' := NextLoad(l, choice, ok, flagged, monitorOn, here);
            Lost(l'.task) || (Listening(l'.task) && Mute(l')) || (Early(l'.task) && !l.task.pc.PreFork?)
  {
  }

  lemma BarredStays(s: State, a: Action, id: nat)
    requires Inv(s) && Barred(s, id) && Enabled(s, a) && !Apply(s, a).exhausted
    ensures Barred(Apply(s, a), id)
  {
    hide Inv, Apply, Onward, Stays, Barred;
    if a.TaskStep? && a.id == id {
      StepIsTask(s, a);
      BarredTask(s, id, a.choice);
    } else {
      BarredByOthers(s, a, id);
    }
  }

  lemma BarredByOthers(s: State, a: Action, id: nat)
    requires Inv(s) && Barred(s, id) && Enabled(s, a) && !Apply(s, a).exhausted && !(a.TaskStep? && a.id == id)
    ensures Barred(Apply(s, a), id)
  {
    hide Inv, Apply, Enabled, Onward, Stays;
    StepSplits(s, a);
    if a.TaskStep? {
      assert Lookup(Apply(s, a).tables.pending, id) == Lookup(s.tables.pending, id);
    }
    BarredAside(s, Apply(s, a), id);
  }

  lemma {:induction false} BarredForGood(s: State, id: nat, ss: seq<State>, acts: seq<Action>, i: nat)
    requires Inv(s) && !s.exhausted && Barred(s, id) && Continues(s, ss, acts) && i <= |acts|
    ensures Barred(ss[i], id)
  {
    hide Inv, Enabled, Apply, Barred;
    if i > 0 {
      BarredForGood(s, id, ss, acts, i - 1);
      ContinuationKeepsInv(s, ss, acts, i - 1);
      ContinuationKeepsInv(s, ss, acts, i);
      BarredStays(ss[i - 1], acts[i - 1], id);
    }
  }

  lemma BarredIsSilent(s: State, id: nat)
    requires Inv(s) && Barred(s, id)
    ensures !SaysLoaded(s, id)
  {
    forall k | 0 <= k < |s.wire| && s.wire[k].LoadedMsg?
      ensures s.wire[k].id != id
    {
      assert MsgSound(s.loads, s.wire[k], k);
    }
  }

  // ---------- a flag is told ----------

  /** The flag stands, or the worker has taken it along; a failure reported is a cancel confirmed. */
  ghost predicate Told(s: State, id: nat) {
    && id in s.loads
    && var l := s.loads[id];
    && (PastUnpend(l.task) || Flagged(s.tables, id))
    && (l.task.Running? && l.task.pc.CheckOk? ==> l.task.pc.cancelled)
    && (l.task.Running? && l.task.pc.SendFailed? ==> l.task.pc.cancelled)
    && (l.answerAt.Some? ==>
          && l.answerAt.value < |s.wire|
          && (s.wire[l.answerAt.value].LoadFailed? ==> s.wire[l.answerAt.value].cancelled))
  }

  lemma ToldAside(s: State, s': State, id: nat)
    requires Told(s, id) && id in s'.loads && s.wire <= s'.wire && Aside(s.loads[id], s'.loads[id])
    requires Flagged(s.tables, id) ==> Flagged(s'.tables, id)
    ensures Told(s', id)
  {
  }

  lemma ToldTask(s: State, id: nat, choice: Choice)
    requires Inv(s) && Told(s, id) && TaskEnabled(s, id, choice)
    ensures Told(TaskApply(s, id, choice), id)
  {
    hide TaskApply, TaskEnabled, Onward, Stays, Section, NextLoad, Inv, Sound, Answered, Carried, MarksSound, Flagged;
    LoadIsSound(s, id);
    TaskIsRunning(s, id, choice);
    RunningIsUnanswered(ViewOf(s, id), s.monitorOn);
    ShapeOfStep(s, id, choice);
    var l := s.loads[id];
    ToldNext(l, id, choice, s.ok, Flagged(s.tables, id), s.monitorOn, Here(s));
    if Flagged(s.tables, id) && !Takes(l.task.pc) {
      SectionKeepsEntry(s.tables, id, l.task.pc);
    }
  }

  /** The sections that take a flagged entry away. */
  ghost predicate Takes(pc: Pc) {
    pc.Drop? || pc.PreFork? || pc.Catch? || pc.Unpending?
  }

  lemma SectionKeepsEntry(t: Tables, id: nat, pc: Pc)
    requires Flagged(t, id) && !Takes(pc)
    ensures Flagged(Section(t, id, pc), id)
  {
  }

  lemma TaskIsRunning(s: State, id: nat, choice: Choice)
    requires TaskEnabled(s, id, choice)
    ensures id in s.loads && s.loads[id].task.Running?
  {
  }

  lemma ToldNext(l: Load, id: nat, choice: Choice, ok: bool, flagged: bool, monitorOn: bool, here: Option<nat>)
    requires l.task.Running? && (PastUnpend(l.task) || flagged)
    requires l.task.pc.CheckOk? || l.task.pc.SendFailed? ==> l.task.pc.cancelled
    ensures var l', frame := NextLoad(l, choice, ok, flagged, monitorOn, here), FrameOf(id, l.task.pc, choice);
            && (PastUnpend(l.task) || Takes(l.task.pc) ==> PastUnpend(l'.task))
            && (l'.task.Running? && (l'.task.pc.CheckOk? || l'.task.pc.SendFailed?) ==> l'.task.pc.cancelled)
            && (frame.Some? && frame.value.LoadFailed? ==> frame.value.cancelled)
            && (l'.answerAt == l.answerAt || (l'.answerAt == here && frame.Some?))
  {
  }

  lemma ToldStays(s: State, a: Action, id: nat)
    requires Inv(s) && Told(s, id) && Enabled(s, a) && !Apply(s, a).exhausted
    ensures Told(Apply(s, a), id)
  {
    hide Inv, Apply, Stays, Told;
    if a.TaskStep? && a.id == id {
      StepIsTask(s, a);
      ToldTask(s, id, a.choice);
    } else {
      ToldByOthers(s, a, id);
    }
  }

  lemma ToldByOthers(s: State, a: Action, id: nat)
    requires Inv(s) && Told(s, id) && Enabled(s, a) && !Apply(s, a).exhausted && !(a.TaskStep? && a.id == id)
    ensures Told(Apply(s, a), id)
  {
    hide Inv, Apply, Enabled, Stays;
    StepSplits(s, a);
    if a.TaskStep? {
      assert Lookup(Apply(s, a).tables.pending, id) == Lookup(s.tables.pending, id);
      SameIsAside(s.loads[id]);
    }
    ToldAside(s, Apply(s, a), id);
  }

  lemma SameIsAside(l: Load)
    ensures Aside(l, l)
  {
  }

  lemma {:induction false} ToldForGood(s: State, id: nat, ss: seq<State>, acts: seq<Action>, i: nat)
    requires Inv(s) && !s.exhausted && Told(s, id) && Continues(s, ss, acts) && i <= |acts|
    ensures Told(ss[i], id)
  {
    hide Inv, Enabled, Apply, Told;
    if i > 0 {
      ToldForGood(s, id, ss, acts, i - 1);
      ContinuationKeepsInv(s, ss, acts, i - 1);
      ContinuationKeepsInv(s, ss, acts, i);
      ToldStays(ss[i - 1], acts[i - 1], id);
    }
  }

  lemma FlaggedIsTold(s: State, id: nat)
    requires Inv(s) && Flagged(s.tables, id)
    ensures Told(s, id)
  {
    hide LoadsInv, CarriedInv, QueueInv, WorkersInv, ClientsInv, MonitorInv, DtorInv, WireInv;
    hide Sound, Answered, Carried, MarksSound;
    LoadIsSound(s, id);
    PendingIsAhead(ViewOf(s, id), s.monitorOn);
  }

  lemma PendingIsAhead(v: View, monitorOn: bool)
    requires Sound(v, monitorOn) && v.pending.Some?
    ensures !PastUnpend(v.load.task) && v.load.answerAt.None?
  {
  }

  /** A cancelled load that fails says so: in no continuation does its `load_failed` deny the cancel. */
  lemma FlagIsTold(s: State, id: nat, ss: seq<State>, acts: seq<Action>, k: nat)
    requires Reachable(s) && Flagged(s.tables, id) && Continues(s, ss, acts)
    requires k < |ss[|acts|].wire| && ss[|acts|].wire[k].LoadFailed? && ss[|acts|].wire[k].id == id
    ensures ss[|acts|].wire[k] == LoadFailed(id, true)
  {
    ReachableInv(s);
    hide Reachable, Continues;
    ToldAtEnd(s, id, ss, acts, k);
  }

  lemma ToldAtEnd(s: State, id: nat, ss: seq<State>, acts: seq<Action>, k: nat)
    requires Inv(s) && !s.exhausted && Flagged(s.tables, id) && Continues(s, ss, acts)
    requires |ss| == |acts| + 1 && k < |ss[|acts|].wire|
    requires ss[|acts|].wire[k].LoadFailed? && ss[|acts|].wire[k].id == id
    ensures ss[|acts|].wire[k] == LoadFailed(id, true)
  {
    hide Inv, Enabled, Apply, Flagged;
    FlaggedIsTold(s, id);
    ToldForGood(s, id, ss, acts, |acts|);
    ContinuationKeepsInv(s, ss, acts, |acts|);
    MessageIsSound(ss[|acts|], k);
  }

  // ---------- loads that still can ----------

  /**
   * How many steps it takes to hand the child over, if that can still be: the child must have written that it is up,
   * or still be able to.
   */
  ghost function StepsLeft(l: Load): nat {
    if !l.task.Running? then 0
    else
      match l.task.pc
      case Params => 10
      case PipeFork(_) => 9
      case Forked(_, _) => if Mute(l) then 0 else if l.line.Silent? then 8 else 7
      case Waiting(_, _) => if Mute(l) then 0 else if l.line.Silent? then 7 else 6
      case OpenFd(_, _, _) => 5
      case Recheck(_) => 4
      case Registering(_) => 3
      case Unpending(_) => 2
      case SendLoaded(_) => 1
      case _ => 0
  }

  /** There is always a pid no load has had. */
  lemma {:induction false} PidToSpare(loads: map<nat, Load>) returns (pid: nat)
    ensures pid > 0 && forall id | id in loads :: loads[id].pid < pid
    decreases |loads|
  {
    if loads == map[] {
      pid := 1;
    } else {
      var id :| id in loads;
      var rest := loads - {id};
      assert rest.Keys == loads.Keys - {id};
      var most := PidToSpare(rest);
      pid := if loads[id].pid < most then most else loads[id].pid + 1;
      assert forall k | k in loads && k != id :: k in rest && rest[k] == loads[k];
    }
  }

  lemma SparePidIsFresh(s: State, pid: nat)
    requires pid > 0 && forall id | id in s.loads :: s.loads[id].pid < pid
    ensures FreshPid(s, pid)
  {
  }

  /** The worker waits for a child that lives and has not written its line. */
  ghost predicate AwaitsLine(l: Load) {
    l.task.Running? && l.task.pc.Waiting? && l.line.Silent? && l.proc.Alive?
  }

  /** Otherwise, the choice that leads there. */
  ghost function Towards(l: Load, pid: nat): Choice
    requires l.task.Running?
  {
    match l.task.pc
    case Params => Made(false)
    case PipeFork(_) => Fork(pid)
    case Waiting(_, _) => if l.line.SaysOk? then ReplyOk(l.line.name) else GiveUp
    case OpenFd(_, _, _) => Fd(true)
    case _ => Choice.Go
  }

  lemma Onwards(l: Load, pid: nat, flagged: bool, monitorOn: bool, here: Option<nat>)
    requires StepsLeft(l) > 0 && !AwaitsLine(l)
    ensures StepsLeft(NextLoad(l, Towards(l, pid), true, flagged, monitorOn, here)) == StepsLeft(l) - 1
  {
    hide NextLoad, Towards, StepsLeft;
    if StepsLeft(l) > 4 {
      OnwardsToChild(l, pid, flagged, monitorOn, here);
    } else {
      OnwardsWithChild(l, pid, flagged, monitorOn, here);
    }
  }

  lemma OnwardsToChild(l: Load, pid: nat, flagged: bool, monitorOn: bool, here: Option<nat>)
    requires StepsLeft(l) > 4 && !AwaitsLine(l)
    ensures StepsLeft(NextLoad(l, Towards(l, pid), true, flagged, monitorOn, here)) == StepsLeft(l) - 1
  {
  }

  lemma OnwardsWithChild(l: Load, pid: nat, flagged: bool, monitorOn: bool, here: Option<nat>)
    requires 0 < StepsLeft(l) <= 4
    ensures StepsLeft(NextLoad(l, Towards(l, pid), true, flagged, monitorOn, here)) == StepsLeft(l) - 1
  {
  }

  lemma TowardsEnabled(s: State, id: nat, pid: nat)
    requires id in s.loads && StepsLeft(s.loads[id]) > 0 && !AwaitsLine(s.loads[id]) && FreshPid(s, pid)
    ensures TaskEnabled(s, id, Towards(s.loads[id], pid))
  {
    hide FreshPid;
  }

  lemma TaskFields(s: State, id: nat, choice: Choice)
    requires TaskEnabled(s, id, choice)
    ensures var s', l := TaskApply(s, id, choice), s.loads[id];
            && s'.ok == s.ok && s'.active == s.active && s'.exhausted == s.exhausted && id in s'.loads
            && s'.loads[id] == NextLoad(l, choice, s.ok, Flagged(s.tables, id), s.monitorOn, Here(s))
            && s'.wire == Written(s.wire, FrameOf(id, l.task.pc, choice), s.active)
  {
    hide Onward, Stays, Section, Flagged, NextLoad, FrameOf, Written, Here, TaskEnabled;
  }

  /** A step towards handing the child over: the child writes its line, or the worker goes on. */
  lemma StepOn(s: State, id: nat) returns (a: Action)
    requires id in s.loads && s.ok && s.active && StepsLeft(s.loads[id]) > 0
    ensures Enabled(s, a)
    ensures var s' := Apply(s, a);
            && s'.ok && s'.active && s'.exhausted == s.exhausted && id in s'.loads
            && (StepsLeft(s.loads[id]) == 1 ==> SaysLoaded(s', id))
            && StepsLeft(s'.loads[id]) == StepsLeft(s.loads[id]) - 1
  {
    if AwaitsLine(s.loads[id]) {
      hide SaysLoaded, Onward;
      a := ChildWrites(id, SaysOk(""));
    } else {
      hide Enabled, Apply;
      var choice := WorkerOn(s, id);
      a := TaskStep(id, choice);
      TaskIsStep(s, id, choice);
    }
  }

  lemma TaskIsStep(s: State, id: nat, choice: Choice)
    requires TaskEnabled(s, id, choice)
    ensures Enabled(s, TaskStep(id, choice)) && Apply(s, TaskStep(id, choice)) == TaskApply(s, id, choice)
  {
    hide TaskEnabled, TaskApply, Onward, Stays;
  }

  lemma WorkerOn(s: State, id: nat) returns (choice: Choice)
    requires id in s.loads && s.ok && s.active && StepsLeft(s.loads[id]) > 0 && !AwaitsLine(s.loads[id])
    ensures TaskEnabled(s, id, choice)
    ensures var s' := TaskApply(s, id, choice);
            && s'.ok && s'.active && s'.exhausted == s.exhausted && id in s'.loads
            && (StepsLeft(s.loads[id]) == 1 ==> SaysLoaded(s', id))
            && StepsLeft(s'.loads[id]) == StepsLeft(s.loads[id]) - 1
  {
    hide TaskApply, TaskEnabled, FreshPid, NextLoad, Onward, Stays, Flagged, Here, Towards, AwaitsLine;
    var pc := s.loads[id].task.pc;
    var pid := PidToSpare(s.loads);
    SparePidIsFresh(s, pid);
    choice := Towards(s.loads[id], pid);
    TowardsEnabled(s, id, pid);
    TaskFields(s, id, choice);
    Onwards(s.loads[id], pid, Flagged(s.tables, id), s.monitorOn, Here(s));
    if pc.SendLoaded? {
      assert TaskApply(s, id, choice).wire[|s.wire|] == LoadedMsg(id, pc.child.pid, pc.child.name);
    }
  }

  /** From every such point some continuation sends `loaded`, flagged or not. */
  lemma {:induction false} CanStillLoad(s: State, id: nat) returns (ss: seq<State>, acts: seq<Action>)
    requires id in s.loads && s.ok && s.active && !s.exhausted && StepsLeft(s.loads[id]) > 0
    ensures Continues(s, ss, acts) && SaysLoaded(ss[|acts|], id)
    decreases StepsLeft(s.loads[id])
  {
    hide Enabled, Apply, SaysLoaded, StepsLeft;
    var a := StepOn(s, id);
    var next := Apply(s, a);
    if StepsLeft(s.loads[id]) == 1 {
      ss, acts := [s, next], [a];
    } else {
      ss, acts := CanStillLoad(next, id);
      Prepend(s, a, next, ss, acts);
      ss, acts := [s] + ss, [a] + acts;
    }
  }

  lemma Prepend(s: State, a: Action, next: State, ss: seq<State>, acts: seq<Action>)
    requires Continues(next, ss, acts) && Enabled(s, a) && Apply(s, a) == next
    ensures Continues(s, [s] + ss, [a] + acts)
  {
    hide Enabled, Apply;
    var ts, bs := [s] + ss, [a] + acts;
    forall i | 0 <= i < |bs|
      ensures Enabled(ts[i], bs[i]) && ts[i + 1] == Apply(ts[i], bs[i])
    {
      if i > 0 {
        assert ts[i] == ss[i - 1] && bs[i] == acts[i - 1] && ts[i + 1] == ss[i];
      }
    }
  }

  // ---------- exactly which cancels are honoured ----------

  /**
   * A flag is in time before the pre-fork check, while the parent listens to a child that will never say that it is up,
   * and once the worker has given the child up.
   */
  ghost predicate InTime(l: Load) {
    || Early(l.task)
    || (Listening(l.task) && Mute(l))
    || (l.task.Running? && (l.task.pc.KillChild? || l.task.pc.UnlinkFailed? || l.task.pc.Catch?))
  }

  lemma FlaggedPoints(s: State, id: nat)
    requires Inv(s) && s.ok && Flagged(s.tables, id)
    ensures id in s.loads && (InTime(s.loads[id]) <==> StepsLeft(s.loads[id]) == 0)
  {
    hide LoadsInv, CarriedInv, QueueInv, WorkersInv, ClientsInv, MonitorInv, DtorInv, WireInv;
    hide Sound, Answered, Carried, MarksSound, InTime, StepsLeft;
    LoadIsSound(s, id);
    PendingPoints(ViewOf(s, id), s.monitorOn, s.active);
  }

  lemma PendingPoints(v: View, monitorOn: bool, active: bool)
    requires Sound(v, monitorOn) && Answered(v.load, true, active) && v.pending.Some?
    ensures InTime(v.load) <==> StepsLeft(v.load) == 0
  {
  }

  /** A flag in time bars the load. */
  lemma InTimeIsBarred(s: State, id: nat)
    requires id in s.loads && Flagged(s.tables, id) && InTime(s.loads[id])
    ensures Barred(s, id)
  {
  }

  /**
   * In every reachable state with the context up and the channel open, and for every cancelled load still pending: the
   * cancel is sure to be honoured, that is, no continuation sends `loaded` for it, exactly if its worker has not come
   * past the pre-fork check, or listens to a child that has died in silence or written something else than that it is
   * up, or has already given the child up.
   */
  lemma CancelIsHonouredIffInTime(s: State, id: nat)
    requires Reachable(s) && s.ok && s.active && Flagged(s.tables, id)
    ensures id in s.loads
    ensures (forall ss: seq<State>, acts: seq<Action> | Continues(s, ss, acts) :: !SaysLoaded(ss[|acts|], id))
            <==> InTime(s.loads[id])
  {
    ReachableInv(s);
    HonouredIffInTime(s, id);
  }

  lemma HonouredIffInTime(s: State, id: nat)
    requires Inv(s) && !s.exhausted && s.ok && s.active && Flagged(s.tables, id)
    ensures id in s.loads
    ensures (forall ss: seq<State>, acts: seq<Action> | Continues(s, ss, acts) :: !SaysLoaded(ss[|acts|], id))
            <==> InTime(s.loads[id])
  {
    hide Inv, Enabled, Apply, SaysLoaded, Barred, InTime, StepsLeft, Flagged;
    FlaggedPoints(s, id);
    if InTime(s.loads[id]) {
      InTimeIsBarred(s, id);
      forall ss: seq<State>, acts: seq<Action> | Continues(s, ss, acts)
        ensures !SaysLoaded(ss[|acts|], id)
      {
        HonouredAtEnd(s, id, ss, acts);
      }
    } else {
      var ss, acts := CanStillLoad(s, id);
    }
  }

  lemma HonouredAtEnd(s: State, id: nat, ss: seq<State>, acts: seq<Action>)
    requires Inv(s) && !s.exhausted && Barred(s, id) && Continues(s, ss, acts)
    ensures |ss| == |acts| + 1 && !SaysLoaded(ss[|acts|], id)
  {
    hide Inv, Barred, SaysLoaded;
    BarredForGood(s, id, ss, acts, |acts|);
    ContinuationKeepsInv(s, ss, acts, |acts|);
    BarredIsSilent(ss[|acts|], id);
  }

  /** `id` has no outcome but `load_failed` with `cancelled` set, and has that one once its work is over. */
  ghost predicate ConfirmsCancel(s: State, id: nat) {
    && (forall k | 0 <= k < |s.wire| && Outcome(s.wire[k]) && s.wire[k].id == id :: s.wire[k] == LoadFailed(id, true))
    && id in s.loads
    && (s.loads[id].task.Finished? && s.ok && s.active ==>
          exists k :: 0 <= k < |s.wire| && s.wire[k] == LoadFailed(id, true))
  }

  /**
   * A cancel in time is confirmed: in every continuation the load's one outcome, once its work is over, is
   * `load_failed` with `cancelled` set, and it never has another.
   */
  lemma CancelInTimeIsConfirmed(s: State, id: nat, ss: seq<State>, acts: seq<Action>)
    requires Reachable(s) && Flagged(s.tables, id) && id in s.loads && InTime(s.loads[id]) && Continues(s, ss, acts)
    ensures ConfirmsCancel(ss[|acts|], id)
  {
    ReachableInv(s);
    ConfirmedAtEnd(s, id, ss, acts);
  }

  lemma ConfirmedAtEnd(s: State, id: nat, ss: seq<State>, acts: seq<Action>)
    requires Inv(s) && !s.exhausted && Flagged(s.tables, id) && id in s.loads && InTime(s.loads[id])
    requires Continues(s, ss, acts)
    ensures ConfirmsCancel(ss[|acts|], id)
  {
    hide Inv, Flagged, InTime, Enabled, Apply;
    var e := ss[|acts|];
    InTimeIsBarred(s, id);
    HonouredAtEnd(s, id, ss, acts);
    FlaggedIsTold(s, id);
    ToldForGood(s, id, ss, acts, |acts|);
    ContinuationKeepsInv(s, ss, acts, |acts|);
    hide Continues;
    forall k | 0 <= k < |e.wire| && Outcome(e.wire[k]) && e.wire[k].id == id
      ensures e.wire[k] == LoadFailed(id, true)
    {
      MessageIsSound(e, k);
    }
    LoadIsSound(e, id);
  }

  // ---------- the kill of a cancel ----------

  /** The kill of a cancel leaves its load flagged, if pending, its program point and its line as they were. */
  lemma KillLeavesDead(s: State, c: nat)
    requires Inv(s) && !s.exhausted && ClientEnabled(s, c) && s.clients[c].CancelKill?
    ensures var s', id := ClientApply(s, c), s.clients[c].id;
            && Inv(s') && !s'.exhausted && s'.ok == s.ok && s'.active == s.active
            && id in s.loads && id in s'.loads && Dead(s'.loads[id])
            && s'.loads[id].task == s.loads[id].task && s'.loads[id].line == s.loads[id].line
            && (id in s.tables.pending ==> Flagged(s'.tables, id))
  {
    hide CarriedInv, QueueInv, WorkersInv, MonitorInv, DtorInv, WireInv, Sound, Answered, Onward, Moves, OwnClient;
    ClientStepKeepsInv(s, c);
    assert ClientSound(s, c, s.clients[c]);
    LoadIsSound(s, s.clients[c].id);
    PidMeansProc(ViewOf(s, s.clients[c].id), s.monitorOn);
  }

  lemma PidMeansProc(v: View, monitorOn: bool)
    requires Sound(v, monitorOn) && v.load.pid > 0
    ensures !v.load.proc.NoProc?
  {
    hide InStage;
  }

  /** The worker has the child given up. */
  ghost predicate GivenUp(t: Task) {
    t.Running? && (t.pc.KillChild? || t.pc.UnlinkFailed? || t.pc.Catch?)
  }

  /**
   * A cancel that kills while its load is pending is sure to be honoured exactly if the kill lands while the parent
   * listens to a child that has not written that it is up, or after the child was given up.
   */
  lemma KillIsHonouredIffUnreported(s: State, c: nat)
    requires Reachable(s) && s.ok && s.active && ClientEnabled(s, c) && s.clients[c].CancelKill?
    requires s.clients[c].id in s.tables.pending
    ensures var s', id := ClientApply(s, c), s.clients[c].id;
            && id in s.loads
            && ((forall ss: seq<State>, acts: seq<Action> | Continues(s', ss, acts) :: !SaysLoaded(ss[|acts|], id))
                <==> (Listening(s.loads[id].task) && !s.loads[id].line.SaysOk?) || GivenUp(s.loads[id].task))
  {
    ReachableInv(s);
    hide Reachable, Inv, ClientApply, ClientEnabled, Continues, SaysLoaded, InTime, Listening, GivenUp, Early, Dead,
         Flagged, Moves, OwnClient, Onward;
    var s', id := ClientApply(s, c), s.clients[c].id;
    KillLeavesDead(s, c);
    HonouredIffInTime(s', id);
    KilledIsLate(s, c);
    KilledInTime(s.loads[id], s'.loads[id]);
  }

  lemma KilledInTime(l: Load, l': Load)
    requires l'.task == l.task && l'.line == l.line && Dead(l') && !Early(l.task)
    ensures InTime(l') <==> (Listening(l.task) && !l.line.SaysOk?) || GivenUp(l.task)
  {
  }

  /** A load whose process has been forked is past the early points. */
  lemma KilledIsLate(s: State, c: nat)
    requires Inv(s) && c in s.clients && s.clients[c].CancelKill?
    ensures s.clients[c].id in s.loads && !Early(s.loads[s.clients[c].id].task)
  {
    hide CarriedInv, QueueInv, WorkersInv, MonitorInv, DtorInv, WireInv, Sound, Answered;
    assert ClientSound(s, c, s.clients[c]);
    LoadIsSound(s, s.clients[c].id);
    PidMeansLate(ViewOf(s, s.clients[c].id), s.monitorOn);
  }

  lemma PidMeansLate(v: View, monitorOn: bool)
    requires Sound(v, monitorOn) && v.load.pid > 0
    ensures !Early(v.load.task)
  {
  }

  /** And a kill that lands in time is confirmed, in every continuation, as `load_failed` with `cancelled` set. */
  lemma KillInTimeIsConfirmed(s: State, c: nat, ss: seq<State>, acts: seq<Action>)
    requires Reachable(s) && ClientEnabled(s, c) && s.clients[c].CancelKill? && s.clients[c].id in s.loads
    requires var l := s.loads[s.clients[c].id]; (Listening(l.task) && !l.line.SaysOk?) || GivenUp(l.task)
    requires Continues(ClientApply(s, c), ss, acts)
    ensures ConfirmsCancel(ss[|acts|], s.clients[c].id)
  {
    ReachableInv(s);
    hide Reachable, Inv, ClientApply, ClientEnabled, Continues, ConfirmsCancel, InTime, Listening, GivenUp, Early, Dead,
         Flagged, Moves, OwnClient, Onward;
    KillLeavesDead(s, c);
    AheadIsPending(s, s.clients[c].id);
    KilledIsLate(s, c);
    KilledInTime(s.loads[s.clients[c].id], ClientApply(s, c).loads[s.clients[c].id]);
    ConfirmedAtEnd(ClientApply(s, c), s.clients[c].id, ss, acts);
  }

  lemma AheadIsPending(s: State, id: nat)
    requires Inv(s) && id in s.loads && (Listening(s.loads[id].task) || GivenUp(s.loads[id].task))
    ensures id in s.tables.pending
  {
    hide CarriedInv, QueueInv, WorkersInv, MonitorInv, DtorInv, WireInv, ClientsInv, Answered;
    LoadIsSound(s, id);
  }

  // ---------- outcome and farewell ----------

  /** A load that is reported gone has not failed: no id gets both `load_failed` and `crashed` or `unloaded`. */
  lemma FarewellMeansLoaded(s: State, f: nat, k: nat)
    requires Reachable(s) && f < |s.wire| && k < |s.wire|
    requires Farewell(s.wire[f]) && Outcome(s.wire[k]) && s.wire[f].id == s.wire[k].id
    ensures s.wire[k].LoadedMsg?
  {
    ReachableInv(s);
    var id := s.wire[f].id;
    assert MsgSound(s.loads, s.wire[f], f) && MsgSound(s.loads, s.wire[k], k);
    assert Sound(ViewOf(s, id), s.monitorOn);
  }

  /** Step `m` of the run sends the frame at `f`. */
  ghost predicate Sends(ss: seq<State>, m: nat, f: nat)
    requires m + 1 < |ss|
  {
    |ss[m].wire| <= f < |ss[m + 1].wire|
  }

  lemma {:induction false} SenderOf(ss: seq<State>, acts: seq<Action>, f: nat, j: nat) returns (m: nat)
    requires Run(ss, acts) && j <= |acts| && f < |ss[j].wire|
    ensures m < j && Sends(ss, m, f)
  {
    hide Apply, Enabled;
    if j > 0 && f < |ss[j - 1].wire| {
      m := SenderOf(ss, acts, f, j - 1);
    } else {
      m := j - 1;
    }
  }

  /** The worker has registered the child and not yet reported it. */
  ghost predicate StillReporting(s: State, id: nat) {
    id in s.loads && s.loads[id].task.Running? && (s.loads[id].task.pc.Unpending? || s.loads[id].task.pc.SendLoaded?)
  }

  /** A load whose work is over is never answered later. */
  lemma {:induction false} AnswerFrozen(ss: seq<State>, acts: seq<Action>, id: nat, i: nat, j: nat)
    requires Run(ss, acts) && i <= j <= |acts| && !ss[j].exhausted
    requires id in ss[i].loads && ss[i].loads[id].task.Finished?
    ensures id in ss[j].loads && ss[j].loads[id].task.Finished?
    ensures ss[j].loads[id].answerAt == ss[i].loads[id].answerAt
  {
    hide Inv, Apply, Init;
    if i < j {
      NotYetExhausted(ss, acts, j - 1, j);
      AnswerFrozen(ss, acts, id, i, j - 1);
      RunKeepsInv(ss, acts, j - 1);
      FrozenStep(ss[j - 1], acts[j - 1], id);
    }
  }

  lemma FrozenStep(s: State, a: Action, id: nat)
    requires Inv(s) && Enabled(s, a) && !Apply(s, a).exhausted && id in s.loads && s.loads[id].task.Finished?
    ensures id in Apply(s, a).loads && Apply(s, a).loads[id].task == s.loads[id].task
    ensures Apply(s, a).loads[id].answerAt == s.loads[id].answerAt
  {
    hide Inv, Apply;
    StepSplits(s, a);
  }

  /** Whoever sends a farewell finds the load's worker reporting it or done. */
  lemma FarewellSender(s: State, a: Action, f: nat)
    requires Inv(s) && Enabled(s, a) && !Apply(s, a).exhausted
    requires f == |s.wire| && f < |Apply(s, a).wire| && Farewell(Apply(s, a).wire[f])
    ensures var id := Apply(s, a).wire[f].id;
            id in s.loads && (StillReporting(s, id) || s.loads[id].task == Finished(true))
  {
    hide Apply, Enabled, Inv, StillReporting, Reachable;
    var s' := Apply(s, a);
    StepSplits(s, a);
    FarewellMark(s', f);
    if a.TaskStep? {
      TaskSaysNoFarewell(s, s', a.id);
    } else {
      SamePoint(s, s', s'.wire[f].id);
    }
  }

  lemma TaskSaysNoFarewell(s: State, s': State, id: nat)
    requires Profile(s, s', id) && |s.wire| < |s'.wire|
    ensures !Farewell(s'.wire[|s.wire|])
  {
    hide Sound, Answered, Evolves, OnlyEntry;
  }

  lemma FarewellMark(s: State, f: nat)
    requires Inv(s) && f < |s.wire| && Farewell(s.wire[f])
    ensures var id := s.wire[f].id;
            && id in s.loads && !s.loads[id].removal.NotRemoved?
            && (StillReporting(s, id) || s.loads[id].task == Finished(true))
  {
    assert MsgSound(s.loads, s.wire[f], f);
    assert Sound(ViewOf(s, s.wire[f].id), s.monitorOn);
    hide Inv;
    RemovedPoints(ViewOf(s, s.wire[f].id), s.monitorOn);
  }

  lemma SamePoint(s: State, s': State, id: nat)
    requires Forward(s, s') && id in s'.loads && !s'.loads[id].removal.NotRemoved?
    requires StillReporting(s', id) || s'.loads[id].task == Finished(true)
    ensures id in s.loads && (StillReporting(s, id) || s.loads[id].task == Finished(true))
  {
    if id in s.loads {
      assert Aside(s.loads[id], s'.loads[id]);
    }
  }

  lemma RemovedPoints(v: View, monitorOn: bool)
    requires Sound(v, monitorOn) && !v.load.removal.NotRemoved?
    ensures var t := v.load.task;
            t == Finished(true) || (t.Running? && (t.pc.Unpending? || t.pc.SendLoaded?))
  {
  }

  /**
   * In every run with a farewell and an outcome for one id on the wire: the outcome is `loaded`, and the farewell
   * stands in front of it exactly if it was sent while the load's worker had registered the child and not yet reported
   * it.
   */
  lemma FarewellFirstIffReporting(ss: seq<State>, acts: seq<Action>, j: nat, f: nat, k: nat, id: nat)
    requires Run(ss, acts) && j <= |acts| && !ss[j].exhausted && f < |ss[j].wire| && k < |ss[j].wire|
    requires Farewell(ss[j].wire[f]) && Outcome(ss[j].wire[k]) && ss[j].wire[f].id == ss[j].wire[k].id == id
    ensures ss[j].wire[k].LoadedMsg?
    ensures f < k <==> exists m | 0 <= m < j :: Sends(ss, m, f) && StillReporting(ss[m], id)
  {
    hide Apply, Enabled, Inv, Reachable, Init;
    RunReaches(ss, acts, j);
    FarewellMeansLoaded(ss[j], f, k);
    var m := SenderOf(ss, acts, f, j);
    SenderFinds(ss, acts, j, f, k, id, m);
    forall n | 0 <= n < j && Sends(ss, n, f)
      ensures n == m
    {
      OneSender(ss, acts, f, m, n, j);
    }
  }

  lemma OneSender(ss: seq<State>, acts: seq<Action>, f: nat, m: nat, n: nat, j: nat)
    requires Run(ss, acts) && m < j <= |acts| && n < j && Sends(ss, m, f) && Sends(ss, n, f)
    ensures m == n
  {
    hide Apply, Enabled, Init;
    if m < n {
      WireOnlyGrows(ss, acts, m + 1, n);
    } else if n < m {
      WireOnlyGrows(ss, acts, n + 1, m);
    }
  }

  lemma SenderFinds(ss: seq<State>, acts: seq<Action>, j: nat, f: nat, k: nat, id: nat, m: nat)
    requires Run(ss, acts) && m < j <= |acts| && !ss[j].exhausted && f < |ss[j].wire| && k < |ss[j].wire|
    requires Farewell(ss[j].wire[f]) && Outcome(ss[j].wire[k]) && ss[j].wire[f].id == ss[j].wire[k].id == id
    requires Sends(ss, m, f)
    ensures f < k <==> StillReporting(ss[m], id)
  {
    hide Apply, Enabled, Inv, Reachable, Init;
    NotYetExhausted(ss, acts, m, j);
    NotYetExhausted(ss, acts, m + 1, j);
    RunKeepsInv(ss, acts, m);
    RunKeepsInv(ss, acts, j);
    WireOnlyGrows(ss, acts, m, m + 1);
    WireOnlyGrows(ss, acts, m + 1, j);
    assert ss[m + 1].wire[f] == ss[j].wire[f];
    FarewellSender(ss[m], acts[m], f);
    OutcomeMark(ss[j], k);
    AnswerAtMark(ss[m], id);
    if StillReporting(ss[m], id) {
      LateOutcome(ss, acts, m, j, k, id);
    } else {
      AnswerFrozen(ss, acts, id, m, j);
    }
  }

  lemma OutcomeMark(s: State, k: nat)
    requires Inv(s) && k < |s.wire| && Outcome(s.wire[k])
    ensures s.wire[k].id in s.loads && s.loads[s.wire[k].id].answerAt == Some(k)
  {
    assert MsgSound(s.loads, s.wire[k], k);
  }

  lemma AnswerAtMark(s: State, id: nat)
    requires Inv(s) && id in s.loads
    ensures s.loads[id].answerAt.Some? ==> s.loads[id].answerAt.value < |s.wire|
    ensures StillReporting(s, id) ==> s.loads[id].answerAt.None?
  {
    assert MarksSound(s.wire, id, s.loads[id]) && Sound(ViewOf(s, id), s.monitorOn);
  }

  /** A load not yet answered is answered later on the wire. */
  lemma LateOutcome(ss: seq<State>, acts: seq<Action>, m: nat, j: nat, k: nat, id: nat)
    requires Run(ss, acts) && m <= j <= |acts| && Inv(ss[m]) && id in ss[m].loads && ss[m].loads[id].answerAt.None?
    requires k < |ss[j].wire| && Outcome(ss[j].wire[k]) && ss[j].wire[k].id == id
    ensures |ss[m].wire| <= k
  {
    hide Apply, Enabled, Inv, Init;
    WireOnlyGrows(ss, acts, m, j);
    if k < |ss[m].wire| {
      assert ss[m].wire[k] == ss[j].wire[k];
      OutcomeMark(ss[m], k);
    }
  }
}

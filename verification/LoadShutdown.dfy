/** What becomes of loads once the context is down, and in which order the destructor lets go. */
module LoadShutdown {
  import opened Common
  import opened LoadTables
  import opened LoadProtocol
  import opened LoadInvariant
  import opened LoadTaskSteps
  import opened LoadTheorems
  import opened LoadEndings
  import opened LoadAnswers
  import opened LoadReports

  // ---------- a context that is down ----------

  /** No worker has come past the look at the context for this load. */
  ghost predicate Unstarted(t: Task) {
    t.Unqueued? || t.InQueue? || t == Finished(false) || (t.Running? && (t.pc.Guard? || t.pc.Drop?))
  }

  /** The worker has not come past its second look at the context with a child in hand. */
  ghost predicate Unregistered(t: Task) {
    || t.Unqueued? || t.InQueue? || t == Finished(false)
    || (t.Running? && !t.pc.Registering? && !t.pc.Unpending? && !t.pc.SendLoaded?)
  }

  /** Nor is it about to report a failure or a cancel. */
  ghost predicate Silenced(t: Task) {
    Unregistered(t) && (t.Running? ==> !t.pc.Admission? && !t.pc.PreFork? && !t.pc.SendCancelled? && !t.pc.SendFailed?)
  }

  lemma NextUnstarted(l: Load, choice: Choice, flagged: bool, monitorOn: bool, here: Option<nat>)
    requires l.task.Running? && Unstarted(l.task)
    ensures var l' := NextLoad(l, choice, false, flagged, monitorOn, here);
            Unstarted(l'.task) && l'.proc == l.proc && l'.answerAt == l.answerAt
  {
  }

  lemma NextSilenced(l: Load, choice: Choice, flagged: bool, monitorOn: bool, here: Option<nat>)
    requires l.task.Running? && Silenced(l.task)
    ensures var l' := NextLoad(l, choice, false, flagged, monitorOn, here);
            Silenced(l'.task) && l'.answerAt == l.answerAt
  {
    hide NextLoad;
  }

  lemma NextUnregistered(l: Load, choice: Choice, flagged: bool, monitorOn: bool, here: Option<nat>)
    requires l.task.Running? && Unregistered(l.task)
    ensures Unregistered(NextLoad(l, choice, false, flagged, monitorOn, here).task)
  {
    hide NextLoad;
  }

  /** The context is down, and the load has come to nothing so far. */
  ghost predicate Down(s: State, id: nat) {
    && !s.ok && id in s.loads && s.loads[id].answerAt.None?
  }

  ghost predicate NeverStarts(s: State, id: nat) {
    Down(s, id) && Unstarted(s.loads[id].task) && s.loads[id].proc.NoProc?
  }

  ghost predicate NeverTells(s: State, id: nat) {
    Down(s, id) && Silenced(s.loads[id].task)
  }

  ghost predicate NeverRegisters(s: State, id: nat) {
    !s.ok && id in s.loads && Unregistered(s.loads[id].task)
  }

  lemma AsideWhenDown(s: State, s': State, id: nat)
    requires id in s.loads && id in s'.loads && Aside(s.loads[id], s'.loads[id]) && (s'.ok ==> s.ok)
    ensures NeverStarts(s, id) ==> NeverStarts(s', id)
    ensures NeverTells(s, id) ==> NeverTells(s', id)
    ensures NeverRegisters(s, id) ==> NeverRegisters(s', id)
  {
  }

  lemma TaskWhenDown(s: State, id: nat, choice: Choice)
    requires TaskEnabled(s, id, choice)
    ensures NeverStarts(s, id) ==> NeverStarts(TaskApply(s, id, choice), id)
    ensures NeverTells(s, id) ==> NeverTells(TaskApply(s, id, choice), id)
    ensures NeverRegisters(s, id) ==> NeverRegisters(TaskApply(s, id, choice), id)
  {
    hide TaskApply, TaskEnabled, NextLoad, FrameOf, Section, Unstarted, Unregistered, Silenced, Onward, Stays;
    TaskIsRunning(s, id, choice);
    ShapeOfStep(s, id, choice);
    if NeverStarts(s, id) {
      NextUnstarted(s.loads[id], choice, Flagged(s.tables, id), s.monitorOn, Here(s));
    }
    if NeverTells(s, id) {
      NextSilenced(s.loads[id], choice, Flagged(s.tables, id), s.monitorOn, Here(s));
    }
    if NeverRegisters(s, id) {
      NextUnregistered(s.loads[id], choice, Flagged(s.tables, id), s.monitorOn, Here(s));
    }
  }

  lemma StepWhenDown(s: State, a: Action, id: nat)
    requires Inv(s) && Enabled(s, a) && !Apply(s, a).exhausted
    ensures NeverStarts(s, id) ==> NeverStarts(Apply(s, a), id)
    ensures NeverTells(s, id) ==> NeverTells(Apply(s, a), id)
    ensures NeverRegisters(s, id) ==> NeverRegisters(Apply(s, a), id)
  {
    hide Inv, Apply, Enabled, NeverStarts, NeverTells, NeverRegisters, TaskEnabled;
    if a.TaskStep? && a.id == id {
      TaskGoes(s, a);
      TaskWhenDown(s, id, a.choice);
    } else {
      OthersWhenDown(s, a, id);
    }
  }

  lemma TaskGoes(s: State, a: Action)
    requires Enabled(s, a) && a.TaskStep?
    ensures TaskEnabled(s, a.id, a.choice) && Apply(s, a) == TaskApply(s, a.id, a.choice)
  {
    hide TaskEnabled, TaskApply, Onward, Stays;
  }

  lemma OthersWhenDown(s: State, a: Action, id: nat)
    requires Inv(s) && Enabled(s, a) && !Apply(s, a).exhausted && !(a.TaskStep? && a.id == id)
    ensures NeverStarts(s, id) ==> NeverStarts(Apply(s, a), id)
    ensures NeverTells(s, id) ==> NeverTells(Apply(s, a), id)
    ensures NeverRegisters(s, id) ==> NeverRegisters(Apply(s, a), id)
  {
    hide Inv, Apply, Enabled, NeverStarts, NeverTells, NeverRegisters, Stays;
    StepSplits(s, a);
    if id in s.loads {
      if a.TaskStep? {
        SameIsAside(s.loads[id]);
      }
      AsideWhenDown(s, Apply(s, a), id);
    } else {
      NobodyIsDown(s, id);
    }
  }

  lemma NobodyIsDown(s: State, id: nat)
    requires id !in s.loads
    ensures !NeverStarts(s, id) && !NeverTells(s, id) && !NeverRegisters(s, id)
  {
  }

  lemma {:induction false} DownForGood(s: State, id: nat, ss: seq<State>, acts: seq<Action>, i: nat)
    requires Inv(s) && !s.exhausted && Continues(s, ss, acts) && i <= |acts|
    ensures NeverStarts(s, id) ==> NeverStarts(ss[i], id)
    ensures NeverTells(s, id) ==> NeverTells(ss[i], id)
    ensures NeverRegisters(s, id) ==> NeverRegisters(ss[i], id)
  {
    hide Inv, Apply, Enabled, NeverStarts, NeverTells, NeverRegisters;
    if i > 0 {
      DownForGood(s, id, ss, acts, i - 1);
      ContinuationKeepsInv(s, ss, acts, i - 1);
      ContinuationKeepsInv(s, ss, acts, i);
      StepWhenDown(ss[i - 1], acts[i - 1], id);
    }
  }

  lemma NoOutcome(s: State, id: nat)
    requires Inv(s) && Down(s, id)
    ensures forall k | 0 <= k < |s.wire| && Outcome(s.wire[k]) :: s.wire[k].id != id
  {
    forall k | 0 <= k < |s.wire| && Outcome(s.wire[k])
      ensures s.wire[k].id != id
    {
      MessageIsSound(s, k);
    }
  }

  /**
   * A load whose worker has not looked at the context by the time it goes down: in no continuation is a process forked
   * for it, and it gets no outcome.
   */
  lemma NothingStartsWhenDown(s: State, id: nat, ss: seq<State>, acts: seq<Action>)
    requires Reachable(s) && !s.ok && id in s.loads && Continues(s, ss, acts)
    requires var t := s.loads[id].task; t.Unqueued? || t.InQueue? || (t.Running? && t.pc.Guard?)
    ensures var e := ss[|acts|];
            && id in e.loads && e.loads[id].proc.NoProc?
            && forall k | 0 <= k < |e.wire| && Outcome(e.wire[k]) :: e.wire[k].id != id
  {
    hide Inv, Reachable, Sound, Answered, Carried, MarksSound, Apply, Enabled;
    ReachableInv(s);
    LoadIsSound(s, id);
    EarlyIsFresh(ViewOf(s, id), s.monitorOn);
    DownForGood(s, id, ss, acts, |acts|);
    ContinuationKeepsInv(s, ss, acts, |acts|);
    NoOutcome(ss[|acts|], id);
  }

  /**
   * A load whose worker is past the check but not past its second look at the context, when the context goes down: in
   * no continuation is its child registered, and it gets no outcome, be it that the load fails or that its child comes
   * up.
   */
  lemma NothingIsTakenOverWhenDown(s: State, id: nat, ss: seq<State>, acts: seq<Action>)
    requires Reachable(s) && !s.ok && id in s.loads && Continues(s, ss, acts)
    requires s.loads[id].task.Running? && Silenced(s.loads[id].task)
    ensures var e := ss[|acts|];
            && id in e.loads && id !in e.tables.children && id !in e.stopping
            && forall k | 0 <= k < |e.wire| && Outcome(e.wire[k]) :: e.wire[k].id != id
  {
    ReachableInv(s);
    LoadIsSound(s, id);
    RunningIsUnanswered(ViewOf(s, id), s.monitorOn);
    hide Inv, Reachable, Sound, Answered, Carried, MarksSound, Apply, Enabled;
    DownForGood(s, id, ss, acts, |acts|);
    ContinuationKeepsInv(s, ss, acts, |acts|);
    NoOutcome(ss[|acts|], id);
    LoadIsSound(ss[|acts|], id);
    UnregisteredIsNowhere(ViewOf(ss[|acts|], id), ss[|acts|].monitorOn);
  }

  lemma UnregisteredIsNowhere(v: View, monitorOn: bool)
    requires Sound(v, monitorOn) && Unregistered(v.load.task)
    ensures Nowhere(v)
  {
  }

  // ---------- the order in which the destructor lets go ----------

  /**
   * No worker thread ends before every child that was registered when the destructor took them has been collected and
   * let go: a child forked by a thread gets SIGKILL when that thread ends.
   */
  lemma WorkersOutliveChildren(s: State, w: nat, id: nat)
    requires Reachable(s) && w in s.workers && s.workers[w].Exited?
    ensures s.stopping == map[] && !s.workersRunning
    ensures id in s.loads && s.loads[id].removal.ByShutdown? ==> !s.loads[id].proc.Alive? && Released(s.loads[id])
  {
    hide Reachable, LoadsInv, IdsInv, CarriedInv, QueueInv, WorkersInv, ClientsInv, MonitorInv, WireInv;
    hide Sound, Answered, Carried, MarksSound;
    ReachableInv(s);
    if id in s.loads && s.loads[id].removal.ByShutdown? {
      LoadIsSound(s, id);
      LetGoIsReleased(ViewOf(s, id), s.monitorOn);
    }
  }

  lemma LetGoIsReleased(v: View, monitorOn: bool)
    requires Sound(v, monitorOn) && v.load.removal.ByShutdown? && v.stopping.None?
    ensures Released(v.load)
  {
  }

  /** While the destructor is at its children, the monitor has ended and no request is under way. */
  lemma DestructorIsAlone(s: State, c: nat)
    requires Reachable(s) && (s.stopping != map[] || s.dtor.Done?) && c in s.clients
    ensures s.monitor.Joined? && s.clients[c].Idle?
  {
    hide Reachable, LoadsInv, IdsInv, CarriedInv, QueueInv, WorkersInv, ClientsInv, MonitorInv, WireInv;
    ReachableInv(s);
  }

  /** From the destructor's first step on nothing is sent, and from its stop of the workers on no load is begun. */
  lemma NothingAfterStop(s: State, a: Action)
    requires Reachable(s) && Enabled(s, a)
    ensures !s.dtor.NotStarted? ==> !s.active && Apply(s, a).wire == s.wire
    ensures s.dtor.JoinWorkers? || s.dtor.FinalCleanup? || s.dtor.Done? ==> !a.Pop?
  {
    hide Reachable, LoadsInv, IdsInv, CarriedInv, QueueInv, WorkersInv, ClientsInv, MonitorInv, WireInv;
    ReachableInv(s);
    assert a.Pop? ==> s.workersRunning;
    hide Inv, Enabled, Apply;
    if !s.active {
      SilentWhenClosed(s, a);
    }
  }

  lemma SilentWhenClosed(s: State, a: Action)
    requires Enabled(s, a) && !s.active
    ensures Apply(s, a).wire == s.wire
  {
    hide Enabled, Apply, Written;
    if a.TaskStep? {
      TaskGoes(s, a);
      ShapeOfStep(s, a.id, a.choice);
    } else if a.ClientStep? {
      OwnStep(s, a, a.c);
      ClientSays(s, a.c);
      NothingWritten(s.wire, Said(s.tables, s.clients[a.c]));
    } else {
      OthersSay(s, a);
      NoCrashWritten(s.wire, Apply(s, a).wire);
    }
  }

  lemma NothingWritten(wire: seq<Msg>, m: Option<Msg>)
    ensures Written(wire, m, false) == wire
  {
  }

  lemma NoCrashWritten(wire: seq<Msg>, wire': seq<Msg>)
    requires wire' == wire || exists id, pid :: wire' == Written(wire, Some(Crashed(id, pid)), false)
    ensures wire' == wire
  {
  }
}

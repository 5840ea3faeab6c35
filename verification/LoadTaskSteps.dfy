/** A worker's step inside `submit_spawn` keeps the invariant. */
module LoadTaskSteps {
  import opened Common
  import opened LoadTables
  import opened LoadProtocol
  import opened LoadInvariant

  /** `t'` differs from `t` at most in the entries of `id`. */
  ghost predicate OnlyEntry(t: Tables, t': Tables, id: nat) {
    && t'.counter == t.counter && t'.seqToId == t.seqToId
    && t'.pending.Keys <= t.pending.Keys + {id}
    && t'.children.Keys <= t.children.Keys + {id}
    && (forall k | k != id :: Lookup(t'.pending, k) == Lookup(t.pending, k))
    && (forall k | k != id :: Lookup(t'.children, k) == Lookup(t.children, k))
  }

  /** At most one frame goes out, about this load, and an outcome is marked and ends the work. */
  ghost predicate OwnFrame(s: State, s': State, id: nat)
    requires id in s.loads && id in s'.loads
  {
    var l, l' := s.loads[id], s'.loads[id];
    && WireGrows(s, s')
    && (s'.wire == s.wire ==> l'.answerAt == l.answerAt)
    && (s'.wire != s.wire ==>
          && s.active && AboutLoad(s'.wire[|s.wire|]) && s'.wire[|s.wire|].id == id && Tells(l', s'.wire[|s.wire|])
          && (Outcome(s'.wire[|s.wire|]) ==>
                && l.answerAt.None? && l'.answerAt == Some(|s.wire|)
                && l'.task == Finished(s'.wire[|s.wire|].LoadedMsg?))
          && (!Outcome(s'.wire[|s.wire|]) ==> l'.answerAt == l.answerAt))
  }

  /** What all task steps have in common: they move load `id`, its entries, its worker and the wire. */
  ghost predicate Profile(s: State, s': State, id: nat) {
    && id in s.loads && id in s'.loads && s.loads[id].task.Running?
    && var l, l' := s.loads[id], s'.loads[id];
    && s' == s.(loads := s.loads[id := l'], tables := s'.tables, workers := s'.workers, wire := s'.wire)
    && OnlyEntry(s.tables, s'.tables, id)
    && (Flagged(s.tables, id) && id in s'.tables.pending ==> Flagged(s'.tables, id))
    && (id in s'.tables.pending ==> id in s.tables.pending)
    && (if l'.task.Finished?
        then s'.workers == s.workers[l.task.worker := Free]
        else s'.workers == s.workers && l'.task.Running? && l'.task.worker == l.task.worker)
    && Evolves(l, l', |s.wire|)
    && l'.acceptedAt == l.acceptedAt && l'.goneAt == l.goneAt && l'.removal == l.removal
    && OwnFrame(s, s', id)
    && Sound(ViewOf(s', id), s'.monitorOn)
    && Answered(l', s'.ok, s'.active)
  }

  lemma ProfileLoads(s: State, s': State, id: nat)
    requires LoadsInv(s) && Profile(s, s', id)
    ensures LoadsInv(s')
  {
    forall k | k in s'.loads
      ensures Sound(ViewOf(s', k), s'.monitorOn) && Answered(s'.loads[k], s'.ok, s'.active)
    {
      if k != id {
        assert ViewOf(s', k) == ViewOf(s, k);
      }
    }
  }

  lemma ProfileCarried(s: State, s': State, id: nat)
    requires CarriedInv(s) && WorkersInv(s) && Profile(s, s', id)
    ensures CarriedInv(s') && WorkersInv(s')
  {
    assert Carried(s, id);
    forall k | k in s'.loads
      ensures Carried(s', k)
    {
      assert Carried(s, k);
    }
  }

  lemma ProfileQueue(s: State, s': State, id: nat)
    requires IdsInv(s) && QueueInv(s) && MonitorInv(s) && Profile(s, s', id)
    ensures IdsInv(s') && QueueInv(s') && MonitorInv(s')
  {
  }

  lemma ProfileClients(s: State, s': State, id: nat)
    requires ClientsInv(s) && Profile(s, s', id)
    ensures ClientsInv(s')
  {
    forall c | c in s'.clients
      ensures ClientSound(s', c, s'.clients[c])
    {
      assert ClientSound(s, c, s.clients[c]);
      KeepsClient(s, s', id, c);
    }
  }

  lemma KeepsClient(s: State, s': State, id: nat, c: nat)
    requires c in s.clients && ClientSound(s, c, s.clients[c]) && Profile(s, s', id)
    ensures ClientSound(s', c, s.clients[c])
  {
    var k := s.clients[c];
    if k.CancelKill? {
      FlagStays(s.tables, s'.tables, id, k.id);
    }
  }

  /** A flag goes only with its pending entry. */
  lemma FlagStays(t: Tables, t': Tables, id: nat, k: nat)
    requires OnlyEntry(t, t', id) && (id in t'.pending ==> id in t.pending)
    requires Flagged(t, id) && id in t'.pending ==> Flagged(t', id)
    requires k in t.pending ==> Flagged(t, k)
    ensures k in t'.pending ==> Flagged(t', k)
  {
    if k in t'.pending && k != id {
      assert Lookup(t'.pending, k) == Lookup(t.pending, k);
    }
  }

  lemma ProfileDtor(s: State, s': State, id: nat)
    requires DtorInv(s) && CarriedInv(s) && Profile(s, s', id)
    ensures DtorInv(s')
  {
    assert Carried(s, id);
  }

  /** A message sent before the step still agrees with its load. */
  lemma KeepsMessage(s: State, s': State, id: nat, i: nat)
    requires i < |s.wire| && MsgSound(s.loads, s.wire[i], i) && Profile(s, s', id)
    ensures MsgSound(s'.loads, s.wire[i], i)
  {
    hide Onward, Stays, Sound, Answered, OnlyEntry, Quiet, PastUnpend, WireGrows;
  }

  /** And the one sent by the step agrees with the load moved. */
  lemma NewMessage(s: State, s': State, id: nat)
    requires id in s.loads && Answered(s.loads[id], s.ok, s.active) && MarksSound(s.wire, id, s.loads[id])
    requires Profile(s, s', id) && s'.wire != s.wire
    ensures MsgSound(s'.loads, s'.wire[|s.wire|], |s.wire|)
  {
    hide Sound, OnlyEntry, Quiet, PastUnpend;
  }

  lemma ProfileMessages(s: State, s': State, id: nat)
    requires WireInv(s) && LoadsInv(s) && Profile(s, s', id)
    ensures forall i | 0 <= i < |s'.wire| :: MsgSound(s'.loads, s'.wire[i], i)
  {
    hide Sound, MsgSound, MarksSound, Evolves, OnlyEntry;
    forall i | 0 <= i < |s'.wire|
      ensures MsgSound(s'.loads, s'.wire[i], i)
    {
      if i < |s.wire| {
        assert s'.wire[i] == s'.wire[..|s.wire|][i] == s.wire[i];
        KeepsMessage(s, s', id, i);
      } else {
        NewMessage(s, s', id);
      }
    }
  }

  lemma ProfileMarks(s: State, s': State, id: nat)
    requires WireInv(s) && Profile(s, s', id)
    ensures forall k | k in s'.loads :: MarksSound(s'.wire, k, s'.loads[k])
  {
    var n := |s.wire|;
    assert forall i | 0 <= i < n :: s'.wire[i] == s.wire[i] by {
      assert forall i | 0 <= i < n :: s'.wire[..n][i] == s.wire[i];
    }
    forall k | k in s'.loads
      ensures MarksSound(s'.wire, k, s'.loads[k])
    {
      assert MarksSound(s.wire, k, s.loads[k]);
    }
  }

  lemma ProfileKeepsInv(s: State, s': State, id: nat)
    requires Inv(s) && Profile(s, s', id)
    ensures Inv(s')
  {
    ProfileLoads(s, s', id);
    ProfileCarried(s, s', id);
    ProfileQueue(s, s', id);
    ProfileClients(s, s', id);
    ProfileDtor(s, s', id);
    ProfileMessages(s, s', id);
    ProfileMarks(s, s', id);
  }

  /** What the step makes of the load's pending entry. */
  function NextPending(p: Option<Pending>, pc: Pc): Option<Pending> {
    match pc
    case Drop => None
    case PreFork => if p.Some? && p.value.cancelled then None else p
    case Forked(pid, _) => if p.Some? then Some(p.value.(phase := Constructing, pid := pid)) else None
    case Catch => None
    case Unpending(_) => None
    case _ => p
  }

  /** The view of the load after the step. */
  ghost function NextView(v: View, choice: Choice, ok: bool, monitorOn: bool, here: Option<nat>): View
    requires v.load.task.Running?
  {
    var flagged := v.pending.Some? && v.pending.value.cancelled;
    var pc := v.load.task.pc;
    View(NextPending(v.pending, pc), if pc.Registering? then Some(pc.child) else v.child, v.stopping,
         NextLoad(v.load, choice, ok, flagged, monitorOn, here))
  }

  /** A choice the step may be given, as far as the load itself is concerned. */
  ghost predicate Fits(l: Load, choice: Choice)
    requires l.task.Running?
  {
    match l.task.pc
    case Params => choice.Made?
    case PipeFork(_) => choice.ForkFail? || (choice.Fork? && choice.newPid > 0)
    case Waiting(_, _) => WaitEnds(l, choice)
    case OpenFd(_, _, _) => choice.Fd?
    case _ => true
  }

  /** The step is allowed and its load is sound. */
  ghost predicate Before(v: View, choice: Choice, ok: bool, monitorOn: bool, active: bool) {
    v.load.task.Running? && Sound(v, monitorOn) && Answered(v.load, ok, active) && Fits(v.load, choice)
  }

  /** The load after the step is sound and has lost nothing. */
  ghost predicate SoundAfter(v: View, choice: Choice, ok: bool, monitorOn: bool, active: bool, sent: nat)
    requires v.load.task.Running?
  {
    var v' := NextView(v, choice, ok, monitorOn, if active then Some(sent) else None);
    Sound(v', monitorOn) && Answered(v'.load, ok, active) && Evolves(v.load, v'.load, sent)
  }

  /** The frame the step sends, if it sends one, is about this load, and an outcome is marked and ends the work. */
  ghost predicate TellsOwn(v: View, id: nat, choice: Choice, ok: bool, monitorOn: bool, here: Option<nat>)
    requires v.load.task.Running?
  {
    var l, l' := v.load, NextView(v, choice, ok, monitorOn, here).load;
    var frame := FrameOf(id, l.task.pc, choice);
    && l'.acceptedAt == l.acceptedAt && l'.goneAt == l.goneAt && l'.removal == l.removal
    && (l'.task.Finished? || (l'.task.Running? && l'.task.worker == l.task.worker))
    && (frame.Some? ==> AboutLoad(frame.value) && frame.value.id == id)
    && (frame.Some? && Outcome(frame.value) ==> l'.task == Finished(frame.value.LoadedMsg?))
    && l'.answerAt == (if frame.Some? && Outcome(frame.value) then here else l.answerAt)
  }

  lemma TellsItsOwn(v: View, id: nat, choice: Choice, ok: bool, monitorOn: bool, here: Option<nat>)
    requires v.load.task.Running?
    ensures TellsOwn(v, id, choice, ok, monitorOn, here)
  {
    hide NextLoad, NextTask, FrameOf, Answers, AboutLoad, Outcome;
    var flagged := v.pending.Some? && v.pending.value.cancelled;
    OutcomesAnswer(id, v.load.task.pc, choice);
    SendsItsOwn(v.load, id, choice, ok, flagged, monitorOn, here);
  }

  /** What it says is true. */
  ghost predicate TellsTruth(v: View, id: nat, choice: Choice, ok: bool, monitorOn: bool, here: Option<nat>)
    requires v.load.task.Running?
  {
    var frame := FrameOf(id, v.load.task.pc, choice);
    frame.Some? ==> Tells(NextView(v, choice, ok, monitorOn, here).load, frame.value)
  }

  lemma TellsTheTruth(
    v: View, id: nat, choice: Choice, ok: bool, monitorOn: bool, active: bool, here: Option<nat>)
    requires Before(v, choice, ok, monitorOn, active)
    ensures TellsTruth(v, id, choice, ok, monitorOn, here)
  {
    hide NextLoad, NextTask, NextPending, Sound, Answered, Fits;
    var pc := v.load.task.pc;
    if pc.SendLoaded? {
      RunningSpeaks(v, monitorOn);
    } else if pc.Waiting? {
      WaitingKnows(v, monitorOn);
    } else {
      hide NextView;
      PlainFrameTells(NextView(v, choice, ok, monitorOn, here).load, id, pc, choice);
    }
  }

  lemma WaitingKnows(v: View, monitorOn: bool)
    requires Sound(v, monitorOn) && v.load.task.Running? && v.load.task.pc.Waiting?
    ensures v.load.pid == v.load.task.pc.pid > 0
  {
    hide Truthful, Parked, Nowhere;
  }

  lemma PlainFrameTells(l: Load, id: nat, pc: Pc, choice: Choice)
    requires !pc.SendLoaded? && !pc.Waiting?
    ensures FrameOf(id, pc, choice).Some? ==> Tells(l, FrameOf(id, pc, choice).value)
  {
  }

  lemma OutcomesAnswer(id: nat, pc: Pc, choice: Choice)
    ensures var frame := FrameOf(id, pc, choice); (frame.Some? && Outcome(frame.value)) == Answers(pc)
  {
  }

  lemma SendsItsOwn(
    l: Load, id: nat, choice: Choice, ok: bool, flagged: bool, monitorOn: bool, here: Option<nat>)
    requires l.task.Running?
    ensures var task := NextLoad(l, choice, ok, flagged, monitorOn, here).task;
            var frame := FrameOf(id, l.task.pc, choice);
            && (frame.Some? ==> AboutLoad(frame.value) && frame.value.id == id)
            && (frame.Some? && Outcome(frame.value) ==> task == Finished(frame.value.LoadedMsg?))
  {
  }

  /** A move within a stage leaves the load sound. */
  lemma SameStageIsSound(v: View, monitorOn: bool, task: Task)
    requires Sound(v, monitorOn) && !v.load.task.Finished? && SpokenFor(v.load, task)
    requires StageOf(task) == StageOf(v.load.task)
    ensures Sound(v.(load := v.load.(task := task)), monitorOn)
  {
  }

  lemma RunningSpeaks(v: View, monitorOn: bool)
    requires Sound(v, monitorOn)
    ensures SpokenFor(v.load, v.load.task)
  {
    hide InStage;
  }

  lemma RunningIsUnanswered(v: View, monitorOn: bool)
    requires Sound(v, monitorOn) && v.load.task.Running?
    ensures v.load.answerAt.None?
  {
    hide InStage;
  }

  /** Nor does such a move take anything back. */
  lemma MovesOn(l: Load, task: Task, answerAt: Option<nat>, sent: nat)
    requires l.task.Running? && (PastUnpend(l.task) ==> PastUnpend(task)) && (NoMoreFork(l.task) ==> NoMoreFork(task))
    requires answerAt == l.answerAt || (l.answerAt.None? && answerAt == Some(sent))
    ensures Evolves(l, l.(task := task, answerAt := answerAt), sent)
  {
  }

  /** A child found gone leaves only its file to undo. */
  lemma GoneIsSound(v: View, monitorOn: bool, file: bool, task: Task)
    requires Sound(v, monitorOn) && StageOf(v.load.task).InConstruction? && StageOf(v.load.task).file == file
    requires !v.load.task.Finished? && !v.load.proc.Alive? && StageOf(task) == Undoing(file)
    ensures Sound(v.(load := v.load.(task := task)), monitorOn)
  {
    var v' := v.(load := v.load.(task := task));
    assert InStage(v', Undoing(file), monitorOn);
  }

  /** Taking the pending entry away leads from a stage that has one to its twin without. */
  lemma UnpendedIsSound(v: View, monitorOn: bool, task: Task)
    requires Sound(v, monitorOn) && !v.load.task.Finished? && SpokenFor(v.load, task)
    requires || (StageOf(v.load.task) == Undone(true) && StageOf(task) == Undone(false))
             || (StageOf(v.load.task) == Delivered(true) && StageOf(task) == Delivered(false))
    ensures Sound(v.(pending := None, load := v.load.(task := task)), monitorOn)
  {
  }

  /** A load whose entry is gone may finish, answered or not. */
  lemma FinishedIsSound(v: View, monitorOn: bool, handedOver: bool, answerAt: Option<nat>)
    requires Sound(v, monitorOn)
    requires StageOf(v.load.task) == if handedOver then Delivered(false) else Undone(false)
    ensures Sound(v.(load := v.load.(task := Finished(handedOver), answerAt := answerAt)), monitorOn)
  {
  }

  /** A step that only moves within its stage, still before `take_pending` or already behind it. */
  lemma AfterMove(v: View, choice: Choice, ok: bool, monitorOn: bool, active: bool, sent: nat, task: Task)
    requires Before(v, choice, ok, monitorOn, active)
    requires NextView(v, choice, ok, monitorOn, if active then Some(sent) else None)
             == v.(load := v.load.(task := task))
    requires task.Running? && StageOf(task) == StageOf(v.load.task) && SpokenFor(v.load, task)
    requires (PastUnpend(v.load.task) ==> PastUnpend(task)) && (NoMoreFork(v.load.task) ==> NoMoreFork(task))
    requires task.pc.Cleanup? || task.pc.Drop? ==> !ok
    ensures SoundAfter(v, choice, ok, monitorOn, active, sent)
  {
    hide Sound, InStage, Evolves, NextView, StageOf, PastUnpend, NoMoreFork;
    RunningIsUnanswered(v, monitorOn);
    SameStageIsSound(v, monitorOn, task);
    MovesOn(v.load, task, None, sent);
  }

  /** A step that takes the pending entry away. */
  lemma AfterUnpend(v: View, choice: Choice, ok: bool, monitorOn: bool, active: bool, sent: nat, task: Task)
    requires Before(v, choice, ok, monitorOn, active)
    requires NextView(v, choice, ok, monitorOn, if active then Some(sent) else None)
             == v.(pending := None, load := v.load.(task := task))
    requires || (StageOf(v.load.task) == Undone(true) && StageOf(task) == Undone(false))
             || (StageOf(v.load.task) == Delivered(true) && StageOf(task) == Delivered(false))
    requires task.Running? && PastUnpend(task) && NoMoreFork(task) && !task.pc.Cleanup? && !task.pc.Drop?
    requires SpokenFor(v.load, task)
    ensures SoundAfter(v, choice, ok, monitorOn, active, sent)
  {
    hide Sound, InStage, Evolves, NextView, StageOf, PastUnpend, NoMoreFork;
    RunningIsUnanswered(v, monitorOn);
    UnpendedIsSound(v, monitorOn, task);
    MovesOn(v.load, task, None, sent);
  }

  /** A step that ends the work on the load, with or without an outcome. */
  lemma AfterEnd(
    v: View, choice: Choice, ok: bool, monitorOn: bool, active: bool, sent: nat, handedOver: bool,
    answerAt: Option<nat>)
    requires Before(v, choice, ok, monitorOn, active)
    requires NextView(v, choice, ok, monitorOn, if active then Some(sent) else None)
             == v.(load := v.load.(task := Finished(handedOver), answerAt := answerAt))
    requires StageOf(v.load.task) == if handedOver then Delivered(false) else Undone(false)
    requires answerAt == None || answerAt == Some(sent)
    requires ok && active ==> answerAt.Some?
    ensures SoundAfter(v, choice, ok, monitorOn, active, sent)
  {
    hide Sound, InStage, Evolves, NextView, StageOf;
    RunningIsUnanswered(v, monitorOn);
    FinishedIsSound(v, monitorOn, handedOver, answerAt);
    MovesOn(v.load, Finished(handedOver), answerAt, sent);
  }

  lemma AfterGuard(v: View, choice: Choice, ok: bool, monitorOn: bool, active: bool, sent: nat)
    requires Before(v, choice, ok, monitorOn, active) && v.load.task.pc.Guard?
    ensures SoundAfter(v, choice, ok, monitorOn, active, sent)
  {
    var here := if active then Some(sent) else None;
    var l, v' := v.load, NextView(v, choice, ok, monitorOn, here);
    assert v'.load == GoTo(l, if ok then Admission else Drop);
    assert Sound(v', monitorOn);
    assert Evolves(l, v'.load, sent);
  }

  lemma AfterDrop(v: View, choice: Choice, ok: bool, monitorOn: bool, active: bool, sent: nat)
    requires Before(v, choice, ok, monitorOn, active) && v.load.task.pc.Drop?
    ensures SoundAfter(v, choice, ok, monitorOn, active, sent)
  {
    var here := if active then Some(sent) else None;
    var l, v' := v.load, NextView(v, choice, ok, monitorOn, here);
    assert v'.load == l.(task := Finished(false));
    assert Sound(v', monitorOn);
    assert Evolves(l, v'.load, sent);
  }

  lemma AfterAdmission(v: View, choice: Choice, ok: bool, monitorOn: bool, active: bool, sent: nat)
    requires Before(v, choice, ok, monitorOn, active) && v.load.task.pc.Admission?
    ensures SoundAfter(v, choice, ok, monitorOn, active, sent)
  {
    hide Sound, InStage, Evolves, Answered, Quiet;
    var v' := NextView(v, choice, ok, monitorOn, if active then Some(sent) else None);
    AfterMove(v, choice, ok, monitorOn, active, sent, v'.load.task);
  }

  lemma AfterPreFork(v: View, choice: Choice, ok: bool, monitorOn: bool, active: bool, sent: nat)
    requires Before(v, choice, ok, monitorOn, active) && v.load.task.pc.PreFork?
    ensures SoundAfter(v, choice, ok, monitorOn, active, sent)
  {
    var here := if active then Some(sent) else None;
    var l, v' := v.load, NextView(v, choice, ok, monitorOn, here);
    assert v'.load == GoTo(l, if v.pending.value.cancelled then SendCancelled else Params);
    assert Sound(v', monitorOn);
    assert Evolves(l, v'.load, sent);
  }

  lemma AfterSendCancelled(v: View, choice: Choice, ok: bool, monitorOn: bool, active: bool, sent: nat)
    requires Before(v, choice, ok, monitorOn, active) && v.load.task.pc.SendCancelled?
    ensures SoundAfter(v, choice, ok, monitorOn, active, sent)
  {
    hide Sound, InStage, Evolves, Answered, Quiet;
    AfterEnd(v, choice, ok, monitorOn, active, sent, false, if active then Some(sent) else None);
  }

  lemma AfterParams(v: View, choice: Choice, ok: bool, monitorOn: bool, active: bool, sent: nat)
    requires Before(v, choice, ok, monitorOn, active) && v.load.task.pc.Params?
    ensures SoundAfter(v, choice, ok, monitorOn, active, sent)
  {
    var here := if active then Some(sent) else None;
    var l, v' := v.load, NextView(v, choice, ok, monitorOn, here);
    assert Sound(v', monitorOn);
    assert Evolves(l, v'.load, sent);
  }

  lemma AfterPipeFork(v: View, choice: Choice, ok: bool, monitorOn: bool, active: bool, sent: nat)
    requires Before(v, choice, ok, monitorOn, active) && v.load.task.pc.PipeFork?
    ensures SoundAfter(v, choice, ok, monitorOn, active, sent)
  {
    var here := if active then Some(sent) else None;
    var l, v' := v.load, NextView(v, choice, ok, monitorOn, here);
    assert v'.load == if choice.Fork?
                      then GoTo(l, Forked(choice.newPid, l.task.pc.file))
                           .(pid := choice.newPid, proc := Alive, line := Silent)
                      else GoTo(l, UnlinkFailed(l.task.pc.file));
    assert v' == v.(load := v'.load);
    assert Sound(v', monitorOn);
    assert Evolves(l, v'.load, sent);
  }

  lemma AfterForked(v: View, choice: Choice, ok: bool, monitorOn: bool, active: bool, sent: nat)
    requires Before(v, choice, ok, monitorOn, active) && v.load.task.pc.Forked?
    ensures SoundAfter(v, choice, ok, monitorOn, active, sent)
  {
    var here := if active then Some(sent) else None;
    var l, v' := v.load, NextView(v, choice, ok, monitorOn, here);
    assert Sound(v', monitorOn);
    assert Evolves(l, v'.load, sent);
  }

  lemma AfterGone(v: View, choice: Choice, ok: bool, monitorOn: bool, active: bool, sent: nat)
    requires Before(v, choice, ok, monitorOn, active) && v.load.task.pc.Waiting? && choice.Gone?
    ensures SoundAfter(v, choice, ok, monitorOn, active, sent)
  {
    hide Sound, InStage, Evolves;
    var l := v.load;
    var task := Running(l.task.worker, UnlinkFailed(l.task.pc.file));
    RunningIsUnanswered(v, monitorOn);
    GoneIsSound(v, monitorOn, l.task.pc.file, task);
    MovesOn(l, task, None, sent);
  }

  lemma AfterWaiting(v: View, choice: Choice, ok: bool, monitorOn: bool, active: bool, sent: nat)
    requires Before(v, choice, ok, monitorOn, active) && v.load.task.pc.Waiting?
    ensures SoundAfter(v, choice, ok, monitorOn, active, sent)
  {
    if choice.Gone? {
      AfterGone(v, choice, ok, monitorOn, active, sent);
    } else {
      hide Sound, InStage, Evolves, Answered, Quiet;
      var v' := NextView(v, choice, ok, monitorOn, if active then Some(sent) else None);
      AfterMove(v, choice, ok, monitorOn, active, sent, v'.load.task);
    }
  }

  lemma AfterKillChild(v: View, choice: Choice, ok: bool, monitorOn: bool, active: bool, sent: nat)
    requires Before(v, choice, ok, monitorOn, active) && v.load.task.pc.KillChild?
    ensures SoundAfter(v, choice, ok, monitorOn, active, sent)
  {
    var here := if active then Some(sent) else None;
    var l, v' := v.load, NextView(v, choice, ok, monitorOn, here);
    assert Sound(v', monitorOn);
    assert Evolves(l, v'.load, sent);
  }

  lemma AfterUnlinkFailed(v: View, choice: Choice, ok: bool, monitorOn: bool, active: bool, sent: nat)
    requires Before(v, choice, ok, monitorOn, active) && v.load.task.pc.UnlinkFailed?
    ensures SoundAfter(v, choice, ok, monitorOn, active, sent)
  {
    var here := if active then Some(sent) else None;
    var l, v' := v.load, NextView(v, choice, ok, monitorOn, here);
    assert v'.load == Unlink(GoTo(l, Catch), l.task.pc.file);
    assert v' == v.(load := v'.load);
    assert Released(v'.load);
    assert Sound(v', monitorOn);
    assert Evolves(l, v'.load, sent);
  }

  lemma AfterCatch(v: View, choice: Choice, ok: bool, monitorOn: bool, active: bool, sent: nat)
    requires Before(v, choice, ok, monitorOn, active) && v.load.task.pc.Catch?
    ensures SoundAfter(v, choice, ok, monitorOn, active, sent)
  {
    hide Sound, InStage, Evolves, Answered, Quiet;
    var v' := NextView(v, choice, ok, monitorOn, if active then Some(sent) else None);
    AfterUnpend(v, choice, ok, monitorOn, active, sent, v'.load.task);
  }

  lemma AfterCheckOk(v: View, choice: Choice, ok: bool, monitorOn: bool, active: bool, sent: nat)
    requires Before(v, choice, ok, monitorOn, active) && v.load.task.pc.CheckOk?
    ensures SoundAfter(v, choice, ok, monitorOn, active, sent)
  {
    hide Sound, InStage, Evolves, Answered, Quiet;
    var v' := NextView(v, choice, ok, monitorOn, if active then Some(sent) else None);
    if ok {
      AfterMove(v, choice, ok, monitorOn, active, sent, v'.load.task);
    } else {
      RunningIsUnanswered(v, monitorOn);
      AfterEnd(v, choice, ok, monitorOn, active, sent, false, None);
    }
  }

  lemma AfterSendFailed(v: View, choice: Choice, ok: bool, monitorOn: bool, active: bool, sent: nat)
    requires Before(v, choice, ok, monitorOn, active) && v.load.task.pc.SendFailed?
    ensures SoundAfter(v, choice, ok, monitorOn, active, sent)
  {
    hide Sound, InStage, Evolves, Answered, Quiet;
    AfterEnd(v, choice, ok, monitorOn, active, sent, false, if active then Some(sent) else None);
  }

  lemma AfterOpenFd(v: View, choice: Choice, ok: bool, monitorOn: bool, active: bool, sent: nat)
    requires Before(v, choice, ok, monitorOn, active) && v.load.task.pc.OpenFd?
    ensures SoundAfter(v, choice, ok, monitorOn, active, sent)
  {
    var here := if active then Some(sent) else None;
    var l, v' := v.load, NextView(v, choice, ok, monitorOn, here);
    var child := Child(l.task.pc.pid, l.task.pc.name, choice.got, l.task.pc.file);
    assert v'.load == GoTo(l, Recheck(child)).(fdOpened := choice.got, watched := choice.got && monitorOn);
    assert v' == v.(load := v'.load);
    assert HeldUnreaped(v'.load, child, monitorOn);
    assert Sound(v', monitorOn);
    assert Evolves(l, v'.load, sent);
  }

  lemma AfterRecheck(v: View, choice: Choice, ok: bool, monitorOn: bool, active: bool, sent: nat)
    requires Before(v, choice, ok, monitorOn, active) && v.load.task.pc.Recheck?
    ensures SoundAfter(v, choice, ok, monitorOn, active, sent)
  {
    hide Sound, InStage, Evolves, Answered, Quiet;
    var v' := NextView(v, choice, ok, monitorOn, if active then Some(sent) else None);
    AfterMove(v, choice, ok, monitorOn, active, sent, v'.load.task);
  }

  lemma AfterCleanup(v: View, choice: Choice, ok: bool, monitorOn: bool, active: bool, sent: nat)
    requires Before(v, choice, ok, monitorOn, active) && v.load.task.pc.Cleanup?
    ensures SoundAfter(v, choice, ok, monitorOn, active, sent)
  {
    var here := if active then Some(sent) else None;
    var l, v' := v.load, NextView(v, choice, ok, monitorOn, here);
    assert v'.load == CleanUp(GoTo(l, Drop), l.task.pc.child);
    assert v' == v.(load := v'.load);
    assert Released(v'.load);
    assert Sound(v', monitorOn);
    assert Evolves(l, v'.load, sent);
  }

  lemma AfterRegistering(v: View, choice: Choice, ok: bool, monitorOn: bool, active: bool, sent: nat)
    requires Before(v, choice, ok, monitorOn, active) && v.load.task.pc.Registering?
    ensures SoundAfter(v, choice, ok, monitorOn, active, sent)
  {
    var here := if active then Some(sent) else None;
    var l, v' := v.load, NextView(v, choice, ok, monitorOn, here);
    assert v'.load == GoTo(l, Unpending(l.task.pc.child));
    assert Sound(v', monitorOn);
    assert Evolves(l, v'.load, sent);
  }

  lemma AfterUnpending(v: View, choice: Choice, ok: bool, monitorOn: bool, active: bool, sent: nat)
    requires Before(v, choice, ok, monitorOn, active) && v.load.task.pc.Unpending?
    ensures SoundAfter(v, choice, ok, monitorOn, active, sent)
  {
    hide Sound, InStage, Evolves, Answered, Quiet;
    RunningSpeaks(v, monitorOn);
    var task := Running(v.load.task.worker, SendLoaded(v.load.task.pc.child));
    AfterUnpend(v, choice, ok, monitorOn, active, sent, task);
  }

  lemma AfterSendLoaded(v: View, choice: Choice, ok: bool, monitorOn: bool, active: bool, sent: nat)
    requires Before(v, choice, ok, monitorOn, active) && v.load.task.pc.SendLoaded?
    ensures SoundAfter(v, choice, ok, monitorOn, active, sent)
  {
    hide Sound, InStage, Evolves, Answered, Quiet;
    AfterEnd(v, choice, ok, monitorOn, active, sent, true, if active then Some(sent) else None);
  }

  lemma AfterStep(v: View, choice: Choice, ok: bool, monitorOn: bool, active: bool, sent: nat)
    requires Before(v, choice, ok, monitorOn, active)
    ensures SoundAfter(v, choice, ok, monitorOn, active, sent)
  {
    match v.load.task.pc
    case Guard => AfterGuard(v, choice, ok, monitorOn, active, sent);
    case Drop => AfterDrop(v, choice, ok, monitorOn, active, sent);
    case Admission => AfterAdmission(v, choice, ok, monitorOn, active, sent);
    case PreFork => AfterPreFork(v, choice, ok, monitorOn, active, sent);
    case SendCancelled => AfterSendCancelled(v, choice, ok, monitorOn, active, sent);
    case Params => AfterParams(v, choice, ok, monitorOn, active, sent);
    case PipeFork(_) => AfterPipeFork(v, choice, ok, monitorOn, active, sent);
    case Forked(_, _) => AfterForked(v, choice, ok, monitorOn, active, sent);
    case Waiting(_, _) => AfterWaiting(v, choice, ok, monitorOn, active, sent);
    case KillChild(_, _) => AfterKillChild(v, choice, ok, monitorOn, active, sent);
    case UnlinkFailed(_) => AfterUnlinkFailed(v, choice, ok, monitorOn, active, sent);
    case Catch => AfterCatch(v, choice, ok, monitorOn, active, sent);
    case CheckOk(_) => AfterCheckOk(v, choice, ok, monitorOn, active, sent);
    case SendFailed(_) => AfterSendFailed(v, choice, ok, monitorOn, active, sent);
    case OpenFd(_, _, _) => AfterOpenFd(v, choice, ok, monitorOn, active, sent);
    case Recheck(_) => AfterRecheck(v, choice, ok, monitorOn, active, sent);
    case Cleanup(_) => AfterCleanup(v, choice, ok, monitorOn, active, sent);
    case Registering(_) => AfterRegistering(v, choice, ok, monitorOn, active, sent);
    case Unpending(_) => AfterUnpending(v, choice, ok, monitorOn, active, sent);
    case SendLoaded(_) => AfterSendLoaded(v, choice, ok, monitorOn, active, sent);
  }

  lemma SectionEntry(t: Tables, id: nat, pc: Pc)
    ensures OnlyEntry(t, Section(t, id, pc), id)
  {
  }

  lemma SectionEntries(t: Tables, id: nat, pc: Pc)
    ensures Lookup(Section(t, id, pc).pending, id) == NextPending(Lookup(t.pending, id), pc)
    ensures Lookup(Section(t, id, pc).children, id)
         == if pc.Registering? then Some(pc.child) else Lookup(t.children, id)
  {
  }

  lemma SectionView(s: State, id: nat, choice: Choice)
    requires TaskEnabled(s, id, choice)
    ensures ViewOf(TaskApply(s, id, choice), id)
         == NextView(ViewOf(s, id), choice, s.ok, s.monitorOn, Here(s))
  {
    hide Onward, Stays, NextLoad, NextTask, NextPending, Section, FrameOf, FreshPid, Written, OnlyEntry, Fits;
    SectionEntries(s.tables, id, s.loads[id].task.pc);
  }

  lemma TaskStepKeepsInv(s: State, id: nat, choice: Choice)
    requires Inv(s) && TaskEnabled(s, id, choice)
    ensures Inv(TaskApply(s, id, choice))
  {
    TaskProfile(s, id, choice);
    ProfileKeepsInv(s, TaskApply(s, id, choice), id);
  }

  lemma TaskIsBefore(s: State, id: nat, choice: Choice)
    requires LoadsInv(s) && TaskEnabled(s, id, choice)
    ensures id in s.loads && s.loads[id].task.Running? && s.loads[id].answerAt.None?
    ensures Before(ViewOf(s, id), choice, s.ok, s.monitorOn, s.active)
  {
    hide InStage, Answered;
    RunningIsUnanswered(ViewOf(s, id), s.monitorOn);
  }

  lemma FrameIsOwn(s: State, s': State, id: nat, frame: Option<Msg>)
    requires id in s.loads && id in s'.loads && s.loads[id].answerAt.None?
    requires s'.wire == if frame.Some? && s.active then s.wire + [frame.value] else s.wire
    requires frame.Some? ==> AboutLoad(frame.value) && frame.value.id == id && Tells(s'.loads[id], frame.value)
    requires frame.Some? && Outcome(frame.value) ==> s'.loads[id].task == Finished(frame.value.LoadedMsg?)
    requires s'.loads[id].answerAt == if frame.Some? && Outcome(frame.value) then Here(s) else None
    ensures OwnFrame(s, s', id)
  {
    hide AboutLoad, Outcome;
  }

  /** A task step moves nothing but its load, the tables, its worker and the wire. */
  ghost predicate Shaped(s: State, s': State, id: nat, choice: Choice)
    requires id in s.loads && id in s'.loads && s.loads[id].task.Running?
  {
    var l, l' := s.loads[id], s'.loads[id];
    var frame := FrameOf(id, l.task.pc, choice);
    && s' == s.(loads := s.loads[id := l'], tables := s'.tables, workers := s'.workers, wire := s'.wire)
    && l' == NextLoad(l, choice, s.ok, Flagged(s.tables, id), s.monitorOn, Here(s))
    && s'.tables == Section(s.tables, id, l.task.pc)
    && s'.workers == (if l'.task.Finished? then s.workers[l.task.worker := Free] else s.workers)
    && s'.wire == (if frame.Some? && s.active then s.wire + [frame.value] else s.wire)
  }

  lemma ShapeOfStep(s: State, id: nat, choice: Choice)
    requires TaskEnabled(s, id, choice)
    ensures id in TaskApply(s, id, choice).loads && Shaped(s, TaskApply(s, id, choice), id, choice)
  {
    hide NextLoad, NextTask, Section, FrameOf, FreshPid, Onward, Stays;
  }

  lemma TaskProfile(s: State, id: nat, choice: Choice)
    requires LoadsInv(s) && TaskEnabled(s, id, choice)
    ensures Profile(s, TaskApply(s, id, choice), id)
  {
    hide TaskApply, TaskEnabled, Onward, Stays, Section, OnlyEntry, NextView, Before, TellsOwn, TellsTruth, Profile;
    hide SoundAfter, FrameOf, LoadsInv, NextLoad, Here;
    TaskIsBefore(s, id, choice);
    var v := ViewOf(s, id);
    AfterStep(v, choice, s.ok, s.monitorOn, s.active, |s.wire|);
    TellsItsOwn(v, id, choice, s.ok, s.monitorOn, Here(s));
    TellsTheTruth(v, id, choice, s.ok, s.monitorOn, s.active, Here(s));
    SectionView(s, id, choice);
    SectionEntry(s.tables, id, s.loads[id].task.pc);
    ShapeOfStep(s, id, choice);
    StepIsProfile(s, TaskApply(s, id, choice), id, choice);
  }

  /** The parts put together. */
  lemma StepIsProfile(s: State, s': State, id: nat, choice: Choice)
    requires id in s.loads && id in s'.loads && s.loads[id].task.Running? && s.loads[id].answerAt.None?
    requires SoundAfter(ViewOf(s, id), choice, s.ok, s.monitorOn, s.active, |s.wire|)
    requires TellsOwn(ViewOf(s, id), id, choice, s.ok, s.monitorOn, Here(s))
    requires TellsTruth(ViewOf(s, id), id, choice, s.ok, s.monitorOn, Here(s))
    requires ViewOf(s', id) == NextView(ViewOf(s, id), choice, s.ok, s.monitorOn, Here(s))
    requires OnlyEntry(s.tables, s'.tables, id) && Shaped(s, s', id, choice)
    ensures Profile(s, s', id)
  {
    hide Onward, NextLoad, Stays, OnlyEntry, NextView, Sound, Answered, Evolves, FrameOf, AboutLoad, Outcome, OwnFrame;
    hide Tells;
    FrameIsOwn(s, s', id, FrameOf(id, s.loads[id].task.pc, choice));
  }
}

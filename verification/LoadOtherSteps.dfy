/** Every step of the monitor, the destructor, the worker pool and the environment keeps the invariant. */
module LoadOtherSteps {
  import opened Common
  import opened LoadTables
  import opened LoadProtocol
  import opened LoadInvariant
  import opened LoadTaskSteps
  import opened LoadSharedSteps
  import opened LoadClientSteps

  // ---------- steps of control alone ----------

  lemma ControlKeepsInv(s: State, s': State)
    requires Inv(s) && FlagsFall(s, s')
    requires s' == s.(ok := s'.ok, active := s'.active, monitor := s'.monitor, dtor := s'.dtor,
                      workersRunning := s'.workersRunning)
    requires MonitorInv(s') && DtorInv(s')
    ensures Inv(s') && Forward(s, s')
  {
    forall k | k in s'.loads
      ensures Sound(ViewOf(s', k), s'.monitorOn) && Answered(s'.loads[k], s'.ok, s'.active) && Carried(s', k)
    {
      assert ViewOf(s', k) == ViewOf(s, k) && Answered(s.loads[k], s.ok, s.active) && Carried(s, k);
    }
    forall c | c in s'.clients
      ensures ClientSound(s', c, s'.clients[c])
    {
      assert ClientSound(s, c, s.clients[c]);
    }
    SameForward(s, s');
  }

  lemma ExitCarried(s: State, w: nat)
    requires LoadsInv(s) && CarriedInv(s) && w in s.workers && s.workers[w].Free?
    ensures LoadsInv(s.(workers := s.workers[w := Exited])) && CarriedInv(s.(workers := s.workers[w := Exited]))
  {
    var s' := s.(workers := s.workers[w := Exited]);
    forall k | k in s'.loads
      ensures ViewOf(s', k) == ViewOf(s, k) && Carried(s', k)
    {
      assert Carried(s, k);
    }
  }

  lemma ExitClients(s: State, w: nat)
    requires ClientsInv(s)
    ensures ClientsInv(s.(workers := s.workers[w := Exited]))
  {
    var s' := s.(workers := s.workers[w := Exited]);
    forall c | c in s'.clients
      ensures ClientSound(s', c, s'.clients[c])
    {
      assert ClientSound(s, c, s.clients[c]);
    }
  }

  lemma WorkerExitStep(s: State, w: nat)
    requires Inv(s) && w in s.workers && s.workers[w].Free? && !s.workersRunning
    ensures Inv(s.(workers := s.workers[w := Exited])) && Forward(s, s.(workers := s.workers[w := Exited]))
  {
    hide LoadsInv, CarriedInv, ClientsInv, Forward;
    var s' := s.(workers := s.workers[w := Exited]);
    ExitCarried(s, w);
    SameForward(s, s');
    ExitClients(s, w);
  }

  // ---------- a worker takes the next item ----------

  lemma PopCarried(s: State, w: nat)
    requires CarriedInv(s) && QueueInv(s) && WorkersInv(s) && s.queue != []
    requires w in s.workers && s.workers[w].Free?
    ensures var s' := PopItem(s, w);
            CarriedInv(s') && QueueInv(s') && WorkersInv(s')
  {
    var s', id := PopItem(s, w), s.queue[0];
    assert forall i | 0 <= i < |s'.queue| :: s'.queue[i] == s.queue[i + 1];
    forall k | k in s'.loads
      ensures Carried(s', k)
    {
      assert Carried(s, k);
      if k != id && k in s.queue {
        var i :| 0 <= i < |s.queue| && s.queue[i] == k;
        assert s'.queue[i - 1] == k;
      }
    }
  }

  lemma PopClients(s: State, w: nat)
    requires IdsInv(s) && ClientsInv(s) && MonitorInv(s) && DtorInv(s) && QueueInv(s) && s.queue != []
    requires w in s.workers && s.workers[w].Free?
    ensures var s' := PopItem(s, w);
            IdsInv(s') && ClientsInv(s') && MonitorInv(s') && DtorInv(s')
  {
    var s' := PopItem(s, w);
    forall c | c in s'.clients
      ensures ClientSound(s', c, s'.clients[c])
    {
      assert ClientSound(s, c, s.clients[c]);
    }
  }

  lemma PopLoads(s: State, w: nat)
    requires LoadsInv(s) && WireInv(s) && s.queue != []
    requires s.queue[0] in s.loads && s.loads[s.queue[0]].task.InQueue?
    ensures LoadsInv(PopItem(s, w)) && WireInv(PopItem(s, w)) && Forward(s, PopItem(s, w))
  {
    hide Onward, Stays, Forward, WireInv;
    var id := s.queue[0];
    assert Answered(s.loads[id], s.ok, s.active);
    RequeueLoads(s, id, Running(w, Guard));
    RequeueWire(s, id, Running(w, Guard));
    SameLoads(Put(s, id, s.loads[id].(task := Running(w, Guard))), PopItem(s, w));
    RequeueForward(s, PopItem(s, w), id, Running(w, Guard));
  }

  lemma PopStep(s: State, w: nat)
    requires Inv(s) && s.workersRunning && s.queue != [] && w in s.workers && s.workers[w].Free?
    ensures s.queue[0] in s.loads && Inv(PopItem(s, w)) && Forward(s, PopItem(s, w))
  {
    PopLoads(s, w);
    PopCarried(s, w);
    PopClients(s, w);
  }

  // ---------- one load, no client ----------

  lemma CarriedOn(s: State, s': State, id: nat)
    requires CarriedInv(s) && id in s.loads && id in s'.loads && s'.loads[id].task == s.loads[id].task
    requires s'.clients == s.clients && s'.queue == s.queue && s'.workers == s.workers
    ensures Carried(s', id)
  {
    assert Carried(s, id);
  }

  /** A step that replaces one load's record and perhaps drops its map entries. */
  lemma PlainTouch(s: State, s': State, id: nat)
    requires Inv(s) && TouchShape(s, s', id) && s'.clients == s.clients && MonitorMoves(s, s')
    requires var l, l' := s.loads[id], s'.loads[id];
             && Evolves(l, l', |s.wire|) && Aside(l, l') && l'.task == l.task && MarksOwned(l, l', None)
             && NewMessageSound(s, s') && MarksSound(s'.wire, id, l')
             && s'.tables.pending == s.tables.pending
             && Answered(l', s.ok, s.active)
    requires Sound(ViewOf(s', id), s'.monitorOn)
    ensures Inv(s') && Forward(s, s')
  {
    hide IdsInv, LoadsInv, QueueInv, WorkersInv, ClientsInv, MonitorInv, DtorInv, WireInv, MarksSound, MonitorMoves;
    CarriedOn(s, s', id);
    assert ClientMoves(s, s', None);
    hide Inv, Sound, Answered, Evolves, Aside;
    TouchKeepsInv(s, s', id, None);
  }

  lemma RestOf(s: State, id: nat)
    requires Inv(s) && id in s.loads
    ensures AtRest(s, id)
  {
  }

  /** A process that dies or is reaped changes nothing else about its load. */
  lemma EndEvolves(l: Load, proc: Proc, wire: seq<Msg>, id: nat, ok: bool, active: bool)
    requires MarksSound(wire, id, l) && Answered(l, ok, active) && !l.proc.NoProc?
    requires proc.Reaped? || (proc.Zombie? && l.proc.Alive?)
    ensures var l' := l.(proc := proc);
            && Evolves(l, l', |wire|) && Aside(l, l') && MarksOwned(l, l', None)
            && MarksSound(wire, id, l') && Answered(l', ok, active)
  {
  }

  lemma EndShape(s: State, id: nat, l: Load)
    requires id in s.loads
    ensures TouchShape(s, Put(s, id, l), id) && MonitorMoves(s, Put(s, id, l)) && NewMessageSound(s, Put(s, id, l))
    ensures ViewOf(Put(s, id, l), id) == ViewOf(s, id).(load := l)
  {
  }

  lemma ExitStep(s: State, id: nat)
    requires Inv(s) && id in s.loads && s.loads[id].proc.Alive?
    ensures Inv(Put(s, id, Dies(s.loads[id]))) && Forward(s, Put(s, id, Dies(s.loads[id])))
  {
    hide Inv, Sound, Answered, Evolves, Aside, MarksSound, MarksOwned, TouchShape, MonitorMoves, NewMessageSound;
    var l := s.loads[id];
    RestOf(s, id);
    DyingIsSound(ViewOf(s, id), s.monitorOn);
    EndEvolves(l, Zombie, s.wire, id, s.ok, s.active);
    EndShape(s, id, Dies(l));
    PlainTouch(s, Put(s, id, Dies(l)), id);
  }

  /** Nor does a child that writes its line. */
  lemma LineEvolves(l: Load, line: Line, wire: seq<Msg>, id: nat, ok: bool, active: bool)
    requires MarksSound(wire, id, l) && Answered(l, ok, active) && l.line.Silent? && l.proc.Alive? && Listening(l.task)
    ensures var l' := l.(line := line);
            && Evolves(l, l', |wire|) && Aside(l, l') && MarksOwned(l, l', None)
            && MarksSound(wire, id, l') && Answered(l', ok, active)
  {
  }

  lemma LineIsSound(v: View, monitorOn: bool, line: Line)
    requires Sound(v, monitorOn) && Listening(v.load.task)
    ensures Sound(v.(load := v.load.(line := line)), monitorOn)
  {
  }

  lemma WriteStep(s: State, id: nat, line: Line)
    requires Inv(s) && id in s.loads && s.loads[id].line.Silent? && s.loads[id].proc.Alive?
    requires Listening(s.loads[id].task)
    ensures Inv(Put(s, id, s.loads[id].(line := line))) && Forward(s, Put(s, id, s.loads[id].(line := line)))
  {
    hide Inv, Sound, Answered, Evolves, Aside, MarksSound, MarksOwned, TouchShape, MonitorMoves, NewMessageSound;
    var l := s.loads[id];
    RestOf(s, id);
    LineIsSound(ViewOf(s, id), s.monitorOn, line);
    LineEvolves(l, line, s.wire, id, s.ok, s.active);
    EndShape(s, id, l.(line := line));
    PlainTouch(s, Put(s, id, l.(line := line)), id);
  }

  lemma ReapedIsSound(v: View, monitorOn: bool)
    requires Sound(v, monitorOn) && v.stopping.Some?
    ensures Sound(v.(load := v.load.(proc := Reaped)), monitorOn) && !v.load.proc.NoProc?
  {
  }

  lemma ReapStep(s: State, id: nat)
    requires Inv(s) && id in s.loads && id in s.stopping
    ensures Inv(Put(s, id, s.loads[id].(proc := Reaped))) && Forward(s, Put(s, id, s.loads[id].(proc := Reaped)))
  {
    hide Inv, Sound, Answered, Evolves, Aside, MarksSound, MarksOwned, TouchShape, MonitorMoves, NewMessageSound;
    var l := s.loads[id];
    RestOf(s, id);
    ReapedIsSound(ViewOf(s, id), s.monitorOn);
    EndEvolves(l, Reaped, s.wire, id, s.ok, s.active);
    EndShape(s, id, l.(proc := Reaped));
    PlainTouch(s, Put(s, id, l.(proc := Reaped)), id);
  }

  lemma ReleasedIsSound(v: View, monitorOn: bool)
    requires Sound(v, monitorOn) && v.stopping.Some? && v.load.proc.Reaped?
    ensures Sound(v.(stopping := None, load := Unlink(Close(v.load, v.stopping.value.fd), v.stopping.value.file)),
                  monitorOn)
  {
    var v' := v.(stopping := None, load := Unlink(Close(v.load, v.stopping.value.fd), v.stopping.value.file));
    assert Placed(v, monitorOn) && Held(v.load, v.stopping.value, monitorOn);
    assert Nowhere(v') && Released(v'.load);
  }

  lemma ReleaseShape(s: State, id: nat)
    requires id in s.loads && id in s.stopping
    ensures var s', child := ReleaseOne(s, id), s.stopping[id];
            && TouchShape(s, s', id) && s'.clients == s.clients && s'.tables.pending == s.tables.pending
            && MonitorMoves(s, s') && s'.wire == s.wire
            && s'.loads[id] == Unlink(Close(s.loads[id], child.fd), child.file)
            && ViewOf(s', id) == ViewOf(s, id).(stopping := None, load := s'.loads[id])
  {
  }

  lemma ReleaseEvolves(l: Load, child: Child, sent: nat)
    ensures var l' := Unlink(Close(l, child.fd), child.file);
            && Evolves(l, l', sent) && Aside(l, l') && l'.task == l.task && MarksOwned(l, l', None)
            && l'.answerAt == l.answerAt && l'.acceptedAt == l.acceptedAt && l'.origin == l.origin
            && l'.goneAt == l.goneAt
  {
    var l' := Unlink(Close(l, child.fd), child.file);
    assert l'.proc == l.proc && l'.task == l.task;
  }

  lemma ReleaseStep(s: State, id: nat)
    requires Inv(s) && id in s.loads && id in s.stopping && s.dtor.Release?
    ensures Inv(ReleaseOne(s, id)) && Forward(s, ReleaseOne(s, id))
  {
    hide ReleaseOne, TouchShape, Sound, Evolves, Aside, MarksOwned, MonitorMoves, Forward, Onward, Stays;
    ReleaseShape(s, id);
    ReleasedIsSound(ViewOf(s, id), s.monitorOn);
    ReleaseEvolves(s.loads[id], s.stopping[id], |s.wire|);
    assert MarksSound(s.wire, id, s.loads[id]);
    PlainTouch(s, ReleaseOne(s, id), id);
  }

  // ---------- a child leaves children_ through the monitor or the destructor ----------

  lemma RemovedIsSound(v: View, monitorOn: bool, removal: Removal, goneAt: Option<nat>)
    requires Sound(v, monitorOn) && v.child.Some? && !removal.NotRemoved?
    requires goneAt.Some? ==> removal.ByCrash?
    ensures v.load.removal.NotRemoved? && v.load.goneAt.None? && !v.load.proc.NoProc?
    ensures v.load.pid == v.child.value.pid > 0
    ensures Sound(v.(child := None, load := CleanUp(v.load, v.child.value).(removal := removal, goneAt := goneAt)),
                  monitorOn)
  {
    var l' := CleanUp(v.load, v.child.value).(removal := removal, goneAt := goneAt);
    assert Placed(v, monitorOn) && HeldUnreaped(v.load, v.child.value, monitorOn);
    assert Nowhere(v.(child := None)) && Released(l');
  }

  lemma RemovedEvolves(l: Load, child: Child, removal: Removal, goneAt: Option<nat>, sent: nat)
    requires l.removal.NotRemoved? && l.goneAt.None? && !l.proc.NoProc? && (goneAt.None? || goneAt == Some(sent))
    ensures var l' := CleanUp(l, child).(removal := removal, goneAt := goneAt);
            && Evolves(l, l', sent) && Aside(l, l') && l'.task == l.task && MarksOwned(l, l', None)
            && l'.answerAt == l.answerAt && l'.acceptedAt == l.acceptedAt && l'.origin == l.origin
  {
    var l' := CleanUp(l, child).(removal := removal, goneAt := goneAt);
    assert l'.proc.Reaped? && l'.task == l.task;
  }

  lemma CrashShape(s: State, id: nat)
    requires s.monitor.Handling? && s.monitor.batch != [] && s.monitor.batch[0] == id
    requires id != 0 && id in s.tables.children && id in s.loads
    ensures var s', child := HandleApply(s), s.tables.children[id];
            && TouchShape(s, s', id) && s'.clients == s.clients && s'.tables.pending == s.tables.pending
            && MonitorMoves(s, s')
            && s'.loads[id] == CleanUp(s.loads[id], child).(removal := ByCrash, goneAt := Here(s))
            && s'.wire == (if s.active then s.wire + [Crashed(id, child.pid)] else s.wire)
            && ViewOf(s', id) == ViewOf(s, id).(child := None, load := s'.loads[id])
  {
  }

  lemma CrashMessage(s: State, s': State, id: nat, pid: nat)
    requires id in s.loads && MarksSound(s.wire, id, s.loads[id])
    requires s'.wire == (if s.active then s.wire + [Crashed(id, pid)] else s.wire)
    requires id in s'.loads && s'.loads[id].goneAt == Here(s)
    requires s'.loads[id].answerAt == s.loads[id].answerAt && s'.loads[id].acceptedAt == s.loads[id].acceptedAt
    requires s'.loads[id].origin == s.loads[id].origin && s'.loads[id].removal.ByCrash? && s'.loads[id].pid == pid > 0
    ensures NewMessageSound(s, s') && MarksSound(s'.wire, id, s'.loads[id])
  {
  }

  lemma CrashFound(s: State, id: nat)
    requires Inv(s) && s.monitor.Handling? && s.monitor.batch != [] && s.monitor.batch[0] == id
    requires id != 0 && id in s.tables.children && id in s.loads
    ensures Inv(HandleApply(s)) && Forward(s, HandleApply(s))
  {
    hide HandleApply, TouchShape, Sound, Evolves, Aside, MarksOwned, MonitorMoves, Forward, Onward, Stays;
    var s', child := HandleApply(s), s.tables.children[id];
    CrashShape(s, id);
    RemovedIsSound(ViewOf(s, id), s.monitorOn, ByCrash, Here(s));
    RemovedEvolves(s.loads[id], child, ByCrash, Here(s), |s.wire|);
    CrashMessage(s, s', id, child.pid);
    PlainTouch(s, s', id);
  }

  lemma CrashStep(s: State)
    requires Inv(s) && s.monitor.Handling? && s.monitor.batch != []
    ensures s.monitor.batch[0] in s.tables.children ==> s.monitor.batch[0] in s.loads
    ensures Inv(HandleApply(s)) && Forward(s, HandleApply(s))
  {
    var id := s.monitor.batch[0];
    if id != 0 && id in s.tables.children {
      CrashFound(s, id);
    } else {
      DropEvent(s);
    }
  }

  lemma DropEvent(s: State)
    requires Inv(s) && s.monitor.Handling? && s.monitor.batch != []
    ensures Inv(s.(monitor := Handling(s.monitor.batch[1..])))
    ensures Forward(s, s.(monitor := Handling(s.monitor.batch[1..])))
  {
    ControlKeepsInv(s, s.(monitor := Handling(s.monitor.batch[1..])));
  }

  lemma CleanShape(s: State, id: nat)
    requires id in s.loads && id in s.tables.children
    ensures var s', child := CleanOne(s, id), s.tables.children[id];
            && TouchShape(s, s', id) && s'.clients == s.clients && s'.tables.pending == s.tables.pending
            && MonitorMoves(s, s') && s'.wire == s.wire
            && s'.loads[id] == CleanUp(s.loads[id], child).(removal := ByShutdown, goneAt := s.loads[id].goneAt)
            && ViewOf(s', id) == ViewOf(s, id).(child := None, load := s'.loads[id])
  {
  }

  lemma CleanStep(s: State, id: nat)
    requires Inv(s) && id in s.loads && id in s.tables.children
    ensures Inv(CleanOne(s, id)) && Forward(s, CleanOne(s, id))
  {
    hide CleanOne, TouchShape, Sound, Evolves, Aside, MarksOwned, MonitorMoves, Forward, Onward, Stays;
    var s', l, child := CleanOne(s, id), s.loads[id], s.tables.children[id];
    CleanShape(s, id);
    RemovedIsSound(ViewOf(s, id), s.monitorOn, ByShutdown, None);
    RemovedEvolves(l, child, ByShutdown, None, |s.wire|);
    assert MarksSound(s.wire, id, l);
    PlainTouch(s, s', id);
  }

  // ---------- terminate_children takes the whole map ----------

  lemma SwappedIsSound(v: View, monitorOn: bool)
    requires Sound(v, monitorOn) && v.child.Some?
    ensures Sound(v.(child := None, stopping := v.child, load := v.load.(removal := ByShutdown)), monitorOn)
    ensures v.load.removal.NotRemoved? && v.load.goneAt.None?
  {
  }

  lemma SwapLoads(s: State)
    requires LoadsInv(s) && s.stopping == map[]
    ensures LoadsInv(SwapOut(s)) && Forward(s, SwapOut(s))
  {
    var s' := SwapOut(s);
    forall k | k in s'.loads
      ensures Sound(ViewOf(s', k), s'.monitorOn) && Answered(s'.loads[k], s'.ok, s'.active)
      ensures Evolves(s.loads[k], s'.loads[k], |s.wire|) && Aside(s.loads[k], s'.loads[k])
    {
      var v := ViewOf(s, k);
      assert Answered(s.loads[k], s.ok, s.active) && v.stopping.None?;
      if k in s.tables.children {
        SwappedIsSound(v, s.monitorOn);
        assert ViewOf(s', k) == v.(child := None, stopping := v.child, load := v.load.(removal := ByShutdown));
      } else {
        assert ViewOf(s', k) == v;
      }
    }
  }

  lemma SwapCarried(s: State)
    requires CarriedInv(s)
    ensures CarriedInv(SwapOut(s))
  {
    hide Onward, Stays;
    var s' := SwapOut(s);
    forall k | k in s'.loads
      ensures Carried(s', k)
    {
      assert Carried(s, k);
    }
  }

  lemma SwapIds(s: State)
    requires IdsInv(s) && QueueInv(s) && WorkersInv(s)
    ensures var s' := SwapOut(s);
            IdsInv(s') && QueueInv(s') && WorkersInv(s')
  {
    hide Onward, Stays;
  }

  lemma SwapActors(s: State)
    requires MonitorInv(s) && DtorInv(s) && s.dtor.SwapChildren?
    ensures var s' := SwapOut(s);
            ClientsInv(s') && MonitorInv(s') && DtorInv(s')
  {
  }

  lemma SwapWire(s: State)
    requires LoadsInv(s) && WireInv(s) && s.stopping == map[]
    ensures WireInv(SwapOut(s))
  {
    hide Onward, Stays, Sound, Answered;
    var s' := SwapOut(s);
    SwapLoads(s);
    MessagesSurvive(s, s');
    forall k | k in s'.loads
      ensures MarksSound(s'.wire, k, s'.loads[k])
    {
      assert MarksSound(s.wire, k, s.loads[k]);
    }
  }

  lemma SwapStep(s: State)
    requires Inv(s) && s.dtor.SwapChildren?
    ensures Inv(SwapOut(s)) && Forward(s, SwapOut(s))
  {
    hide SwapOut, IdsInv, LoadsInv, CarriedInv, QueueInv, WorkersInv, ClientsInv, WireInv, Forward, Onward, Stays;
    SwapLoads(s);
    SwapIds(s);
    SwapCarried(s);
    SwapActors(s);
    SwapWire(s);
  }

  lemma DtorFirstHalf(s: State)
    requires Inv(s) && DtorEnabled(s)
    requires s.dtor.NotStarted? || s.dtor.JoinReader? || s.dtor.JoinMonitor?
    ensures Inv(DtorApply(s)) && Forward(s, DtorApply(s))
  {
    hide IdsInv, LoadsInv, CarriedInv, QueueInv, WorkersInv, ClientsInv, WireInv, Forward, Onward, Stays;
    var s' := DtorApply(s);
    assert MonitorInv(s') && DtorInv(s');
    ControlKeepsInv(s, s');
  }

  lemma DtorSecondHalf(s: State)
    requires Inv(s) && DtorEnabled(s)
    requires s.dtor.ReadPending? || s.dtor.Reap? || s.dtor.Release? || s.dtor.StopWorkers?
    ensures Inv(DtorApply(s)) && Forward(s, DtorApply(s))
  {
    hide IdsInv, LoadsInv, CarriedInv, QueueInv, WorkersInv, ClientsInv, WireInv, Forward, Onward, Stays;
    var s' := DtorApply(s);
    assert MonitorInv(s') && DtorInv(s');
    ControlKeepsInv(s, s');
  }

  lemma DtorEnd(s: State)
    requires Inv(s) && DtorEnabled(s)
    requires s.dtor.JoinWorkers? || s.dtor.FinalCleanup?
    ensures Inv(DtorApply(s)) && Forward(s, DtorApply(s))
  {
    hide IdsInv, LoadsInv, CarriedInv, QueueInv, WorkersInv, ClientsInv, WireInv, Forward, Onward, Stays;
    var s' := DtorApply(s);
    assert MonitorInv(s') && DtorInv(s');
    ControlKeepsInv(s, s');
  }

  lemma DtorStepKeepsInv(s: State)
    requires Inv(s) && DtorEnabled(s)
    ensures Inv(DtorApply(s)) && Forward(s, DtorApply(s))
  {
    match s.dtor
    case SwapChildren => SwapStep(s);
    case NotStarted | JoinReader | JoinMonitor => DtorFirstHalf(s);
    case ReadPending | Reap(_) | Release | StopWorkers => DtorSecondHalf(s);
    case JoinWorkers | FinalCleanup => DtorEnd(s);
  }

  // ---------- every step ----------

  lemma BeginStep(s: State, a: Action)
    requires Inv(s) && Enabled(s, a) && !Apply(s, a).exhausted
    requires a.BeginLoad? || a.BeginQuery? || a.BeginCancel? || a.BeginUnload?
    ensures Inv(Apply(s, a)) && Forward(s, Apply(s, a))
  {
    hide Inv, Forward, Onward, OwnClient;
    match a
    case BeginLoad(c, origin, plugin, available) =>
      if available && Draw(s.tables).0 != 0 {
        DrawStep(s, c, origin, plugin);
      } else {
        MoveKeepsInv(s, c, if origin.Socket? then Rejecting(origin.seqNo) else Idle);
      }
    case BeginQuery(c, asked, about) => MoveKeepsInv(s, c, QueryPending(asked, about));
    case BeginCancel(c, id, reason) => MoveKeepsInv(s, c, CancelFlag(id, reason));
    case BeginUnload(c, id) => MoveKeepsInv(s, c, UnloadPending(id));
  }

  lemma FetchStep(s: State, batch: seq<nat>)
    requires Inv(s) && Enabled(s, Fetch(batch))
    ensures Inv(s.(monitor := Handling(batch))) && Forward(s, s.(monitor := Handling(batch)))
  {
    hide IdsInv, LoadsInv, CarriedInv, QueueInv, WorkersInv, ClientsInv, WireInv, Forward, Onward, Stays;
    ControlKeepsInv(s, s.(monitor := Handling(batch)));
  }

  lemma PollAgain(s: State)
    requires Inv(s) && s.monitor == Handling([])
    ensures Inv(s.(monitor := Polling)) && Forward(s, s.(monitor := Polling))
  {
    ControlKeepsInv(s, s.(monitor := Polling));
  }

  lemma MonitorStep(s: State, a: Action)
    requires Inv(s) && Enabled(s, a) && (a.Fetch? || a.HandleEvent?)
    ensures Inv(Apply(s, a)) && Forward(s, Apply(s, a))
  {
    hide Inv, Forward, Onward, Stays, HandleApply;
    if a.Fetch? {
      FetchStep(s, a.batch);
    } else if s.monitor.batch == [] {
      PollAgain(s);
    } else {
      CrashStep(s);
    }
  }

  lemma FlagStepDown(s: State, a: Action)
    requires Inv(s) && (a.ShutdownSignal? || a.ChannelBreaks?)
    ensures Inv(Apply(s, a)) && Forward(s, Apply(s, a))
  {
    hide IdsInv, LoadsInv, CarriedInv, QueueInv, WorkersInv, ClientsInv, WireInv, Forward, Onward, Stays;
    ControlKeepsInv(s, Apply(s, a));
  }

  lemma PoolStep(s: State, a: Action)
    requires Inv(s) && Enabled(s, a) && (a.Pop? || a.WorkerExit? || a.TaskStep? || a.ClientStep?)
    ensures Inv(Apply(s, a))
    ensures a.TaskStep? || Forward(s, Apply(s, a))
  {
    hide Inv, Forward, Onward, Stays, Moves, OwnClient, TaskEnabled, ClientEnabled, TaskApply, ClientApply, PopItem;
    match a
    case ClientStep(c) => ClientStepKeepsInv(s, c);
    case Pop(w) => PopStep(s, w);
    case WorkerExit(w) => WorkerExitStep(s, w);
    case TaskStep(id, choice) => TaskStepKeepsInv(s, id, choice);
  }

  lemma ChildStep(s: State, a: Action)
    requires Inv(s) && Enabled(s, a) && (a.ProcessExits? || a.ChildWrites?)
    ensures Inv(Apply(s, a)) && Forward(s, Apply(s, a))
  {
    hide Inv, Forward, Onward;
    if a.ProcessExits? {
      ExitStep(s, a.id);
    } else {
      WriteStep(s, a.id, a.line);
    }
  }

  lemma DestructorStep(s: State, a: Action)
    requires Inv(s) && Enabled(s, a)
    requires a.DtorStep? || a.Collect? || a.ForceKill? || a.ReleaseChild? || a.CleanChild?
    ensures Inv(Apply(s, a)) && Forward(s, Apply(s, a))
  {
    hide Inv, Forward, Onward, Stays, DtorApply, DtorEnabled, ReleaseOne, CleanOne;
    if a.DtorStep? {
      DtorStepKeepsInv(s);
    } else if a.Collect? || a.ForceKill? {
      ReapStep(s, a.id);
    } else if a.ReleaseChild? {
      ReleaseStep(s, a.id);
    } else {
      CleanStep(s, a.id);
    }
  }

  /** The one theorem the rest of the proofs stand on: until ids run out, the invariant is inductive. */
  lemma StepKeepsInv(s: State, a: Action)
    requires Inv(s) && Enabled(s, a) && !Apply(s, a).exhausted
    ensures Inv(Apply(s, a))
    ensures a.TaskStep? || Forward(s, Apply(s, a))
  {
    if a.ShutdownSignal? || a.ChannelBreaks? {
      FlagStepDown(s, a);
    } else if a.BeginLoad? || a.BeginQuery? || a.BeginCancel? || a.BeginUnload? {
      BeginStep(s, a);
    } else if a.ClientStep? || a.Pop? || a.WorkerExit? || a.TaskStep? {
      PoolStep(s, a);
    } else if a.ProcessExits? || a.ChildWrites? {
      ChildStep(s, a);
    } else if a.Fetch? || a.HandleEvent? {
      MonitorStep(s, a);
    } else {
      DestructorStep(s, a);
    }
  }
}

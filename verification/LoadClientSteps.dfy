/** Every step of a client keeps the invariant. */
module LoadClientSteps {
  import opened Common
  import opened LoadTables
  import opened LoadProtocol
  import opened LoadInvariant
  import opened LoadTaskSteps
  import opened LoadSharedSteps

  // ---------- queries and refusals ----------

  /** The pending map misses only loads whose entry has already been taken. */
  lemma PendingMiss(s: State, id: nat)
    requires IdsInv(s) && LoadsInv(s) && id in s.loads && PendingReport(s.tables, id).None?
    ensures PastUnpend(s.loads[id].task)
  {
    assert Sound(ViewOf(s, id), s.monitorOn);
  }

  lemma MissedIsQuiet(v: View, monitorOn: bool)
    requires Sound(v, monitorOn) && PastUnpend(v.load.task) && Nowhere(v)
    ensures Quiet(v.load)
  {
    assert StageOf(v.load.task) == Undone(false) || StageOf(v.load.task) == Delivered(false);
  }

  /** Missed by both maps, in that order, a load has no running process and will never fork one. */
  lemma ChildMiss(s: State, id: nat)
    requires IdsInv(s) && LoadsInv(s) && DtorInv(s) && ClientsRun(s)
    requires id in s.loads && PastUnpend(s.loads[id].task) && ChildReport(s.tables, id).None?
    ensures Quiet(s.loads[id])
  {
    assert id !in s.stopping && id !in s.tables.children;
    MissedIsQuiet(ViewOf(s, id), s.monitorOn);
  }

  lemma MoveKeepsInv(s: State, c: nat, k: Client)
    requires Inv(s) && ClientsRun(s) && c in s.clients
    requires !s.clients[c].Announce? && !s.clients[c].Submit? && ClientSound(SetClient(s, c, k), c, k)
    ensures Inv(SetClient(s, c, k)) && Forward(s, SetClient(s, c, k))
  {
    TalkKeepsInv(s, SetClient(s, c, k), c);
  }

  lemma AnswerKeepsInv(s: State, c: nat, m: Msg)
    requires Inv(s) && ClientsRun(s) && c in s.clients
    requires !s.clients[c].Announce? && !s.clients[c].Submit? && (m.Status? || m.Rejected?)
    ensures Inv(SetClient(Send(s, m), c, Idle)) && Forward(s, SetClient(Send(s, m), c, Idle))
  {
    TalkKeepsInv(s, SetClient(Send(s, m), c, Idle), c);
  }

  lemma AskPendingStep(s: State, c: nat, asked: Option<nat>, about: Option<nat>)
    requires Inv(s) && ClientsRun(s) && c in s.clients && s.clients[c] == QueryPending(asked, about)
    ensures Inv(AskPending(s, c, asked, about)) && Forward(s, AskPending(s, c, asked, about))
  {
    hide Onward, Moves, OwnClient;
    var id := Resolve(s.tables, asked, about);
    var hit := PendingReport(s.tables, id);
    if hit.Some? {
      AnswerKeepsInv(s, c, Status(asked, hit.value));
    } else {
      if id in s.loads {
        PendingMiss(s, id);
      }
      MoveKeepsInv(s, c, QueryChildren(asked, id, id in s.loads));
    }
  }

  lemma AskChildrenStep(s: State, c: nat, asked: Option<nat>, id: nat, known: bool)
    requires Inv(s) && ClientsRun(s) && c in s.clients && s.clients[c] == QueryChildren(asked, id, known)
    ensures Inv(AskChildren(s, c, asked, id, known)) && Forward(s, AskChildren(s, c, asked, id, known))
  {
    assert ClientSound(s, c, s.clients[c]);
    var hit := ChildReport(s.tables, id);
    if hit.Some? {
      AnswerKeepsInv(s, c, Status(asked, hit.value));
    } else {
      if known {
        ChildMiss(s, id);
      }
      MoveKeepsInv(s, c, QueryUnknown(asked, id, known));
    }
  }

  // ---------- cancel ----------

  lemma FlaggedIsSound(v: View, monitorOn: bool, reason: string)
    requires Sound(v, monitorOn) && v.pending.Some?
    ensures Sound(v.(pending := Some(v.pending.value.(cancelled := true, reason := reason))), monitorOn)
  {
  }

  lemma FlagShape(s: State, c: nat, id: nat, reason: string)
    requires c in s.clients && id in s.loads && id in s.tables.pending
    ensures var s' := FlagLoad(s, c, id, reason);
            && TouchShape(s, s', id) && s'.loads[id] == s.loads[id]
            && ViewOf(s', id)
               == ViewOf(s, id).(pending := Some(s.tables.pending[id].(cancelled := true, reason := reason)))
  {
    assert s.loads == s.loads[id := s.loads[id]];
  }

  lemma FlagTouches(s: State, c: nat, id: nat, reason: string)
    requires AtRest(s, id) && ClientsRun(s) && c in s.clients && s.clients[c] == CancelFlag(id, reason)
    requires id in s.tables.pending
    ensures Touch(s, FlagLoad(s, c, id, reason), id, Some(c))
  {
    var s' := FlagLoad(s, c, id, reason);
    FlagShape(s, c, id, reason);
    FlaggedIsSound(ViewOf(s, id), s.monitorOn, reason);
    assert ClientSound(s', c, s'.clients[c]);
    assert Carried(s', id);
  }

  lemma FlagStep(s: State, c: nat, id: nat, reason: string)
    requires Inv(s) && ClientsRun(s) && c in s.clients && s.clients[c] == CancelFlag(id, reason)
    ensures Inv(FlagLoad(s, c, id, reason)) && Forward(s, FlagLoad(s, c, id, reason))
  {
    if id in s.tables.pending {
      assert AtRest(s, id);
      FlagTouches(s, c, id, reason);
      TouchKeepsInv(s, FlagLoad(s, c, id, reason), id, Some(c));
    } else {
      MoveKeepsInv(s, c, CancelRecheck(id));
    }
  }

  lemma DyingIsSound(v: View, monitorOn: bool)
    requires Sound(v, monitorOn)
    ensures Sound(v.(load := Dies(v.load)), monitorOn)
  {
  }

  lemma KillLoads(s: State, pid: nat)
    requires LoadsInv(s)
    ensures LoadsInv(s.(loads := Kill(s.loads, pid)))
  {
    hide Sound;
    var s' := s.(loads := Kill(s.loads, pid));
    forall id | id in s'.loads
      ensures Sound(ViewOf(s', id), s'.monitorOn) && Answered(s'.loads[id], s'.ok, s'.active)
    {
      var v := ViewOf(s, id);
      assert Sound(v, s.monitorOn) && Answered(s.loads[id], s.ok, s.active);
      DyingIsSound(v, s.monitorOn);
      assert ViewOf(s', id) == v || ViewOf(s', id) == v.(load := Dies(v.load));
    }
  }

  lemma KillCarried(s: State, pid: nat)
    requires CarriedInv(s)
    ensures CarriedInv(s.(loads := Kill(s.loads, pid)))
  {
    var s' := s.(loads := Kill(s.loads, pid));
    forall id | id in s'.loads
      ensures Carried(s', id)
    {
      assert Carried(s, id) && s'.loads[id].task == s.loads[id].task;
    }
  }

  lemma KillClients(s: State, pid: nat)
    requires ClientsInv(s)
    ensures ClientsInv(s.(loads := Kill(s.loads, pid)))
  {
    var s' := s.(loads := Kill(s.loads, pid));
    forall c | c in s'.clients
      ensures ClientSound(s', c, s'.clients[c])
    {
      assert ClientSound(s, c, s.clients[c]);
    }
  }

  lemma KillWire(s: State, pid: nat)
    requires WireInv(s)
    ensures WireInv(s.(loads := Kill(s.loads, pid)))
  {
    var s' := s.(loads := Kill(s.loads, pid));
    MessagesSurvive(s, s');
    forall id | id in s'.loads
      ensures MarksSound(s'.wire, id, s'.loads[id])
    {
      assert MarksSound(s.wire, id, s.loads[id]);
    }
  }

  lemma KillForward(s: State, pid: nat)
    ensures Forward(s, s.(loads := Kill(s.loads, pid)))
  {
  }

  lemma KillRest(s: State, pid: nat)
    requires IdsInv(s) && QueueInv(s) && WorkersInv(s) && MonitorInv(s) && DtorInv(s)
    ensures var s' := s.(loads := Kill(s.loads, pid));
            IdsInv(s') && QueueInv(s') && WorkersInv(s') && MonitorInv(s') && DtorInv(s')
  {
  }

  lemma KillKeepsInv(s: State, pid: nat)
    requires Inv(s)
    ensures Inv(s.(loads := Kill(s.loads, pid))) && Forward(s, s.(loads := Kill(s.loads, pid)))
  {
    KillLoads(s, pid);
    KillCarried(s, pid);
    KillClients(s, pid);
    KillWire(s, pid);
    KillRest(s, pid);
    KillForward(s, pid);
  }

  lemma KillStep(s: State, c: nat)
    requires Inv(s) && ClientsRun(s) && c in s.clients && s.clients[c].CancelKill?
    ensures Inv(SetClient(s, c, Idle).(loads := Kill(s.loads, s.clients[c].pid)))
    ensures Forward(s, SetClient(s, c, Idle).(loads := Kill(s.loads, s.clients[c].pid)))
  {
    MoveKeepsInv(s, c, Idle);
    KillKeepsInv(SetClient(s, c, Idle), s.clients[c].pid);
  }

  // ---------- unload ----------

  lemma UnloadedIsSound(v: View, monitorOn: bool, c: nat)
    requires Sound(v, monitorOn) && v.child.Some?
    ensures var v' := v.(child := None,
                         load := CleanUp(v.load.(watched := false), v.child.value).(removal := ByUnload(c)));
            Sound(v', monitorOn) && v.load.removal.NotRemoved? && v.load.goneAt.None? && !v.load.proc.NoProc?
  {
    var v' := v.(child := None, load := CleanUp(v.load.(watched := false), v.child.value).(removal := ByUnload(c)));
    assert Placed(v, monitorOn) && HeldUnreaped(v.load, v.child.value, monitorOn);
    assert Nowhere(v') && Released(v'.load);
  }

  lemma UnloadShape(s: State, c: nat, id: nat)
    requires c in s.clients && id in s.loads && id in s.tables.children
    ensures TouchShape(s, UnloadLoad(s, c, id), id)
  {
  }

  lemma UnloadedEvolves(l: Load, child: Child, c: nat, sent: nat)
    requires l.removal.NotRemoved? && !l.proc.NoProc?
    ensures var l' := CleanUp(l.(watched := false), child).(removal := ByUnload(c));
            Evolves(l, l', sent) && Aside(l, l') && l'.task == l.task && MarksOwned(l, l', Some(c))
  {
    var l' := CleanUp(l.(watched := false), child).(removal := ByUnload(c));
    assert l'.task == l.task && l'.proc.Reaped?;
  }

  lemma UnloadedMarks(l: Load, child: Child, c: nat, wire: seq<Msg>, id: nat, ok: bool, active: bool)
    requires MarksSound(wire, id, l) && Answered(l, ok, active)
    ensures var l' := CleanUp(l.(watched := false), child).(removal := ByUnload(c));
            MarksSound(wire, id, l') && Answered(l', ok, active)
  {
    var l' := CleanUp(l.(watched := false), child).(removal := ByUnload(c));
    assert l'.task == l.task && l'.origin == l.origin && l'.removal == ByUnload(c);
    assert l'.acceptedAt == l.acceptedAt && l'.answerAt == l.answerAt && l'.goneAt == l.goneAt;
    hide CleanUp;
  }

  lemma UnloadEvolves(s: State, c: nat, id: nat)
    requires AtRest(s, id) && id in s.tables.children
    ensures var s', l := UnloadLoad(s, c, id), s.loads[id];
            var l' := s'.loads[id];
            && Evolves(l, l', |s.wire|) && Aside(l, l') && l'.task == l.task && MarksOwned(l, l', Some(c))
            && Answered(l', s.ok, s.active) && MarksSound(s.wire, id, l') && l'.goneAt.None?
            && Sound(ViewOf(s', id), s.monitorOn)
  {
    hide Onward, Moves, OwnClient, Evolves, Aside, MarksOwned, MarksSound, Sound, Answered;
    var s', v := UnloadLoad(s, c, id), ViewOf(s, id);
    UnloadedIsSound(v, s.monitorOn, c);
    UnloadedEvolves(v.load, v.child.value, c, |s.wire|);
    UnloadedMarks(v.load, v.child.value, c, s.wire, id, s.ok, s.active);
    var l' := CleanUp(v.load.(watched := false), v.child.value).(removal := ByUnload(c));
    assert ViewOf(s', id) == v.(child := None, load := l');
  }

  lemma UnloadTouches(s: State, c: nat, id: nat)
    requires AtRest(s, id) && ClientsRun(s) && c in s.clients && s.clients[c] == UnloadChild(id)
    requires id in s.tables.children
    ensures Touch(s, UnloadLoad(s, c, id), id, Some(c))
  {
    hide Onward, Moves, OwnClient, Aside, MarksSound, Sound, Answered;
    UnloadShape(s, c, id);
    UnloadEvolves(s, c, id);
    var s' := UnloadLoad(s, c, id);
    assert ClientSound(s', c, s'.clients[c]);
    assert Carried(s', id);
  }

  lemma UnloadStep(s: State, c: nat, id: nat)
    requires Inv(s) && ClientsRun(s) && c in s.clients && s.clients[c] == UnloadChild(id)
    ensures id in s.tables.children ==> id in s.loads
    ensures Inv(UnloadLoad(s, c, id)) && Forward(s, UnloadLoad(s, c, id))
  {
    hide Forward, Onward, Moves, OwnClient;
    if id in s.tables.children {
      assert AtRest(s, id);
      UnloadTouches(s, c, id);
      TouchKeepsInv(s, UnloadLoad(s, c, id), id, Some(c));
    } else {
      MoveKeepsInv(s, c, Idle);
    }
  }

  /** Marks other than the outcome's do not bear on a load's soundness. */
  lemma MarkedIsSound(v: View, monitorOn: bool, acceptedAt: Option<nat>, goneAt: Option<nat>)
    requires Sound(v, monitorOn)
    requires goneAt.Some? ==> v.load.removal.ByUnload? || v.load.removal.ByCrash?
    ensures Sound(v.(load := v.load.(acceptedAt := acceptedAt, goneAt := goneAt)), monitorOn)
  {
  }

  lemma ReportShape(s: State, c: nat, id: nat)
    requires c in s.clients && id in s.loads
    ensures TouchShape(s, ReportUnload(s, c, id), id)
  {
  }

  lemma ReportEvolves(s: State, c: nat, id: nat)
    requires AtRest(s, id) && s.loads[id].removal == ByUnload(c) && s.loads[id].goneAt.None?
    ensures var l, s' := s.loads[id], ReportUnload(s, c, id);
            && Evolves(l, s'.loads[id], |s.wire|) && Aside(l, s'.loads[id]) && MarksOwned(l, s'.loads[id], Some(c))
            && NewMessageSound(s, s') && MarksSound(s'.wire, id, s'.loads[id])
            && Answered(s'.loads[id], s.ok, s.active)
            && Sound(ViewOf(s', id), s.monitorOn)
  {
    hide Onward, Moves, OwnClient;
    var s', v := ReportUnload(s, c, id), ViewOf(s, id);
    MarkedIsSound(v, s.monitorOn, v.load.acceptedAt, Here(s));
    assert ViewOf(s', id) == v.(load := v.load.(acceptedAt := v.load.acceptedAt, goneAt := Here(s)));
    assert s'.wire != s.wire ==> s'.wire[|s.wire|] == Unloaded(id);
  }

  lemma ReportTouches(s: State, c: nat, id: nat)
    requires AtRest(s, id) && ClientsRun(s) && c in s.clients && s.clients[c] == UnloadSend(id)
    requires ClientSound(s, c, s.clients[c])
    ensures Touch(s, ReportUnload(s, c, id), id, Some(c))
  {
    ReportShape(s, c, id);
    ReportEvolves(s, c, id);
    assert Carried(ReportUnload(s, c, id), id);
  }

  lemma ReportStep(s: State, c: nat, id: nat)
    requires Inv(s) && ClientsRun(s) && c in s.clients && s.clients[c] == UnloadSend(id) && id in s.loads
    ensures Inv(ReportUnload(s, c, id)) && Forward(s, ReportUnload(s, c, id))
  {
    assert AtRest(s, id) && ClientSound(s, c, s.clients[c]);
    ReportTouches(s, c, id);
    TouchKeepsInv(s, ReportUnload(s, c, id), id, Some(c));
  }

  // ---------- a load ----------

  lemma AnnounceShape(s: State, c: nat, seqNo: nat, id: nat)
    requires c in s.clients && id in s.loads
    ensures TouchShape(s, AnnounceLoad(s, c, seqNo, id), id)
  {
  }

  lemma AnnounceEvolves(s: State, c: nat, seqNo: nat, id: nat)
    requires AtRest(s, id)
    requires s.loads[id].task == Unqueued(c) && s.loads[id].origin == Socket(seqNo) && s.loads[id].acceptedAt.None?
    ensures var l, s' := s.loads[id], AnnounceLoad(s, c, seqNo, id);
            && Evolves(l, s'.loads[id], |s.wire|) && Aside(l, s'.loads[id]) && MarksOwned(l, s'.loads[id], Some(c))
            && NewMessageSound(s, s') && MarksSound(s'.wire, id, s'.loads[id])
            && Answered(s'.loads[id], s.ok, s.active)
            && Sound(ViewOf(s', id), s.monitorOn)
  {
    var s', v := AnnounceLoad(s, c, seqNo, id), ViewOf(s, id);
    MarkedIsSound(v, s.monitorOn, Here(s), v.load.goneAt);
    assert ViewOf(s', id) == v.(load := v.load.(acceptedAt := Here(s), goneAt := v.load.goneAt));
    assert s'.wire != s.wire ==> s'.wire[|s.wire|] == Accepted(seqNo, id);
  }

  lemma AnnounceTouches(s: State, c: nat, seqNo: nat, id: nat)
    requires AtRest(s, id) && ClientsRun(s) && c in s.clients && s.clients[c] == Announce(seqNo, id)
    requires ClientSound(s, c, s.clients[c])
    ensures Touch(s, AnnounceLoad(s, c, seqNo, id), id, Some(c))
  {
    AnnounceShape(s, c, seqNo, id);
    AnnounceEvolves(s, c, seqNo, id);
    var s' := AnnounceLoad(s, c, seqNo, id);
    assert ClientSound(s', c, s'.clients[c]);
    assert Carried(s', id);
  }

  lemma AnnounceStep(s: State, c: nat, seqNo: nat, id: nat)
    requires Inv(s) && ClientsRun(s) && c in s.clients && s.clients[c] == Announce(seqNo, id) && id in s.loads
    ensures Inv(AnnounceLoad(s, c, seqNo, id)) && Forward(s, AnnounceLoad(s, c, seqNo, id))
  {
    assert AtRest(s, id) && ClientSound(s, c, s.clients[c]);
    AnnounceTouches(s, c, seqNo, id);
    TouchKeepsInv(s, AnnounceLoad(s, c, seqNo, id), id, Some(c));
  }

  lemma DrawLoads(s: State, c: nat, origin: Origin, plugin: string)
    requires LoadsInv(s) && CarriedInv(s) && IdsInv(s) && c in s.clients && s.clients[c].Idle?
    requires Draw(s.tables).0 != 0
    ensures var s' := BeginLoadApply(s, c, origin, plugin, true);
            LoadsInv(s') && CarriedInv(s') && IdsInv(s')
  {
    var s' := BeginLoadApply(s, c, origin, plugin, true);
    var id := Draw(s.tables).0;
    assert Bound(s) == id && Bound(s') == id + 1;
    forall k | k in s'.loads
      ensures ViewOf(s', k) == ViewOf(s, k) && Carried(s', k)
    {
      assert Carried(s, k);
    }
  }

  lemma DrawClients(s: State, c: nat, origin: Origin, plugin: string)
    requires IdsInv(s) && ClientsInv(s) && c in s.clients && Draw(s.tables).0 != 0
    ensures ClientsInv(BeginLoadApply(s, c, origin, plugin, true))
  {
    var s' := BeginLoadApply(s, c, origin, plugin, true);
    forall d | d in s'.clients
      ensures ClientSound(s', d, s'.clients[d])
    {
      if d != c {
        assert ClientSound(s, d, s.clients[d]);
      }
    }
  }

  lemma DrawStep(s: State, c: nat, origin: Origin, plugin: string)
    requires Inv(s) && ClientsRun(s) && c in s.clients && s.clients[c].Idle?
    requires Draw(s.tables).0 != 0
    ensures Inv(BeginLoadApply(s, c, origin, plugin, true)) && Forward(s, BeginLoadApply(s, c, origin, plugin, true))
  {
    DrawLoads(s, c, origin, plugin);
    DrawClients(s, c, origin, plugin);
    SameForward(s, BeginLoadApply(s, c, origin, plugin, true));
  }

  /** A drawn id is new to every table when it is inserted. */
  lemma InsertViews(s: State, c: nat, origin: Origin, plugin: string, id: nat)
    requires IdsInv(s) && id in s.drawn
    ensures var s' := InsertLoad(s, c, origin, plugin, id);
            && id !in s.loads && 0 < id < Bound(s)
            && (forall k | k in s.loads :: k in s'.loads && ViewOf(s', k) == ViewOf(s, k))
            && s'.loads[id] == NewLoad(origin, plugin, c)
            && ViewOf(s', id) == View(Some(NewPending(SeqOf(origin), plugin)), None, None, NewLoad(origin, plugin, c))
  {
  }

  lemma InsertIds(s: State, c: nat, origin: Origin, plugin: string, id: nat)
    requires IdsInv(s) && id in s.drawn
    ensures IdsInv(InsertLoad(s, c, origin, plugin, id))
  {
    hide Onward, Moves, OwnClient;
  }

  lemma InsertLoads(s: State, c: nat, origin: Origin, plugin: string, id: nat)
    requires IdsInv(s) && LoadsInv(s) && id in s.drawn
    ensures LoadsInv(InsertLoad(s, c, origin, plugin, id))
  {
    hide Onward, Moves, OwnClient;
    InsertViews(s, c, origin, plugin, id);
  }

  lemma InsertCarried(s: State, c: nat, origin: Origin, plugin: string, id: nat)
    requires IdsInv(s) && CarriedInv(s) && QueueInv(s) && WorkersInv(s)
    requires c in s.clients && s.clients[c] == Reserved(origin, plugin, id) && id in s.drawn
    ensures var s' := InsertLoad(s, c, origin, plugin, id);
            CarriedInv(s') && QueueInv(s') && WorkersInv(s')
  {
    InsertViews(s, c, origin, plugin, id);
    var s' := InsertLoad(s, c, origin, plugin, id);
    forall k | k in s'.loads
      ensures Carried(s', k)
    {
      if k in s.loads {
        assert Carried(s, k);
      }
    }
  }

  lemma InsertClients(s: State, c: nat, origin: Origin, plugin: string, id: nat)
    requires IdsInv(s) && ClientsInv(s) && WireInv(s)
    requires c in s.clients && s.clients[c] == Reserved(origin, plugin, id) && id in s.drawn && s.drawn[id] == c
    ensures var s' := InsertLoad(s, c, origin, plugin, id);
            ClientsInv(s') && WireInv(s')
  {
    InsertViews(s, c, origin, plugin, id);
    var s' := InsertLoad(s, c, origin, plugin, id);
    forall d | d in s'.clients
      ensures ClientSound(s', d, s'.clients[d])
    {
      if d != c {
        assert ClientSound(s, d, s.clients[d]);
      }
    }
    MessagesSurvive(s, s');
  }

  lemma InsertForward(s: State, c: nat, origin: Origin, plugin: string, id: nat)
    requires IdsInv(s) && id in s.drawn
    ensures Forward(s, InsertLoad(s, c, origin, plugin, id))
  {
    InsertViews(s, c, origin, plugin, id);
  }

  lemma InsertRest(s: State, c: nat, origin: Origin, plugin: string, id: nat)
    requires MonitorInv(s) && DtorInv(s) && ClientsRun(s) && IdsInv(s) && c in s.clients && id in s.drawn
    ensures var s' := InsertLoad(s, c, origin, plugin, id);
            MonitorInv(s') && DtorInv(s')
  {
    InsertViews(s, c, origin, plugin, id);
  }

  lemma InsertStep(s: State, c: nat, origin: Origin, plugin: string, id: nat)
    requires Inv(s) && ClientsRun(s) && c in s.clients && s.clients[c] == Reserved(origin, plugin, id)
    ensures Inv(InsertLoad(s, c, origin, plugin, id)) && Forward(s, InsertLoad(s, c, origin, plugin, id))
  {
    assert ClientSound(s, c, s.clients[c]);
    InsertIds(s, c, origin, plugin, id);
    InsertLoads(s, c, origin, plugin, id);
    InsertCarried(s, c, origin, plugin, id);
    InsertClients(s, c, origin, plugin, id);
    InsertRest(s, c, origin, plugin, id);
    InsertForward(s, c, origin, plugin, id);
  }

  /** A load keeps its soundness between program points of the same stage. */
  lemma RequeuedIsSound(v: View, monitorOn: bool, task: Task)
    requires Sound(v, monitorOn) && StageOf(task) == StageOf(v.load.task) && !v.load.task.Finished?
    requires SpokenFor(v.load, task)
    ensures Sound(v.(load := v.load.(task := task)), monitorOn)
  {
  }

  /** Moving one load on within its stage. */
  lemma RequeueLoads(s: State, id: nat, task: Task)
    requires LoadsInv(s) && id in s.loads
    requires StageOf(task) == StageOf(s.loads[id].task) && !s.loads[id].task.Finished? && SpokenFor(s.loads[id], task)
    requires Answered(s.loads[id].(task := task), s.ok, s.active)
    ensures LoadsInv(Put(s, id, s.loads[id].(task := task)))
  {
    var s' := Put(s, id, s.loads[id].(task := task));
    forall k | k in s'.loads
      ensures Sound(ViewOf(s', k), s'.monitorOn) && Answered(s'.loads[k], s'.ok, s'.active)
    {
      var v := ViewOf(s, k);
      assert Sound(v, s.monitorOn) && Answered(s.loads[k], s.ok, s.active);
      if k == id {
        RequeuedIsSound(v, s.monitorOn, task);
        assert ViewOf(s', k) == v.(load := v.load.(task := task));
      } else {
        assert ViewOf(s', k) == v;
      }
    }
  }

  /** Loads and wire do not depend on queue, clients and workers. */
  lemma SameLoads(s: State, s': State)
    requires LoadsInv(s) && WireInv(s)
    requires s' == s.(queue := s'.queue, clients := s'.clients, workers := s'.workers)
    ensures LoadsInv(s') && WireInv(s')
  {
    assert forall k | k in s.loads :: ViewOf(s', k) == ViewOf(s, k);
  }

  lemma RequeueWire(s: State, id: nat, task: Task)
    requires WireInv(s) && id in s.loads
    requires Evolves(s.loads[id], s.loads[id].(task := task), |s.wire|)
    ensures WireInv(Put(s, id, s.loads[id].(task := task)))
  {
    var s' := Put(s, id, s.loads[id].(task := task));
    MessagesSurvive(s, s');
    forall k | k in s'.loads
      ensures MarksSound(s'.wire, k, s'.loads[k])
    {
      assert MarksSound(s.wire, k, s.loads[k]);
    }
  }

  lemma RequeueForward(s: State, s': State, id: nat, task: Task)
    requires id in s.loads
    requires || (s.loads[id].task.Unqueued? && task.InQueue?)
             || (s.loads[id].task.InQueue? && task.Running? && task.pc.Guard?)
    requires s'.loads == s.loads[id := s.loads[id].(task := task)] && s'.tables == s.tables
    ensures Forward(s, s')
  {
  }

  lemma SubmitQueue(s: State, c: nat, id: nat)
    requires LoadsInv(s) && WireInv(s) && id in s.loads && s.loads[id].task == Unqueued(c)
    requires s.loads[id].origin.Socket? && s.active ==> s.loads[id].acceptedAt.Some?
    ensures LoadsInv(SubmitLoad(s, c, id)) && WireInv(SubmitLoad(s, c, id)) && Forward(s, SubmitLoad(s, c, id))
  {
    hide Onward, Moves, OwnClient;
    assert Answered(s.loads[id], s.ok, s.active);
    RequeueLoads(s, id, InQueue);
    RequeueWire(s, id, InQueue);
    SameLoads(Put(s, id, s.loads[id].(task := InQueue)), SubmitLoad(s, c, id));
    RequeueForward(s, SubmitLoad(s, c, id), id, InQueue);
  }

  lemma SubmitCarried(s: State, c: nat, id: nat)
    requires CarriedInv(s) && QueueInv(s) && WorkersInv(s)
    requires c in s.clients && s.clients[c] == Submit(id) && id in s.loads && s.loads[id].task == Unqueued(c)
    ensures var s' := SubmitLoad(s, c, id);
            CarriedInv(s') && QueueInv(s') && WorkersInv(s')
  {
    var s' := SubmitLoad(s, c, id);
    assert s'.queue[|s.queue|] == id;
    assert forall i | 0 <= i < |s.queue| :: s'.queue[i] == s.queue[i] && s.queue[i] != id;
    forall k | k in s'.loads
      ensures Carried(s', k)
    {
      assert Carried(s, k);
    }
  }

  lemma SubmitStep(s: State, c: nat, id: nat)
    requires Inv(s) && ClientsRun(s) && c in s.clients && s.clients[c] == Submit(id) && id in s.loads
    ensures Inv(SubmitLoad(s, c, id)) && Forward(s, SubmitLoad(s, c, id))
  {
    assert ClientSound(s, c, s.clients[c]);
    SubmitQueue(s, c, id);
    SubmitCarried(s, c, id);
    SubmitClients(s, c, id);
  }

  lemma SubmitClients(s: State, c: nat, id: nat)
    requires IdsInv(s) && ClientsInv(s) && MonitorInv(s) && DtorInv(s)
    requires c in s.clients && s.clients[c] == Submit(id) && id in s.loads && s.loads[id].task == Unqueued(c)
    ensures var s' := SubmitLoad(s, c, id);
            IdsInv(s') && ClientsInv(s') && MonitorInv(s') && DtorInv(s')
  {
    var s' := SubmitLoad(s, c, id);
    forall d | d in s'.clients
      ensures ClientSound(s', d, s'.clients[d])
    {
      assert ClientSound(s, d, s.clients[d]);
    }
  }

  lemma TalkStepKeepsInv(s: State, c: nat)
    requires Inv(s) && ClientEnabled(s, c) && ClientsRun(s)
    requires var k := s.clients[c];
             || k.Rejecting? || k.Reserved? || k.Announce? || k.Submit?
             || k.QueryPending? || k.QueryChildren? || k.QueryUnknown?
    ensures Inv(ClientApply(s, c)) && Forward(s, ClientApply(s, c))
  {
    hide Inv, Forward, Onward, Moves, OwnClient;
    hide InsertLoad, AnnounceLoad, SubmitLoad, AskPending, AskChildren;
    match s.clients[c]
    case Rejecting(seqNo) => AnswerKeepsInv(s, c, Rejected(seqNo));
    case Reserved(origin, plugin, id) => InsertStep(s, c, origin, plugin, id);
    case Announce(seqNo, id) => AnnounceStep(s, c, seqNo, id);
    case Submit(id) => SubmitStep(s, c, id);
    case QueryPending(asked, about) => AskPendingStep(s, c, asked, about);
    case QueryChildren(asked, id, known) => AskChildrenStep(s, c, asked, id, known);
    case QueryUnknown(asked, id, _) => AnswerKeepsInv(s, c, Status(asked, NothingReport(id)));
  }

  lemma KillingStepKeepsInv(s: State, c: nat)
    requires Inv(s) && ClientEnabled(s, c) && ClientsRun(s)
    requires var k := s.clients[c];
             || k.CancelFlag? || k.CancelKill? || k.CancelRecheck?
             || k.UnloadPending? || k.UnloadChild? || k.UnloadSend?
    ensures Inv(ClientApply(s, c)) && Forward(s, ClientApply(s, c))
  {
    hide Inv, Forward, Onward, Moves, OwnClient, FlagLoad, UnloadLoad, ReportUnload;
    match s.clients[c]
    case CancelFlag(id, reason) => FlagStep(s, c, id, reason);
    case CancelKill(_, _, _) => KillStep(s, c);
    case CancelRecheck(id) =>
      MoveKeepsInv(s, c, if id in s.tables.pending then Idle else QueryPending(None, Some(id)));
    case UnloadPending(id) =>
      MoveKeepsInv(s, c, if id in s.tables.pending then Idle else UnloadChild(id));
    case UnloadChild(id) => UnloadStep(s, c, id);
    case UnloadSend(id) => ReportStep(s, c, id);
  }

  lemma ClientStepKeepsInv(s: State, c: nat)
    requires Inv(s) && ClientEnabled(s, c)
    ensures Inv(ClientApply(s, c)) && Forward(s, ClientApply(s, c))
  {
    hide ClientApply, Forward, Onward;
    assert ClientsRun(s);
    hide Inv;
    var k := s.clients[c];
    if k.CancelFlag? || k.CancelKill? || k.CancelRecheck? || k.UnloadPending? || k.UnloadChild? || k.UnloadSend? {
      KillingStepKeepsInv(s, c);
    } else {
      TalkStepKeepsInv(s, c);
    }
  }
}

/**
 * Steps of clients, monitor, destructor and environment that touch at most one
 * load and leave its program point alone keep the invariant.
 */
module LoadSharedSteps {
  import opened Common
  import opened LoadTables
  import opened LoadProtocol
  import opened LoadInvariant
  import opened LoadTaskSteps

  /** Only `actor`'s program point has moved, and it is sound where it now stands. */
  ghost predicate ClientMoves(s: State, s': State, actor: Option<nat>) {
    && s'.clients.Keys == s.clients.Keys
    && (forall d | d in s.clients && Some(d) != actor :: s'.clients[d] == s.clients[d])
    && (actor.Some? ==>
          && actor.value in s.clients
          && ClientsRun(s)
          && ClientSound(s', actor.value, s'.clients[actor.value]))
  }

  ghost predicate MonitorMoves(s: State, s': State) {
    || s'.monitor == s.monitor
    || (s.monitor.Handling? && s.monitor.batch != [] && s'.monitor == Handling(s.monitor.batch[1..]))
  }

  /** A load's marks may be set only by the client that owns the right to set them. */
  ghost predicate MarksOwned(l: Load, l': Load, actor: Option<nat>) {
    && (l'.acceptedAt != l.acceptedAt ==> actor.Some? && l.task == Unqueued(actor.value))
    && (l'.goneAt != l.goneAt ==>
          l.removal.NotRemoved? || (actor.Some? && l.removal == ByUnload(actor.value)))
  }

  ghost predicate NewMessageSound(s: State, s': State) {
    && WireGrows(s, s')
    && (s'.wire != s.wire ==> MsgSound(s'.loads, s'.wire[|s.wire|], |s.wire|))
  }

  /** The parts of the state a step at load `id` may move. */
  ghost predicate TouchShape(s: State, s': State, id: nat) {
    && id in s.loads && id in s'.loads
    && s' == s.(loads := s.loads[id := s'.loads[id]], tables := s'.tables, clients := s'.clients,
                monitor := s'.monitor, stopping := s'.stopping, wire := s'.wire)
    && OnlyEntry(s.tables, s'.tables, id)
    && s'.tables.children.Keys <= s.tables.children.Keys
    && s'.tables.pending.Keys <= s.tables.pending.Keys
    && s'.stopping.Keys <= s.stopping.Keys
    && (forall k | k != id :: Lookup(s'.stopping, k) == Lookup(s.stopping, k))
  }

  ghost predicate Touch(s: State, s': State, id: nat, actor: Option<nat>) {
    && TouchShape(s, s', id)
    && var l, l' := s.loads[id], s'.loads[id];
    && Evolves(l, l', |s.wire|) && Aside(l, l') && l'.task == l.task && MarksOwned(l, l', actor)
    && (Flagged(s.tables, id) ==> Flagged(s'.tables, id))
    && ClientMoves(s, s', actor) && MonitorMoves(s, s')
    && NewMessageSound(s, s') && MarksSound(s'.wire, id, l')
    && Sound(ViewOf(s', id), s'.monitorOn) && Answered(l', s'.ok, s'.active)
    && Carried(s', id)
  }

  /** What the invariant says of one load. */
  ghost predicate AtRest(s: State, id: nat) {
    && id in s.loads
    && Sound(ViewOf(s, id), s.monitorOn)
    && Answered(s.loads[id], s.ok, s.active)
    && Carried(s, id)
    && MarksSound(s.wire, id, s.loads[id])
  }

  lemma TouchLoads(s: State, s': State, id: nat, actor: Option<nat>)
    requires LoadsInv(s) && Touch(s, s', id, actor)
    ensures LoadsInv(s')
  {
    forall k | k in s'.loads
      ensures Sound(ViewOf(s', k), s'.monitorOn) && Answered(s'.loads[k], s'.ok, s'.active)
    {
      if k != id {
        assert ViewOf(s', k) == ViewOf(s, k);
      }
    }
  }

  /** A client that stops carrying a load was the one the load named. */
  lemma TouchCarried(s: State, s': State, id: nat, actor: Option<nat>)
    requires CarriedInv(s) && ClientsInv(s) && Touch(s, s', id, actor)
    requires actor.Some? ==>
               (s.clients[actor.value].Announce? || s.clients[actor.value].Submit? ==> s.clients[actor.value].id == id)
    ensures CarriedInv(s')
  {
    forall k | k in s'.loads
      ensures Carried(s', k)
    {
      assert Carried(s, k);
    }
  }

  lemma TouchQueue(s: State, s': State, id: nat, actor: Option<nat>)
    requires IdsInv(s) && QueueInv(s) && WorkersInv(s) && MonitorInv(s) && Touch(s, s', id, actor)
    ensures IdsInv(s') && QueueInv(s') && WorkersInv(s') && MonitorInv(s')
  {
  }

  lemma TouchOtherClient(s: State, s': State, id: nat, actor: Option<nat>, d: nat)
    requires d in s.clients && Some(d) != actor && ClientSound(s, d, s.clients[d]) && Touch(s, s', id, actor)
    ensures ClientSound(s', d, s.clients[d])
  {
    var k := s.clients[d];
    if k.CancelKill? {
      FlagStays(s.tables, s'.tables, id, k.id);
    }
  }

  lemma TouchClients(s: State, s': State, id: nat, actor: Option<nat>)
    requires ClientsInv(s) && Touch(s, s', id, actor)
    ensures ClientsInv(s')
  {
    forall d | d in s'.clients
      ensures ClientSound(s', d, s'.clients[d])
    {
      if Some(d) != actor {
        assert ClientSound(s, d, s.clients[d]);
        TouchOtherClient(s, s', id, actor, d);
      }
    }
  }

  lemma TouchDtor(s: State, s': State, id: nat, actor: Option<nat>)
    requires DtorInv(s) && Touch(s, s', id, actor)
    ensures DtorInv(s')
  {
    assert s'.stopping != map[] ==> s.stopping != map[] by {
      if s.stopping == map[] {
        assert s'.stopping == map[];
      }
    }
    assert s.tables.children == map[] ==> s'.tables.children == map[] by {
      if s.tables.children == map[] {
        assert s'.tables.children.Keys == {};
      }
    }
  }

  lemma MessagesSurvive(s: State, s': State)
    requires WireInv(s) && LoadsEvolve(s, s') && NewMessageSound(s, s')
    ensures forall i | 0 <= i < |s'.wire| :: MsgSound(s'.loads, s'.wire[i], i)
  {
    var n := |s.wire|;
    forall i | 0 <= i < |s'.wire|
      ensures MsgSound(s'.loads, s'.wire[i], i)
    {
      if i < n {
        assert s'.wire[i] == s'.wire[..n][i] == s.wire[i];
        assert MsgSound(s.loads, s.wire[i], i);
      }
    }
  }

  lemma MarkSurvives(s: State, s': State, k: nat, l: Load)
    requires MarksSound(s.wire, k, l) && WireGrows(s, s')
    ensures MarksSound(s'.wire, k, l)
  {
    var n := |s.wire|;
    assert forall i | 0 <= i < n :: s'.wire[i] == s.wire[i] by {
      assert forall i | 0 <= i < n :: s'.wire[..n][i] == s'.wire[i];
    }
  }

  lemma TouchWire(s: State, s': State, id: nat, actor: Option<nat>)
    requires WireInv(s) && Touch(s, s', id, actor)
    ensures WireInv(s')
  {
    MessagesSurvive(s, s');
    forall k | k in s'.loads
      ensures MarksSound(s'.wire, k, s'.loads[k])
    {
      if k != id {
        MarkSurvives(s, s', k, s.loads[k]);
      }
    }
  }

  lemma TouchForward(s: State, s': State, id: nat, actor: Option<nat>)
    requires Touch(s, s', id, actor)
    ensures Forward(s, s')
  {
    forall k | k in s.tables.pending && s.tables.pending[k].cancelled
      ensures Flagged(s'.tables, k)
    {
      assert k != id ==> Lookup(s'.tables.pending, k) == Lookup(s.tables.pending, k);
    }
  }

  lemma TouchKeepsInv(s: State, s': State, id: nat, actor: Option<nat>)
    requires Inv(s) && Touch(s, s', id, actor)
    requires actor.Some? ==>
               (s.clients[actor.value].Announce? || s.clients[actor.value].Submit? ==> s.clients[actor.value].id == id)
    ensures Inv(s') && Forward(s, s')
  {
    TouchLoads(s, s', id, actor);
    TouchCarried(s, s', id, actor);
    TouchQueue(s, s', id, actor);
    TouchClients(s, s', id, actor);
    TouchDtor(s, s', id, actor);
    TouchWire(s, s', id, actor);
    TouchForward(s, s', id, actor);
  }

  // ---------- steps that touch no load ----------

  lemma SameForward(s: State, s': State)
    requires s'.loads == s.loads && s'.tables.pending == s.tables.pending
    ensures Forward(s, s')
  {
  }

  /** Only a client has moved, perhaps after sending an answer that names no load's fate. */
  ghost predicate Talk(s: State, s': State, c: nat) {
    && c in s.clients && ClientsRun(s)
    && !s.clients[c].Announce? && !s.clients[c].Submit?
    && c in s'.clients
    && s' == s.(clients := s.clients[c := s'.clients[c]], wire := s'.wire)
    && ClientSound(s', c, s'.clients[c])
    && WireGrows(s, s')
    && (s'.wire != s.wire ==> s'.wire[|s.wire|].Status? || s'.wire[|s.wire|].Rejected?)
  }

  lemma TalkClients(s: State, s': State, c: nat)
    requires ClientsInv(s) && Talk(s, s', c)
    ensures ClientsInv(s')
  {
    forall d | d in s'.clients
      ensures ClientSound(s', d, s'.clients[d])
    {
      if d != c {
        assert ClientSound(s, d, s.clients[d]);
      }
    }
  }

  lemma TalkLoads(s: State, s': State, c: nat)
    requires LoadsInv(s) && CarriedInv(s) && DtorInv(s) && Talk(s, s', c)
    ensures LoadsInv(s') && CarriedInv(s') && DtorInv(s')
  {
    forall k | k in s'.loads
      ensures Sound(ViewOf(s', k), s'.monitorOn) && Answered(s'.loads[k], s'.ok, s'.active) && Carried(s', k)
    {
      assert ViewOf(s', k) == ViewOf(s, k) && Carried(s, k);
    }
  }

  lemma TalkWire(s: State, s': State, c: nat)
    requires WireInv(s) && Talk(s, s', c)
    ensures WireInv(s')
  {
    hide ClientSound;
    SameForward(s, s');
    MessagesSurvive(s, s');
    forall k | k in s'.loads
      ensures MarksSound(s'.wire, k, s'.loads[k])
    {
      MarkSurvives(s, s', k, s.loads[k]);
    }
  }

  lemma TalkKeepsInv(s: State, s': State, c: nat)
    requires Inv(s) && Talk(s, s', c)
    ensures Inv(s') && Forward(s, s')
  {
    hide LoadsInv, CarriedInv, ClientsInv, WireInv, Forward, WireGrows;
    SameForward(s, s');
    TalkClients(s, s', c);
    TalkLoads(s, s', c);
    TalkWire(s, s', c);
  }
}

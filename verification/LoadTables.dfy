/**
 * The tables `CloneIsolatedComponentManager` shares between its threads: the id
 * counter, `pending_loads_`, `seq_to_id_` and `children_`.
 *
 * Each critical section is a function on `Tables`; the class below performs the
 * same sections in place and is proved against those functions.  The protocol
 * modules interleave the functions.
 */
module LoadTables {
  import opened Common

  /** `unique_id_` is a `uint64_t`. */
  const ID_LIMIT: nat := 0x1_0000_0000_0000_0000

  datatype Phase = Queued | Constructing | Loaded | Unknown

  /** `PendingLoad`; the start time is left to the clock. */
  datatype Pending = Pending(seqNo: nat, plugin: string, phase: Phase, pid: nat, cancelled: bool, reason: string)

  /** `ChildInfo`; whether a pidfd was opened and whether a parameter file was written. */
  datatype Child = Child(pid: nat, name: string, fd: bool, file: bool)

  datatype Tables = Tables(
    counter: nat,
    pending: map<nat, Pending>,
    seqToId: map<nat, nat>,
    children: map<nat, Child>)

  /** What a `query` is answered with. */
  datatype Report = Report(id: nat, phase: Phase, pid: nat, plugin: string, cancellable: bool, name: string)

  // ---------- the critical sections ----------

  /** `unique_id_++` under `load_mutex_`: the id drawn (0 makes the caller throw) and the next counter. */
  function Draw(t: Tables): (nat, Tables)
  {
    (t.counter, t.(counter := (t.counter + 1) % ID_LIMIT))
  }

  function NewPending(seqNo: nat, plugin: string): Pending {
    Pending(seqNo, plugin, Queued, 0, false, "")
  }

  /** `pending_loads_.emplace` keeps an entry that is already there; `seq_to_id_[seq] =` does not. */
  function Insert(t: Tables, id: nat, seqNo: nat, plugin: string): Tables {
    t.(pending := if id in t.pending then t.pending else t.pending[id := NewPending(seqNo, plugin)],
       seqToId := if seqNo != 0 then t.seqToId[seqNo := id] else t.seqToId)
  }

  function NoteConstructing(t: Tables, id: nat, pid: nat): Tables {
    if id in t.pending
    then t.(pending := t.pending[id := t.pending[id].(phase := Constructing, pid := pid)])
    else t
  }

  predicate Flagged(t: Tables, id: nat) {
    id in t.pending && t.pending[id].cancelled
  }

  /** `take_pending`: the entry goes, whether or not it had been cancelled. */
  function Unpend(t: Tables, id: nat): Tables {
    t.(pending := t.pending - {id})
  }

  /** The pre-fork check drops the entry only when it carries a cancel. */
  function PreFork(t: Tables, id: nat): Tables {
    if Flagged(t, id) then Unpend(t, id) else t
  }

  function Register(t: Tables, id: nat, child: Child): Tables {
    t.(children := t.children[id := child])
  }

  function Forget(t: Tables, id: nat): Tables {
    t.(children := t.children - {id})
  }

  /** The first critical section of `handle_control_cancel`. */
  function Flag(t: Tables, id: nat, reason: string): Tables {
    if id in t.pending
    then t.(pending := t.pending[id := t.pending[id].(cancelled := true, reason := reason)])
    else t
  }

  /** The pid the cancel goes on to kill; 0 for "no entry" and for "nothing forked yet". */
  function Victim(t: Tables, id: nat): nat {
    if id in t.pending then t.pending[id].pid else 0
  }

  /** How a query names its load: by id, else by a known sequence number, else not at all. */
  function Resolve(t: Tables, seqNo: Option<nat>, id: Option<nat>): nat {
    if id.Some? then id.value
    else if seqNo.Some? && seqNo.value in t.seqToId then t.seqToId[seqNo.value]
    else 0
  }

  function PendingReport(t: Tables, id: nat): Option<Report> {
    if id != 0 && id in t.pending
    then var p := t.pending[id]; Some(Report(id, p.phase, p.pid, p.plugin, p.pid > 0, ""))
    else None
  }

  function ChildReport(t: Tables, id: nat): Option<Report> {
    if id != 0 && id in t.children
    then var c := t.children[id]; Some(Report(id, Phase.Loaded, c.pid, "", true, c.name))
    else None
  }

  /** `unknown`: nothing runs for this id and nothing is queued for it. */
  function NothingReport(id: nat): Report {
    Report(id, Unknown, 0, "", false, "")
  }

  /** `on_list_nodes` reads both maps at once: registered and no longer under construction. */
  function Listed(t: Tables): set<nat> {
    t.children.Keys - t.pending.Keys
  }

  // ---------- the same sections, in place ----------

  class Manager {
    var uniqueId: nat
    var pendingLoads: map<nat, Pending>
    var seqToId: map<nat, nat>
    var children: map<nat, Child>

    ghost function Abs(): Tables
      reads this
    {
      Tables(uniqueId, pendingLoads, seqToId, children)
    }

    constructor ()
      ensures Abs() == Tables(1, map[], map[], map[])
    {
      uniqueId, pendingLoads, seqToId, children := 1, map[], map[], map[];
    }

    /** `None` is the `overflow_error`; the counter has moved on by then and stays where it is. */
    method ReserveNodeId(seqNo: nat, plugin: string) returns (r: Option<nat>)
      requires uniqueId < ID_LIMIT
      modifies this
      ensures uniqueId < ID_LIMIT
      ensures r.None? <==> old(uniqueId) == 0
      ensures r.None? ==> Abs() == Draw(old(Abs())).1
      ensures r.Some? ==>
                && r.value == Draw(old(Abs())).0
                && Abs() == Insert(Draw(old(Abs())).1, r.value, seqNo, plugin)
    {
      var nodeId := uniqueId;
      uniqueId := if uniqueId + 1 == ID_LIMIT then 0 else uniqueId + 1;
      if nodeId == 0 {
        return None;
      }
      if nodeId !in pendingLoads {
        pendingLoads := pendingLoads[nodeId := Pending(seqNo, plugin, Queued, 0, false, "")];
      }
      if seqNo != 0 {
        seqToId := seqToId[seqNo := nodeId];
      }
      r := Some(nodeId);
    }

    method NoteForked(id: nat, pid: nat)
      modifies this`pendingLoads
      ensures Abs() == NoteConstructing(old(Abs()), id, pid)
    {
      if id in pendingLoads {
        pendingLoads := pendingLoads[id := pendingLoads[id].(phase := Constructing, pid := pid)];
      }
    }

    method TakePending(id: nat) returns (cancelled: bool, reason: Option<string>)
      modifies this`pendingLoads
      ensures cancelled == Flagged(old(Abs()), id)
      ensures reason == if cancelled then Some(old(pendingLoads)[id].reason) else None
      ensures Abs() == Unpend(old(Abs()), id)
    {
      cancelled, reason := false, None;
      if id in pendingLoads {
        cancelled := pendingLoads[id].cancelled;
        if cancelled {
          reason := Some(pendingLoads[id].reason);
        }
        pendingLoads := pendingLoads - {id};
      } else {
        assert pendingLoads - {id} == pendingLoads;
      }
    }

    method CheckBeforeFork(id: nat) returns (cancelled: bool, reason: string)
      modifies this`pendingLoads
      ensures cancelled == Flagged(old(Abs()), id)
      ensures reason == if cancelled then old(pendingLoads)[id].reason else ""
      ensures Abs() == PreFork(old(Abs()), id)
    {
      cancelled, reason := false, "";
      if id in pendingLoads && pendingLoads[id].cancelled {
        cancelled := true;
        reason := pendingLoads[id].reason;
        pendingLoads := pendingLoads - {id};
      }
    }

    method AddChild(id: nat, child: Child)
      modifies this`children
      ensures Abs() == Register(old(Abs()), id, child)
    {
      children := children[id := child];
    }

    /** The section both `handle_child_death` and `on_unload_node` run: a missing id is not an error. */
    method RemoveChild(id: nat) returns (child: Option<Child>)
      modifies this`children
      ensures child == Lookup(old(children), id)
      ensures Abs() == Forget(old(Abs()), id)
    {
      child := None;
      if id in children {
        child := Some(children[id]);
        children := children - {id};
      } else {
        assert children - {id} == children;
      }
    }

    method FlagCancelled(id: nat, reason: string) returns (victim: nat)
      modifies this`pendingLoads
      ensures victim == Victim(old(Abs()), id)
      ensures Abs() == Flag(old(Abs()), id, reason)
    {
      victim := 0;
      if id in pendingLoads {
        pendingLoads := pendingLoads[id := pendingLoads[id].(cancelled := true, reason := reason)];
        victim := pendingLoads[id].pid;
      }
    }

    /** With nothing running in between, the two-section query answers from one snapshot. */
    method HandleControlQuery(seqNo: Option<nat>, uniqueId: Option<nat>) returns (answer: Report)
      ensures var id := Resolve(Abs(), seqNo, uniqueId);
              answer == PendingReport(Abs(), id).GetOr(
                          ChildReport(Abs(), id).GetOr(NothingReport(id)))
    {
      var id := uniqueId.GetOr(0);
      if uniqueId.None? && seqNo.Some? && seqNo.value in seqToId {
        id := seqToId[seqNo.value];
      }
      if id != 0 && id in pendingLoads {
        var load := pendingLoads[id];
        return Report(id, load.phase, load.pid, load.plugin, load.pid > 0, "");
      }
      if id != 0 && id in children {
        return Report(id, Phase.Loaded, children[id].pid, "", true, children[id].name);
      }
      answer := Report(id, Unknown, 0, "", false, "");
    }

    /** The ids listed, each with its node's name. */
    method ListNodes() returns (nodes: map<nat, string>)
      ensures nodes.Keys == Listed(Abs())
      ensures forall id | id in nodes :: nodes[id] == Abs().children[id].name
    {
      nodes := map id | id in children && id !in pendingLoads :: children[id].name;
    }
  }
}

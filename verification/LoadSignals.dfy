/** Whom the destructor signals, and how often: the two lists `terminate_children` reads, and what they share. */
module LoadSignals {
  import opened Common
  import opened LoadTables
  import opened LoadProtocol
  import opened LoadInvariant
  import opened LoadTheorems
  import LoadAnswers
  import Shutdown

  /** The worker has registered the child and not yet taken its pending entry. */
  predicate AtUnpending(t: Task) {
    t.Running? && t.pc.Unpending?
  }

  lemma BothMeansUnpending(v: View, monitorOn: bool)
    requires Sound(v, monitorOn)
    ensures v.pending.Some? && !Nowhere(v) ==>
              AtUnpending(v.load.task) && v.load.pid > 0 && Parked(v, v.load.pid)
    ensures AtUnpending(v.load.task) ==> v.pending.Some? && v.load.pid > 0 && Parked(v, v.load.pid)
    ensures v.child.Some? ==> v.load.pid == v.child.value.pid
    ensures v.stopping.Some? ==> v.load.pid == v.stopping.value.pid > 0
  {
  }

  lemma IdsAreKnown(s: State)
    requires Inv(s)
    ensures s.tables.pending.Keys <= s.loads.Keys && s.tables.children.Keys <= s.loads.Keys
    ensures s.stopping.Keys <= s.loads.Keys
  {
  }

  /**
   * In every reachable state a registered child is still pending, as under construction and with its own pid, exactly
   * while its worker stands between registering it and taking its pending entry.
   */
  lemma RegisteredAndPending(s: State, id: nat)
    requires Reachable(s) && id in s.tables.children
    ensures id in s.loads && (id in s.tables.pending <==> AtUnpending(s.loads[id].task))
    ensures id in s.tables.pending ==>
              s.tables.pending[id].phase.Constructing? && s.tables.pending[id].pid == s.tables.children[id].pid
  {
    ReachableInv(s);
    IdsAreKnown(s);
    LoadIsSound(s, id);
    hide Inv, Reachable, Sound, Answered, Carried, MarksSound;
    BothMeansUnpending(ViewOf(s, id), s.monitorOn);
  }

  predicate Stopped(s: State, pid: nat) {
    exists id :: id in s.stopping && s.stopping[id].pid == pid
  }

  predicate UnderConstruction(t: Tables, pid: nat) {
    exists id :: id in Constructed(t) && Constructed(t)[id] == pid
  }

  /** One load whose child is in the destructor's map while its worker still has to take its pending entry. */
  predicate CaughtBetween(s: State, id: nat, pid: nat) {
    id in s.stopping && id in s.loads && s.loads[id].pid == pid && AtUnpending(s.loads[id].task)
  }

  lemma ReadsPending(s: State)
    requires s.dtor.ReadPending?
    ensures Enabled(s, DtorStep) && Apply(s, DtorStep).dtor == Reap(Constructed(s.tables))
  {
    hide Onward, Stays, Constructed;
  }

  lemma SharedIsCaught(s: State, pid: nat)
    requires Inv(s) && PidsDistinct(s) && Stopped(s, pid) && UnderConstruction(s.tables, pid)
    ensures exists id :: CaughtBetween(s, id, pid)
  {
    hide Inv;
    var id :| id in s.stopping && s.stopping[id].pid == pid;
    var other :| other in Constructed(s.tables) && Constructed(s.tables)[other] == pid;
    StoppedLoad(s, id);
    PendingLoad(s, other);
    assert id == other;
    assert CaughtBetween(s, id, pid);
  }

  lemma CaughtIsShared(s: State, id: nat, pid: nat)
    requires Inv(s) && CaughtBetween(s, id, pid)
    ensures Stopped(s, pid) && UnderConstruction(s.tables, pid)
  {
    hide Inv;
    StoppedLoad(s, id);
    assert id in Constructed(s.tables) && Constructed(s.tables)[id] == pid;
  }

  /**
   * When the destructor reads the pending loads, a pid is on both of its lists exactly if it is that of a child taken
   * from `children_` whose worker still has to take its pending entry.
   */
  lemma OnBothLists(s: State, pid: nat)
    requires Reachable(s) && s.dtor.ReadPending?
    ensures Enabled(s, DtorStep) && Apply(s, DtorStep).dtor == Reap(Constructed(s.tables))
    ensures Stopped(s, pid) && UnderConstruction(s.tables, pid) <==> exists id :: CaughtBetween(s, id, pid)
  {
    ReachableInv(s);
    LoadAnswers.ReachableKeepsPidsDistinct(s);
    hide Inv, Reachable, Enabled, Apply, Stopped, UnderConstruction, CaughtBetween, PidsDistinct, Constructed;
    ReadsPending(s);
    if Stopped(s, pid) && UnderConstruction(s.tables, pid) {
      SharedIsCaught(s, pid);
    }
    if id :| CaughtBetween(s, id, pid) {
      CaughtIsShared(s, id, pid);
    }
  }

  lemma StoppedLoad(s: State, id: nat)
    requires Inv(s) && id in s.stopping
    ensures id in s.loads && s.loads[id].pid == s.stopping[id].pid > 0
    ensures id in s.tables.pending <==> AtUnpending(s.loads[id].task)
    ensures id in s.tables.pending ==>
              && s.tables.pending[id].phase.Constructing?
              && s.tables.pending[id].pid == s.stopping[id].pid > 0
  {
    IdsAreKnown(s);
    LoadIsSound(s, id);
    hide Inv, Sound, Answered, Carried, MarksSound;
    BothMeansUnpending(ViewOf(s, id), s.monitorOn);
  }

  lemma PendingLoad(s: State, id: nat)
    requires Inv(s) && id in s.tables.pending && s.tables.pending[id].pid > 0
    ensures id in s.loads && s.loads[id].pid == s.tables.pending[id].pid
  {
    IdsAreKnown(s);
    LoadIsSound(s, id);
    hide Inv, InStage, Answered, Carried, MarksSound;
  }

  /** `pids` lists the pids of `entries`, one for each id in `ids`. */
  ghost predicate Lists(ids: seq<nat>, pids: seq<nat>, entries: map<nat, nat>) {
    && (forall i, j | 0 <= i < j < |ids| :: ids[i] != ids[j])
    && (forall id :: id in ids <==> id in entries)
    && |pids| == |ids| && forall i | 0 <= i < |ids| && ids[i] in entries :: pids[i] == entries[ids[i]]
  }

  ghost predicate OneOfEach(entries: map<nat, nat>) {
    forall i, j | i in entries && j in entries && i != j :: entries[i] != entries[j]
  }

  lemma ListedOnce(ids: seq<nat>, pids: seq<nat>, entries: map<nat, nat>)
    requires Lists(ids, pids, entries) && OneOfEach(entries)
    ensures forall i, j | 0 <= i < j < |pids| :: pids[i] != pids[j]
    ensures forall pid :: pid in pids <==> exists id :: id in entries && entries[id] == pid
  {
    forall pid | exists id :: id in entries && entries[id] == pid
      ensures pid in pids
    {
      var id :| id in entries && entries[id] == pid;
      var i :| 0 <= i < |ids| && ids[i] == id;
      assert pids[i] == pid;
    }
    forall pid | pid in pids
      ensures exists id :: id in entries && entries[id] == pid
    {
      var i :| 0 <= i < |pids| && pids[i] == pid;
      assert ids[i] in ids;
    }
  }

  function PidsOf(children: map<nat, Child>): map<nat, nat> {
    map id | id in children :: children[id].pid
  }

  lemma ListsDiffer(s: State)
    requires Inv(s) && PidsDistinct(s)
    ensures OneOfEach(PidsOf(s.stopping)) && OneOfEach(Constructed(s.tables))
  {
    hide Inv;
    forall i, j | i in s.stopping && j in s.stopping && i != j
      ensures s.stopping[i].pid != s.stopping[j].pid
    {
      StoppedLoad(s, i);
      StoppedLoad(s, j);
    }
    forall i, j | i in Constructed(s.tables) && j in Constructed(s.tables) && i != j
      ensures Constructed(s.tables)[i] != Constructed(s.tables)[j]
    {
      PendingLoad(s, i);
      PendingLoad(s, j);
    }
  }

  lemma ListsMean(s: State, pid: nat)
    ensures Stopped(s, pid) <==> exists id :: id in PidsOf(s.stopping) && PidsOf(s.stopping)[id] == pid
    ensures UnderConstruction(s.tables, pid)
            <==> exists id :: id in Constructed(s.tables) && Constructed(s.tables)[id] == pid
  {
    hide Constructed;
    if Stopped(s, pid) {
      var id :| id in s.stopping && s.stopping[id].pid == pid;
      assert id in PidsOf(s.stopping);
    }
  }

  /**
   * So the destructor sends a process two SIGTERMs exactly if its worker stands there, and otherwise one to each it
   * has taken or found under construction, and none to any other; in whatever order it reads its maps.
   */
  lemma TermsOfProcess(
    s: State, children: seq<Shutdown.Child>, ids: seq<nat>, constructing: seq<nat>, others: seq<nat>, pid: nat)
    requires Reachable(s) && s.dtor.ReadPending?
    requires Lists(ids, Shutdown.Pids(children), PidsOf(s.stopping))
    requires Lists(others, constructing, Constructed(s.tables))
    ensures var targets := Shutdown.Pids(children) + constructing;
            var terms := multiset(Shutdown.Terms(Shutdown.Staggered(targets, Shutdown.Step(|targets|))))[pid];
            && (terms == 2 <==> exists id :: CaughtBetween(s, id, pid))
            && (terms == 0 <==> !Stopped(s, pid) && !UnderConstruction(s.tables, pid))
            && terms <= 2
  {
    OnBothLists(s, pid);
    ReachableInv(s);
    LoadAnswers.ReachableKeepsPidsDistinct(s);
    hide Reachable, Inv, PidsDistinct, Stopped, UnderConstruction, CaughtBetween, Constructed, PidsOf;
    ListsDiffer(s);
    ListsMean(s, pid);
    ListedOnce(ids, Shutdown.Pids(children), PidsOf(s.stopping));
    ListedOnce(others, constructing, Constructed(s.tables));
    ChildrenDiffer(children);
    Shutdown.TermsPerProcess(children, constructing, pid);
  }

  lemma ChildrenDiffer(children: seq<Shutdown.Child>)
    requires var pids := Shutdown.Pids(children); forall i, j | 0 <= i < j < |pids| :: pids[i] != pids[j]
    ensures forall i, j | 0 <= i < j < |children| :: children[i].pid != children[j].pid
  {
    var pids := Shutdown.Pids(children);
    forall i, j | 0 <= i < j < |children|
      ensures children[i].pid != children[j].pid
    {
      assert pids[i] == children[i].pid && pids[j] == children[j].pid;
    }
  }
}

/** What the manager tells the supervisor is true: every frame's phase, process, plugin and name. */
module LoadReports {
  import opened Common
  import opened LoadTables
  import opened LoadProtocol
  import opened LoadInvariant
  import opened LoadTaskSteps
  import opened LoadTheorems
  import opened LoadAnswers

  // ---------- what stands on the wire ----------

  /**
   * In every reachable state, whatever a frame on the wire says of a load's process is that process, and the name in a
   * `loaded` is the one the child wrote.
   */
  lemma FramesAreTrue(s: State, i: nat)
    requires Reachable(s) && i < |s.wire|
    ensures match s.wire[i]
            case LoadedMsg(id, pid, name) =>
              id in s.loads && s.loads[id].pid == pid > 0 && s.loads[id].line == SaysOk(name)
            case Progress(id, pid, phase) =>
              && id in s.loads
              && if pid == 0 then phase == Queued else phase == Constructing && s.loads[id].pid == pid
            case Crashed(id, pid) => id in s.loads && s.loads[id].pid == pid > 0
            case _ => true
  {
    ReachableInv(s);
    MessageIsSound(s, i);
  }

  // ---------- the tables, as a query sees them ----------

  /** What each section of a load's life leaves for a query to find. */
  lemma SectionsShow(t: Tables, id: nat, seqNo: nat, plugin: string, pid: nat, child: Child)
    requires id != 0
    ensures id !in t.pending ==>
              PendingReport(Insert(t, id, seqNo, plugin), id) == Some(Report.Report(id, Queued, 0, plugin, false, ""))
    ensures seqNo != 0 ==> Resolve(Insert(t, id, seqNo, plugin), Some(seqNo), None) == id
    ensures id in t.pending ==>
              PendingReport(NoteConstructing(t, id, pid), id)
              == Some(Report.Report(id, Constructing, pid, t.pending[id].plugin, pid > 0, ""))
    ensures PendingReport(Unpend(t, id), id) == None && ChildReport(Unpend(t, id), id) == ChildReport(t, id)
    ensures ChildReport(Register(t, id, child), id) == Some(Report.Report(id, Loaded, child.pid, "", true, child.name))
    ensures PendingReport(Register(t, id, child), id) == PendingReport(t, id)
    ensures ChildReport(Forget(t, id), id) == None
  {
  }

  /** A cancel's flag and reason stay with its load until the entry is taken; what a query sees stays as it was. */
  lemma FlagShows(t: Tables, id: nat, reason: string, pid: nat)
    requires id in t.pending
    ensures var flagged := Flag(t, id, reason);
            && Flagged(flagged, id) && flagged.pending[id].reason == reason
            && PendingReport(flagged, id) == PendingReport(t, id)
            && Flagged(NoteConstructing(flagged, id, pid), id)
            && NoteConstructing(flagged, id, pid).pending[id].reason == reason
            && !Flagged(Unpend(flagged, id), id)
    ensures Victim(t, id) == t.pending[id].pid
  {
  }

  /** No section touches what is on record for another load. */
  lemma SectionsSpareOthers(
    t: Tables, id: nat, k: nat, seqNo: nat, plugin: string, pid: nat, child: Child, reason: string)
    requires k != id
    ensures var after := [Insert(t, id, seqNo, plugin), NoteConstructing(t, id, pid), Flag(t, id, reason),
                          Unpend(t, id), Register(t, id, child), Forget(t, id)];
            forall i | 0 <= i < |after| ::
              && Lookup(after[i].pending, k) == Lookup(t.pending, k)
              && Lookup(after[i].children, k) == Lookup(t.children, k)
  {
  }

  /** Listed are exactly the registered children whose workers have taken their pending entries. */
  lemma ListedIffDone(s: State, id: nat)
    requires Reachable(s)
    ensures id in Listed(s.tables) <==> id in s.tables.children && id in s.loads && PastUnpend(s.loads[id].task)
  {
    ReachableInv(s);
    if id in s.tables.children {
      LoadIsSound(s, id);
      PastIsUnpended(ViewOf(s, id), s.monitorOn);
    }
  }

  lemma PastIsUnpended(v: View, monitorOn: bool)
    requires Sound(v, monitorOn)
    ensures PastUnpend(v.load.task) <==> v.pending.None?
  {
  }

  // ---------- what each section of a client sends ----------

  ghost predicate InQuery(k: Client) {
    k.QueryPending? || k.QueryChildren? || k.QueryUnknown?
  }

  /** The frame a client's next section sends, if it sends one. */
  function Said(t: Tables, k: Client): Option<Msg> {
    match k
    case Rejecting(seqNo) => Some(Rejected(seqNo))
    case Announce(seqNo, id) => Some(Accepted(seqNo, id))
    case QueryPending(asked, about) =>
      var hit := PendingReport(t, Resolve(t, asked, about));
      if hit.Some? then Some(Status(asked, hit.value)) else None
    case QueryChildren(asked, id, _) =>
      var hit := ChildReport(t, id);
      if hit.Some? then Some(Status(asked, hit.value)) else None
    case QueryUnknown(asked, id, _) => Some(Status(asked, NothingReport(id)))
    case UnloadSend(id) => Some(Unloaded(id))
    case _ => None
  }

  lemma SendIsWritten(s: State, m: Msg)
    ensures Send(s, m).wire == Written(s.wire, Some(m), s.active)
  {
  }

  lemma AnswersAreWritten(s: State, c: nat, k: Client)
    ensures k.Rejecting? ==> TurnAway(s, c, k.seqNo).wire == Written(s.wire, Said(s.tables, k), s.active)
    ensures k.QueryPending? ==>
              AskPending(s, c, k.asked, k.about).wire == Written(s.wire, Said(s.tables, k), s.active)
    ensures k.QueryChildren? ==>
              AskChildren(s, c, k.asked, k.id, k.known).wire == Written(s.wire, Said(s.tables, k), s.active)
    ensures k.QueryUnknown? ==> AnswerUnknown(s, c, k.asked, k.id).wire == Written(s.wire, Said(s.tables, k), s.active)
  {
    hide Onward, Moves, OwnClient, Send, PendingReport, ChildReport, Resolve;
    if k.Rejecting? {
      SendIsWritten(s, Rejected(k.seqNo));
    } else if k.QueryPending? {
      var hit := PendingReport(s.tables, Resolve(s.tables, k.asked, k.about));
      if hit.Some? {
        SendIsWritten(s, Status(k.asked, hit.value));
      }
    } else if k.QueryChildren? {
      var hit := ChildReport(s.tables, k.id);
      if hit.Some? {
        SendIsWritten(s, Status(k.asked, hit.value));
      }
    } else if k.QueryUnknown? {
      SendIsWritten(s, Status(k.asked, NothingReport(k.id)));
    }
  }

  lemma MarksAreWritten(s: State, c: nat, id: nat, seqNo: nat)
    requires id in s.loads
    ensures AnnounceLoad(s, c, seqNo, id).wire == Written(s.wire, Some(Accepted(seqNo, id)), s.active)
    ensures ReportUnload(s, c, id).wire == Written(s.wire, Some(Unloaded(id)), s.active)
  {
    hide Onward, Moves, OwnClient;
  }

  lemma InsertIsSilent(s: State, c: nat, id: nat, origin: Origin, plugin: string)
    ensures InsertLoad(s, c, origin, plugin, id).wire == s.wire
  {
    hide Onward, OwnClient, Insert, NewLoad;
  }

  lemma LooksAreSilent(s: State, c: nat, id: nat)
    ensures id in s.loads ==> SubmitLoad(s, c, id).wire == s.wire
    ensures CheckUnload(s, c, id).wire == s.wire && LookAgain(s, c, id).wire == s.wire
  {
    hide Onward, Moves, OwnClient;
  }

  lemma KillsAreSilent(s: State, c: nat, id: nat, pid: nat, reason: string)
    ensures FlagLoad(s, c, id, reason).wire == s.wire && KillVictim(s, c, pid).wire == s.wire
    ensures (id in s.tables.children ==> id in s.loads) ==> UnloadLoad(s, c, id).wire == s.wire
  {
    hide Onward, Moves, OwnClient, Flag, Victim, Kill, CleanUp, Forget;
  }

  /** Each section of a client sends that frame and no other. */
  lemma ClientSays(s: State, c: nat)
    requires ClientEnabled(s, c)
    ensures ClientApply(s, c).wire == Written(s.wire, Said(s.tables, s.clients[c]), s.active)
  {
    hide Onward, Moves, OwnClient, AskPending, AskChildren, AnswerUnknown, TurnAway, InsertLoad, AnnounceLoad,
         SubmitLoad, FlagLoad, KillVictim, LookAgain, CheckUnload, UnloadLoad, ReportUnload, PendingReport, ChildReport;
    var k := s.clients[c];
    match k
    case Rejecting(_) => AnswersAreWritten(s, c, k);
    case QueryPending(_, _) => AnswersAreWritten(s, c, k);
    case QueryChildren(_, _, _) => AnswersAreWritten(s, c, k);
    case QueryUnknown(_, _, _) => AnswersAreWritten(s, c, k);
    case Reserved(origin, plugin, id) => InsertIsSilent(s, c, id, origin, plugin);
    case Announce(seqNo, id) => MarksAreWritten(s, c, id, seqNo);
    case Submit(id) => LooksAreSilent(s, c, id);
    case CancelFlag(id, reason) => KillsAreSilent(s, c, id, 0, reason);
    case CancelKill(id, pid, _) => KillsAreSilent(s, c, id, pid, "");
    case CancelRecheck(id) => LooksAreSilent(s, c, id);
    case UnloadPending(id) => LooksAreSilent(s, c, id);
    case UnloadChild(id) => KillsAreSilent(s, c, id, 0, "");
    case UnloadSend(id) => MarksAreWritten(s, c, id, 0);
  }

  // ---------- where each section leaves its client ----------

  /** The client's state after its next section. */
  function Led(s: State, k: Client): Client {
    match k
    case Reserved(origin, _, id) => if origin.Socket? then Announce(origin.seqNo, id) else Submit(id)
    case Announce(_, id) => Submit(id)
    case QueryPending(asked, about) =>
      var id := Resolve(s.tables, asked, about);
      if id != 0 && id in s.tables.pending then Idle else QueryChildren(asked, id, id in s.loads)
    case QueryChildren(asked, id, known) =>
      if id != 0 && id in s.tables.children then Idle else QueryUnknown(asked, id, known)
    case CancelFlag(id, _) =>
      var victim := Victim(s.tables, id);
      if victim > 0 then CancelKill(id, victim, |s.wire|) else CancelRecheck(id)
    case CancelRecheck(id) => if id in s.tables.pending then Idle else QueryPending(None, Some(id))
    case UnloadPending(id) => if id in s.tables.pending then Idle else UnloadChild(id)
    case UnloadChild(id) => if id in s.tables.children then UnloadSend(id) else Idle
    case _ => Idle
  }

  lemma SendMovesNobody(s: State, m: Msg)
    ensures Send(s, m).clients == s.clients
  {
  }

  lemma PendingLeads(s: State, c: nat, asked: Option<nat>, about: Option<nat>)
    ensures AskPending(s, c, asked, about).clients == s.clients[c := Led(s, QueryPending(asked, about))]
  {
    hide Onward, Moves, OwnClient, Send, Resolve;
    var hit := PendingReport(s.tables, Resolve(s.tables, asked, about));
    if hit.Some? {
      SendMovesNobody(s, Status(asked, hit.value));
    }
  }

  lemma ChildrenLead(s: State, c: nat, asked: Option<nat>, id: nat, known: bool)
    ensures AskChildren(s, c, asked, id, known).clients == s.clients[c := Led(s, QueryChildren(asked, id, known))]
  {
    hide Onward, Moves, OwnClient, Send;
    var hit := ChildReport(s.tables, id);
    if hit.Some? {
      SendMovesNobody(s, Status(asked, hit.value));
    }
  }

  lemma EndingsLead(s: State, c: nat, asked: Option<nat>, id: nat, seqNo: nat)
    ensures AnswerUnknown(s, c, asked, id).clients == s.clients[c := Idle]
    ensures TurnAway(s, c, seqNo).clients == s.clients[c := Idle]
  {
    hide Onward, Moves, OwnClient, Send;
    SendMovesNobody(s, Status(asked, NothingReport(id)));
    SendMovesNobody(s, Rejected(seqNo));
  }

  lemma AskingLeads(s: State, c: nat, k: Client)
    ensures k.QueryPending? ==> AskPending(s, c, k.asked, k.about).clients == s.clients[c := Led(s, k)]
    ensures k.QueryChildren? ==> AskChildren(s, c, k.asked, k.id, k.known).clients == s.clients[c := Led(s, k)]
    ensures k.QueryUnknown? ==> AnswerUnknown(s, c, k.asked, k.id).clients == s.clients[c := Led(s, k)]
    ensures k.Rejecting? ==> TurnAway(s, c, k.seqNo).clients == s.clients[c := Led(s, k)]
  {
    hide Onward, Moves, OwnClient, AskPending, AskChildren, AnswerUnknown, TurnAway;
    if k.QueryPending? {
      PendingLeads(s, c, k.asked, k.about);
    } else if k.QueryChildren? {
      ChildrenLead(s, c, k.asked, k.id, k.known);
    } else if k.QueryUnknown? {
      EndingsLead(s, c, k.asked, k.id, 0);
    } else if k.Rejecting? {
      EndingsLead(s, c, None, 0, k.seqNo);
    }
  }

  lemma LoadingLeads(s: State, c: nat, k: Client)
    ensures k.Reserved? ==> InsertLoad(s, c, k.origin, k.plugin, k.id).clients == s.clients[c := Led(s, k)]
    ensures k.Announce? && k.id in s.loads ==> AnnounceLoad(s, c, k.seqNo, k.id).clients == s.clients[c := Led(s, k)]
    ensures k.Submit? && k.id in s.loads ==> SubmitLoad(s, c, k.id).clients == s.clients[c := Led(s, k)]
  {
    hide Onward, Moves, OwnClient, Insert, NewLoad;
  }

  lemma CancelLeads(s: State, c: nat, k: Client)
    ensures k.CancelFlag? ==> FlagLoad(s, c, k.id, k.reason).clients == s.clients[c := Led(s, k)]
    ensures k.CancelKill? ==> KillVictim(s, c, k.pid).clients == s.clients[c := Led(s, k)]
    ensures k.CancelRecheck? ==> LookAgain(s, c, k.id).clients == s.clients[c := Led(s, k)]
  {
    hide Onward, Moves, OwnClient, Kill, Flag, Victim;
  }

  lemma LookLeadsOn(s: State, c: nat, id: nat)
    ensures CheckUnload(s, c, id).clients == s.clients[c := Led(s, UnloadPending(id))]
    ensures id in s.loads ==> ReportUnload(s, c, id).clients == s.clients[c := Idle]
  {
    hide Onward, Moves, OwnClient, Send;
    if id in s.loads {
      SendMovesNobody(Put(s, id, s.loads[id].(goneAt := Here(s))), Unloaded(id));
    }
  }

  lemma PutMovesNobody(s: State, id: nat, l: Load)
    ensures Put(s, id, l).clients == s.clients
  {
  }

  lemma TakenLeads(s: State, id: nat)
    requires id in s.tables.children
    ensures Led(s, UnloadChild(id)) == UnloadSend(id)
  {
  }

  lemma TakingLeads(s: State, c: nat, id: nat)
    requires id in s.tables.children ==> id in s.loads
    ensures UnloadLoad(s, c, id).clients == s.clients[c := Led(s, UnloadChild(id))]
  {
    hide Onward, Moves, OwnClient, CleanUp, Forget, Put;
    if id in s.tables.children {
      hide Led;
      var l := CleanUp(s.loads[id].(watched := false), s.tables.children[id]).(removal := ByUnload(c));
      assert UnloadLoad(s, c, id) == SetClient(Put(s, id, l), c, UnloadSend(id)).(tables := Forget(s.tables, id));
      hide UnloadLoad;
      PutMovesNobody(s, id, l);
      TakenLeads(s, id);
    }
  }

  lemma UnloadLeads(s: State, c: nat, k: Client)
    ensures k.UnloadPending? ==> CheckUnload(s, c, k.id).clients == s.clients[c := Led(s, k)]
    ensures k.UnloadChild? && (k.id in s.tables.children ==> k.id in s.loads) ==>
              UnloadLoad(s, c, k.id).clients == s.clients[c := Led(s, k)]
    ensures k.UnloadSend? && k.id in s.loads ==> ReportUnload(s, c, k.id).clients == s.clients[c := Led(s, k)]
  {
    hide Onward, Moves, OwnClient, CheckUnload, UnloadLoad, ReportUnload;
    if k.UnloadPending? || k.UnloadSend? {
      LookLeadsOn(s, c, k.id);
    } else if k.UnloadChild? && (k.id in s.tables.children ==> k.id in s.loads) {
      TakingLeads(s, c, k.id);
    }
  }

  lemma ClientLeads(s: State, c: nat)
    requires ClientEnabled(s, c)
    ensures ClientApply(s, c).clients == s.clients[c := Led(s, s.clients[c])]
  {
    hide Onward, Moves, OwnClient, AskPending, AskChildren, AnswerUnknown, TurnAway, InsertLoad, AnnounceLoad,
         SubmitLoad, FlagLoad, KillVictim, LookAgain, CheckUnload, UnloadLoad, ReportUnload, Led;
    var k := s.clients[c];
    AskingLeads(s, c, k);
    LoadingLeads(s, c, k);
    CancelLeads(s, c, k);
    UnloadLeads(s, c, k);
  }

  /**
   * Every report of a load still waiting goes out: as `queued` with no pid from the memory gate, as `constructing` with
   * the child's pid from the wait for its line.
   */
  lemma ReportsAreSent(s: State, id: nat)
    requires Reachable(s) && s.active && TaskEnabled(s, id, Choice.Report)
    ensures id in s.loads && s.loads[id].task.Running?
    ensures var pc, s' := s.loads[id].task.pc, TaskApply(s, id, Choice.Report);
            && (pc.Admission? || pc.Waiting?)
            && (pc.Admission? ==> s'.wire == s.wire + [Progress(id, 0, Queued)])
            && (pc.Waiting? ==> s'.wire == s.wire + [Progress(id, s.loads[id].pid, Constructing)])
  {
    ReachableInv(s);
    ReportPoints(s, id);
    LoadIsSound(s, id);
    ShapeOfStep(s, id, Choice.Report);
    hide Inv, Reachable, Sound, Answered, Carried, MarksSound, TaskApply, TaskEnabled, NextLoad, Section;
    if s.loads[id].task.pc.Waiting? {
      WaitingKnows(ViewOf(s, id), s.monitorOn);
    }
  }

  lemma ReportPoints(s: State, id: nat)
    requires TaskEnabled(s, id, Choice.Report)
    ensures id in s.loads && s.loads[id].task.Running?
    ensures s.loads[id].task.pc.Admission? || s.loads[id].task.pc.Waiting?
  {
  }

  // ---------- who else sends ----------

  lemma BeginIsSilent(s: State, c: nat, origin: Origin, plugin: string, available: bool)
    ensures BeginLoadApply(s, c, origin, plugin, available).wire == s.wire
  {
    hide Onward, OwnClient, Draw;
  }

  lemma ControlIsSilent(s: State, w: nat, id: nat)
    ensures s.queue != [] && s.queue[0] in s.loads ==> PopItem(s, w).wire == s.wire
    ensures id in s.loads && id in s.stopping ==> ReleaseOne(s, id).wire == s.wire
    ensures id in s.loads && id in s.tables.children ==> CleanOne(s, id).wire == s.wire
  {
    hide Onward, Stays, CleanUp, TakenOver, Forget, Close, Unlink;
  }

  lemma MonitorSays(s: State)
    requires s.monitor.Handling? && s.monitor.batch != []
    requires s.monitor.batch[0] in s.tables.children ==> s.monitor.batch[0] in s.loads
    ensures HandleApply(s).wire == s.wire
            || exists id, pid :: HandleApply(s).wire == Written(s.wire, Some(Crashed(id, pid)), s.active)
  {
    hide Onward, Stays, BuryChild;
    var id := s.monitor.batch[0];
    if id != 0 && id in s.tables.children {
      BuryingSays(s, id);
    }
  }

  lemma BuryingSays(s: State, id: nat)
    requires id in s.tables.children && id in s.loads
    ensures BuryChild(s, id).wire == Written(s.wire, Some(Crashed(id, s.tables.children[id].pid)), s.active)
  {
    hide Onward, Stays, CleanUp, Forget;
  }

  /** Nobody but a client, a worker and the monitor sends, and the monitor only `crashed`. */
  lemma OthersSay(s: State, a: Action)
    requires Enabled(s, a) && !a.ClientStep? && !a.TaskStep?
    ensures Apply(s, a).wire == s.wire
            || exists id, pid :: Apply(s, a).wire == Written(s.wire, Some(Crashed(id, pid)), s.active)
  {
    hide Onward, Stays, OwnClient, BeginLoadApply, PopItem, ReleaseOne, CleanOne, DtorApply, DtorEnabled, HandleApply,
         ClientApply, ClientEnabled, TaskApply, TaskEnabled, Ready, Dies, Written;
    match a
    case BeginLoad(c, origin, plugin, available) => BeginIsSilent(s, c, origin, plugin, available);
    case Pop(w) => ControlIsSilent(s, w, 0);
    case ReleaseChild(id) => ControlIsSilent(s, 0, id);
    case CleanChild(id) => ControlIsSilent(s, 0, id);
    case HandleEvent =>
      if s.monitor.batch != [] {
        MonitorSays(s);
      }
    case _ =>
  }

  /** The frame a step adds, if it is a status, comes from the client's own query. */
  lemma StatusIsClients(s: State, a: Action)
    requires Inv(s) && Enabled(s, a) && !Apply(s, a).exhausted
    requires |Apply(s, a).wire| > |s.wire| && Apply(s, a).wire[|s.wire|].Status?
    ensures a.ClientStep? && ClientEnabled(s, a.c) && Apply(s, a) == ClientApply(s, a.c)
    ensures InQuery(s.clients[a.c]) && Said(s.tables, s.clients[a.c]) == Some(Apply(s, a).wire[|s.wire|])
  {
    hide Inv, Apply, Enabled, ClientApply, ClientEnabled, Onward;
    if a.TaskStep? {
      StepSplits(s, a);
    } else if a.ClientStep? {
      OwnStep(s, a, a.c);
      ClientSays(s, a.c);
    } else {
      OthersSay(s, a);
    }
  }

  // ---------- what a status says ----------

  /** The load a query that has looked speaks of. */
  ghost predicate Named(s: State, asked: Option<nat>, about: Option<nat>, id: nat) {
    if about.Some? then id == about.value
    else if asked.Some? && asked.value in s.tables.seqToId then
      id in s.loads && s.loads[id].origin == Socket(asked.value)
    else id == 0
  }

  /** What the tables, the process and the child say at the moment of the answer. */
  ghost predicate TrueReport(s: State, k: Client, r: Report) {
    match r.phase
    case Queued =>
      && k.QueryPending? && r.id in s.tables.pending && r.id in s.loads && s.tables.pending[r.id].pid == 0
      && r.pid == 0 && !r.cancellable && r.plugin == s.loads[r.id].plugin && r.name == ""
    case Constructing =>
      && k.QueryPending? && r.id in s.tables.pending && r.id in s.loads
      && r.pid == s.tables.pending[r.id].pid == s.loads[r.id].pid > 0
      && r.cancellable && r.plugin == s.loads[r.id].plugin && r.name == ""
    case Loaded =>
      && k.QueryChildren? && r.id in s.tables.children && r.id in s.loads
      && r.pid == s.loads[r.id].pid > 0 && s.loads[r.id].line == SaysOk(r.name)
      && r.cancellable && r.plugin == ""
    case Unknown =>
      && k.QueryUnknown? && r.pid == 0 && !r.cancellable && r.plugin == "" && r.name == ""
      && (k.known ==> r.id in s.loads && Quiet(s.loads[r.id]))
  }

  /**
   * Every status sent in any reachable state answers a query, with what it asked by, and its phase is true: `queued`
   * only for a pending load with no process on record, `constructing` only for one with the process on record,
   * `loaded` only for a registered child under the name it wrote, `unknown` only at the end of a query, and for a known
   * load only if nothing runs and nothing will be forked.
   */
  lemma StatusIsTrue(s: State, a: Action, asked: Option<nat>, r: Report)
    requires Reachable(s) && Enabled(s, a) && !Apply(s, a).exhausted
    requires |Apply(s, a).wire| > |s.wire| && Apply(s, a).wire[|s.wire|] == Status(asked, r)
    ensures a.ClientStep? && a.c in s.clients && InQuery(s.clients[a.c]) && s.clients[a.c].asked == asked
    ensures TrueReport(s, s.clients[a.c], r)
    ensures if s.clients[a.c].QueryPending? then Named(s, asked, s.clients[a.c].about, r.id)
            else r.id == s.clients[a.c].id
  {
    ReachableInv(s);
    StatusIsClients(s, a);
    hide Reachable, Enabled, Apply, ClientApply, Inv, Named, TrueReport;
    ReportIsTrue(s, a.c, r);
  }

  lemma ReportIsTrue(s: State, c: nat, r: Report)
    requires Inv(s) && c in s.clients && InQuery(s.clients[c])
    requires Said(s.tables, s.clients[c]) == Some(Status(s.clients[c].asked, r))
    ensures TrueReport(s, s.clients[c], r)
    ensures if s.clients[c].QueryPending? then Named(s, s.clients[c].asked, s.clients[c].about, r.id)
            else r.id == s.clients[c].id
  {
    hide LoadsInv, CarriedInv, QueueInv, WorkersInv, MonitorInv, DtorInv, WireInv, Sound, Quiet;
    var k := s.clients[c];
    match k
    case QueryPending(asked, about) =>
      LoadIsSound(s, r.id);
      PendingIsTruthful(ViewOf(s, r.id), s.monitorOn);
    case QueryChildren(_, id, _) =>
      LoadIsSound(s, id);
      ChildIsTruthful(ViewOf(s, id), s.monitorOn);
    case QueryUnknown(_, _, _) => assert ClientSound(s, c, k);
  }

  lemma PendingIsTruthful(v: View, monitorOn: bool)
    requires Sound(v, monitorOn) && v.pending.Some?
    ensures var p := v.pending.value;
            && p.phase == (if p.pid == 0 then Queued else Constructing) && p.plugin == v.load.plugin
            && (p.pid > 0 ==> p.pid == v.load.pid)
  {
    hide InStage;
  }

  lemma ChildIsTruthful(v: View, monitorOn: bool)
    requires Sound(v, monitorOn) && v.child.Some?
    ensures v.load.pid == v.child.value.pid > 0 && v.load.line == SaysOk(v.child.value.name)
  {
    hide Truthful;
  }

  // ---------- where an `unknown` comes from ----------

  /** At step `m` client `c` looked at the pending loads for `id` and did not find it. */
  ghost predicate MissedPending(ss: seq<State>, acts: seq<Action>, m: nat, c: nat, asked: Option<nat>, id: nat,
                                known: bool)
    requires m < |ss| && m < |acts|
  {
    && acts[m] == ClientStep(c) && c in ss[m].clients
    && ss[m].clients[c].QueryPending? && ss[m].clients[c].asked == asked
    && Named(ss[m], asked, ss[m].clients[c].about, id)
    && (id == 0 || id !in ss[m].tables.pending) && (known <==> id in ss[m].loads)
  }

  /** At step `n` it looked among the children. */
  ghost predicate MissedChild(ss: seq<State>, acts: seq<Action>, n: nat, c: nat, asked: Option<nat>, id: nat,
                              known: bool)
    requires n < |ss| && n < |acts|
  {
    && acts[n] == ClientStep(c) && c in ss[n].clients && ss[n].clients[c] == QueryChildren(asked, id, known)
    && (id == 0 || id !in ss[n].tables.children)
  }

  lemma IntoChildren(s: State, c: nat, asked: Option<nat>, id: nat, known: bool)
    requires IdsInv(s) && ClientEnabled(s, c) && Led(s, s.clients[c]) == QueryChildren(asked, id, known)
    ensures s.clients[c].QueryPending? && s.clients[c].asked == asked && Named(s, asked, s.clients[c].about, id)
    ensures (id == 0 || id !in s.tables.pending) && (known <==> id in s.loads)
  {
  }

  lemma IntoUnknown(s: State, c: nat, asked: Option<nat>, id: nat, known: bool)
    requires ClientEnabled(s, c) && Led(s, s.clients[c]) == QueryUnknown(asked, id, known)
    ensures s.clients[c] == QueryChildren(asked, id, known) && (id == 0 || id !in s.tables.children)
  {
  }

  lemma BeginLeads(s: State, a: Action, c: nat)
    requires Enabled(s, a) && Begins(a, c)
    ensures c in Apply(s, a).clients && !Apply(s, a).clients[c].QueryChildren? && !Apply(s, a).clients[c].QueryUnknown?
  {
    if a.BeginLoad? {
      BeginIsApply(s, a);
      hide Apply;
      BeginLoadLeads(s, c, a.origin, a.plugin, a.available);
    } else {
      hide BeginLoadApply, Onward;
    }
  }

  lemma BeginLoadLeads(s: State, c: nat, origin: Origin, plugin: string, available: bool)
    ensures var s' := BeginLoadApply(s, c, origin, plugin, available);
            && c in s'.clients
            && s'.clients[c] == (if available && s.tables.counter != 0 then Reserved(origin, plugin, s.tables.counter)
                                 else if origin.Socket? then Rejecting(origin.seqNo) else Idle)
  {
    hide Onward, OwnClient;
  }

  lemma {:induction false} ChildrenTraced(
    ss: seq<State>, acts: seq<Action>, k: nat, c: nat, asked: Option<nat>, id: nat, known: bool)
      returns (m: nat)
    requires Run(ss, acts) && k <= |acts| && !ss[k].exhausted
    requires c in ss[k].clients && ss[k].clients[c] == QueryChildren(asked, id, known)
    ensures m < k && MissedPending(ss, acts, m, c, asked, id, known)
  {
    hide Inv, Apply, Enabled, ClientEnabled, ClientApply, Begins, Named, Led;
    assert k > 0;
    var s, a := ss[k - 1], acts[k - 1];
    NotYetExhausted(ss, acts, k - 1, k);
    if a == ClientStep(c) {
      OwnStep(s, a, c);
      RunKeepsInv(ss, acts, k - 1);
      ClientLeads(s, c);
      IdsHold(s);
      IntoChildren(s, c, asked, id, known);
      m := k - 1;
    } else {
      LeavesQuery(s, a, c);
      m := ChildrenTraced(ss, acts, k - 1, c, asked, id, known);
    }
  }

  lemma IdsHold(s: State)
    requires Inv(s)
    ensures IdsInv(s)
  {
  }

  lemma LeavesQuery(s: State, a: Action, c: nat)
    requires Enabled(s, a) && a != ClientStep(c) && c in Apply(s, a).clients
    requires Apply(s, a).clients[c].QueryChildren? || Apply(s, a).clients[c].QueryUnknown?
    ensures c in s.clients && s.clients[c] == Apply(s, a).clients[c]
  {
    hide Apply, Enabled, Begins;
    if Begins(a, c) {
      BeginLeads(s, a, c);
    } else {
      SameClients(s, a);
      OthersLeaveClients(s, a, c);
    }
  }

  lemma SameClients(s: State, a: Action)
    requires Enabled(s, a)
    ensures Apply(s, a).clients.Keys == s.clients.Keys
  {
    hide Apply, Enabled;
    if a.ClientStep? {
      OwnStep(s, a, a.c);
      ClientKnown(s, a.c);
    } else if a.BeginLoad? || a.BeginQuery? || a.BeginCancel? || a.BeginUnload? {
      SameAtBegin(s, a);
    } else {
      RestLeaveClients(s, a);
    }
  }

  lemma ClientKnown(s: State, c: nat)
    requires ClientEnabled(s, c)
    ensures ClientApply(s, c).clients.Keys == s.clients.Keys
  {
    hide ClientApply, Onward;
  }

  lemma SameAtBegin(s: State, a: Action)
    requires Enabled(s, a) && (a.BeginLoad? || a.BeginQuery? || a.BeginCancel? || a.BeginUnload?)
    ensures Apply(s, a).clients.Keys == s.clients.Keys
  {
    hide Onward, BeginLoadApply;
  }

  lemma {:induction false} UnknownTraced(ss: seq<State>, acts: seq<Action>, k: nat, c: nat, asked: Option<nat>, id: nat,
                                         known: bool)
      returns (m: nat, n: nat)
    requires Run(ss, acts) && k <= |acts| && !ss[k].exhausted
    requires c in ss[k].clients && ss[k].clients[c] == QueryUnknown(asked, id, known)
    ensures m < n < k && MissedPending(ss, acts, m, c, asked, id, known)
    ensures MissedChild(ss, acts, n, c, asked, id, known)
  {
    hide Inv, Apply, Enabled, ClientEnabled, ClientApply, Begins, MissedPending, Led;
    assert k > 0;
    var s, a := ss[k - 1], acts[k - 1];
    NotYetExhausted(ss, acts, k - 1, k);
    if a == ClientStep(c) {
      OwnStep(s, a, c);
      ClientLeads(s, c);
      IntoUnknown(s, c, asked, id, known);
      n := k - 1;
      m := ChildrenTraced(ss, acts, n, c, asked, id, known);
    } else {
      LeavesQuery(s, a, c);
      m, n := UnknownTraced(ss, acts, k - 1, c, asked, id, known);
    }
  }

  /**
   * In every run, a status `unknown` comes after its query has looked in both tables and missed: its id was not pending
   * when it looked at the pending loads and not registered when it looked at the children, in this order.
   */
  lemma UnknownHasLooked(ss: seq<State>, acts: seq<Action>, k: nat, asked: Option<nat>, r: Report)
      returns (m: nat, n: nat, known: bool)
    requires Run(ss, acts) && k < |acts| && !ss[k + 1].exhausted
    requires |ss[k].wire| < |ss[k + 1].wire| && ss[k + 1].wire[|ss[k].wire|] == Status(asked, r) && r.phase == Unknown
    ensures acts[k].ClientStep? && m < n < k && MissedPending(ss, acts, m, acts[k].c, asked, r.id, known)
    ensures MissedChild(ss, acts, n, acts[k].c, asked, r.id, known)
    ensures known ==> r.id in ss[k].loads && Quiet(ss[k].loads[r.id])
  {
    hide Inv, Apply, Enabled, ClientEnabled, ClientApply, Begins, MissedPending, MissedChild, Reachable, Quiet, Named;
    NotYetExhausted(ss, acts, k, k + 1);
    RunReaches(ss, acts, k);
    StatusIsTrue(ss[k], acts[k], asked, r);
    var c := acts[k].c;
    known := ss[k].clients[c].known;
    m, n := UnknownTraced(ss, acts, k, c, asked, r.id, known);
  }
}

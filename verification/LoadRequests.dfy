/** What becomes of each request: loads are answered once and served in order, unloads are carried out or refused. */
module LoadRequests {
  import opened Common
  import opened LoadTables
  import opened LoadProtocol
  import opened LoadInvariant
  import opened LoadTaskSteps
  import opened LoadTheorems
  import opened LoadAnswers
  import opened LoadReports

  // ---------- the frames a client's own steps send ----------

  ghost function Replies(ss: seq<State>, acts: seq<Action>, c: nat, i: nat, j: nat): seq<Msg>
    requires i <= j <= |acts| && |ss| == |acts| + 1
  {
    if i == j then []
    else
      Replies(ss, acts, c, i, j - 1)
      + (if acts[j - 1] == ClientStep(c) && |ss[j - 1].wire| <= |ss[j].wire|
         then ss[j].wire[|ss[j - 1].wire|..] else [])
  }

  lemma RepliesGrow(ss: seq<State>, acts: seq<Action>, c: nat, i: nat, j: nat, m: Option<Msg>)
    requires i < j <= |acts| && |ss| == |acts| + 1
    requires acts[j - 1] == ClientStep(c) && ss[j].wire == Written(ss[j - 1].wire, m, true)
    ensures Replies(ss, acts, c, i, j) == Replies(ss, acts, c, i, j - 1) + (if m.Some? then [m.value] else [])
  {
    assert ss[j].wire[|ss[j - 1].wire|..] == if m.Some? then [m.value] else [];
  }

  lemma RepliesStay(ss: seq<State>, acts: seq<Action>, c: nat, i: nat, j: nat)
    requires i < j <= |acts| && |ss| == |acts| + 1 && acts[j - 1] != ClientStep(c)
    ensures Replies(ss, acts, c, i, j) == Replies(ss, acts, c, i, j - 1)
  {
  }

  // ---------- loads over the socket ----------

  /** The load asked for cannot be had: no such plugin, or the counter has come to zero. */
  predicate Turned(s: State, available: bool) {
    !available || s.tables.counter == 0
  }

  /** Where a load request with number `n` stands, and what its client has sent for it; `id` is the id it got. */
  ghost predicate LoadStands(k: Client, sent: seq<Msg>, n: nat, id: nat, turned: bool) {
    match k
    case Rejecting(q) => turned && q == n && sent == []
    case Reserved(origin, _, got) => !turned && origin == Socket(n) && got == id && sent == []
    case Announce(q, got) => !turned && q == n && got == id && sent == []
    case Submit(got) => !turned && got == id && sent == [Accepted(n, id)]
    case Idle => sent == [if turned then Rejected(n) else Accepted(n, id)]
    case _ => false
  }

  /**
   * In every run with the channel open a load request over the socket is under way until its client has sent exactly
   * one of `accepted`, with the id drawn, and `rejected`, both with the number asked by: `rejected` exactly if the
   * plugin was not available or the counter drew zero.
   */
  lemma {:induction false} LoadIsAnsweredOnce(ss: seq<State>, acts: seq<Action>, c: nat, n: nat, plugin: string,
                                              available: bool, i: nat, j: nat)
    requires Run(ss, acts) && i < j <= |acts| && ss[j].active
    requires acts[i] == BeginLoad(c, Socket(n), plugin, available)
    requires forall k | i < k < j :: c in ss[k].clients && !ss[k].clients[c].Idle?
    ensures c in ss[j].clients
    ensures LoadStands(ss[j].clients[c], Replies(ss, acts, c, i + 1, j), n, ss[i].tables.counter,
                       Turned(ss[i], available))
  {
    hide Apply, Enabled, Init, LoadStands, Replies;
    if j == i + 1 {
      BeginIsApply(ss[i], acts[i]);
      BeginLoadLeads(ss[i], c, Socket(n), plugin, available);
      StandsAtFirst(ss, acts, c, i, n, plugin, available);
    } else {
      var s, a := ss[j - 1], acts[j - 1];
      WireOnlyGrows(ss, acts, j - 1, j);
      LoadIsAnsweredOnce(ss, acts, c, n, plugin, available, i, j - 1);
      if a == ClientStep(c) {
        OwnStep(s, a, c);
        ClientSays(s, c);
        ClientLeads(s, c);
        RepliesGrow(ss, acts, c, i + 1, j, Said(s.tables, s.clients[c]));
        LoadStandsOn(s, s.clients[c], Replies(ss, acts, c, i + 1, j - 1), n, ss[i].tables.counter,
                     Turned(ss[i], available));
      } else {
        RepliesStay(ss, acts, c, i + 1, j);
        OthersLeaveClients(s, a, c);
      }
    }
  }

  lemma StandsAtFirst(ss: seq<State>, acts: seq<Action>, c: nat, i: nat, n: nat, plugin: string, available: bool)
    requires i < |acts| && |ss| == |acts| + 1 && c in ss[i + 1].clients
    requires ss[i + 1].clients[c] == if available && ss[i].tables.counter != 0
                                     then Reserved(Socket(n), plugin, ss[i].tables.counter) else Rejecting(n)
    ensures LoadStands(ss[i + 1].clients[c], Replies(ss, acts, c, i + 1, i + 1), n, ss[i].tables.counter,
                       Turned(ss[i], available))
  {
  }

  lemma LoadStandsOn(s: State, k: Client, sent: seq<Msg>, n: nat, id: nat, turned: bool)
    requires LoadStands(k, sent, n, id, turned) && !k.Idle?
    ensures var m := Said(s.tables, k);
            LoadStands(Led(s, k), sent + (if m.Some? then [m.value] else []), n, id, turned)
  {
  }

  /** The answer stands on the wire, sent when `from` frames had been. */
  ghost predicate SentSince(s: State, from: nat, m: Msg) {
    exists k :: from <= k < |s.wire| && s.wire[k] == m
  }

  lemma SentStays(s: State, s': State, from: nat, m: Msg)
    requires SentSince(s, from, m) && s.wire <= s'.wire
    ensures SentSince(s', from, m)
  {
    var k :| from <= k < |s.wire| && s.wire[k] == m;
    assert s'.wire[k] == m;
  }

  lemma JustSent(s: State, s': State, from: nat, m: Msg)
    requires s'.wire == s.wire + [m] && from <= |s.wire|
    ensures SentSince(s', from, m)
  {
    assert s'.wire[|s.wire|] == m;
  }

  ghost predicate Loading(k: Client, n: nat, id: nat, turned: bool) {
    if turned then k == Rejecting(n)
    else k == Announce(n, id) || (k.Reserved? && k.origin == Socket(n) && k.id == id)
  }

  /** So at any later moment it is still to be answered, or its answer stands on the wire. */
  lemma {:induction false} LoadIsAnswered(ss: seq<State>, acts: seq<Action>, c: nat, n: nat, plugin: string,
                                          available: bool, i: nat, j: nat)
    requires Run(ss, acts) && i < j <= |acts| && ss[j].active
    requires acts[i] == BeginLoad(c, Socket(n), plugin, available)
    ensures var id, turned := ss[i].tables.counter, Turned(ss[i], available);
            || (c in ss[j].clients && Loading(ss[j].clients[c], n, id, turned))
            || SentSince(ss[j], |ss[i].wire|, if turned then Rejected(n) else Accepted(n, id))
  {
    hide Apply, Enabled, Init, SentSince;
    var id, turned := ss[i].tables.counter, Turned(ss[i], available);
    var answer := if turned then Rejected(n) else Accepted(n, id);
    if j == i + 1 {
      BeginIsApply(ss[i], acts[i]);
      BeginLoadLeads(ss[i], c, Socket(n), plugin, available);
    } else {
      var s, a := ss[j - 1], acts[j - 1];
      WireOnlyGrows(ss, acts, j - 1, j);
      WireOnlyGrows(ss, acts, i, j - 1);
      LoadIsAnswered(ss, acts, c, n, plugin, available, i, j - 1);
      if SentSince(s, |ss[i].wire|, answer) {
        SentStays(s, ss[j], |ss[i].wire|, answer);
      } else if a == ClientStep(c) {
        OwnStep(s, a, c);
        ClientSays(s, c);
        ClientLeads(s, c);
        if s.clients[c].Rejecting? || s.clients[c].Announce? {
          JustSent(s, ss[j], |ss[i].wire|, answer);
        }
      } else {
        OthersLeaveClients(s, a, c);
      }
    }
  }

  /** And nothing else is: a `rejected` answers such a request that was turned away. */
  lemma RejectedIsTurned(ss: seq<State>, acts: seq<Action>, k: nat, n: nat) returns (i: nat)
    requires Run(ss, acts) && k < |acts| && !ss[k + 1].exhausted
    requires |ss[k].wire| < |ss[k + 1].wire| && ss[k + 1].wire[|ss[k].wire|] == Rejected(n)
    ensures i < k && acts[k].ClientStep? && acts[i].BeginLoad? && acts[i].c == acts[k].c
    ensures acts[i].origin == Socket(n) && Turned(ss[i], acts[i].available)
  {
    hide Inv, Apply, Enabled, ClientEnabled, ClientApply, Init;
    NotYetExhausted(ss, acts, k, k + 1);
    RunKeepsInv(ss, acts, k);
    RejectedIsClients(ss[k], acts[k], n);
    i := RejectingTraced(ss, acts, k, acts[k].c, n);
  }

  lemma RejectedIsClients(s: State, a: Action, n: nat)
    requires Inv(s) && Enabled(s, a) && !Apply(s, a).exhausted
    requires |Apply(s, a).wire| > |s.wire| && Apply(s, a).wire[|s.wire|] == Rejected(n)
    ensures a.ClientStep? && a.c in s.clients && s.clients[a.c] == Rejecting(n)
  {
    hide Inv, Apply, Enabled, ClientApply, Onward;
    if a.TaskStep? {
      StepSplits(s, a);
    } else if a.ClientStep? {
      OwnStep(s, a, a.c);
      ClientSays(s, a.c);
    } else {
      OthersSay(s, a);
    }
  }

  lemma {:induction false} RejectingTraced(ss: seq<State>, acts: seq<Action>, k: nat, c: nat, n: nat) returns (i: nat)
    requires Run(ss, acts) && k <= |acts| && c in ss[k].clients && ss[k].clients[c] == Rejecting(n)
    ensures i < k && acts[i].BeginLoad? && acts[i].c == c
    ensures acts[i].origin == Socket(n) && Turned(ss[i], acts[i].available)
  {
    hide Apply, Enabled, ClientEnabled, ClientApply;
    assert k > 0;
    var s, a := ss[k - 1], acts[k - 1];
    if a == ClientStep(c) {
      OwnStep(s, a, c);
      ClientLeads(s, c);
    }
    SameClients(s, a);
    if Begins(a, c) {
      BeginsRejecting(s, a, c);
      i := k - 1;
    } else {
      OthersLeaveClients(s, a, c);
      i := RejectingTraced(ss, acts, k - 1, c, n);
    }
  }

  lemma BeginsRejecting(s: State, a: Action, c: nat)
    requires Enabled(s, a) && Begins(a, c) && c in Apply(s, a).clients && Apply(s, a).clients[c].Rejecting?
    ensures a.BeginLoad? && a.origin == Socket(Apply(s, a).clients[c].seqNo) && Turned(s, a.available)
  {
    if a.BeginLoad? {
      BeginIsApply(s, a);
      hide Apply;
      BeginLoadLeads(s, c, a.origin, a.plugin, a.available);
    } else {
      hide BeginLoadApply, Onward;
    }
  }

  // ---------- a cancel confirmed was asked for ----------

  /** `a` is the step of a cancel of `id` that finds it pending and sets the flag. */
  ghost predicate Flags(s: State, a: Action, id: nat) {
    a.ClientStep? && a.c in s.clients && s.clients[a.c].CancelFlag? && s.clients[a.c].id == id && id in s.tables.pending
  }

  ghost predicate Unflagged(s: State, id: nat) {
    && !Flagged(s.tables, id)
    && (id in s.loads && s.loads[id].task.Running? ==>
          && !s.loads[id].task.pc.SendCancelled?
          && (s.loads[id].task.pc.CheckOk? ==> !s.loads[id].task.pc.cancelled)
          && (s.loads[id].task.pc.SendFailed? ==> !s.loads[id].task.pc.cancelled))
    && LoadFailed(id, true) !in s.wire
  }

  /** A load nobody has cancelled is never reported as cancelled. */
  lemma {:induction false} ConfirmedWasAsked(ss: seq<State>, acts: seq<Action>, id: nat, j: nat)
    requires Run(ss, acts) && j <= |acts| && !ss[j].exhausted
    requires forall m | 0 <= m < j :: !Flags(ss[m], acts[m], id)
    ensures Unflagged(ss[j], id)
  {
    hide Inv, Apply, Enabled, Unflagged, Flags;
    if j == 0 {
      StartsUnflagged(ss[0], id);
    } else {
      NotYetExhausted(ss, acts, j - 1, j);
      ConfirmedWasAsked(ss, acts, id, j - 1);
      RunKeepsInv(ss, acts, j - 1);
      UnflaggedStays(ss[j - 1], acts[j - 1], id);
    }
  }

  lemma StartsUnflagged(s: State, id: nat)
    requires Init(s)
    ensures Unflagged(s, id)
  {
  }

  lemma UnflaggedStays(s: State, a: Action, id: nat)
    requires Inv(s) && Unflagged(s, id) && Enabled(s, a) && !Apply(s, a).exhausted && !Flags(s, a, id)
    ensures Unflagged(Apply(s, a), id)
  {
    hide Inv, Apply, Enabled, Onward, Stays, ClientApply, Written, Sound, Answered, Evolves;
    if a.TaskStep? {
      TaskIsEnabled(s, a);
      StepIsTask(s, a);
      TaskStaysUnflagged(s, a.id, a.choice, id);
    } else if a.ClientStep? {
      OwnStep(s, a, a.c);
      ClientSays(s, a.c);
      ClientFlagsOwn(s, a.c, id);
      StepSplits(s, a);
      NewIsUnflagged(s, a, id);
      WrittenHolds(s.wire, Said(s.tables, s.clients[a.c]), s.active, LoadFailed(id, true));
    } else {
      OthersSay(s, a);
      OthersSpareTables(s, a);
      StepSplits(s, a);
      NewIsUnflagged(s, a, id);
      CrashIsNoFailure(s.wire, Apply(s, a).wire, s.active, id);
    }
  }

  lemma WrittenHolds(wire: seq<Msg>, m: Option<Msg>, active: bool, x: Msg)
    ensures x in Written(wire, m, active) <==> x in wire || (m == Some(x) && active)
  {
  }

  lemma CrashIsNoFailure(wire: seq<Msg>, wire': seq<Msg>, active: bool, id: nat)
    requires wire' == wire || exists k, pid :: wire' == Written(wire, Some(Crashed(k, pid)), active)
    ensures LoadFailed(id, true) in wire' <==> LoadFailed(id, true) in wire
  {
  }

  lemma TaskStaysUnflagged(s: State, k: nat, choice: Choice, id: nat)
    requires Unflagged(s, id) && TaskEnabled(s, k, choice)
    ensures Unflagged(TaskApply(s, k, choice), id)
  {
    hide TaskApply, Section, NextLoad, FrameOf, Onward, Stays, Flagged;
    ShapeOfStep(s, k, choice);
    SectionEntry(s.tables, k, s.loads[k].task.pc);
    var frame := FrameOf(k, s.loads[k].task.pc, choice);
    if k == id {
      SectionFlagsNobody(s.tables, id, s.loads[id].task.pc);
      UnflaggedNext(s.loads[id], id, choice, s.ok, s.monitorOn, Here(s));
    } else {
      SameFlag(s.tables, TaskApply(s, k, choice).tables, k, id);
      FramesAreOwn(k, s.loads[k].task.pc, choice);
    }
  }

  lemma SameFlag(t: Tables, t': Tables, k: nat, id: nat)
    requires OnlyEntry(t, t', k) && k != id
    ensures Flagged(t', id) <==> Flagged(t, id)
  {
    assert Lookup(t'.pending, id) == Lookup(t.pending, id);
  }

  lemma TaskIsEnabled(s: State, a: Action)
    requires Enabled(s, a) && a.TaskStep?
    ensures TaskEnabled(s, a.id, a.choice)
  {
  }

  lemma FramesAreOwn(id: nat, pc: Pc, choice: Choice)
    ensures var frame := FrameOf(id, pc, choice); frame.Some? && frame.value.LoadFailed? ==> frame.value.id == id
  {
  }

  lemma SectionFlagsNobody(t: Tables, id: nat, pc: Pc)
    requires !Flagged(t, id)
    ensures !Flagged(Section(t, id, pc), id)
  {
  }

  lemma UnflaggedNext(l: Load, id: nat, choice: Choice, ok: bool, monitorOn: bool, here: Option<nat>)
    requires l.task.Running? && !l.task.pc.SendCancelled?
    requires l.task.pc.CheckOk? || l.task.pc.SendFailed? ==> !l.task.pc.cancelled
    ensures var task, frame := NextLoad(l, choice, ok, false, monitorOn, here).task, FrameOf(id, l.task.pc, choice);
            && (task.Running? ==> !task.pc.SendCancelled?)
            && (task.Running? && (task.pc.CheckOk? || task.pc.SendFailed?) ==> !task.pc.cancelled)
            && frame != Some(LoadFailed(id, true))
  {
  }

  /** Only a cancel's first section sets a flag. */
  lemma ClientFlagsOwn(s: State, c: nat, id: nat)
    requires ClientEnabled(s, c) && !Flagged(s.tables, id) && !Flags(s, ClientStep(c), id)
    ensures !Flagged(ClientApply(s, c).tables, id)
  {
    var k := s.clients[c];
    hide Onward, Moves, OwnClient, AskPending, AskChildren, AnswerUnknown, TurnAway, InsertLoad, AnnounceLoad,
         SubmitLoad, FlagLoad, KillVictim, LookAgain, CheckUnload, UnloadLoad, ReportUnload;
    if k.CancelFlag? {
      FlaggingIsOwn(s, c, id, k.id, k.reason);
    } else if k.Reserved? {
      InsertingFlagsNobody(s, c, k.origin, k.plugin, k.id, id);
    } else {
      SilentSectionsFlagNobody(s, c);
    }
  }

  lemma SendShape(s: State, m: Msg)
    ensures Send(s, m) == s.(wire := Send(s, m).wire)
  {
  }

  lemma PendingShape(s: State, c: nat, asked: Option<nat>, about: Option<nat>)
    ensures var s' := AskPending(s, c, asked, about); s' == s.(clients := s'.clients, wire := s'.wire)
  {
    hide Onward, Moves, OwnClient, PendingReport, Resolve, Send;
    var hit := PendingReport(s.tables, Resolve(s.tables, asked, about));
    if hit.Some? {
      SendShape(s, Status(asked, hit.value));
    }
  }

  lemma ChildrenShape(s: State, c: nat, asked: Option<nat>, id: nat, known: bool)
    ensures var s' := AskChildren(s, c, asked, id, known); s' == s.(clients := s'.clients, wire := s'.wire)
  {
    hide Onward, Moves, OwnClient, ChildReport, Send;
    var hit := ChildReport(s.tables, id);
    if hit.Some? {
      SendShape(s, Status(asked, hit.value));
    }
  }

  lemma EndingShape(s: State, c: nat, asked: Option<nat>, id: nat, n: nat)
    ensures var s' := AnswerUnknown(s, c, asked, id); s' == s.(clients := s'.clients, wire := s'.wire)
    ensures var s' := TurnAway(s, c, n); s' == s.(clients := s'.clients, wire := s'.wire)
  {
    hide Onward, Moves, OwnClient, Send;
    SendShape(s, Status(asked, NothingReport(id)));
    SendShape(s, Rejected(n));
  }

  /** Rejections and the sections of a query move their client and the wire, and nothing else. */
  lemma AskingShape(s: State, c: nat)
    requires ClientEnabled(s, c)
    requires var k := s.clients[c]; k.Rejecting? || k.QueryPending? || k.QueryChildren? || k.QueryUnknown?
    ensures var s' := ClientApply(s, c); s' == s.(clients := s'.clients, wire := s'.wire)
  {
    hide Onward, Moves, OwnClient, AskPending, AskChildren, AnswerUnknown, TurnAway;
    match s.clients[c]
    case Rejecting(n) => EndingShape(s, c, None, 0, n);
    case QueryPending(asked, about) => PendingShape(s, c, asked, about);
    case QueryChildren(asked, id, known) => ChildrenShape(s, c, asked, id, known);
    case QueryUnknown(asked, id, _) => EndingShape(s, c, asked, id, 0);
  }

  lemma LoadingFlagsNobody(s: State, c: nat, k: Client)
    ensures k.Announce? && k.id in s.loads ==> AnnounceLoad(s, c, k.seqNo, k.id).tables == s.tables
    ensures k.Submit? && k.id in s.loads ==> SubmitLoad(s, c, k.id).tables == s.tables
    ensures k.CancelKill? ==> KillVictim(s, c, k.pid).tables == s.tables
    ensures k.CancelRecheck? ==> LookAgain(s, c, k.id).tables == s.tables
  {
    hide Onward, Moves, OwnClient, Kill;
  }

  lemma UnloadingFlagsNobody(s: State, c: nat, k: Client)
    ensures k.UnloadPending? ==> CheckUnload(s, c, k.id).tables == s.tables
    ensures k.UnloadChild? && (k.id in s.tables.children ==> k.id in s.loads) ==>
              UnloadLoad(s, c, k.id).tables.pending == s.tables.pending
    ensures k.UnloadSend? && k.id in s.loads ==> ReportUnload(s, c, k.id).tables == s.tables
  {
    hide Onward, Moves, OwnClient, CleanUp;
  }

  lemma SilentSectionsFlagNobody(s: State, c: nat)
    requires ClientEnabled(s, c) && !s.clients[c].Reserved? && !s.clients[c].CancelFlag?
    ensures ClientApply(s, c).tables.pending == s.tables.pending
  {
    hide Onward, Moves, OwnClient, AskPending, AskChildren, AnswerUnknown, TurnAway, InsertLoad, AnnounceLoad,
         SubmitLoad, FlagLoad, KillVictim, LookAgain, CheckUnload, UnloadLoad, ReportUnload;
    var k := s.clients[c];
    if k.Rejecting? || k.QueryPending? || k.QueryChildren? || k.QueryUnknown? {
      AskingShape(s, c);
    } else {
      LoadingFlagsNobody(s, c, k);
      UnloadingFlagsNobody(s, c, k);
    }
  }

  lemma FlaggingIsOwn(s: State, c: nat, id: nat, k: nat, reason: string)
    requires !Flagged(s.tables, id) && (k == id ==> id !in s.tables.pending)
    ensures !Flagged(FlagLoad(s, c, k, reason).tables, id)
  {
    hide Onward, Moves, OwnClient, Victim;
  }

  lemma InsertingFlagsNobody(s: State, c: nat, origin: Origin, plugin: string, k: nat, id: nat)
    requires !Flagged(s.tables, id)
    ensures !Flagged(InsertLoad(s, c, origin, plugin, k).tables, id)
  {
    hide Onward, OwnClient, NewLoad;
  }

  lemma ControlFlagsNobody(s: State, w: nat, id: nat)
    ensures s.queue != [] && s.queue[0] in s.loads ==> PopItem(s, w).tables == s.tables
    ensures id in s.loads && id in s.stopping ==> ReleaseOne(s, id).tables == s.tables
    ensures id in s.loads && id in s.tables.children ==> CleanOne(s, id).tables.pending == s.tables.pending
    ensures id in s.loads && id in s.tables.children ==> BuryChild(s, id).tables.pending == s.tables.pending
  {
    hide Onward, Stays, CleanUp, Close, Unlink;
  }

  lemma MonitorFlagsNobody(s: State)
    requires s.monitor.Handling? && s.monitor.batch != []
    requires s.monitor.batch[0] in s.tables.children ==> s.monitor.batch[0] in s.loads
    ensures HandleApply(s).tables.pending == s.tables.pending
  {
    hide Onward, Stays, BuryChild;
    ControlFlagsNobody(s, 0, s.monitor.batch[0]);
  }

  lemma DrawFlagsNobody(s: State, c: nat, origin: Origin, plugin: string, available: bool)
    ensures BeginLoadApply(s, c, origin, plugin, available).tables.pending == s.tables.pending
  {
    hide Onward, OwnClient;
  }

  lemma BeginsSpareTables(s: State, a: Action)
    requires Enabled(s, a) && (a.BeginLoad? || a.BeginQuery? || a.BeginCancel? || a.BeginUnload?)
    ensures Apply(s, a).tables.pending == s.tables.pending && Apply(s, a).queue == s.queue
  {
    hide Onward, OwnClient, BeginLoadApply;
    if a.BeginLoad? {
      DrawFlagsNobody(s, a.c, a.origin, a.plugin, a.available);
      DrawLeavesQueue(s, a.c, a.origin, a.plugin, a.available);
    }
  }

  lemma DtorSparesTables(s: State, a: Action)
    requires Enabled(s, a) && (a.DtorStep? || a.Collect? || a.ForceKill? || a.ReleaseChild? || a.CleanChild?)
    ensures Apply(s, a).tables.pending == s.tables.pending && Apply(s, a).queue == s.queue
  {
    hide Onward, Stays, ReleaseOne, CleanOne, DtorApply, DtorEnabled;
    match a
    case DtorStep =>
    case Collect(id) =>
    case ForceKill(id) =>
    case ReleaseChild(id) =>
      ControlFlagsNobody(s, 0, id);
      ControlLeavesQueue(s, id);
    case CleanChild(id) =>
      ControlFlagsNobody(s, 0, id);
      ControlLeavesQueue(s, id);
  }

  lemma MonitorSparesTables(s: State, a: Action)
    requires Enabled(s, a) && (a.Fetch? || a.HandleEvent?)
    ensures Apply(s, a).tables.pending == s.tables.pending && Apply(s, a).queue == s.queue
  {
    hide Onward, Stays, HandleApply, Ready;
    if a.HandleEvent? && s.monitor.batch != [] {
      MonitorFlagsNobody(s);
      MonitorLeavesQueue(s);
    }
  }

  lemma RestSparesTables(s: State, a: Action)
    requires Enabled(s, a)
    requires a.ShutdownSignal? || a.ProcessExits? || a.ChildWrites? || a.ChannelBreaks? || a.Pop? || a.WorkerExit?
    ensures Apply(s, a).tables.pending == s.tables.pending && (!a.Pop? ==> Apply(s, a).queue == s.queue)
  {
    hide Onward, Stays, PopItem, Dies;
    if a.Pop? {
      ControlFlagsNobody(s, a.w, 0);
    }
  }

  /** Nobody but clients and workers touches the pending entries, and nobody but clients and the pool the queue. */
  lemma OthersSpareTables(s: State, a: Action)
    requires Enabled(s, a) && !a.ClientStep? && !a.TaskStep?
    ensures Apply(s, a).tables.pending == s.tables.pending && (!a.Pop? ==> Apply(s, a).queue == s.queue)
  {
    hide Apply, Enabled;
    if a.BeginLoad? || a.BeginQuery? || a.BeginCancel? || a.BeginUnload? {
      BeginsSpareTables(s, a);
    } else if a.DtorStep? || a.Collect? || a.ForceKill? || a.ReleaseChild? || a.CleanChild? {
      DtorSparesTables(s, a);
    } else if a.Fetch? || a.HandleEvent? {
      MonitorSparesTables(s, a);
    } else {
      RestSparesTables(s, a);
    }
  }

  /** A load that has just come on record is at no program point. */
  lemma NewIsUnflagged(s: State, a: Action, id: nat)
    requires Inv(s) && Enabled(s, a) && !Apply(s, a).exhausted && !a.TaskStep? && Forward(s, Apply(s, a))
    ensures id in Apply(s, a).loads && id !in s.loads ==> !Apply(s, a).loads[id].task.Running?
    ensures id in s.loads ==>
              && id in Apply(s, a).loads
              && (Apply(s, a).loads[id].task.Running? ==>
                    Apply(s, a).loads[id].task == s.loads[id].task
                    || (Early(s.loads[id].task) && Early(Apply(s, a).loads[id].task)))
  {
    hide Inv, Apply, Enabled, Evolves;
    StepSplits(s, a);
  }

  // ---------- first come, first served ----------

  /** The ids put into the queue by then, in order. */
  ghost function Submitted(ss: seq<State>, acts: seq<Action>, j: nat): seq<nat>
    requires j <= |acts| && |ss| == |acts| + 1
  {
    if j == 0 then []
    else
      var s, a := ss[j - 1], acts[j - 1];
      Submitted(ss, acts, j - 1)
      + (if a.ClientStep? && a.c in s.clients && s.clients[a.c].Submit? then [s.clients[a.c].id] else [])
  }

  /** The ids workers have begun with by then, in order. */
  ghost function Taken(ss: seq<State>, acts: seq<Action>, j: nat): seq<nat>
    requires j <= |acts| && |ss| == |acts| + 1
  {
    if j == 0 then []
    else
      var a, s' := acts[j - 1], ss[j];
      Taken(ss, acts, j - 1)
      + (if a.Pop? && a.w in s'.workers && s'.workers[a.w].Busy? then [s'.workers[a.w].id] else [])
  }

  /** In every run loads are begun in the order in which they were queued, each once; the rest wait in that order. */
  lemma {:induction false} FirstComeFirstServed(ss: seq<State>, acts: seq<Action>, j: nat)
    requires Run(ss, acts) && j <= |acts|
    ensures Submitted(ss, acts, j) == Taken(ss, acts, j) + ss[j].queue
  {
    hide Apply, Enabled, ClientApply;
    if j > 0 {
      FirstComeFirstServed(ss, acts, j - 1);
      QueueStep(ss, acts, j, Submitted(ss, acts, j - 1), Taken(ss, acts, j - 1));
    }
  }

  lemma QueueStep(ss: seq<State>, acts: seq<Action>, j: nat, submitted: seq<nat>, done: seq<nat>)
    requires Run(ss, acts) && 0 < j <= |acts| && submitted == done + ss[j - 1].queue
    ensures var s, a, s' := ss[j - 1], acts[j - 1], ss[j];
            submitted
            + (if a.ClientStep? && a.c in s.clients && s.clients[a.c].Submit? then [s.clients[a.c].id] else [])
            == done + (if a.Pop? && a.w in s'.workers && s'.workers[a.w].Busy? then [s'.workers[a.w].id] else [])
               + s'.queue
  {
    hide Apply, Enabled, ClientApply;
    var s, a := ss[j - 1], acts[j - 1];
    QueueMoves(s, a);
    if a.Pop? {
      Regrouped(done, [ss[j].workers[a.w].id], ss[j].queue);
    } else if a.ClientStep? {
      OwnStep(s, a, a.c);
      if s.clients[a.c].Submit? {
        Regrouped(done, s.queue, [s.clients[a.c].id]);
      }
    }
  }

  lemma Regrouped(a: seq<nat>, b: seq<nat>, c: seq<nat>)
    ensures a + (b + c) == a + b + c
  {
  }

  lemma QueueMoves(s: State, a: Action)
    requires Enabled(s, a)
    ensures var s' := Apply(s, a);
            if a.Pop? then a.w in s'.workers && s'.workers[a.w].Busy? && s.queue == [s'.workers[a.w].id] + s'.queue
            else if a.ClientStep? && s.clients[a.c].Submit? then s'.queue == s.queue + [s.clients[a.c].id]
            else s'.queue == s.queue
  {
    hide Apply, Enabled;
    if a.Pop? {
      PopMoves(s, a);
    } else if a.ClientStep? {
      OwnStep(s, a, a.c);
      ClientQueues(s, a.c);
    } else if a.TaskStep? {
      TaskIsEnabled(s, a);
      StepIsTask(s, a);
      ShapeOfStep(s, a.id, a.choice);
    } else {
      OthersSpareTables(s, a);
    }
  }

  lemma PopMoves(s: State, a: Action)
    requires Enabled(s, a) && a.Pop?
    ensures var s' := Apply(s, a);
            a.w in s'.workers && s'.workers[a.w].Busy? && s.queue == [s'.workers[a.w].id] + s'.queue
  {
    hide Onward, Stays;
  }

  lemma ClientQueues(s: State, c: nat)
    requires ClientEnabled(s, c)
    ensures var s' := ClientApply(s, c);
            if s.clients[c].Submit? then s'.queue == s.queue + [s.clients[c].id] else s'.queue == s.queue
  {
    hide Onward, Moves, OwnClient, AskPending, AskChildren, AnswerUnknown, TurnAway, InsertLoad, AnnounceLoad,
         SubmitLoad, FlagLoad, KillVictim, LookAgain, CheckUnload, UnloadLoad, ReportUnload;
    var k := s.clients[c];
    if k.Rejecting? || k.QueryPending? || k.QueryChildren? || k.QueryUnknown? {
      AskingShape(s, c);
    } else {
      LoadingQueues(s, c, k);
      UnloadingQueues(s, c, k);
      if k.UnloadChild? {
        TakingQueues(s, c, k.id);
      }
    }
  }

  lemma LoadingQueues(s: State, c: nat, k: Client)
    ensures k.Reserved? ==> InsertLoad(s, c, k.origin, k.plugin, k.id).queue == s.queue
    ensures k.Announce? && k.id in s.loads ==> AnnounceLoad(s, c, k.seqNo, k.id).queue == s.queue
    ensures k.Submit? && k.id in s.loads ==> SubmitLoad(s, c, k.id).queue == s.queue + [k.id]
    ensures k.CancelFlag? ==> FlagLoad(s, c, k.id, k.reason).queue == s.queue
  {
    hide Onward, Moves, OwnClient, NewLoad, Insert, Flag, Victim;
  }

  lemma UnloadingQueues(s: State, c: nat, k: Client)
    ensures k.CancelKill? ==> KillVictim(s, c, k.pid).queue == s.queue
    ensures k.CancelRecheck? ==> LookAgain(s, c, k.id).queue == s.queue
    ensures k.UnloadPending? ==> CheckUnload(s, c, k.id).queue == s.queue
    ensures k.UnloadSend? && k.id in s.loads ==> ReportUnload(s, c, k.id).queue == s.queue
  {
    hide Onward, Moves, OwnClient, Kill;
  }

  lemma TakingQueues(s: State, c: nat, id: nat)
    requires id in s.tables.children ==> id in s.loads
    ensures UnloadLoad(s, c, id).queue == s.queue
  {
    hide Onward, Moves, OwnClient, CleanUp, Forget;
    if id in s.tables.children {
      var l := CleanUp(s.loads[id].(watched := false), s.tables.children[id]).(removal := ByUnload(c));
      assert UnloadLoad(s, c, id) == SetClient(Put(s, id, l), c, UnloadSend(id)).(tables := Forget(s.tables, id));
    }
  }

  lemma ControlLeavesQueue(s: State, id: nat)
    ensures id in s.loads && id in s.stopping ==> ReleaseOne(s, id).queue == s.queue
    ensures id in s.loads && id in s.tables.children ==> CleanOne(s, id).queue == s.queue
    ensures id in s.loads && id in s.tables.children ==> BuryChild(s, id).queue == s.queue
  {
    hide Onward, Stays, CleanUp, Close, Unlink;
  }

  lemma MonitorLeavesQueue(s: State)
    requires s.monitor.Handling? && s.monitor.batch != []
    requires s.monitor.batch[0] in s.tables.children ==> s.monitor.batch[0] in s.loads
    ensures HandleApply(s).queue == s.queue
  {
    hide Onward, Stays, BuryChild;
    ControlLeavesQueue(s, s.monitor.batch[0]);
  }

  lemma DrawLeavesQueue(s: State, c: nat, origin: Origin, plugin: string, available: bool)
    ensures BeginLoadApply(s, c, origin, plugin, available).queue == s.queue
  {
    hide Onward, OwnClient;
  }

  // ---------- unloads ----------

  ghost predicate Unloading(k: Client, id: nat) {
    k == UnloadPending(id) || k == UnloadChild(id) || k == UnloadSend(id)
  }

  /** The unload returned because its load was still under construction, or because there was no such child. */
  ghost predicate Refused(s: State, a: Action, c: nat, id: nat) {
    && a == ClientStep(c) && c in s.clients
    && ((s.clients[c] == UnloadPending(id) && id in s.tables.pending)
        || (s.clients[c] == UnloadChild(id) && id !in s.tables.children))
  }

  /**
   * In every run with the channel open an unload is under way until `unloaded` for its id stands on the wire, unless it
   * found the load still pending or no such child.
   */
  lemma {:induction false} UnloadIsAnswered(ss: seq<State>, acts: seq<Action>, c: nat, id: nat, i: nat, j: nat)
    requires Run(ss, acts) && i <= j <= |acts| && ss[j].active
    requires c in ss[i].clients && Unloading(ss[i].clients[c], id)
    ensures || (c in ss[j].clients && Unloading(ss[j].clients[c], id))
            || SentSince(ss[j], |ss[i].wire|, Unloaded(id))
            || exists m :: i <= m < j && Refused(ss[m], acts[m], c, id)
  {
    hide Apply, Enabled, Init, SentSince, Refused;
    if i < j {
      var s, a := ss[j - 1], acts[j - 1];
      WireOnlyGrows(ss, acts, j - 1, j);
      WireOnlyGrows(ss, acts, i, j - 1);
      UnloadIsAnswered(ss, acts, c, id, i, j - 1);
      if SentSince(s, |ss[i].wire|, Unloaded(id)) {
        SentStays(s, ss[j], |ss[i].wire|, Unloaded(id));
      } else if m :| i <= m < j - 1 && Refused(ss[m], acts[m], c, id) {
      } else if a == ClientStep(c) {
        OwnStep(s, a, c);
        UnloadGoesOn(s, c, id, |ss[i].wire|);
      } else {
        OthersLeaveClients(s, a, c);
      }
    }
  }

  lemma UnloadGoesOn(s: State, c: nat, id: nat, from: nat)
    requires ClientEnabled(s, c) && Unloading(s.clients[c], id) && s.active && from <= |s.wire|
    ensures var s' := ClientApply(s, c);
            || (c in s'.clients && Unloading(s'.clients[c], id)) || SentSince(s', from, Unloaded(id))
            || Refused(s, ClientStep(c), c, id)
  {
    hide ClientApply, SentSince, Onward, Moves;
    ClientSays(s, c);
    ClientLeads(s, c);
    if s.clients[c].UnloadSend? {
      JustSent(s, ClientApply(s, c), from, Unloaded(id));
    }
  }

  /** An unload that goes on to the child did not find its load pending. */
  lemma {:induction false} UnloadLookedFirst(ss: seq<State>, acts: seq<Action>, k: nat, c: nat, id: nat)
      returns (m: nat)
    requires Run(ss, acts) && k <= |acts| && c in ss[k].clients && ss[k].clients[c] == UnloadChild(id)
    ensures m < k && acts[m] == ClientStep(c) && c in ss[m].clients && ss[m].clients[c] == UnloadPending(id)
    ensures id !in ss[m].tables.pending
  {
    hide Apply, Enabled, ClientEnabled, ClientApply, Begins;
    assert k > 0;
    var s, a := ss[k - 1], acts[k - 1];
    SameClients(s, a);
    if a == ClientStep(c) {
      OwnStep(s, a, c);
      ClientLeads(s, c);
      m := k - 1;
    } else {
      if Begins(a, c) {
        BeginsElsewhere(s, a, c);
      }
      OthersLeaveClients(s, a, c);
      m := UnloadLookedFirst(ss, acts, k - 1, c, id);
    }
  }

  lemma BeginsElsewhere(s: State, a: Action, c: nat)
    requires Enabled(s, a) && Begins(a, c)
    ensures c in Apply(s, a).clients && !Apply(s, a).clients[c].UnloadChild?
  {
    if a.BeginLoad? {
      BeginIsApply(s, a);
      hide Apply;
      BeginLoadLeads(s, c, a.origin, a.plugin, a.available);
    } else {
      hide BeginLoadApply, Onward;
    }
  }

  /**
   * So a load that was on record when its unload began to look is never taken out under construction: its worker has
   * taken its pending entry by then.
   */
  lemma UnloadSparesConstruction(ss: seq<State>, acts: seq<Action>, k: nat, c: nat, id: nat) returns (m: nat)
    requires Run(ss, acts) && k <= |acts| && !ss[k].exhausted
    requires c in ss[k].clients && ss[k].clients[c] == UnloadChild(id)
    ensures m < k && acts[m] == ClientStep(c) && c in ss[m].clients && ss[m].clients[c] == UnloadPending(id)
    ensures id in ss[m].loads ==> id in ss[k].loads && PastUnpend(ss[k].loads[id].task)
  {
    hide Apply, Enabled, Init, Inv;
    m := UnloadLookedFirst(ss, acts, k, c, id);
    NotYetExhausted(ss, acts, m, k);
    if id in ss[m].loads {
      RunReaches(ss, acts, m);
      RunKeepsInv(ss, acts, m);
      LoadIsSound(ss[m], id);
      PastIsUnpended(ViewOf(ss[m], id), ss[m].monitorOn);
      PastForGood(ss, acts, id, m, k);
    }
  }

  lemma {:induction false} PastForGood(ss: seq<State>, acts: seq<Action>, id: nat, i: nat, j: nat)
    requires Run(ss, acts) && i <= j <= |acts| && !ss[j].exhausted
    requires id in ss[i].loads && PastUnpend(ss[i].loads[id].task)
    ensures id in ss[j].loads && PastUnpend(ss[j].loads[id].task)
  {
    hide Inv, Apply, Enabled;
    if i < j {
      NotYetExhausted(ss, acts, j - 1, j);
      PastForGood(ss, acts, id, i, j - 1);
      RunKeepsInv(ss, acts, j - 1);
      StepEvolves(ss[j - 1], acts[j - 1]);
      assert Evolves(ss[j - 1].loads[id], ss[j].loads[id], |ss[j - 1].wire|);
    }
  }

  /** The section that takes a child out leaves its process dead and all it held released, and spares the rest. */
  lemma UnloadReleases(s: State, c: nat, id: nat)
    requires Reachable(s) && ClientEnabled(s, c) && s.clients[c] == UnloadChild(id) && id in s.tables.children
    ensures var s' := ClientApply(s, c);
            && id in s.loads && id in s'.loads && s'.loads[id].proc.Reaped? && Released(s'.loads[id])
            && s'.tables.children.Keys == s.tables.children.Keys - {id}
            && forall k | k in s.loads && k != id :: k in s'.loads && s'.loads[k] == s.loads[k]
  {
    hide Inv, Reachable, Sound, Answered, Carried, MarksSound, Onward, Moves, OwnClient, UnloadLoad, CleanUp, Released;
    ReachableInv(s);
    IdsKnown(s, id);
    LoadIsSound(s, id);
    assert ClientApply(s, c) == UnloadLoad(s, c, id);
    hide ClientApply, ClientEnabled;
    TakenIsReleased(ViewOf(s, id), s.monitorOn, c);
    TakenFields(s, c, id);
  }

  lemma TakenFields(s: State, c: nat, id: nat)
    requires id in s.tables.children && id in s.loads
    ensures var s' := UnloadLoad(s, c, id);
            && s'.loads == s.loads[id := CleanUp(s.loads[id].(watched := false), s.tables.children[id])
                                         .(removal := ByUnload(c))]
            && s'.tables.children == s.tables.children - {id}
  {
    hide Onward, Moves, OwnClient, CleanUp;
  }

  lemma IdsKnown(s: State, id: nat)
    requires Inv(s) && id in s.tables.children
    ensures id in s.loads
  {
  }

  lemma TakenIsReleased(v: View, monitorOn: bool, c: nat)
    requires Sound(v, monitorOn) && v.child.Some?
    ensures var l := CleanUp(v.load.(watched := false), v.child.value).(removal := ByUnload(c));
            l.proc.Reaped? && Released(l)
  {
    assert Placed(v, monitorOn) && HeldUnreaped(v.load, v.child.value, monitorOn);
  }
}

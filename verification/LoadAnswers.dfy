/** Whole runs: what is owed is sent, cancels and queries are answered, ids and processes are not shared. */
module LoadAnswers {
  import opened Common
  import opened LoadTables
  import opened LoadProtocol
  import opened LoadInvariant
  import opened LoadTheorems

  lemma NotYetExhausted(ss: seq<State>, acts: seq<Action>, i: nat, j: nat)
    requires Run(ss, acts) && i <= j <= |acts| && !ss[j].exhausted
    ensures !ss[i].exhausted
  {
    hide Apply, Enabled, Init;
    if ss[i].exhausted {
      ExhaustionStaysTo(ss, acts, i, j);
    }
  }

  // ---------- an outcome owed ----------

  /**
   * What a worker owes at one moment it still owes at any later one, or the
   * outcome has been sent in between: a cancelled load is never forgotten.
   */
  lemma DebtIsPaid(ss: seq<State>, acts: seq<Action>, id: nat, i: nat, j: nat)
    requires Run(ss, acts) && i <= j <= |acts| && !ss[j].exhausted && ss[j].ok && ss[j].active
    requires Owes(ss[i], id)
    ensures id in ss[j].loads && (ss[j].loads[id].task.Finished? ==> OutcomeSince(ss[j], id, |ss[i].wire|))
  {
    NoneBefore(ss, acts, id, i, |ss[i].wire|, j);
  }

  lemma {:induction false} LoadStays(ss: seq<State>, acts: seq<Action>, id: nat, i: nat, j: nat)
    requires Run(ss, acts) && i <= j <= |acts| && !ss[j].exhausted && id in ss[i].loads
    ensures id in ss[j].loads
  {
    hide Apply, Enabled, Inv;
    if i < j {
      NotYetExhausted(ss, acts, j - 1, j);
      LoadStays(ss, acts, id, i, j - 1);
      RunKeepsInv(ss, acts, j - 1);
      StepEvolves(ss[j - 1], acts[j - 1]);
    }
  }

  // ---------- queries and cancels ----------

  /** A client in the middle of a query asked as `asked`, about `target` if that is known. */
  ghost predicate Asking(k: Client, asked: Option<nat>, target: Option<nat>) {
    || (k.QueryPending? && k.asked == asked && (target.Some? ==> k.about == target))
    || (k.QueryChildren? && k.asked == asked && (target.Some? ==> k.id == target.value))
    || (k.QueryUnknown? && k.asked == asked && (target.Some? ==> k.id == target.value))
  }

  /** A status for it stands on the wire, sent when `from` frames had been. */
  ghost predicate AnsweredSince(s: State, from: nat, asked: Option<nat>, target: Option<nat>) {
    exists k :: from <= k < |s.wire| && s.wire[k].Status? && s.wire[k].asked == asked
                && (target.Some? ==> s.wire[k].report.id == target.value)
  }

  lemma SentIsAnswered(s: State, s': State, m: Msg, asked: Option<nat>, target: Option<nat>, from: nat)
    requires s'.wire == s.wire + [m] && from <= |s.wire|
    requires m.Status? && m.asked == asked && (target.Some? ==> m.report.id == target.value)
    ensures AnsweredSince(s', from, asked, target)
  {
    assert s'.wire[|s.wire|] == m;
  }

  /** Each section of a query sends its answer or leads to the next. */
  lemma QueryStep(s: State, c: nat, asked: Option<nat>, target: Option<nat>, from: nat)
    requires ClientEnabled(s, c) && Asking(s.clients[c], asked, target) && s.active && from <= |s.wire|
    ensures var s' := ClientApply(s, c);
            c in s'.clients
            && (Asking(s'.clients[c], asked, target) || AnsweredSince(s', from, asked, target))
  {
    hide Onward, PendingReport, ChildReport, Moves, OwnClient, AskPending, AskChildren, AnswerUnknown, TurnAway,
         InsertLoad, AnnounceLoad, SubmitLoad, FlagLoad, KillVictim, LookAgain, CheckUnload, UnloadLoad, ReportUnload;
    var k, s' := s.clients[c], ClientApply(s, c);
    match k
    case QueryPending(_, about) =>
      PendingAnswers(s, c, asked, about);
      var hit := PendingReport(s.tables, Resolve(s.tables, asked, about));
      if hit.Some? {
        SentIsAnswered(s, s', Status(asked, hit.value), asked, target, from);
      }
    case QueryChildren(_, id, known) =>
      ChildrenAnswer(s, c, asked, id, known);
      var hit := ChildReport(s.tables, id);
      if hit.Some? {
        SentIsAnswered(s, s', Status(asked, hit.value), asked, target, from);
      }
    case QueryUnknown(_, id, _) =>
      UnknownAnswers(s, c, asked, id);
      SentIsAnswered(s, s', s'.wire[|s.wire|], asked, target, from);
  }

  /** `a` starts a request of client `c`. */
  predicate Begins(a: Action, c: nat) {
    (a.BeginLoad? || a.BeginQuery? || a.BeginCancel? || a.BeginUnload?) && a.c == c
  }

  /** Nobody but the client itself starts its requests or moves them on. */
  lemma OthersLeaveClients(s: State, a: Action, c: nat)
    requires Enabled(s, a) && c in s.clients && a != ClientStep(c) && (s.clients[c].Idle? ==> !Begins(a, c))
    ensures c in Apply(s, a).clients && Apply(s, a).clients[c] == s.clients[c]
  {
    hide Apply, Enabled, ClientEnabled, Begins;
    if a.ClientStep? {
      OwnStep(s, a, a.c);
    } else if a.BeginLoad? || a.BeginQuery? || a.BeginCancel? || a.BeginUnload? {
      BeginLeavesOthers(s, a, c);
    } else {
      RestLeaveClients(s, a);
    }
  }

  lemma BeginLeavesOthers(s: State, a: Action, c: nat)
    requires Enabled(s, a) && c in s.clients && (s.clients[c].Idle? ==> !Begins(a, c))
    requires a.BeginLoad? || a.BeginQuery? || a.BeginCancel? || a.BeginUnload?
    ensures c in Apply(s, a).clients && Apply(s, a).clients[c] == s.clients[c]
  {
    hide BeginLoadApply, Onward;
  }

  lemma RestLeaveClients(s: State, a: Action)
    requires Enabled(s, a) && !a.ClientStep? && !a.BeginLoad? && !a.BeginQuery? && !a.BeginCancel? && !a.BeginUnload?
    ensures Stays(s, Apply(s, a))
  {
    hide Apply, Enabled, Stays;
    if a.Pop? || a.WorkerExit? || a.TaskStep? {
      WorkersStay(s, a);
    } else if a.DtorStep? || a.Collect? || a.ForceKill? || a.ReleaseChild? || a.CleanChild? {
      DestructorStays(s, a);
    } else {
      RestStays(s, a);
    }
  }

  lemma WorkersStay(s: State, a: Action)
    requires Enabled(s, a) && (a.Pop? || a.WorkerExit? || a.TaskStep?)
    ensures Stays(s, Apply(s, a))
  {
    hide TaskApply, PopItem, TaskEnabled, Onward;
  }

  lemma DestructorStays(s: State, a: Action)
    requires Enabled(s, a)
    requires a.DtorStep? || a.Collect? || a.ForceKill? || a.ReleaseChild? || a.CleanChild?
    ensures Stays(s, Apply(s, a))
  {
    hide DtorApply, DtorEnabled, CleanOne, ReleaseOne, Onward;
  }

  lemma RestStays(s: State, a: Action)
    requires Enabled(s, a)
    requires a.ShutdownSignal? || a.ChannelBreaks? || a.ProcessExits? || a.ChildWrites? || a.Fetch? || a.HandleEvent?
    ensures Stays(s, Apply(s, a))
  {
    hide HandleApply, Ready, Dies, Onward;
  }

  /** And nobody but a new load moves the counter. */
  lemma OthersLeaveCounter(s: State, a: Action)
    requires Enabled(s, a) && !a.BeginLoad?
    ensures Apply(s, a).tables.counter == s.tables.counter
  {
    if a.ClientStep? {
      OwnStep(s, a, a.c);
    } else if !a.BeginQuery? && !a.BeginCancel? && !a.BeginUnload? {
      hide Apply, Enabled;
      RestLeaveClients(s, a);
    }
  }

  lemma AnswerStays(s: State, s': State, from: nat, asked: Option<nat>, target: Option<nat>)
    requires AnsweredSince(s, from, asked, target) && s.wire <= s'.wire
    ensures AnsweredSince(s', from, asked, target)
  {
    var k :| from <= k < |s.wire| && s.wire[k].Status? && s.wire[k].asked == asked
             && (target.Some? ==> s.wire[k].report.id == target.value);
    assert s'.wire[k] == s.wire[k];
  }

  /**
   * In every run with the channel open, a query is under way until a status for
   * it stands on the wire: none returns in silence.
   */
  lemma {:induction false} QueryIsAnswered(ss: seq<State>, acts: seq<Action>, c: nat, asked: Option<nat>,
                                           target: Option<nat>, i: nat, j: nat)
    requires Run(ss, acts) && i <= j <= |acts| && ss[j].active
    requires c in ss[i].clients && Asking(ss[i].clients[c], asked, target)
    ensures || AnsweredSince(ss[j], |ss[i].wire|, asked, target)
            || (c in ss[j].clients && Asking(ss[j].clients[c], asked, target))
  {
    hide Apply, Enabled, AnsweredSince, Init;
    if i < j {
      WireOnlyGrows(ss, acts, j - 1, j);
      WireOnlyGrows(ss, acts, i, j - 1);
      QueryIsAnswered(ss, acts, c, asked, target, i, j - 1);
      var s, a := ss[j - 1], acts[j - 1];
      if AnsweredSince(s, |ss[i].wire|, asked, target) {
        AnswerStays(s, ss[j], |ss[i].wire|, asked, target);
      } else if a == ClientStep(c) {
        OwnStep(s, a, c);
        QueryStep(s, c, asked, target, |ss[i].wire|);
      } else {
        OthersLeaveClients(s, a, c);
      }
    }
  }

  lemma OwnStep(s: State, a: Action, c: nat)
    requires Enabled(s, a) && a == ClientStep(c)
    ensures ClientEnabled(s, c) && Apply(s, a) == ClientApply(s, c)
  {
  }

  /** A client in the middle of a cancel of `id`, started when `from` frames had been sent. */
  ghost predicate Cancelling(k: Client, id: nat, from: nat) {
    || (k.CancelFlag? && k.id == id)
    || (k.CancelKill? && k.id == id && from <= k.mark)
    || k == CancelRecheck(id)
    || Asking(k, None, Some(id))
  }

  /** The cancel returns at its second look, with the load pending and its one outcome still owed. */
  ghost predicate LeftOwed(s: State, a: Action, c: nat, id: nat) {
    a == ClientStep(c) && c in s.clients && s.clients[c] == CancelRecheck(id) && Owes(s, id)
  }

  /**
   * The cancel returns from its kill: the load's process is dead, and no outcome had been sent for it when the cancel
   * started; if its work is over by now, its outcome has been sent since.
   */
  ghost predicate LeftKilled(s: State, a: Action, c: nat, id: nat, from: nat) {
    && a == ClientStep(c) && ClientEnabled(s, c) && s.clients[c].CancelKill? && s.clients[c].id == id
    && id in s.loads && id in ClientApply(s, c).loads && Dead(ClientApply(s, c).loads[id])
    && from <= |s.wire|
    && (forall k | 0 <= k < from && Outcome(s.wire[k]) :: s.wire[k].id != id)
    && (s.ok && s.active && s.loads[id].task.Finished? ==> OutcomeSince(s, id, from))
  }

  ghost predicate OutcomeSince(s: State, id: nat, from: nat) {
    exists k :: from <= k < |s.wire| && Outcome(s.wire[k]) && s.wire[k].id == id
  }

  /** How a cancel that started at step `i` stands at step `j`. */
  ghost predicate CancelStands(ss: seq<State>, acts: seq<Action>, c: nat, id: nat, i: nat, j: nat)
    requires i <= j < |ss| && |ss| == |acts| + 1
  {
    || (c in ss[j].clients && Cancelling(ss[j].clients[c], id, |ss[i].wire|))
    || AnsweredSince(ss[j], |ss[i].wire|, None, Some(id))
    || (exists m :: i <= m < j && LeftOwed(ss[m], acts[m], c, id))
    || (exists m :: i <= m < j && LeftKilled(ss[m], acts[m], c, id, |ss[i].wire|))
  }

  /**
   * Every cancel is answered. In every run with the channel open a cancel is under way until it has sent a status for
   * its id, or has returned from a second look that found the outcome owed, or from the kill of the load's process.
   */
  lemma {:induction false} CancelIsAnswered(ss: seq<State>, acts: seq<Action>, c: nat, id: nat, i: nat, j: nat)
    requires Run(ss, acts) && i <= j <= |acts| && !ss[j].exhausted && ss[j].active
    requires c in ss[i].clients && ss[i].clients[c].CancelFlag? && ss[i].clients[c].id == id
    ensures CancelStands(ss, acts, c, id, i, j)
  {
    hide Apply, Enabled, AnsweredSince, LeftOwed, LeftKilled, Init;
    if i < j {
      NotYetExhausted(ss, acts, j - 1, j);
      WireOnlyGrows(ss, acts, j - 1, j);
      WireOnlyGrows(ss, acts, i, j - 1);
      CancelIsAnswered(ss, acts, c, id, i, j - 1);
      RunReaches(ss, acts, j - 1);
      CancelGoesOn(ss, acts, c, id, i, j - 1);
    }
  }

  lemma CancelGoesOn(ss: seq<State>, acts: seq<Action>, c: nat, id: nat, i: nat, j: nat)
    requires i <= j < |acts| && |ss| == |acts| + 1 && CancelStands(ss, acts, c, id, i, j)
    requires Reachable(ss[j]) && Enabled(ss[j], acts[j]) && ss[j + 1] == Apply(ss[j], acts[j])
    requires ss[j].active && |ss[i].wire| <= |ss[j].wire| && ss[j].wire <= ss[j + 1].wire
    ensures CancelStands(ss, acts, c, id, i, j + 1)
  {
    hide Apply, Enabled, AnsweredSince, LeftOwed, LeftKilled, Cancelling, Reachable;
    var s, a, from := ss[j], acts[j], |ss[i].wire|;
    if m :| i <= m < j && LeftOwed(ss[m], acts[m], c, id) {
    } else if m :| i <= m < j && LeftKilled(ss[m], acts[m], c, id, from) {
    } else if AnsweredSince(s, from, None, Some(id)) {
      AnswerStays(s, ss[j + 1], from, None, Some(id));
    } else if a == ClientStep(c) {
      OwnStep(s, a, c);
      CancelStep(s, a, c, id, from);
    } else {
      CancellingIsBusy(s.clients[c], id, from);
      OthersLeaveClients(s, a, c);
    }
  }

  lemma CancellingIsBusy(k: Client, id: nat, from: nat)
    requires Cancelling(k, id, from)
    ensures !k.Idle?
  {
  }

  /** Each section of a cancel leads on, sends a status, or returns as one of the two ways above says. */
  lemma CancelStep(s: State, a: Action, c: nat, id: nat, from: nat)
    requires Reachable(s) && s.active && from <= |s.wire| && ClientEnabled(s, c) && a == ClientStep(c)
    requires Cancelling(s.clients[c], id, from)
    ensures var s' := ClientApply(s, c);
            || (c in s'.clients && Cancelling(s'.clients[c], id, from)) || AnsweredSince(s', from, None, Some(id))
            || LeftOwed(s, a, c, id) || LeftKilled(s, a, c, id, from)
  {
    hide Reachable, AnsweredSince, LeftKilled, ClientApply, Onward, Moves;
    var k := s.clients[c];
    if Asking(k, None, Some(id)) {
      QueryStep(s, c, None, Some(id), from);
    } else if k.CancelKill? {
      KillLeaves(s, a, c, id, from);
    } else if k.CancelFlag? {
      FlagLeads(s, c, id);
    } else if id in s.tables.pending {
      CancelFindsDebt(s, c);
    } else {
      LookLeads(s, c, id);
    }
  }

  lemma FlagLeads(s: State, c: nat, id: nat)
    requires ClientEnabled(s, c) && s.clients[c].CancelFlag? && s.clients[c].id == id
    ensures var s' := ClientApply(s, c);
            && c in s'.clients
            && (s'.clients[c] == CancelRecheck(id)
                || (s'.clients[c].CancelKill? && s'.clients[c].id == id && s'.clients[c].mark == |s.wire|))
  {
    hide Onward, Moves, Flag, Victim;
  }

  lemma LookLeads(s: State, c: nat, id: nat)
    requires ClientEnabled(s, c) && s.clients[c] == CancelRecheck(id) && id !in s.tables.pending
    ensures c in ClientApply(s, c).clients && ClientApply(s, c).clients[c] == QueryPending(None, Some(id))
  {
    hide Onward, Moves;
  }

  lemma KillLeaves(s: State, a: Action, c: nat, id: nat, from: nat)
    requires Reachable(s) && ClientEnabled(s, c) && a == ClientStep(c)
    requires s.clients[c].CancelKill? && Cancelling(s.clients[c], id, from)
    ensures LeftKilled(s, a, c, id, from)
  {
    CancelMark(s, c);
    CancelKillsItsVictim(s, c);
    hide Reachable, ClientApply;
    if s.ok && s.active && s.loads[id].task.Finished? {
      var k :| s.clients[c].mark <= k < |s.wire| && Outcome(s.wire[k]) && s.wire[k].id == id;
      assert OutcomeSince(s, id, from);
    }
  }

  /** What `CancelKillIsAnswered` says, of the marks alone. */
  lemma CancelMark(s: State, c: nat)
    requires Reachable(s) && c in s.clients && s.clients[c].CancelKill?
    ensures var k := s.clients[c];
            && k.id in s.loads && k.mark <= |s.wire|
            && (forall i | 0 <= i < k.mark && Outcome(s.wire[i]) :: s.wire[i].id != k.id)
            && (s.ok && s.active && s.loads[k.id].task.Finished? ==> OutcomeSince(s, k.id, k.mark))
  {
    ReachableInv(s);
    var k := s.clients[c];
    assert ClientSound(s, c, k);
    forall i | 0 <= i < k.mark && Outcome(s.wire[i])
      ensures s.wire[i].id != k.id
    {
      assert MsgSound(s.loads, s.wire[i], i);
    }
    if s.ok && s.active {
      CancelKillIsAnswered(s, c);
    }
  }

  /**
   * What that means for whoever asked: once the cancel has returned, a status has been sent since it started, or the
   * load is on record and, if its work is over, its one outcome has been sent since.
   */
  lemma CancelIsSettled(ss: seq<State>, acts: seq<Action>, c: nat, id: nat, i: nat, j: nat)
    requires Run(ss, acts) && i <= j <= |acts| && !ss[j].exhausted && ss[j].ok && ss[j].active
    requires c in ss[i].clients && ss[i].clients[c].CancelFlag? && ss[i].clients[c].id == id
    requires c in ss[j].clients ==> !Cancelling(ss[j].clients[c], id, |ss[i].wire|)
    ensures || AnsweredSince(ss[j], |ss[i].wire|, None, Some(id))
            || (id in ss[j].loads && (ss[j].loads[id].task.Finished? ==> OutcomeSince(ss[j], id, |ss[i].wire|)))
  {
    hide Apply, Enabled, AnsweredSince, Init, ClientApply, ClientEnabled;
    var from := |ss[i].wire|;
    CancelIsAnswered(ss, acts, c, id, i, j);
    if m :| i <= m < j && LeftOwed(ss[m], acts[m], c, id) {
      WireOnlyGrows(ss, acts, i, m);
      NoneBefore(ss, acts, id, m, from, j);
    } else if m :| i <= m < j && LeftKilled(ss[m], acts[m], c, id, from) {
      NoneBefore(ss, acts, id, m, from, j);
    }
  }

  /** An outcome not sent among the first frames was sent after them. */
  lemma NoneBefore(ss: seq<State>, acts: seq<Action>, id: nat, m: nat, from: nat, j: nat)
    requires Run(ss, acts) && m <= j <= |acts| && !ss[j].exhausted && ss[j].ok && ss[j].active
    requires id in ss[m].loads && from <= |ss[m].wire|
    requires forall k | 0 <= k < from && Outcome(ss[m].wire[k]) :: ss[m].wire[k].id != id
    ensures id in ss[j].loads && (ss[j].loads[id].task.Finished? ==> OutcomeSince(ss[j], id, from))
  {
    hide Apply, Enabled, Init, Reachable;
    LoadStays(ss, acts, id, m, j);
    RunReaches(ss, acts, j);
    WireOnlyGrows(ss, acts, m, j);
    if ss[j].loads[id].task.Finished? {
      FinishedIsAnswered(ss[j], id);
      var k :| 0 <= k < |ss[j].wire| && Outcome(ss[j].wire[k]) && ss[j].wire[k].id == id;
      assert forall n | 0 <= n < |ss[m].wire| :: ss[m].wire[n] == ss[j].wire[n];
      assert from <= k;
    }
  }

  // ---------- ids and processes ----------

  /** The counter never falls back before it is exhausted. */
  lemma {:induction false} BoundClimbs(ss: seq<State>, acts: seq<Action>, i: nat, j: nat)
    requires Run(ss, acts) && i <= j <= |acts| && !ss[j].exhausted
    ensures Bound(ss[i]) <= Bound(ss[j])
  {
    hide Apply, Enabled, Inv;
    if i < j {
      NotYetExhausted(ss, acts, j - 1, j);
      BoundClimbs(ss, acts, i, j - 1);
      RunKeepsInv(ss, acts, j - 1);
      CounterStep(ss[j - 1], acts[j - 1]);
    }
  }

  lemma CounterStep(s: State, a: Action)
    requires Inv(s) && Enabled(s, a) && !Apply(s, a).exhausted
    ensures Bound(s) <= Bound(Apply(s, a))
    ensures a.BeginLoad? && a.available ==> s.tables.counter != 0 && s.tables.counter < Bound(Apply(s, a))
  {
    CounterIsSmall(s);
    hide Inv;
    if a.BeginLoad? {
      BeginCounts(s, a.c, a.origin, a.plugin, a.available);
      BeginIsApply(s, a);
    } else {
      OthersLeaveCounter(s, a);
      hide Apply;
    }
  }

  lemma CounterIsSmall(s: State)
    requires Inv(s)
    ensures s.tables.counter < ID_LIMIT
  {
  }

  lemma BeginIsApply(s: State, a: Action)
    requires Enabled(s, a) && a.BeginLoad?
    ensures Apply(s, a) == BeginLoadApply(s, a.c, a.origin, a.plugin, a.available)
  {
    hide BeginLoadApply, Onward;
  }

  lemma BeginCounts(s: State, c: nat, origin: Origin, plugin: string, available: bool)
    requires s.tables.counter < ID_LIMIT
    ensures var s' := BeginLoadApply(s, c, origin, plugin, available);
            !s'.exhausted ==> Bound(s) <= Bound(s') && (available ==> 0 < s.tables.counter < Bound(s'))
  {
    hide Onward;
  }

  /** Until the overflow, no two loads of a run are given the same id, however many are asked for. */
  lemma IdsAreUnique(ss: seq<State>, acts: seq<Action>, i: nat, j: nat)
    requires Run(ss, acts) && i < j < |acts| && !ss[j + 1].exhausted
    requires acts[i].BeginLoad? && acts[i].available && acts[j].BeginLoad? && acts[j].available
    ensures Draw(ss[i].tables).0 != Draw(ss[j].tables).0
  {
    hide Apply, Enabled, Inv;
    NotYetExhausted(ss, acts, j, j + 1);
    NotYetExhausted(ss, acts, i + 1, j);
    NotYetExhausted(ss, acts, i, j);
    RunKeepsInv(ss, acts, i);
    RunKeepsInv(ss, acts, j);
    CounterStep(ss[i], acts[i]);
    CounterStep(ss[j], acts[j]);
    BoundClimbs(ss, acts, i + 1, j);
  }

  /** With fresh pids, no two loads of a run ever have the same process. */
  lemma {:induction false} RunKeepsPidsDistinct(ss: seq<State>, acts: seq<Action>, i: nat)
    requires Run(ss, acts) && i <= |acts| && !ss[i].exhausted
    ensures PidsDistinct(ss[i])
  {
    hide Apply, Enabled, Inv;
    if i > 0 {
      NotYetExhausted(ss, acts, i - 1, i);
      RunKeepsPidsDistinct(ss, acts, i - 1);
      RunKeepsInv(ss, acts, i - 1);
      StepKeepsPidsDistinct(ss[i - 1], acts[i - 1]);
    }
  }

  lemma ReachableKeepsPidsDistinct(s: State)
    requires Reachable(s)
    ensures PidsDistinct(s)
  {
    var ss: seq<State>, acts: seq<Action> :| Run(ss, acts) && ss[|acts|] == s;
    RunKeepsPidsDistinct(ss, acts, |acts|);
  }

  /** The kill of a cancel leaves its own load's process dead and every other load as it was. */
  lemma KillSparesOthers(s: State, c: nat)
    requires Reachable(s) && ClientEnabled(s, c) && s.clients[c].CancelKill?
    ensures var id, s' := s.clients[c].id, ClientApply(s, c);
            && id in s.loads && s'.loads.Keys == s.loads.Keys && Dead(s'.loads[id])
            && forall k | k in s.loads && k != id :: s'.loads[k] == s.loads[k]
  {
    ReachableKeepsPidsDistinct(s);
    CancelKillsItsVictim(s, c);
    VictimHasPid(s, c);
    hide Reachable;
  }

  lemma VictimHasPid(s: State, c: nat)
    requires Reachable(s) && c in s.clients && s.clients[c].CancelKill?
    ensures s.clients[c].id in s.loads && s.loads[s.clients[c].id].pid == s.clients[c].pid > 0
  {
    ReachableInv(s);
    assert ClientSound(s, c, s.clients[c]);
  }
}

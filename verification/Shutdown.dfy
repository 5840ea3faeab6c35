/** Stopping the children when the container stops: `terminate_children` and `cleanup_child`. */
module Shutdown {

  datatype Child = Child(pid: nat, pidfd: int, paramFile: string)

  /** What is done to the outside world, in order. Times are in microseconds. */
  datatype Event =
    | Term(pid: nat)
    | Kill(pid: nat)
    | Collected(pid: nat)     // a wait has taken the process's status: it is dead and no zombie is left
    | Slept(us: nat)
    | Closed(fd: int)
    | Unlinked(file: string)

  /** A look at a process, without waiting: when, and whether it was found running. */
  datatype Look = Look(pid: nat, at: nat, running: bool)

  /**
   * Processes and a clock. Which processes have exited by the n-th wait, and how much longer than asked each sleep
   * takes, is up to whoever makes the kernel.
   */
  class Kernel {
    const exited: (nat, nat) -> bool
    const drift: nat -> nat
    var waits: nat
    var now: nat
    var reaped: set<nat>
    var log: seq<Event>
    var looks: seq<Look>

    constructor (exited: (nat, nat) -> bool, drift: nat -> nat, reaped: set<nat>)
      ensures this.exited == exited && this.drift == drift && this.reaped == reaped
      ensures waits == 0 && now == 0 && log == [] && looks == []
    {
      this.exited := exited;
      this.drift := drift;
      this.reaped := reaped;
      waits, now, log, looks := 0, 0, [], [];
    }

    method Note(e: Event)
      modifies this`log
      ensures log == old(log) + [e]
    {
      log := log + [e];
    }

    method Sleep(us: nat)
      modifies this`now, this`log
      ensures now >= old(now) + us && log == old(log) + [Slept(us)]
    {
      now := now + us + drift(now);
      Note(Slept(us));
    }

    /** `waitpid` with `WNOHANG`: zero while it runs, positive when collected, -1 if there is nothing to collect. */
    method WaitNoHang(pid: nat) returns (r: int)
      modifies this`waits, this`reaped, this`log, this`looks
      ensures looks == old(looks) + [Look(pid, now, r == 0)]
      ensures old(pid in reaped) ==> r == -1 && reaped == old(reaped) && log == old(log)
      ensures old(pid !in reaped) ==>
                if exited(old(waits), pid) then
                  r == 1 && reaped == old(reaped) + {pid} && log == old(log) + [Collected(pid)]
                else r == 0 && reaped == old(reaped) && log == old(log)
    {
      var n := waits;
      waits := waits + 1;
      r := if pid in reaped then -1 else if exited(n, pid) then 1 else 0;
      if r == 1 {
        reaped := reaped + {pid};
        Note(Collected(pid));
      }
      looks := looks + [Look(pid, now, r == 0)];
    }

    /** SIGKILL and a wait without a limit: the process dies and is collected. */
    method KillAndWait(pid: nat)
      modifies this`reaped, this`log
      ensures reaped == old(reaped) + {pid}
      ensures log == old(log) + [Kill(pid)] + (if pid in old(reaped) then [] else [Collected(pid)])
    {
      Note(Kill(pid));
      if pid !in reaped {
        reaped := reaped + {pid};
        Note(Collected(pid));
      }
    }
  }

  // ---- the signals ----

  const STEP_US: nat := 5000
  const BUDGET_US: nat := 1_000_000
  const STOP_US: nat := 5_000_000

  /** The pause between two signals. */
  function Step(n: nat): nat {
    if n == 0 || BUDGET_US / n > STEP_US then STEP_US else BUDGET_US / n
  }

  /** One SIGTERM for each, a pause between any two. */
  function Staggered(pids: seq<nat>, step: nat): seq<Event> {
    if pids == [] then []
    else if |pids| == 1 then [Term(pids[0])]
    else Staggered(pids[..|pids| - 1], step) + [Slept(step), Term(pids[|pids| - 1])]
  }

  function Slack(log: seq<Event>): nat {
    if log == [] then 0 else Slack(log[..|log| - 1]) + (if log[|log| - 1].Slept? then log[|log| - 1].us else 0)
  }

  /** The pids sent SIGTERM, in order. */
  function Terms(log: seq<Event>): seq<nat> {
    if log == [] then []
    else Terms(log[..|log| - 1]) + (if log[|log| - 1].Term? then [log[|log| - 1].pid] else [])
  }

  lemma LogGrows(log: seq<Event>, e: Event)
    ensures Terms(log + [e]) == Terms(log) + (if e.Term? then [e.pid] else [])
    ensures Slack(log + [e]) == Slack(log) + (if e.Slept? then e.us else 0)
  {
    assert (log + [e])[..|log|] == log;
  }

  /** Each target is signalled once and in order, and the pauses come to at most one second, none over 5 ms. */
  lemma {:induction false} StaggerIsBounded(pids: seq<nat>, step: nat)
    ensures Terms(Staggered(pids, step)) == pids
    ensures Slack(Staggered(pids, step)) == (if pids == [] then 0 else (|pids| - 1) * step)
  {
    EmptyLog();
    hide Terms, Slack;
    if |pids| == 1 {
      LogGrows([], Term(pids[0]));
      assert [] + [Term(pids[0])] == [Term(pids[0])];
    } else if pids != [] {
      var init, last := pids[..|pids| - 1], pids[|pids| - 1];
      StaggerIsBounded(init, step);
      var log := Staggered(init, step);
      LogGrows(log, Slept(step));
      LogGrows(log + [Slept(step)], Term(last));
      assert log + [Slept(step)] + [Term(last)] == Staggered(pids, step);
      assert (|init| - 1) * step + step == (|pids| - 1) * step by {
        Distribute(|init| - 1, step);
      }
    }
  }

  lemma EmptyLog()
    ensures Terms([]) == [] && Slack([]) == 0
  {
  }

  lemma Distribute(a: int, b: int)
    ensures a * b + b == (a + 1) * b
  {
  }

  lemma BudgetHolds(n: nat)
    ensures Step(n) <= STEP_US
    ensures n > 0 ==> (n - 1) * Step(n) <= BUDGET_US
  {
    if n > 0 {
      assert n * (BUDGET_US / n) <= BUDGET_US;
      assert Step(n) <= BUDGET_US / n;
      Monotone(n - 1, n, Step(n), BUDGET_US / n);
    }
  }

  /** The pause is the longest that keeps all of them within a second, up to five milliseconds. */
  lemma StepIsLongest(n: nat)
    requires n > 0
    ensures if n <= 200 then Step(n) == 5000 else n * Step(n) <= 1_000_000 < n * (Step(n) + 1)
  {
    var q := BUDGET_US / n;
    assert n * q <= BUDGET_US < n * (q + 1);
    if n <= 200 {
      Monotone(n, 200, 5001, 5001);
      if q < 5000 {
        Monotone(n, 200, q + 1, 5000);
      }
    } else if q > 5000 {
      Monotone(201, n, 5001, q);
    } else if q == 5000 {
      Monotone(201, n, 5000, q);
    }
  }

  /** Signals and pauses take turns: the k-th signal goes to the k-th target. */
  lemma {:induction false} StaggerAlternates(pids: seq<nat>, step: nat, k: nat)
    requires k < |pids|
    ensures |Staggered(pids, step)| == 2 * |pids| - 1 && Staggered(pids, step)[2 * k] == Term(pids[k])
    ensures k + 1 < |pids| ==> Staggered(pids, step)[2 * k + 1] == Slept(step)
  {
    if |pids| > 1 {
      var init := pids[..|pids| - 1];
      StaggerAlternates(init, step, if k < |init| then k else 0);
    }
  }

  lemma Monotone(a: nat, b: nat, c: nat, d: nat)
    requires a <= b && c <= d
    ensures a * c <= b * d
  {
    assert a * c <= b * c <= b * d;
  }

  function Pids(children: seq<Child>): (pids: seq<nat>)
    ensures |pids| == |children| && forall k | 0 <= k < |children| :: pids[k] == children[k].pid
  {
    seq(|children|, k requires 0 <= k < |children| => children[k].pid)
  }

  method Stagger(kernel: Kernel, pids: seq<nat>)
    modifies kernel
    ensures kernel.log == old(kernel.log) + Staggered(pids, Step(|pids|))
    ensures kernel.reaped == old(kernel.reaped) && kernel.looks == old(kernel.looks)
    ensures kernel.now >= old(kernel.now) + (if pids == [] then 0 else (|pids| - 1) * Step(|pids|))
  {
    var step := if |pids| == 0 || BUDGET_US / |pids| > STEP_US then STEP_US else BUDGET_US / |pids|;
    for i := 0 to |pids|
      invariant kernel.log == old(kernel.log) + Staggered(pids[..i], step) && kernel.reaped == old(kernel.reaped)
      invariant kernel.looks == old(kernel.looks)
      invariant kernel.now >= old(kernel.now) + (if i == 0 then 0 else (i - 1) * step)
    {
      assert pids[..i + 1][..i] == pids[..i];
      if i > 0 {
        kernel.Sleep(step);
        Distribute(i - 1, step);
      }
      kernel.Note(Term(pids[i]));
    }
    assert pids[..|pids|] == pids;
  }

  // ---- collecting ----

  /** Nothing in `log` but waiting, and killing of processes in `pids`. */
  ghost predicate OnlyCollects(log: seq<Event>, pids: seq<nat>) {
    forall e | e in log :: e.Slept? || ((e.Kill? || e.Collected?) && e.pid in pids)
  }

  /** Every process collected since is on record. */
  ghost predicate Recorded(before: set<nat>, reaped: set<nat>, log: seq<Event>) {
    before <= reaped && forall p | p in reaped - before :: Collected(p) in log
  }

  /** The looks at `pid`. */
  function LooksAt(looks: seq<Look>, pid: nat): nat {
    if looks == [] then 0 else LooksAt(looks[1..], pid) + (if looks[0].pid == pid then 1 else 0)
  }

  lemma {:induction false} LooksAdd(a: seq<Look>, b: seq<Look>, pid: nat)
    ensures LooksAt(a + b, pid) == LooksAt(a, pid) + LooksAt(b, pid)
  {
    if a == [] {
      assert a + b == b;
    } else {
      assert (a + b)[1..] == a[1..] + b;
      LooksAdd(a[1..], b, pid);
    }
  }

  lemma {:induction false} LookedAt(looks: seq<Look>, k: nat)
    requires k < |looks|
    ensures LooksAt(looks, looks[k].pid) > 0
  {
    if k > 0 {
      LookedAt(looks[1..], k - 1);
    }
  }

  /** Every look at `pid` found it running. */
  predicate SeenRunning(looks: seq<Look>, pid: nat) {
    forall l | l in looks && l.pid == pid :: l.running
  }

  /** The pauses made. */
  function Sleeps(log: seq<Event>): nat {
    if log == [] then 0 else Sleeps(log[1..]) + (if log[0].Slept? then 1 else 0)
  }

  lemma {:induction false} SleepsAdd(a: seq<Event>, b: seq<Event>)
    ensures Sleeps(a + b) == Sleeps(a) + Sleeps(b)
  {
    if a == [] {
      assert a + b == b;
    } else {
      assert (a + b)[1..] == a[1..] + b;
      SleepsAdd(a[1..], b);
    }
  }

  lemma {:induction false} NoSleeps(log: seq<Event>)
    requires forall e | e in log :: !e.Slept?
    ensures Sleeps(log) == 0
  {
    if log != [] {
      NoSleeps(log[1..]);
    }
  }

  lemma OneSleep(us: nat)
    ensures Sleeps([Slept(us)]) == 1
  {
    assert [Slept(us)][1..] == [];
  }

  /** `erase(remove_if(…))`: one look at each; drops what has exited, and what cannot be waited for. */
  method Sweep(kernel: Kernel, alive: seq<nat>) returns (left: seq<nat>, ghost did: seq<Event>, ghost seen: seq<Look>)
    modifies kernel
    ensures kernel.log == old(kernel.log) + did && kernel.looks == old(kernel.looks) + seen
    ensures forall e | e in did :: e.Collected? && e.pid in alive
    ensures Recorded(old(kernel.reaped), kernel.reaped, did) && kernel.now == old(kernel.now)
    ensures forall p | p in left :: p in alive
    ensures forall p | p in alive :: p in left || p in kernel.reaped
    ensures |seen| == |alive| && forall k | 0 <= k < |alive| :: seen[k].pid == alive[k]
    ensures NoneTwice(alive) ==> NoneTwice(left) && forall k | 0 <= k < |alive| :: seen[k].running <==> alive[k] in left
  {
    left, did, seen := [], [], [];
    for i := 0 to |alive|
      invariant kernel.log == old(kernel.log) + did && kernel.looks == old(kernel.looks) + seen
      invariant forall e | e in did :: e.Collected? && e.pid in alive
      invariant Recorded(old(kernel.reaped), kernel.reaped, did) && kernel.now == old(kernel.now)
      invariant forall p | p in left :: p in alive[..i]
      invariant forall k | 0 <= k < i :: alive[k] in left || alive[k] in kernel.reaped
      invariant |seen| == i && forall k | 0 <= k < i :: seen[k].pid == alive[k]
      invariant NoneTwice(alive) ==> NoneTwice(left) && forall k | 0 <= k < i :: seen[k].running <==> alive[k] in left
    {
      var r := kernel.WaitNoHang(alive[i]);
      seen := seen + [Look(alive[i], kernel.now, r == 0)];
      assert NoneTwice(alive) ==> alive[i] !in alive[..i];
      if r == 0 {
        left := left + [alive[i]];
      }
      if r == 1 {
        did := did + [Collected(alive[i])];
      }
    }
  }

  /** No process is on the list twice. */
  predicate NoneTwice(pids: seq<nat>) {
    forall i, j | 0 <= i < j < |pids| :: pids[i] != pids[j]
  }

  /** A process still waited for has been found running at every look, one for each pause; any other has not. */
  ghost predicate Watched(p: nat, alive: seq<nat>, did: seq<Event>, seen: seq<Look>) {
    if p in alive then SeenRunning(seen, p) && LooksAt(seen, p) >= Sleeps(did) else !SeenRunning(seen, p)
  }

  lemma SweepWatches(p: nat, before: seq<nat>, left: seq<nat>, did: seq<Event>, swept: seq<Event>, seen: seq<Look>,
                     looks: seq<Look>)
    requires Watched(p, before, did, seen) && (forall e | e in swept :: !e.Slept?)
    requires |looks| == |before| && (forall k | 0 <= k < |before| :: looks[k].pid == before[k])
    requires forall k | 0 <= k < |before| :: looks[k].running <==> before[k] in left
    requires forall q | q in left :: q in before
    ensures if p in left then SeenRunning(seen + looks, p) && LooksAt(seen + looks, p) >= Sleeps(did + swept) + 1
            else !SeenRunning(seen + looks, p)
  {
    hide LooksAt, Sleeps;
    SleepsAdd(did, swept);
    NoSleeps(swept);
    LooksAdd(seen, looks, p);
    if p in before {
      var k :| 0 <= k < |before| && before[k] == p;
      LookedAt(looks, k);
      assert looks[k] in seen + looks;
      if p !in left {
        assert !looks[k].running;
      } else {
        forall l | l in seen + looks && l.pid == p
          ensures l.running
        {
          if l !in seen {
            var m :| 0 <= m < |looks| && looks[m] == l;
            assert before[m] == p;
          }
        }
      }
    } else {
      var l :| l in seen && l.pid == p && !l.running;
      assert l in seen + looks;
    }
  }

  lemma PauseWatches(p: nat, alive: seq<nat>, did: seq<Event>, seen: seq<Look>, us: nat)
    requires if p in alive then SeenRunning(seen, p) && LooksAt(seen, p) >= Sleeps(did) + 1 else !SeenRunning(seen, p)
    ensures Watched(p, alive, did + [Slept(us)], seen)
  {
    hide LooksAt, Sleeps, SeenRunning;
    SleepsAdd(did, [Slept(us)]);
    OneSleep(us);
  }

  lemma RecordedOn(before: set<nat>, middle: set<nat>, reaped: set<nat>, did: seq<Event>, more: seq<Event>)
    requires Recorded(before, middle, did) && Recorded(middle, reaped, more)
    ensures Recorded(before, reaped, did + more)
  {
  }

  /** The wait of up to five seconds: a look at every process, ten milliseconds, and again. */
  method AwaitExits(kernel: Kernel, pids: seq<nat>)
      returns (alive: seq<nat>, ghost did: seq<Event>, ghost seen: seq<Look>)
    modifies kernel
    ensures kernel.log == old(kernel.log) + did && kernel.looks == old(kernel.looks) + seen
    ensures forall e | e in did :: e == Slept(10_000) || (e.Collected? && e.pid in pids)
    ensures Recorded(old(kernel.reaped), kernel.reaped, did)
    ensures forall p | p in alive :: p in pids
    ensures forall p | p in pids :: p in alive || p in kernel.reaped
    ensures alive != [] ==> kernel.now >= old(kernel.now) + 5_000_000 && Sleeps(did) > 0
    ensures NoneTwice(pids) ==> forall p | p in pids :: Watched(p, alive, did, seen)
  {
    hide LooksAt, Sleeps, SeenRunning, Watched, Recorded;
    alive, did, seen := pids, [], [];
    NothingYet(pids, kernel.reaped);
    var deadline := kernel.now + STOP_US;
    while alive != [] && kernel.now < deadline
      invariant kernel.log == old(kernel.log) + did && kernel.looks == old(kernel.looks) + seen
      invariant forall e | e in did :: e == Slept(10_000) || (e.Collected? && e.pid in pids)
      invariant Recorded(old(kernel.reaped), kernel.reaped, did)
      invariant forall p | p in alive :: p in pids
      invariant forall p | p in pids :: p in alive || p in kernel.reaped
      invariant kernel.now > old(kernel.now) ==> Sleeps(did) > 0
      invariant NoneTwice(pids) ==> NoneTwice(alive) && forall p | p in pids :: Watched(p, alive, did, seen)
      decreases deadline - kernel.now, |alive|
    {
      ghost var before, was, wasSeen, middle := alive, did, seen, kernel.reaped;
      ghost var swept, looks;
      alive, swept, looks := Sweep(kernel, alive);
      did, seen := was + swept, wasSeen + looks;
      RecordedOn(old(kernel.reaped), middle, kernel.reaped, was, swept);
      SleepsAdd(was, swept);
      if NoneTwice(pids) {
        forall p | p in pids
          ensures if p in alive then SeenRunning(seen, p) && LooksAt(seen, p) >= Sleeps(did) + 1
                  else !SeenRunning(seen, p)
        {
          SweepWatches(p, before, alive, was, swept, wasSeen, looks);
        }
      }
      if alive != [] {
        kernel.Sleep(10000);
        if NoneTwice(pids) {
          forall p | p in pids
            ensures Watched(p, alive, did + [Slept(10000)], seen)
          {
            PauseWatches(p, alive, did, seen, 10000);
          }
        }
        RecordedSleep(old(kernel.reaped), kernel.reaped, did, 10000);
        SleepsAdd(did, [Slept(10000)]);
        OneSleep(10000);
        did := did + [Slept(10000)];
      } else {
        if NoneTwice(pids) {
          forall p | p in pids
            ensures Watched(p, alive, did, seen)
          {
            NoneLeft(p, did, seen);
          }
        }
        break;
      }
    }
  }

  lemma NothingYet(pids: seq<nat>, reaped: set<nat>)
    ensures Recorded(reaped, reaped, [])
    ensures forall p | p in pids :: Watched(p, pids, [], [])
  {
  }

  lemma NoneLeft(p: nat, did: seq<Event>, seen: seq<Look>)
    requires !SeenRunning(seen, p)
    ensures Watched(p, [], did, seen)
  {
  }

  lemma RecordedSleep(before: set<nat>, reaped: set<nat>, did: seq<Event>, us: nat)
    requires Recorded(before, reaped, did)
    ensures Recorded(before, reaped, did + [Slept(us)])
  {
  }

  /** SIGKILL and a wait for each that is left. */
  method Force(kernel: Kernel, alive: seq<nat>) returns (ghost did: seq<Event>)
    modifies kernel
    ensures kernel.log == old(kernel.log) + did && kernel.looks == old(kernel.looks) && kernel.now == old(kernel.now)
    ensures forall e | e in did :: (e.Kill? || e.Collected?) && e.pid in alive
    ensures forall p | p in alive :: Kill(p) in did && p in kernel.reaped
    ensures Recorded(old(kernel.reaped), kernel.reaped, did)
  {
    did := [];
    for i := 0 to |alive|
      invariant kernel.log == old(kernel.log) + did
      invariant kernel.looks == old(kernel.looks) && kernel.now == old(kernel.now)
      invariant forall e | e in did :: (e.Kill? || e.Collected?) && e.pid in alive
      invariant forall k | 0 <= k < i :: Kill(alive[k]) in did && alive[k] in kernel.reaped
      invariant Recorded(old(kernel.reaped), kernel.reaped, did)
    {
      ghost var before := kernel.reaped;
      kernel.KillAndWait(alive[i]);
      did := did + ([Kill(alive[i])] + if alive[i] in before then [] else [Collected(alive[i])]);
    }
  }

  /**
   * Force is the last resort: it comes five seconds after the collecting began or later, and only if every look at the
   * process found it running, one look at least for each of the pauses of ten milliseconds.
   */
  ghost predicate ForcedLate(p: nat, did: seq<Event>, seen: seq<Look>, began: nat, now: nat) {
    && now >= began + 5_000_000
    && SeenRunning(seen, p) && LooksAt(seen, p) >= Sleeps(did) > 0
    && forall e | e in did && e.Slept? :: e.us == 10_000
  }

  /** The wait of up to five seconds, and SIGKILL for whatever is left then. */
  method Reap(kernel: Kernel, pids: seq<nat>) returns (ghost did: seq<Event>, ghost seen: seq<Look>)
    modifies kernel
    ensures kernel.log == old(kernel.log) + did && OnlyCollects(did, pids) && kernel.looks == old(kernel.looks) + seen
    ensures Recorded(old(kernel.reaped), kernel.reaped, did)
    ensures forall p | p in pids :: p in kernel.reaped
    ensures NoneTwice(pids) ==>
              forall p | p in pids ::
                && (Kill(p) in did ==> ForcedLate(p, did, seen, old(kernel.now), kernel.now))
                && (SeenRunning(seen, p) ==> Kill(p) in did)
  {
    hide LooksAt, Sleeps, SeenRunning, Recorded;
    var alive;
    ghost var forced;
    alive, did, seen := AwaitExits(kernel, pids);
    ghost var middle, waited := kernel.reaped, did;
    forced := Force(kernel, alive);
    RecordedOn(old(kernel.reaped), middle, kernel.reaped, waited, forced);
    SleepsAdd(waited, forced);
    NoSleeps(forced);
    did := waited + forced;
  }

  // ---- releasing ----

  function ReleaseOf(c: Child): seq<Event> {
    (if c.pidfd >= 0 then [Closed(c.pidfd)] else []) + (if c.paramFile != "" then [Unlinked(c.paramFile)] else [])
  }

  function Released(children: seq<Child>): seq<Event> {
    if children == [] then [] else Released(children[..|children| - 1]) + ReleaseOf(children[|children| - 1])
  }

  method Release(kernel: Kernel, child: Child)
    modifies kernel`log
    ensures kernel.log == old(kernel.log) + ReleaseOf(child)
  {
    if child.pidfd >= 0 {
      kernel.Note(Closed(child.pidfd));
    }
    if child.paramFile != "" {
      kernel.Note(Unlinked(child.paramFile));
    }
  }

  /**
   * `terminate_children`, given the children taken out of the table and the pids still constructing. First one SIGTERM
   * for each entry, staggered; then every child is collected, by force if need be; only then are descriptors closed and
   * files removed, each once.
   */
  method TerminateChildren(kernel: Kernel, children: seq<Child>, constructing: seq<nat>)
      returns (ghost did: seq<Event>, ghost seen: seq<Look>, ghost began: nat)
    modifies kernel
    ensures var targets := Pids(children) + constructing;
            kernel.log == old(kernel.log) + Staggered(targets, Step(|targets|)) + did + Released(children)
    ensures OnlyCollects(did, Pids(children))
    ensures forall c | c in children :: c.pid in kernel.reaped
    ensures var n := |children| + |constructing|;
            began >= old(kernel.now) + (if n == 0 then 0 else (n - 1) * Step(n))
    ensures kernel.looks == old(kernel.looks) + seen
    ensures NoneTwice(Pids(children)) ==>
              forall c | c in children ::
                && (Kill(c.pid) in did ==> ForcedLate(c.pid, did, seen, began, kernel.now))
                && (SeenRunning(seen, c.pid) ==> Kill(c.pid) in did)
    ensures forall c | c in children && c.pid !in old(kernel.reaped) :: Collected(c.pid) in did
  {
    var toSignal := Pids(children) + constructing;
    Stagger(kernel, toSignal);
    ghost var signalled := kernel.log;
    began := kernel.now;
    did, seen := Reap(kernel, Pids(children));
    assert NoneTwice(Pids(children)) ==> forall c | c in children :: c.pid in Pids(children) by {
      forall c | c in children
        ensures c.pid in Pids(children)
      {
        var k :| 0 <= k < |children| && children[k] == c;
        assert Pids(children)[k] == c.pid;
      }
    }
    forall c | c in children
      ensures c.pid in kernel.reaped
    {
      var k :| 0 <= k < |children| && children[k] == c;
      assert Pids(children)[k] == c.pid;
    }
    ghost var collected := kernel.log;
    ghost var reaped, ended := kernel.reaped, kernel.now;
    for i := 0 to |children|
      invariant kernel.log == collected + Released(children[..i]) && kernel.reaped == reaped
      invariant kernel.now == ended && kernel.looks == old(kernel.looks) + seen
    {
      assert children[..i + 1][..i] == children[..i];
      Release(kernel, children[i]);
    }
    assert children[..|children|] == children;
  }

  /** `cleanup_child`: SIGTERM, half a second of looking, SIGKILL if it still runs, then its descriptor and file. */
  method CleanupChild(kernel: Kernel, child: Child) returns (ghost did: seq<Event>, ghost seen: seq<Look>)
    modifies kernel
    ensures kernel.log == old(kernel.log) + [Term(child.pid)] + did + ReleaseOf(child)
    ensures OnlyCollects(did, [child.pid]) && child.pid in kernel.reaped
    ensures child.pid !in old(kernel.reaped) ==> Collected(child.pid) in did
    ensures kernel.looks == old(kernel.looks) + seen && forall l | l in seen :: l.pid == child.pid
    // force comes after 51 looks and half a second, and only if all of them found it running
    ensures Kill(child.pid) in did <==> SeenRunning(seen, child.pid)
    ensures Kill(child.pid) in did ==>
              && |seen| == 51 && kernel.now >= old(kernel.now) + 500_000
              && Sleeps(did) == 50 && forall e | e in did && e.Slept? :: e.us == 10_000
  {
    hide Sleeps;
    kernel.Note(Term(child.pid));
    did, seen := [], [];
    NoSleeps(did);
    var i := 0;
    while i < 50
      invariant i <= 50 && kernel.log == old(kernel.log) + [Term(child.pid)] + did
      invariant OnlyCollects(did, [child.pid]) && Recorded(old(kernel.reaped), kernel.reaped, did)
      invariant kernel.looks == old(kernel.looks) + seen && forall l | l in seen :: l.pid == child.pid && l.running
      invariant |seen| == i && Sleeps(did) == i && kernel.now >= old(kernel.now) + 10_000 * i
      invariant forall e | e in did :: e == Slept(10_000)
    {
      var r := kernel.WaitNoHang(child.pid);
      seen := seen + [Look(child.pid, kernel.now, r == 0)];
      if r == 1 {
        did := did + [Collected(child.pid)];
      }
      if r != 0 {
        break;
      }
      kernel.Sleep(10000);
      SleepsAdd(did, [Slept(10000)]);
      OneSleep(10000);
      did := did + [Slept(10000)];
      i := i + 1;
    }
    ghost var looked := seen;
    assert i < 50 ==> !looked[|looked| - 1].running;
    var r := kernel.WaitNoHang(child.pid);
    seen := seen + [Look(child.pid, kernel.now, r == 0)];
    if r == 1 {
      SleepsAdd(did, [Collected(child.pid)]);
      did := did + [Collected(child.pid)];
    }
    if r == 0 {
      ghost var before := kernel.reaped;
      ghost var forced := [Kill(child.pid)] + if child.pid in before then [] else [Collected(child.pid)];
      kernel.KillAndWait(child.pid);
      SleepsAdd(did, forced);
      NoSleeps(forced);
      did := did + forced;
    }
    Release(kernel, child);
  }

  // ---- what that comes to ----

  /** SIGTERMs a process is sent: one for each list it is on, so exactly one unless the two lists share it. */
  lemma TermsPerProcess(children: seq<Child>, constructing: seq<nat>, pid: nat)
    requires forall i, j | 0 <= i < j < |children| :: children[i].pid != children[j].pid
    requires forall i, j | 0 <= i < j < |constructing| :: constructing[i] != constructing[j]
    ensures var targets := Pids(children) + constructing;
            var log := Staggered(targets, Step(|targets|));
            && multiset(Terms(log))[pid]
               == (if pid in Pids(children) then 1 else 0) + (if pid in constructing then 1 else 0)
            && Slack(log) <= BUDGET_US && Step(|targets|) <= STEP_US
  {
    var targets := Pids(children) + constructing;
    StaggerIsBounded(targets, Step(|targets|));
    BudgetHolds(|targets|);
    Once(Pids(children), pid);
    Once(constructing, pid);
    assert multiset(targets) == multiset(Pids(children)) + multiset(constructing);
  }

  lemma {:induction false} Once(pids: seq<nat>, pid: nat)
    requires forall i, j | 0 <= i < j < |pids| :: pids[i] != pids[j]
    ensures multiset(pids)[pid] == if pid in pids then 1 else 0
  {
    if pids != [] {
      var init, last := pids[..|pids| - 1], pids[|pids| - 1];
      Once(init, pid);
      assert pids == init + [last];
    }
  }

  /** Every descriptor is closed and every file removed exactly once. */
  lemma {:induction false} ReleasedOnce(children: seq<Child>, k: nat)
    requires k < |children|
    requires forall i, j | 0 <= i < j < |children| && children[i].pidfd >= 0 :: children[i].pidfd != children[j].pidfd
    requires forall i, j | 0 <= i < j < |children| && children[i].paramFile != "" ::
               children[i].paramFile != children[j].paramFile
    ensures children[k].pidfd >= 0 ==> multiset(Released(children))[Closed(children[k].pidfd)] == 1
    ensures children[k].paramFile != "" ==> multiset(Released(children))[Unlinked(children[k].paramFile)] == 1
  {
    hide Released, ReleaseOf;
    var n := |children| - 1;
    var init, last := children[..n], children[n];
    ReleasedIs(children);
    ReleaseCounts(last, children[k]);
    if k == n {
      NotReleased(init, last);
    } else {
      assert init[k] == children[k];
      ReleasedOnce(init, k);
    }
  }

  lemma ReleasedIs(children: seq<Child>)
    requires children != []
    ensures multiset(Released(children))
         == multiset(Released(children[..|children| - 1])) + multiset(ReleaseOf(children[|children| - 1]))
  {
    var a, b := Released(children[..|children| - 1]), ReleaseOf(children[|children| - 1]);
    assert multiset(a + b) == multiset(a) + multiset(b);
  }

  lemma ReleaseCounts(c: Child, d: Child)
    ensures multiset(ReleaseOf(c))[Closed(d.pidfd)] == if c.pidfd >= 0 && c.pidfd == d.pidfd then 1 else 0
    ensures multiset(ReleaseOf(c))[Unlinked(d.paramFile)]
         == if c.paramFile != "" && c.paramFile == d.paramFile then 1 else 0
  {
    var a := if c.pidfd >= 0 then [Closed(c.pidfd)] else [];
    var b := if c.paramFile != "" then [Unlinked(c.paramFile)] else [];
    assert multiset(a + b) == multiset(a) + multiset(b);
  }

  lemma {:induction false} NotReleased(children: seq<Child>, c: Child)
    requires c.pidfd >= 0 ==> forall i | 0 <= i < |children| :: children[i].pidfd != c.pidfd
    requires c.paramFile != "" ==> forall i | 0 <= i < |children| :: children[i].paramFile != c.paramFile
    ensures c.pidfd >= 0 ==> Closed(c.pidfd) !in Released(children)
    ensures c.paramFile != "" ==> Unlinked(c.paramFile) !in Released(children)
  {
    if children != [] {
      NotReleased(children[..|children| - 1], c);
    }
  }

  /** A child's descriptor is closed before its file is removed. */
  lemma DescriptorFirst(c: Child)
    ensures c.pidfd >= 0 && c.paramFile != "" ==> ReleaseOf(c) == [Closed(c.pidfd), Unlinked(c.paramFile)]
    ensures c.pidfd < 0 && c.paramFile == "" ==> ReleaseOf(c) == []
  {
  }
}

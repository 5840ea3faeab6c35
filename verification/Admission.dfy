/** The gate in front of a fork: `await_spawn_capacity`, for every sequence of memory readings. */
module Admission {

  const POLL_MS: nat := 250
  const MAX_WAIT_MS: nat := 120000
  const PROGRESS_MS: nat := 15000
  /** The reading at which the cap is reached. */
  const LAST: nat := 480

  datatype End = Disabled | Unmeasurable | Headroom | CapReached

  datatype Gate = Gate(end: End, slept: seq<nat>, reports: seq<nat>)

  predicate Ends(mem: nat -> int, floor: int, k: nat) {
    mem(k) < 0 || mem(k) >= floor || k >= LAST
  }

  /** The first reading that lets the spawn go on. */
  function First(mem: nat -> int, floor: int, k: nat): (f: nat)
    requires k <= LAST
    ensures k <= f <= LAST && Ends(mem, floor, f)
    ensures forall j | k <= j < f :: !Ends(mem, floor, j)
    decreases LAST - k
  {
    if Ends(mem, floor, k) then k else First(mem, floor, k + 1)
  }

  function Sleeps(n: nat): (s: seq<nat>)
    ensures |s| == n && forall k | 0 <= k < n :: s[k] == POLL_MS
  {
    seq(n, _ => POLL_MS)
  }

  /** A report at the start and at every fifteen seconds, before the reading that ends the wait. */
  function Reports(k: nat): seq<nat> {
    if k == 0 then []
    else if (k - 1) * POLL_MS % PROGRESS_MS == 0 then Reports(k - 1) + [(k - 1) * POLL_MS]
    else Reports(k - 1)
  }

  /** `mem` gives the readings in kB, negative for one that failed; a supervisor is told only if there is a channel. */
  method AwaitSpawnCapacity(mem: nat -> int, floorKb: int, control: bool)
      returns (end: End, slept: seq<nat>, reports: seq<nat>)
    ensures floorKb <= 0 ==> end == Disabled && slept == [] && reports == []
    ensures floorKb > 0 ==>
              var k := First(mem, floorKb, 0);
              && reports == (if control then Reports(k) else [])
              && (mem(k) < 0 ==> end == Unmeasurable && slept == Sleeps(k))
              && (mem(k) >= floorKb ==> end == Headroom && slept == Sleeps(if k > 0 then k + 1 else 0))
              && (0 <= mem(k) < floorKb ==> end == CapReached && slept == Sleeps(k + 1))
  {
    slept, reports := [], [];
    if floorKb <= 0 {
      return Disabled, slept, reports;
    }
    end := CapReached;
    var waitedMs := 0;
    var waited := false;
    var k := 0;
    while true
      invariant k <= LAST && waitedMs == k * POLL_MS && waited == (k > 0)
      invariant First(mem, floorKb, 0) == First(mem, floorKb, k)
      invariant slept == Sleeps(k) && reports == if control then Reports(k) else []
      decreases LAST - k
    {
      var avail := mem(k);
      if avail < 0 {
        return Unmeasurable, slept, reports;
      }
      if avail >= floorKb {
        end := Headroom;
        break;
      }
      waited := true;
      if waitedMs >= MAX_WAIT_MS {
        end := CapReached;
        break;
      }
      if waitedMs % PROGRESS_MS == 0 {
        if control {
          reports := reports + [waitedMs];
        }
      }
      slept := slept + [POLL_MS];
      waitedMs := waitedMs + POLL_MS;
      k := k + 1;
    }
    if waited {
      slept := slept + [POLL_MS];
    }
  }

  function Total(slept: seq<nat>): nat {
    if slept == [] then 0 else slept[0] + Total(slept[1..])
  }

  lemma {:induction false} SleepsTotal(n: nat)
    ensures Total(Sleeps(n)) == n * POLL_MS
  {
    if n > 0 {
      assert Sleeps(n)[1..] == Sleeps(n - 1);
      SleepsTotal(n - 1);
    }
  }

  lemma {:induction false} ReportsCounted(k: nat)
    ensures |Reports(k)| == (k + 59) / 60
    ensures forall r | r in Reports(k) :: r < k * POLL_MS && r % PROGRESS_MS == 0
  {
    if k > 0 {
      ReportsCounted(k - 1);
      assert (k - 1) * POLL_MS % PROGRESS_MS == 0 <==> (k - 1) % 60 == 0 by {
        var q, r := (k - 1) / 60, (k - 1) % 60;
        assert (k - 1) * 250 == q * 15000 + r * 250;
        assert 0 <= r * 250 < 15000;
        Remainder(q, r * 250);
      }
    }
  }

  lemma Remainder(q: nat, r: nat)
    requires r < 15000
    ensures (q * 15000 + r) % 15000 == r
  {
  }

  /** Whatever the readings, the gate asks for at most 120250 ms of sleep and sends at most eight reports. */
  lemma GateIsBounded(mem: nat -> int, floorKb: int)
    ensures var k := First(mem, floorKb, 0);
            && Total(Sleeps(k + 1)) <= 120250
            && |Reports(k)| <= 8
            && (forall r | r in Reports(k) :: r < MAX_WAIT_MS)
  {
    var k := First(mem, floorKb, 0);
    SleepsTotal(k + 1);
    ReportsCounted(k);
  }

  /** Both bounds are met when memory never comes free. */
  lemma BoundsAreMet(mem: nat -> int, floorKb: int)
    requires forall k: nat :: 0 <= mem(k) < floorKb
    ensures First(mem, floorKb, 0) == LAST && Total(Sleeps(LAST + 1)) == 120250 && |Reports(LAST)| == 8
  {
    var f := First(mem, floorKb, 0);
    assert 0 <= mem(f) < floorKb;
    SleepsTotal(LAST + 1);
    ReportsCounted(LAST);
  }

  /** The gate opens at the first reading that fails or reaches the floor, or at the 481st. */
  lemma GateOpens(mem: nat -> int, floorKb: int)
    ensures var k := First(mem, floorKb, 0);
            && k <= 480
            && (forall j | 0 <= j < k :: 0 <= mem(j) < floorKb)
            && (k == 480 || mem(k) < 0 || mem(k) >= floorKb)
  {
    var k := First(mem, floorKb, 0);
    forall j | 0 <= j < k
      ensures 0 <= mem(j) < floorKb
    {
      assert !Ends(mem, floorKb, j);
    }
  }

  /** Readings are a quarter of a second apart, and reports fifteen seconds, the first at once. */
  lemma {:induction false} PacesAre(k: nat)
    ensures forall i | 0 <= i < k :: Sleeps(k)[i] == 250
    ensures |Reports(k)| == (k + 59) / 60 && forall i | 0 <= i < |Reports(k)| :: Reports(k)[i] == 15000 * i
  {
    if k > 0 {
      PacesAre(k - 1);
      ReportsCounted(k);
      ReportsCounted(k - 1);
      var q, r := (k - 1) / 60, (k - 1) % 60;
      assert (k - 1) * 250 == q * 15000 + r * 250;
      Remainder(q, r * 250);
    }
  }
}

/** The ready pipe: the line a child writes when its component is up or has failed, and the parent's wait for it. */
module ReadyPipe {
  import opened Common
  import Decimal

  // ---- the child's side ----

  /** What the kernel makes of each write: so many bytes taken, or none and an error. */
  class PipeEnd {
    var written: string
    var isOpen: bool
    var plan: seq<nat>

    constructor (plan: seq<nat>)
      ensures this.plan == plan && written == "" && isOpen
    {
      this.plan := plan;
      written := "";
      isOpen := true;
    }

    /** Zero stands for an error, an interrupting signal included. Past its plan the kernel takes all. */
    method Write(bytes: string) returns (n: nat)
      requires isOpen
      modifies this
      ensures isOpen && n <= |bytes| && written == old(written) + bytes[..n]
      ensures old(plan) == [] ==> n == |bytes| && plan == []
      ensures old(plan) != [] ==> plan == old(plan)[1..] && (old(plan)[0] == 0 || bytes == "" <==> n == 0)
    {
      n := |bytes|;
      if plan != [] {
        n := if plan[0] < |bytes| then plan[0] else |bytes|;
        plan := plan[1..];
      }
      written := written + bytes[..n];
    }
  }

  /** `write_ready`: the whole line unless a write fails, then the pipe is closed. */
  method WriteReady(pipe: PipeEnd, msg: string)
    requires pipe.isOpen
    modifies pipe
    ensures !pipe.isOpen
    ensures old(pipe.written) <= pipe.written <= old(pipe.written) + (msg + "\n")
    ensures 0 !in old(pipe.plan) ==> pipe.written == old(pipe.written) + (msg + "\n")
  {
    var line := msg + "\n";
    var written := 0;
    while written < |line|
      invariant pipe.isOpen && written <= |line| && pipe.written == old(pipe.written) + line[..written]
      invariant 0 !in old(pipe.plan) ==> 0 !in pipe.plan
      decreases |line| - written
    {
      ghost var plan := pipe.plan;
      var n := pipe.Write(line[written..]);
      assert line[..written] + line[written..][..n] == line[..written + n];
      if n == 0 {
        assert plan[0] == 0;
        written := written + n;
        break;
      }
      written := written + n;
    }
    pipe.isOpen := false;
  }

  // ---- the parent's side ----

  const SLICE_MS: nat := 1000
  const PROGRESS_MS: nat := 15000
  const CHUNK: nat := 1023

  /** One turn of the wait: a poll that fails or passes a second, or bytes, or the pipe's end (or a failed read). */
  datatype Event = Interrupted | PollFails | Quiet(alive: bool) | Chunk(bytes: string) | Eof

  datatype Outcome = Ready | ChildGone | Deadline | PollError | Waiting

  datatype Wait = Wait(outcome: Outcome, buf: string, waited: nat, reports: seq<nat>)

  predicate WellFormed(events: seq<Event>) {
    forall e | e in events && e.Chunk? :: 0 < |e.bytes| <= CHUNK
  }

  predicate HasNewline(s: string) {
    '\n' in s
  }

  /** The wait as far as the events go; `Waiting` if they do not end it. A timeout of zero is none. */
  function WaitOn(events: seq<Event>, timeout: nat, buf: string, waited: nat, reports: seq<nat>): (w: Wait)
    decreases |events|
  {
    if events == [] then Wait(Waiting, buf, waited, reports)
    else
      var rest := events[1..];
      match events[0]
      case Interrupted => WaitOn(rest, timeout, buf, waited, reports)
      case PollFails => Wait(PollError, buf, waited, reports)
      case Quiet(alive) =>
        var now := waited + SLICE_MS;
        if !alive then Wait(ChildGone, buf, now, reports)
        else if timeout > 0 && now >= timeout then Wait(Deadline, buf, now, reports)
        else WaitOn(rest, timeout, buf, now, if now % PROGRESS_MS == 0 then reports + [now] else reports)
      case Eof => Wait(ChildGone, buf, waited, reports)
      case Chunk(bytes) =>
        var longer := buf + UpToNul(bytes);
        if HasNewline(longer) then Wait(Ready, longer, waited, reports)
        else WaitOn(rest, timeout, longer, waited, reports)
  }

  method AppendCString(buf: string, bytes: string) returns (longer: string)
    ensures longer == buf + UpToNul(bytes)
  {
    longer := buf;
    var i := 0;
    while i < |bytes| && bytes[i] != '\0'
      invariant i <= |bytes| && longer + UpToNul(bytes[i..]) == buf + UpToNul(bytes)
    {
      longer := longer + [bytes[i]];
      assert [bytes[i]] + UpToNul(bytes[i + 1..]) == UpToNul(bytes[i..]);
      i := i + 1;
    }
  }

  /** The wait loop of `spawn_child_process`. */
  method AwaitReady(events: seq<Event>, timeout: nat)
      returns (outcome: Outcome, readyBuf: string, waitedMs: nat, reports: seq<nat>)
    ensures Wait(outcome, readyBuf, waitedMs, reports) == WaitOn(events, timeout, "", 0, [])
  {
    readyBuf, waitedMs, reports := "", 0, [];
    var i := 0;
    while i < |events|
      invariant i <= |events|
      invariant WaitOn(events[i..], timeout, readyBuf, waitedMs, reports) == WaitOn(events, timeout, "", 0, [])
    {
      var e := events[i];
      assert events[i..][1..] == events[i + 1..];
      i := i + 1;
      if e.Interrupted? {
        continue;
      }
      if e.PollFails? {
        return PollError, readyBuf, waitedMs, reports;
      }
      if e.Quiet? {
        waitedMs := waitedMs + SLICE_MS;
        if !e.alive {
          return ChildGone, readyBuf, waitedMs, reports;
        }
        if timeout > 0 && waitedMs >= timeout {
          return Deadline, readyBuf, waitedMs, reports;
        }
        if waitedMs % PROGRESS_MS == 0 {
          reports := reports + [waitedMs];
        }
        continue;
      }
      if e.Eof? {
        return ChildGone, readyBuf, waitedMs, reports;
      }
      readyBuf := AppendCString(readyBuf, e.bytes);
      if HasNewline(readyBuf) {
        return Ready, readyBuf, waitedMs, reports;
      }
    }
    outcome := Waiting;
  }

  /** What comes of the load, and whether the child is sent SIGKILL and waited for. */
  datatype Answer = Loaded(name: string) | Failed(why: string, kills: bool)

  function Died(waitedMs: nat): string {
    "component_node exited during construction after " + Decimal.Text(waitedMs / 1000)
    + "s (check the component's own stderr in the load_node log directory)"
  }

  function TooLong(waitedMs: nat): string {
    "component_node still constructing after " + Decimal.Text(waitedMs / 1000)
    + "s when PLAY_LAUNCH_COMPONENT_READY_TIMEOUT_MS expired"
    + " (it was alive; unset the variable to wait as long as it stays alive)"
  }

  const PIPE_FAILED := "component_node ready pipe failed while waiting for it"

  function StartsWith(s: string, t: string): bool {
    |t| <= |s| && s[..|t|] == t
  }

  function Trimmed(buf: string): string {
    if buf != "" && buf[|buf| - 1] == '\n' then buf[..|buf| - 1] else buf
  }

  /** What the child's line says. */
  function Reply(buf: string): Answer {
    var line := Trimmed(buf);
    if StartsWith(line, "OK ") then Loaded(line[3..])
    else if StartsWith(line, "ERR ") then Failed("component_node failed: " + line[4..], true)
    else Failed("component_node: unexpected response: " + line, true)
  }

  function AnswerOf(w: Wait): Answer {
    match w.outcome
    case Ready => Reply(w.buf)
    case ChildGone => Failed(Died(w.waited), false)
    case Deadline => Failed(TooLong(w.waited), true)
    case _ => Failed(PIPE_FAILED, true)
  }

  method Conclude(w: Wait) returns (a: Answer)
    requires !w.outcome.Waiting? && (w.outcome.Ready? ==> HasNewline(w.buf))
    ensures a == AnswerOf(w)
  {
    hide Died, TooLong;
    var buf := w.buf;
    if !w.outcome.Ready? || buf == "" {
      var kills := !w.outcome.ChildGone?;
      if w.outcome.ChildGone? {
        return Failed(Died(w.waited), kills);
      } else if w.outcome.Deadline? {
        return Failed(TooLong(w.waited), kills);
      } else {
        return Failed(PIPE_FAILED, kills);
      }
    }
    if buf[|buf| - 1] == '\n' {
      buf := buf[..|buf| - 1];
    }
    if |buf| >= 3 && buf[..3] == "OK " {
      a := Loaded(buf[3..]);
    } else if |buf| >= 4 && buf[..4] == "ERR " {
      a := Failed("component_node failed: " + buf[4..], true);
    } else {
      a := Failed("component_node: unexpected response: " + buf, true);
    }
  }

  // ---- the two sides together ----

  /** The bytes the parent gets to read, in order. */
  function Bytes(events: seq<Event>): string {
    if events == [] then ""
    else (if events[0].Chunk? then events[0].bytes else "") + Bytes(events[1..])
  }

  /** The time that passes. */
  function Passed(events: seq<Event>): nat {
    if events == [] then 0 else (if events[0].Quiet? then SLICE_MS else 0) + Passed(events[1..])
  }

  /** Nothing but bytes, signals and seconds in which the child lives and the deadline, if any, is not reached. */
  predicate Smooth(events: seq<Event>, timeout: nat, waited: nat) {
    && (forall e | e in events :: e.Chunk? || e.Interrupted? || (e.Quiet? && e.alive))
    && (timeout > 0 ==> waited + Passed(events) < timeout)
  }

  predicate Clean(s: string) {
    '\n' !in s && '\0' !in s
  }

  /** However the line is split, it is complete when its newline arrives, and not before. */
  lemma {:induction false} LineArrives(events: seq<Event>, timeout: nat, buf: string, waited: nat, reports: seq<nat>,
                                       msg: string)
    requires Clean(msg) && WellFormed(events) && Smooth(events, timeout, waited)
    requires buf + Bytes(events) == msg + "\n" && |buf| <= |msg|
    ensures WaitOn(events, timeout, buf, waited, reports).outcome.Ready?
    ensures WaitOn(events, timeout, buf, waited, reports).buf == msg + "\n"
    decreases |events|
  {
    assert events != [];
    var rest := events[1..];
    assert forall e | e in rest :: e in events;
    hide HasNewline, UpToNul, Clean;
    if events[0].Chunk? {
      var bytes := events[0].bytes;
      var longer := buf + bytes;
      PieceArrives(buf, bytes, Bytes(rest), msg);
      if |longer| <= |msg| {
        LineArrives(rest, timeout, longer, waited, reports, msg);
      }
    } else {
      assert Bytes(events) == "" + Bytes(rest) == Bytes(rest);
      var now := if events[0].Quiet? then waited + SLICE_MS else waited;
      LineArrives(rest, timeout, buf, now,
                  if events[0].Quiet? && now % PROGRESS_MS == 0 then reports + [now] else reports, msg);
    }
  }

  lemma PieceArrives(buf: string, bytes: string, later: string, msg: string)
    requires Clean(msg) && buf + (bytes + later) == msg + "\n" && |buf| <= |msg|
    ensures UpToNul(bytes) == bytes && (buf + bytes) + later == msg + "\n"
    ensures if |buf + bytes| <= |msg| then !HasNewline(buf + bytes)
            else buf + bytes == msg + "\n" && HasNewline(buf + bytes)
  {
    var longer := buf + bytes;
    assert longer + later == buf + (bytes + later);
    assert longer == (msg + "\n")[..|longer|];
    assert bytes == (msg + "\n")[|buf|..|longer|];
    SliceIsClean(msg, |buf|, |longer|);
    hide UpToNul;
    if |longer| <= |msg| {
      assert longer == msg[..|longer|];
    } else {
      assert longer[|msg|] == '\n';
    }
  }

  lemma SliceIsClean(msg: string, i: nat, j: nat)
    requires Clean(msg) && i <= j <= |msg| + 1
    ensures UpToNul((msg + "\n")[i..j]) == (msg + "\n")[i..j]
  {
    assert forall c | c in (msg + "\n")[i..j] :: c in msg + "\n";
    CleanStays((msg + "\n")[i..j]);
  }

  /**
   * A name with no newline and no NUL in it comes back exactly, however the kernel splits the line, and so does the
   * text of an error.
   */
  lemma AnswerRecovered(events: seq<Event>, timeout: nat, text: string)
    requires Clean(text) && WellFormed(events) && Smooth(events, timeout, 0)
    ensures Bytes(events) == "OK " + text + "\n" ==>
              var w := WaitOn(events, timeout, "", 0, []);
              w.outcome.Ready? && AnswerOf(w) == Loaded(text)
    ensures Bytes(events) == "ERR " + text + "\n" ==>
              var w := WaitOn(events, timeout, "", 0, []);
              w.outcome.Ready? && AnswerOf(w) == Failed("component_node failed: " + text, true)
  {
    hide WaitOn, Smooth, Reply;
    AnswersParse(text);
    if Bytes(events) == "OK " + text + "\n" {
      assert "" + Bytes(events) == ("OK " + text) + "\n";
      LineArrives(events, timeout, "", 0, [], "OK " + text);
    }
    if Bytes(events) == "ERR " + text + "\n" {
      assert "" + Bytes(events) == ("ERR " + text) + "\n";
      LineArrives(events, timeout, "", 0, [], "ERR " + text);
    }
  }

  lemma AnswersParse(text: string)
    ensures Reply("OK " + text + "\n") == Loaded(text)
    ensures Reply("ERR " + text + "\n") == Failed("component_node failed: " + text, true)
  {
    var ok, err := "OK " + text, "ERR " + text;
    assert Trimmed(ok + "\n") == ok && ok[..3] == "OK " && ok[3..] == text;
    assert Trimmed(err + "\n") == err && err[..4] == "ERR " && err[4..] == text && err[0] != 'O';
  }

  /** One byte at a time. */
  function Singles(line: string): (events: seq<Event>)
    ensures WellFormed(events) && |events| == |line|
    ensures forall e | e in events :: e.Chunk?
  {
    if line == "" then [] else [Chunk([line[0]])] + Singles(line[1..])
  }

  lemma {:induction false} SinglesBytes(line: string)
    ensures Bytes(Singles(line)) == line && Passed(Singles(line)) == 0
  {
    if line != "" {
      SinglesBytes(line[1..]);
      assert Singles(line)[1..] == Singles(line[1..]);
      assert line == [line[0]] + line[1..];
    }
  }

  lemma OneByte(c: char)
    ensures UpToNul([c]) == if c == '\0' then "" else [c]
  {
    assert [c][1..] == "";
  }

  /** Read one byte at a time, a line ends at its first newline and loses its NULs. */
  lemma {:induction false} SinglesWait(line: string, buf: string, k: nat)
    requires k < |line| && line[k] == '\n' && '\n' !in line[..k] && !HasNewline(buf) && '\0' !in buf
    ensures var w := WaitOn(Singles(line), 0, buf, 0, []);
            && w.outcome.Ready? && |w.buf| <= |buf| + k + 1
            && '\0' !in w.buf && w.buf != "" && w.buf[|w.buf| - 1] == '\n'
    decreases k
  {
    var c := line[0];
    var longer := buf + UpToNul([c]);
    OneByte(c);
    assert Singles(line)[1..] == Singles(line[1..]) && Singles(line)[0] == Chunk([c]);
    if k > 0 {
      assert line[..k][0] == c && c != '\n';
      assert line[1..][..k - 1] == line[..k][1..];
      assert !HasNewline(longer) && '\0' !in longer;
      SinglesWait(line[1..], longer, k - 1);
    } else {
      assert longer == buf + ['\n'];
    }
  }

  lemma {:induction false} FirstNewline(s: string) returns (k: nat)
    requires '\n' in s
    ensures k < |s| && s[k] == '\n' && '\n' !in s[..k]
  {
    if s[0] == '\n' {
      k := 0;
    } else {
      k := FirstNewline(s[1..]);
      assert s[..k + 1] == [s[0]] + s[1..][..k];
      k := k + 1;
    }
  }

  lemma FirstIsFirst(s: string, k: nat, j: nat)
    requires k < |s| && j < |s| && s[j] == '\n' && '\n' !in s[..k]
    ensures k <= j
  {
    assert forall i | 0 <= i < k :: s[i] == s[..k][i] && s[..k][i] in s[..k];
  }

  /**
   * The condition is exact: a name comes back under every way of splitting the line if and only if it has no newline
   * and no NUL.
   */
  lemma RecoveredIffClean(name: string)
    ensures Clean(name) <==>
              forall events: seq<Event> |
                WellFormed(events) && Smooth(events, 0, 0) && Bytes(events) == "OK " + name + "\n" ::
                AnswerOf(WaitOn(events, 0, "", 0, [])) == Loaded(name)
  {
    if Clean(name) {
      forall events: seq<Event> |
        WellFormed(events) && Smooth(events, 0, 0) && Bytes(events) == "OK " + name + "\n"
        ensures AnswerOf(WaitOn(events, 0, "", 0, [])) == Loaded(name)
      {
        AnswerRecovered(events, 0, name);
      }
    } else {
      UncleanIsLost(name);
    }
  }

  /** A name is a part of what was read, without "OK " and the newline. */
  lemma NameIsPart(buf: string)
    requires buf != "" && buf[|buf| - 1] == '\n' && Reply(buf).Loaded?
    ensures Reply(buf).name == buf[3..|buf| - 1] && |buf| >= 4
  {
    assert Trimmed(buf) == buf[..|buf| - 1];
    assert |Trimmed(buf)| >= 3;
  }

  /** A name with a newline or a NUL in it is lost when it is read one byte at a time. */
  lemma UncleanIsLost(name: string)
    requires !Clean(name)
    ensures var events := Singles("OK " + name + "\n");
            && WellFormed(events) && Smooth(events, 0, 0) && Bytes(events) == "OK " + name + "\n"
            && AnswerOf(WaitOn(events, 0, "", 0, [])) != Loaded(name)
  {
    hide Reply, WaitOn, UpToNul, Bytes, Singles;
    var line := "OK " + name + "\n";
    var events := Singles(line);
    SinglesBytes(line);
    assert line[|line| - 1] == '\n';
    var k := FirstNewline(line);
    SinglesWait(line, "", k);
    var w := WaitOn(events, 0, "", 0, []);
    if AnswerOf(w).Loaded? {
      NameIsPart(w.buf);
      if '\n' in name {
        var m := FirstNewline(name);
        assert line[3 + m] == name[m];
        FirstIsFirst(line, k, 3 + m);
      }
    }
  }

  /** A line that was not written to its end is never taken for an answer; the parent takes the child for dead. */
  lemma {:induction false} PartialIsNoAnswer(events: seq<Event>, timeout: nat, buf: string, waited: nat,
                                             reports: seq<nat>)
    requires '\n' !in buf + Bytes(events)
    ensures !WaitOn(events, timeout, buf, waited, reports).outcome.Ready?
    ensures Eof in events && (forall e | e in events :: !e.PollFails? && !e.Quiet?) ==>
              AnswerOf(WaitOn(events, timeout, buf, waited, reports)) == Failed(Died(waited), false)
    decreases |events|
  {
    hide Died, TooLong, Reply;
    if events != [] {
      var rest := events[1..];
      assert forall e | e in events :: e == events[0] || e in rest;
      if events[0].Chunk? {
        var bytes := events[0].bytes;
        var longer := buf + UpToNul(bytes);
        UpToNulPart(bytes);
        assert forall c | c in longer + Bytes(rest) :: c in buf || c in bytes || c in Bytes(rest);
        assert forall c | c in buf || c in bytes || c in Bytes(rest) :: c in buf + (bytes + Bytes(rest));
        PartialIsNoAnswer(rest, timeout, longer, waited, reports);
      } else if events[0].Quiet? {
        assert "" + Bytes(rest) == Bytes(rest);
        var now := waited + SLICE_MS;
        PartialIsNoAnswer(rest, timeout, buf, now, if now % PROGRESS_MS == 0 then reports + [now] else reports);
      } else {
        assert "" + Bytes(rest) == Bytes(rest);
        PartialIsNoAnswer(rest, timeout, buf, waited, reports);
      }
    }
  }

  lemma {:induction false} UpToNulPart(bytes: string)
    ensures forall c | c in UpToNul(bytes) :: c in bytes
  {
    if bytes != "" {
      UpToNulPart(bytes[1..]);
      assert forall c | c in bytes[1..] :: c in bytes;
    }
  }

  ghost predicate Measured(w: Wait, timeout: nat) {
    && (w.outcome.Deadline? ==>
          timeout > 0 && w.waited % SLICE_MS == 0 && SLICE_MS <= w.waited
          && timeout <= w.waited < timeout + SLICE_MS)
    && (timeout > 0 ==> w.waited < timeout + SLICE_MS)
    && (w.outcome.Ready? || w.outcome.Waiting? || w.outcome.PollError? ==> w.reports == Marks(w.waited))
    && (w.outcome.Deadline? ==> w.reports == Marks(w.waited - SLICE_MS))
    && (w.outcome.ChildGone? ==>
          w.reports == Marks(w.waited) || (w.waited >= SLICE_MS && w.reports == Marks(w.waited - SLICE_MS)))
  }

  lemma {:induction false} Measures(events: seq<Event>, timeout: nat, buf: string, waited: nat, reports: seq<nat>)
    requires waited % SLICE_MS == 0 && (timeout > 0 ==> waited < timeout)
    requires reports == Marks(waited)
    ensures Measured(WaitOn(events, timeout, buf, waited, reports), timeout)
    decreases |events|
  {
    hide UpToNul, HasNewline, Marks;
    if events != [] {
      var rest := events[1..];
      match events[0]
      case Interrupted => Measures(rest, timeout, buf, waited, reports);
      case Chunk(bytes) => Measures(rest, timeout, buf + UpToNul(bytes), waited, reports);
      case Quiet(alive) =>
        var now := waited + SLICE_MS;
        NextMark(waited);
        if alive && !(timeout > 0 && now >= timeout) {
          hide Measured;
          Measures(rest, timeout, buf, now, if now % PROGRESS_MS == 0 then reports + [now] else reports);
        }
      case _ =>
    }
  }

  /**
   * The deadline is given only when one was asked for, at the first whole second that reaches it, and by then there
   * was a report for every fifteen seconds waited.
   */
  lemma WaitIsMeasured(events: seq<Event>, timeout: nat, buf: string, waited: nat, reports: seq<nat>)
    requires waited % SLICE_MS == 0 && (timeout > 0 ==> waited < timeout)
    requires reports == Marks(waited)
    ensures var w := WaitOn(events, timeout, buf, waited, reports);
            && (w.outcome.Deadline? ==>
                  timeout > 0 && w.waited % SLICE_MS == 0 && SLICE_MS <= w.waited
                  && timeout <= w.waited < timeout + SLICE_MS)
            && (timeout > 0 ==> w.waited < timeout + SLICE_MS)
            && (w.outcome.Ready? || w.outcome.Waiting? || w.outcome.PollError? ==> w.reports == Marks(w.waited))
            // the second that shows the deadline or the death is not reported
            && (w.outcome.Deadline? ==> w.reports == Marks(w.waited - SLICE_MS))
            && (w.outcome.ChildGone? ==>
                  w.reports == Marks(w.waited) || (w.waited >= SLICE_MS && w.reports == Marks(w.waited - SLICE_MS)))
  {
    hide WaitOn, Marks;
    Measures(events, timeout, buf, waited, reports);
  }

  /**
   * The outcome names what happened: a deadline is blamed only on a child found alive in that very second, a death only
   * where the process was found gone or the pipe ended, and a child is killed exactly when it was not found gone.
   */
  lemma OutcomeIsTrue(events: seq<Event>, timeout: nat, buf: string, waited: nat, reports: seq<nat>) returns (k: nat)
    requires !WaitOn(events, timeout, buf, waited, reports).outcome.Waiting?
    ensures var w := WaitOn(events, timeout, buf, waited, reports);
            && EndsAt(events, k, w.outcome) && (w.outcome.Ready? ==> HasNewline(w.buf))
            && (AnswerOf(w).Failed? ==> AnswerOf(w).kills == !w.outcome.ChildGone?)
  {
    k := EndFound(events, timeout, buf, waited, reports);
    hide WaitOn, EndsAt, HasNewline;
    KillsUnlessGone(WaitOn(events, timeout, buf, waited, reports));
  }

  lemma KillsUnlessGone(w: Wait)
    ensures AnswerOf(w).Failed? ==> AnswerOf(w).kills == !w.outcome.ChildGone?
  {
    hide Trimmed, StartsWith, Died, TooLong;
  }

  /** Event `k` ends the wait, as the outcome says; none before it does. */
  predicate EndsAt(events: seq<Event>, k: nat, outcome: Outcome) {
    && k < |events|
    && (outcome.Ready? <==> events[k].Chunk?)
    && (outcome.PollError? <==> events[k].PollFails?)
    && (outcome.Deadline? <==> events[k] == Quiet(true))
    && (outcome.ChildGone? <==> events[k] == Quiet(false) || events[k].Eof?)
    && forall j | 0 <= j < k :: !events[j].PollFails? && !events[j].Eof? && events[j] != Quiet(false)
  }

  lemma LaterEnd(events: seq<Event>, k: nat, outcome: Outcome)
    requires events != [] && EndsAt(events[1..], k, outcome)
    requires !events[0].PollFails? && !events[0].Eof? && events[0] != Quiet(false)
    ensures EndsAt(events, k + 1, outcome)
  {
    assert forall j | 0 < j <= k :: events[j] == events[1..][j - 1];
  }

  lemma {:induction false} EndFound(events: seq<Event>, timeout: nat, buf: string, waited: nat, reports: seq<nat>)
      returns (k: nat)
    requires !WaitOn(events, timeout, buf, waited, reports).outcome.Waiting?
    ensures var w := WaitOn(events, timeout, buf, waited, reports);
            EndsAt(events, k, w.outcome) && (w.outcome.Ready? ==> HasNewline(w.buf))
    decreases |events|
  {
    hide HasNewline, UpToNul;
    k := 0;
    var rest := events[1..];
    match events[0]
    case Interrupted =>
      k := EndFound(rest, timeout, buf, waited, reports);
      LaterEnd(events, k, WaitOn(events, timeout, buf, waited, reports).outcome);
      k := k + 1;
    case Chunk(bytes) =>
      if !HasNewline(buf + UpToNul(bytes)) {
        k := EndFound(rest, timeout, buf + UpToNul(bytes), waited, reports);
        LaterEnd(events, k, WaitOn(events, timeout, buf, waited, reports).outcome);
        k := k + 1;
      }
    case Quiet(alive) =>
      var now := waited + SLICE_MS;
      if alive && !(timeout > 0 && now >= timeout) {
        k := EndFound(rest, timeout, buf, now, if now % PROGRESS_MS == 0 then reports + [now] else reports);
        LaterEnd(events, k, WaitOn(events, timeout, buf, waited, reports).outcome);
        k := k + 1;
      }
    case _ =>
  }

  /** Every multiple of fifteen seconds up to `waited`. */
  function Marks(waited: nat): (r: seq<nat>)
    ensures |r| == waited / PROGRESS_MS && forall k | 0 <= k < |r| :: r[k] == (k + 1) * PROGRESS_MS
  {
    seq(waited / PROGRESS_MS, k requires 0 <= k => (k + 1) * PROGRESS_MS)
  }

  lemma NextMark(waited: nat)
    requires waited % SLICE_MS == 0
    ensures var now := waited + SLICE_MS;
            Marks(now) == if now % PROGRESS_MS == 0 then Marks(waited) + [now] else Marks(waited)
  {
    var now := waited + SLICE_MS;
    assert now / PROGRESS_MS == if now % PROGRESS_MS == 0 then waited / PROGRESS_MS + 1 else waited / PROGRESS_MS by {
      var q := waited / SLICE_MS;
      assert waited == q * 1000;
      assert waited / PROGRESS_MS == q / 15 && now / PROGRESS_MS == (q + 1) / 15;
    }
  }

  /** The time waited is a second for each poll that found nothing. */
  function QuietPolls(events: seq<Event>): nat {
    if events == [] then 0 else (if events[0].Quiet? then 1 else 0) + QuietPolls(events[1..])
  }

  lemma {:induction false} SecondsArePolled(events: seq<Event>, timeout: nat, buf: string, waited: nat,
                                            reports: seq<nat>)
    ensures var w := WaitOn(events, timeout, buf, waited, reports);
            && w.waited <= waited + 1000 * QuietPolls(events)
            && (w.outcome.Waiting? ==> w.waited == waited + 1000 * QuietPolls(events))
    decreases |events|
  {
    hide UpToNul, HasNewline;
    if events != [] {
      var rest := events[1..];
      match events[0]
      case Interrupted => SecondsArePolled(rest, timeout, buf, waited, reports);
      case Chunk(bytes) => SecondsArePolled(rest, timeout, buf + UpToNul(bytes), waited, reports);
      case Quiet(_) =>
        var now := waited + SLICE_MS;
        SecondsArePolled(rest, timeout, buf, now, if now % PROGRESS_MS == 0 then reports + [now] else reports);
      case _ =>
    }
  }

  /** In numbers: a deadline falls within a second of the time asked for, and reports are fifteen seconds apart. */
  lemma WaitInNumbers(events: seq<Event>, timeout: nat)
    ensures var w := WaitOn(events, timeout, "", 0, []);
            && (w.outcome.Deadline? ==> timeout > 0 && timeout <= w.waited < timeout + 1000)
            && (w.outcome.Ready? ==>
                  |w.reports| == w.waited / 15000 && forall k | 0 <= k < |w.reports| :: w.reports[k] == (k + 1) * 15000)
  {
    assert Marks(0) == [];
    WaitIsMeasured(events, timeout, "", 0, []);
  }

  /** The error texts, word for word. */
  lemma ErrorsAreSpelled(seconds: nat, ms: nat, w: Wait)
    requires ms < 1000 && w.waited == 1000 * seconds + ms
    ensures w.outcome.ChildGone? ==>
              AnswerOf(w) == Failed("component_node exited during construction after " + Decimal.Text(seconds)
                                    + "s (check the component's own stderr in the load_node log directory)", false)
    ensures w.outcome.Deadline? ==>
              AnswerOf(w) == Failed("component_node still constructing after " + Decimal.Text(seconds)
                                    + "s when PLAY_LAUNCH_COMPONENT_READY_TIMEOUT_MS expired"
                                    + " (it was alive; unset the variable to wait as long as it stays alive)", true)
    ensures w.outcome.PollError? ==>
              AnswerOf(w) == Failed("component_node ready pipe failed while waiting for it", true)
  {
    hide Decimal.Text, Reply;
    assert w.waited / 1000 == seconds;
  }

  /** And a line that is neither is handed on as it is, and the child is killed. */
  lemma OtherLinesFail(line: string)
    requires |line| >= 4 && line[..3] != "OK " && line[..4] != "ERR " && '\n' !in line
    ensures Reply(line + "\n") == Failed("component_node: unexpected response: " + line, true)
  {
    assert (line + "\n")[..|line|] == line;
  }
}

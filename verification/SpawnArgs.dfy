/** The argument list a parent builds for `component_node`, and what `component_node` reads out of it. */
module SpawnArgs {
  import opened Common
  import opened JsonValue
  import Decimal

  /** The words both sides know. */
  datatype Flag = Package | Plugin | ReadyFd | Multi | Forward | Threads | Ros

  function Word(f: Flag): string {
    match f
    case Package => "--package"
    case Plugin => "--plugin"
    case ReadyFd => "--ready-fd"
    case Multi => "--use-multi-threaded-executor"
    case Forward => "--forward-global-arguments"
    case Threads => "--executor-threads"
    case Ros => "--ros-args"
  }

  lemma WordsDiffer(f: Flag, g: Flag)
    ensures Word(f) == Word(g) ==> f == g
  {
    assert Word(ReadyFd)[3] == 'e' && Word(Ros)[3] == 'o';
  }

  lemma WordsAreClean(f: Flag)
    ensures UpToNul(Word(f)) == Word(f)
  {
    CleanStays(Word(f));
  }

  // ---- the parent ----

  datatype ExtraValue = BoolValue(b: bool) | StringValue(s: string) | IntegerValue(i: int) | OtherValue

  datatype Extra = Extra(name: string, value: ExtraValue)

  datatype Request = Request(
    package: string,
    plugin: string,
    nodeName: string,
    nodeNamespace: string,
    logLevel: nat,
    remaps: seq<string>,
    extras: seq<Extra>)

  /** The arguments one extra adds; a log directory is kept for the redirection of the child's output instead. */
  function ExtraArgs(e: Extra): seq<string> {
    if e.name == "forward_global_arguments" && e.value.BoolValue? then
      if e.value.b then [Word(Forward)] else []
    else if e.name == "executor_threads" && e.value.IntegerValue? && e.value.i > 0 then
      [Word(Threads), Decimal.Text(e.value.i)]
    else []
  }

  function AllExtras(es: seq<Extra>): seq<string> {
    if es == [] then [] else AllExtras(es[..|es| - 1]) + ExtraArgs(es[|es| - 1])
  }

  function Remaps(rs: seq<string>): seq<string> {
    if rs == [] then [] else Remaps(rs[..|rs| - 1]) + ["-r", rs[|rs| - 1]]
  }

  /** A relative namespace is made absolute. */
  function Absolute(ns: string): string
    requires ns != ""
  {
    if ns[0] == '/' then ns else "/" + ns
  }

  function NameArgs(r: Request): seq<string> {
    if r.nodeName != "" then ["-r", "__node:=" + r.nodeName] else []
  }

  function NamespaceArgs(r: Request): seq<string> {
    if r.nodeNamespace != "" then ["-r", "__ns:=" + Absolute(r.nodeNamespace)] else []
  }

  function LevelArgs(r: Request): seq<string> {
    if r.logLevel > 0 then ["--log-level", Decimal.Text(r.logLevel)] else []
  }

  function ParamsArgs(paramFile: string): seq<string> {
    if paramFile != "" then ["--params-file", paramFile] else []
  }

  function RosArgs(r: Request, paramFile: string): seq<string> {
    [Word(Ros)] + NameArgs(r) + NamespaceArgs(r) + LevelArgs(r) + Remaps(r.remaps) + ParamsArgs(paramFile)
  }

  function Options(r: Request, multi: bool, fd: nat): seq<string> {
    [Word(Package), r.package, Word(Plugin), r.plugin, Word(ReadyFd), Decimal.Text(fd)]
    + (if multi then [Word(Multi)] else [])
    + AllExtras(r.extras)
  }

  function Args(path: string, r: Request, multi: bool, fd: nat, paramFile: string): seq<string> {
    [path] + Options(r, multi, fd) + RosArgs(r, paramFile)
  }

  method BuildArgs(path: string, r: Request, multi: bool, fd: nat, paramFile: string)
      returns (args: seq<string>, logDir: string)
    ensures args == Args(path, r, multi, fd, paramFile)
    ensures logDir == LastLogDir(r.extras)
  {
    hide Word, AllExtras, RosArgs, LastLogDir;
    args := [path, Word(Package), r.package, Word(Plugin), r.plugin, Word(ReadyFd), ""];
    if multi {
      args := args + [Word(Multi)];
    }
    ghost var base := args;
    args, logDir := AddExtras(args, r.extras);
    args := AddRosArgs(args, r, paramFile);
    args := args[6 := Decimal.Text(fd)];
    assert args == base[6 := Decimal.Text(fd)] + AllExtras(r.extras) + RosArgs(r, paramFile);
    assert base[6 := Decimal.Text(fd)] + AllExtras(r.extras) == [path] + Options(r, multi, fd);
  }

  /** The loop over the extra arguments. */
  method AddExtras(base: seq<string>, extras: seq<Extra>) returns (args: seq<string>, logDir: string)
    ensures args == base + AllExtras(extras) && logDir == LastLogDir(extras)
  {
    hide Word;
    args, logDir := base, "";
    for k := 0 to |extras|
      invariant args == base + AllExtras(extras[..k]) && logDir == LastLogDir(extras[..k])
    {
      var extra := extras[k];
      assert extras[..k + 1][..k] == extras[..k];
      assert base + AllExtras(extras[..k]) + ExtraArgs(extra) == base + (AllExtras(extras[..k]) + ExtraArgs(extra));
      if extra.name == "forward_global_arguments" && extra.value.BoolValue? {
        if extra.value.b {
          args := args + [Word(Forward)];
        }
      } else if extra.name == "log_dir" && extra.value.StringValue? {
        logDir := extra.value.s;
      } else if extra.name == "executor_threads" && extra.value.IntegerValue? && extra.value.i > 0 {
        args := args + [Word(Threads)];
        args := args + [Decimal.Text(extra.value.i)];
      }
    }
    assert extras[..|extras|] == extras;
  }

  /** The loop over the remapping rules. */
  method AddRemaps(base: seq<string>, remaps: seq<string>) returns (ros: seq<string>)
    ensures ros == base + Remaps(remaps)
  {
    ros := base;
    for k := 0 to |remaps|
      invariant ros == base + Remaps(remaps[..k])
    {
      assert remaps[..k + 1][..k] == remaps[..k];
      ros := ros + ["-r", remaps[k]];
    }
    assert remaps[..|remaps|] == remaps;
  }

  /** From `--ros-args` on. */
  method AddRosArgs(base: seq<string>, r: Request, paramFile: string) returns (args: seq<string>)
    ensures args == base + RosArgs(r, paramFile)
  {
    hide Word;
    var ros := [Word(Ros)];
    ghost var was := ros;
    if r.nodeName != "" {
      ros := ros + ["-r", "__node:=" + r.nodeName];
    }
    assert ros == was + NameArgs(r);
    was := ros;
    if r.nodeNamespace != "" {
      var ns := r.nodeNamespace;
      if ns[0] != '/' {
        ns := "/" + ns;
      }
      ros := ros + ["-r", "__ns:=" + ns];
    }
    assert ros == was + NamespaceArgs(r);
    was := ros;
    if r.logLevel > 0 {
      ros := ros + ["--log-level", Decimal.Text(r.logLevel)];
    }
    assert ros == was + LevelArgs(r);
    hide NameArgs, NamespaceArgs, LevelArgs;
    was := ros;
    ros := AddRemaps(ros, r.remaps);
    hide Remaps;
    was := ros;
    if paramFile != "" {
      ros := ros + ["--params-file", paramFile];
    }
    assert ros == was + ParamsArgs(paramFile);
    args := base + ros;
  }

  /** Where the child's output goes: the last directory given. */
  function LastLogDir(es: seq<Extra>): string {
    if es == [] then ""
    else
      var last := es[|es| - 1];
      if last.name == "log_dir" && last.value.StringValue? then last.value.s else LastLogDir(es[..|es| - 1])
  }

  // ---- the child ----

  const INT_MAX: int := 0x7FFF_FFFF

  /** `isspace` in the C locale. */
  predicate CSpace(c: char) {
    c == ' ' || 9 <= c as int <= 13
  }

  function SkipCSpace(s: string): string {
    if s != "" && CSpace(s[0]) then SkipCSpace(s[1..]) else s
  }

  /** The low 32 bits as a signed number. */
  function Int32(n: int): (r: int)
    ensures -0x8000_0000 <= r <= INT_MAX
    ensures -0x8000_0000 <= n <= INT_MAX ==> r == n
  {
    (n + 0x8000_0000) % 0x1_0000_0000 - 0x8000_0000
  }

  /** `atoi` as the GNU C library has it: `strtol`, held to 64 bits, then cut down to 32. */
  function Atoi(s: string): int {
    var r := Scan(SkipCSpace(s));
    if r.None? then 0
    else
      var n := if r.value.negative then -(r.value.magnitude as int) else r.value.magnitude;
      Int32(if n >= TWO_63 then TWO_63 - 1 else if n < -TWO_63 then -TWO_63 else n)
  }

  /** What `main` has when its argument loop ends. */
  datatype Parsed = Parsed(
    package: string,
    plugin: string,
    readyFd: int,
    multi: bool,
    forward: bool,
    threads: nat,
    rosArgsStart: nat)

  /** `static_cast<size_t>` of an `int`. */
  function ToSize(n: int): nat {
    n % TWO_64
  }

  function ParseFrom(argv: seq<string>, i: nat, p: Parsed): Parsed
    decreases |argv| - i
  {
    if i >= |argv| then p
    else if argv[i] == Word(Ros) then p.(rosArgsStart := i)
    else if argv[i] == Word(Package) && i + 1 < |argv| then ParseFrom(argv, i + 2, p.(package := argv[i + 1]))
    else if argv[i] == Word(Plugin) && i + 1 < |argv| then ParseFrom(argv, i + 2, p.(plugin := argv[i + 1]))
    else if argv[i] == Word(ReadyFd) && i + 1 < |argv| then ParseFrom(argv, i + 2, p.(readyFd := Atoi(argv[i + 1])))
    else if argv[i] == Word(Multi) then ParseFrom(argv, i + 1, p.(multi := true))
    else if argv[i] == Word(Forward) then ParseFrom(argv, i + 1, p.(forward := true))
    else if argv[i] == Word(Threads) && i + 1 < |argv| then
      ParseFrom(argv, i + 2, p.(threads := ToSize(Atoi(argv[i + 1]))))
    else ParseFrom(argv, i + 1, p)
  }

  function Defaults(argc: nat): Parsed {
    Parsed("", "", -1, false, false, 0, argc)
  }

  method ParseArgs(argv: seq<string>) returns (p: Parsed, rosArgs: seq<string>)
    ensures p == ParseFrom(argv, 1, Defaults(|argv|))
    ensures p.rosArgsStart <= |argv| && rosArgs == argv[p.rosArgsStart..]
  {
    var package, plugin := "", "";
    var readyFd, multi, forward, threads := -1, false, false, 0;
    var rosArgsStart := |argv|;
    var i := 1;
    while i < |argv|
      invariant rosArgsStart == |argv| && i >= 1
      invariant ParseFrom(argv, i, Parsed(package, plugin, readyFd, multi, forward, threads, rosArgsStart))
             == ParseFrom(argv, 1, Defaults(|argv|))
    {
      var arg := argv[i];
      if arg == Word(Ros) {
        rosArgsStart := i;
        break;
      }
      if arg == Word(Package) && i + 1 < |argv| {
        i := i + 1;
        package := argv[i];
      } else if arg == Word(Plugin) && i + 1 < |argv| {
        i := i + 1;
        plugin := argv[i];
      } else if arg == Word(ReadyFd) && i + 1 < |argv| {
        i := i + 1;
        readyFd := Atoi(argv[i]);
      } else if arg == Word(Multi) {
        multi := true;
      } else if arg == Word(Forward) {
        forward := true;
      } else if arg == Word(Threads) && i + 1 < |argv| {
        i := i + 1;
        threads := ToSize(Atoi(argv[i]));
      }
      i := i + 1;
    }
    p := Parsed(package, plugin, readyFd, multi, forward, threads, rosArgsStart);
    rosArgs := argv[rosArgsStart..];
  }

  // ---- what the child gets of what the parent meant ----

  /** `execvp` hands every argument on as a C string. */
  function Handed(args: seq<string>): (argv: seq<string>)
    ensures |argv| == |args| && forall k | 0 <= k < |args| :: argv[k] == UpToNul(args[k])
  {
    seq(|args|, k requires 0 <= k < |args| => UpToNul(args[k]))
  }

  predicate AsksForward(e: Extra) {
    e.name == "forward_global_arguments" && e.value == BoolValue(true)
  }

  predicate AsksThreads(e: Extra) {
    e.name == "executor_threads" && e.value.IntegerValue? && e.value.i > 0
  }

  /** The last positive thread count asked for; zero leaves it to the node. */
  function LastThreads(es: seq<Extra>): nat {
    if es == [] then 0
    else if AsksThreads(es[|es| - 1]) then es[|es| - 1].value.i
    else LastThreads(es[..|es| - 1])
  }

  /** Extra thread counts that are the C type's to hold. */
  predicate ThreadsFit(es: seq<Extra>) {
    forall e | e in es && AsksThreads(e) :: e.value.i <= INT_MAX
  }

  lemma NumberHanded(n: nat)
    ensures UpToNul(Decimal.Text(n)) == Decimal.Text(n)
    ensures n < TWO_63 ==> Atoi(Decimal.Text(n)) == Int32(n)
  {
    CleanStays(Decimal.Text(n));
    Decimal.TextReads(n);
  }

  /** `part` stands in `argv` at `i`. */
  predicate Placed(argv: seq<string>, i: nat, part: seq<string>) {
    i + |part| <= |argv| && forall k | 0 <= k < |part| :: argv[i + k] == UpToNul(part[k])
  }

  /** What the extras make of the child's settings. */
  function WithExtras(p: Parsed, es: seq<Extra>): Parsed {
    p.(forward := p.forward || exists e :: e in es && AsksForward(e),
       threads := if LastThreads(es) > 0 then LastThreads(es) else p.threads)
  }

  /** One turn of the child's loop. */
  lemma FlagParsed(argv: seq<string>, i: nat, p: Parsed, f: Flag)
    requires i < |argv| && argv[i] == Word(f)
    ensures match f
            case Package => i + 1 < |argv| ==>
              ParseFrom(argv, i, p) == ParseFrom(argv, i + 2, p.(package := argv[i + 1]))
            case Plugin => i + 1 < |argv| ==>
              ParseFrom(argv, i, p) == ParseFrom(argv, i + 2, p.(plugin := argv[i + 1]))
            case ReadyFd => i + 1 < |argv| ==>
              ParseFrom(argv, i, p) == ParseFrom(argv, i + 2, p.(readyFd := Atoi(argv[i + 1])))
            case Multi => ParseFrom(argv, i, p) == ParseFrom(argv, i + 1, p.(multi := true))
            case Forward => ParseFrom(argv, i, p) == ParseFrom(argv, i + 1, p.(forward := true))
            case Threads => i + 1 < |argv| ==>
              ParseFrom(argv, i, p) == ParseFrom(argv, i + 2, p.(threads := ToSize(Atoi(argv[i + 1]))))
            case Ros => ParseFrom(argv, i, p) == p.(rosArgsStart := i)
  {
    hide Word, Atoi, ToSize;
    WordsDiffer(f, Package);
    WordsDiffer(f, Plugin);
    WordsDiffer(f, ReadyFd);
    WordsDiffer(f, Multi);
    WordsDiffer(f, Forward);
    WordsDiffer(f, Threads);
    WordsDiffer(f, Ros);
  }

  lemma PlacedParts(argv: seq<string>, i: nat, a: seq<string>, b: seq<string>)
    requires Placed(argv, i, a + b)
    ensures Placed(argv, i, a) && Placed(argv, i + |a|, b)
  {
    forall k | 0 <= k < |a|
      ensures argv[i + k] == UpToNul(a[k])
    {
      assert argv[i + k] == UpToNul((a + b)[k]);
    }
    forall k | 0 <= k < |b|
      ensures argv[i + |a| + k] == UpToNul(b[k])
    {
      assert argv[i + (|a| + k)] == UpToNul((a + b)[|a| + k]);
    }
  }

  lemma {:induction false} ExtrasParsed(argv: seq<string>, i: nat, p: Parsed, es: seq<Extra>)
    requires Placed(argv, i, AllExtras(es)) && ThreadsFit(es)
    ensures ParseFrom(argv, i, p) == ParseFrom(argv, i + |AllExtras(es)|, WithExtras(p, es))
  {
    hide ParseFrom, Placed, ExtraArgs, AsksForward, AsksThreads, UpToNul;
    if es == [] {
      assert WithExtras(p, es) == p;
    } else {
      var init, last := es[..|es| - 1], es[|es| - 1];
      assert es == init + [last];
      PlacedParts(argv, i, AllExtras(init), ExtraArgs(last));
      ExtrasParsed(argv, i, p, init);
      OneExtraParsed(argv, i + |AllExtras(init)|, WithExtras(p, init), last);
      ExtrasGrow(p, init, last);
    }
  }

  lemma ExtrasGrow(p: Parsed, init: seq<Extra>, last: Extra)
    ensures WithExtras(p, init + [last]) == WithExtras(WithExtras(p, init), [last])
  {
    hide AsksForward, AsksThreads;
    var es := init + [last];
    assert es[..|init|] == init && [last][..0] == [];
    ThreadsArePositive(last);
    assert LastThreads([last]) == if AsksThreads(last) then last.value.i else LastThreads([]);
    if exists e :: e in es && AsksForward(e) {
      var e :| e in es && AsksForward(e);
      assert e in init || e in [last];
    }
    if e :| e in init && AsksForward(e) {
      assert e in es;
    }
    if AsksForward(last) {
      assert last in es && last in [last];
    }
  }

  lemma ThreadsArePositive(e: Extra)
    ensures AsksThreads(e) ==> e.value.IntegerValue? && e.value.i > 0
  {
  }

  lemma OneExtraParsed(argv: seq<string>, i: nat, p: Parsed, e: Extra)
    requires Placed(argv, i, ExtraArgs(e)) && ThreadsFit([e])
    ensures ParseFrom(argv, i, p) == ParseFrom(argv, i + |ExtraArgs(e)|, WithExtras(p, [e]))
  {
    hide ParseFrom, Word, UpToNul;
    assert e in [e] && [e][..0] == [];
    assert (exists x :: x in [e] && AsksForward(x)) <==> AsksForward(e);
    assert LastThreads([e]) == if AsksThreads(e) then e.value.i else 0;
    if AsksThreads(e) {
      NumberHanded(e.value.i);
      WordsAreClean(Threads);
      assert argv[i + 0] == UpToNul(ExtraArgs(e)[0]) && argv[i + 1] == UpToNul(ExtraArgs(e)[1]);
      FlagParsed(argv, i, p, Threads);
    } else if AsksForward(e) {
      WordsAreClean(Forward);
      assert argv[i + 0] == UpToNul(ExtraArgs(e)[0]);
      FlagParsed(argv, i, p, Forward);
    }
  }

  lemma TailHanded(argv: seq<string>, m: nat, tail: seq<string>)
    requires Placed(argv, m, tail) && |argv| == m + |tail|
    ensures argv[m..] == Handed(tail)
  {
    hide UpToNul;
    assert forall k | 0 <= k < |tail| :: argv[m..][k] == argv[m + k];
  }

  /** The head and the extras are read in order, and the loop ends at the ROS marker. */
  lemma ArgsParsed(path: string, r: Request, multi: bool, fd: nat, paramFile: string)
    requires fd <= INT_MAX && ThreadsFit(r.extras)
    ensures var argv := Handed(Args(path, r, multi, fd, paramFile));
            var p := Defaults(|argv|).(package := UpToNul(r.package), plugin := UpToNul(r.plugin), readyFd := fd,
                                       multi := multi);
            var m := (if multi then 8 else 7) + |AllExtras(r.extras)|;
            && ParseFrom(argv, 1, Defaults(|argv|)) == WithExtras(p, r.extras).(rosArgsStart := m)
            && m <= |argv| && argv[m..] == Handed(RosArgs(r, paramFile))
  {
    hide ParseFrom, Word, UpToNul, AllExtras, Args, Options, RosArgs, WithExtras, ThreadsFit;
    var argv, tail := Handed(Args(path, r, multi, fd, paramFile)), RosArgs(r, paramFile);
    var p := Defaults(|argv|).(package := UpToNul(r.package), plugin := UpToNul(r.plugin), readyFd := fd,
                               multi := multi);
    var j := if multi then 8 else 7;
    var m := j + |AllExtras(r.extras)|;
    PartsPlaced(path, r, multi, fd, paramFile);
    RosFirst(r, paramFile);
    assert argv[m + 0] == UpToNul(tail[0]);
    hide Placed, Head;
    TailHanded(argv, m, tail);
    HeadParsed(argv, r, multi, fd, Defaults(|argv|));
    ExtrasParsed(argv, j, p, r.extras);
    WordsAreClean(Ros);
    FlagParsed(argv, m, WithExtras(p, r.extras), Ros);
  }

  /**
   * For every request the child gets what the parent meant: package and plugin as C strings, the descriptor, the
   * executor kind, forwarding if any extra asks for it, the last positive thread count, and the ROS arguments as they
   * were built.
   */
  lemma ArgsRoundTrip(path: string, r: Request, multi: bool, fd: nat, paramFile: string)
    requires fd <= INT_MAX && ThreadsFit(r.extras)
    ensures var argv := Handed(Args(path, r, multi, fd, paramFile));
            var p := ParseFrom(argv, 1, Defaults(|argv|));
            && p.package == UpToNul(r.package) && p.plugin == UpToNul(r.plugin)
            && p.readyFd == fd && p.multi == multi
            && (p.forward <==> exists e :: e in r.extras && AsksForward(e))
            && p.threads == LastThreads(r.extras)
            && p.rosArgsStart <= |argv| && argv[p.rosArgsStart..] == Handed(RosArgs(r, paramFile))
  {
    hide ParseFrom, UpToNul, Args, RosArgs, AllExtras, Handed, AsksForward, LastThreads;
    ArgsParsed(path, r, multi, fd, paramFile);
  }

  lemma RosFirst(r: Request, paramFile: string)
    ensures RosArgs(r, paramFile) != [] && RosArgs(r, paramFile)[0] == Word(Ros)
  {
    hide Word;
  }

  function Head(r: Request, multi: bool, fd: nat): seq<string> {
    [Word(Package), r.package, Word(Plugin), r.plugin, Word(ReadyFd), Decimal.Text(fd)]
    + (if multi then [Word(Multi)] else [])
  }

  lemma PartsPlaced(path: string, r: Request, multi: bool, fd: nat, paramFile: string)
    ensures var argv := Handed(Args(path, r, multi, fd, paramFile));
            var j := if multi then 8 else 7;
            && Placed(argv, 1, Head(r, multi, fd)) && Placed(argv, j, AllExtras(r.extras))
            && Placed(argv, j + |AllExtras(r.extras)|, RosArgs(r, paramFile))
            && |argv| == j + |AllExtras(r.extras)| + |RosArgs(r, paramFile)|
  {
    hide Word, AllExtras, RosArgs, UpToNul;
    var args := Args(path, r, multi, fd, paramFile);
    assert args == [path] + (Head(r, multi, fd) + (AllExtras(r.extras) + RosArgs(r, paramFile)));
    assert Placed(Handed(args), 0, args);
    hide Placed, Args, Options;
    PlacedParts(Handed(args), 0, [path], Head(r, multi, fd) + (AllExtras(r.extras) + RosArgs(r, paramFile)));
    PlacedParts(Handed(args), 1, Head(r, multi, fd), AllExtras(r.extras) + RosArgs(r, paramFile));
    PlacedParts(Handed(args), 1 + |Head(r, multi, fd)|, AllExtras(r.extras), RosArgs(r, paramFile));
  }

  lemma HeadParsed(argv: seq<string>, r: Request, multi: bool, fd: nat, p0: Parsed)
    requires fd <= INT_MAX && Placed(argv, 1, Head(r, multi, fd)) && !p0.multi
    ensures ParseFrom(argv, 1, p0)
         == ParseFrom(argv, if multi then 8 else 7,
                      p0.(package := UpToNul(r.package), plugin := UpToNul(r.plugin), readyFd := fd, multi := multi))
  {
    hide ParseFrom, Word, UpToNul, Atoi;
    var head := Head(r, multi, fd);
    WordsAreClean(Package);
    WordsAreClean(Plugin);
    WordsAreClean(ReadyFd);
    WordsAreClean(Multi);
    NumberHanded(fd);
    assert forall k | 0 <= k < |head| :: argv[1 + k] == UpToNul(head[k]);
    assert argv[1] == UpToNul(head[0]) && argv[2] == UpToNul(head[1]) && argv[3] == UpToNul(head[2]);
    assert argv[4] == UpToNul(head[3]) && argv[5] == UpToNul(head[4]) && argv[6] == UpToNul(head[5]);
    assert multi ==> argv[7] == UpToNul(head[6]);
    var p1 := p0.(package := UpToNul(r.package));
    var p2 := p1.(plugin := UpToNul(r.plugin));
    var p3 := p2.(readyFd := fd);
    FlagParsed(argv, 1, p0, Package);
    FlagParsed(argv, 3, p1, Plugin);
    FlagParsed(argv, 5, p2, ReadyFd);
    if multi {
      FlagParsed(argv, 7, p3, Multi);
    }
  }

  /** A text with no NUL is handed on as it is. */
  lemma NothingLost(r: Request, paramFile: string)
    requires '\0' !in r.package && '\0' !in r.plugin && '\0' !in paramFile
    requires '\0' !in r.nodeName && '\0' !in r.nodeNamespace && forall t | t in r.remaps :: '\0' !in t
    ensures UpToNul(r.package) == r.package && UpToNul(r.plugin) == r.plugin
    ensures Handed(RosArgs(r, paramFile)) == RosArgs(r, paramFile)
  {
    CleanStays(r.package);
    CleanStays(r.plugin);
    RosArgsClean(r, paramFile);
    hide RosArgs, UpToNul;
    forall a | a in RosArgs(r, paramFile)
      ensures UpToNul(a) == a
    {
      CleanStays(a);
    }
  }

  lemma RosArgsClean(r: Request, paramFile: string)
    requires '\0' !in paramFile
    requires '\0' !in r.nodeName && '\0' !in r.nodeNamespace && forall t | t in r.remaps :: '\0' !in t
    ensures forall a | a in RosArgs(r, paramFile) :: '\0' !in a
  {
    RemapsClean(r.remaps);
    assert forall a | a in NameArgs(r) :: '\0' !in a;
    assert forall a | a in NamespaceArgs(r) :: '\0' !in a;
    assert forall a | a in LevelArgs(r) :: '\0' !in a;
    assert forall a | a in ParamsArgs(paramFile) :: '\0' !in a;
    hide NameArgs, NamespaceArgs, LevelArgs, ParamsArgs, Remaps;
  }

  /** The remap rules stand in the ROS arguments one by one, each behind its flag, in the order of the request. */
  lemma {:induction false} RemapsInOrder(rs: seq<string>, k: nat)
    requires k < |rs|
    ensures |Remaps(rs)| == 2 * |rs| && Remaps(rs)[2 * k] == "-r" && Remaps(rs)[2 * k + 1] == rs[k]
  {
    var init := rs[..|rs| - 1];
    if k < |init| {
      RemapsInOrder(init, k);
    } else if init != [] {
      RemapsInOrder(init, 0);
    }
  }

  lemma {:induction false} RemapsClean(rs: seq<string>)
    requires forall t | t in rs :: '\0' !in t
    ensures forall a | a in Remaps(rs) :: '\0' !in a
  {
    if rs != [] {
      RemapsClean(rs[..|rs| - 1]);
    }
  }

  /** A thread count is read back as itself exactly when an `int` can hold it. */
  lemma ThreadCountHeld(n: nat)
    requires 0 < n < TWO_63
    ensures ToSize(Atoi(UpToNul(Decimal.Text(n)))) == n <==> n <= INT_MAX
  {
    hide Atoi, ToSize, UpToNul, Int32;
    NumberHanded(n);
    IntHolds(n);
  }

  lemma IntHolds(n: nat)
    requires n < TWO_63
    ensures ToSize(Int32(n)) == n <==> n <= INT_MAX
  {
    hide Int32;
    SizeOf(Int32(n));
  }

  lemma SizeOf(r: int)
    requires -0x8000_0000 <= r <= INT_MAX
    ensures ToSize(r) == if r < 0 then r + TWO_64 else r
  {
  }
}

/** What a reader of the child's command line finds in it: read flag by flag, not through how it was built. */
module RosArguments {
  import opened Common
  import opened JsonValue
  import opened SpawnArgs
  import Decimal

  // ---- a reader of the arguments behind `--ros-args` ----

  /** Remapping rules in order, and the first value of each of the other flags. */
  datatype Settings = Settings(rules: seq<string>, level: Option<string>, params: Option<string>)

  const NOTHING := Settings([], None, None)

  function ReadRos(args: seq<string>): Settings {
    if |args| < 2 then NOTHING
    else if args[0] == "-r" then
      var later := ReadRos(args[2..]);
      later.(rules := [args[1]] + later.rules)
    else if args[0] == "--log-level" then ReadRos(args[2..]).(level := Some(args[1]))
    else if args[0] == "--params-file" then ReadRos(args[2..]).(params := Some(args[1]))
    else ReadRos(args[1..])
  }

  predicate StartsWith(s: string, t: string) {
    |t| <= |s| && s[..|t|] == t
  }

  /** What stands behind `:=` in the first rule for `key`. */
  function Remapped(rules: seq<string>, key: string): Option<string> {
    if rules == [] then None
    else if StartsWith(rules[0], key + ":=") then Some(rules[0][|key| + 2..])
    else Remapped(rules[1..], key)
  }

  // ---- reading on ----

  lemma RuleRead(rule: string, rest: seq<string>)
    ensures ReadRos(["-r", rule] + rest) == ReadRos(rest).(rules := [rule] + ReadRos(rest).rules)
  {
    var args := ["-r", rule] + rest;
    assert args[2..] == rest && args[0] == "-r" && args[1] == rule;
  }

  lemma LevelRead(value: string, rest: seq<string>)
    ensures ReadRos(["--log-level", value] + rest) == ReadRos(rest).(level := Some(value))
  {
    var args := ["--log-level", value] + rest;
    assert args[2..] == rest && args[0] == "--log-level" && |args[0]| != |"-r"|;
  }

  lemma ParamsRead(value: string)
    ensures ReadRos(["--params-file", value]) == NOTHING.(params := Some(value))
  {
    var args := ["--params-file", value];
    assert args[2..] == [] && |args[0]| == 13 && |"-r"| == 2 && |"--log-level"| == 11;
  }

  lemma {:induction false} RemapsRead(rs: seq<string>, rest: seq<string>)
    ensures ReadRos(Remaps(rs) + rest) == ReadRos(rest).(rules := rs + ReadRos(rest).rules)
  {
    hide ReadRos;
    if rs == [] {
      assert Remaps(rs) + rest == rest;
    } else {
      var init, last := rs[..|rs| - 1], rs[|rs| - 1];
      assert Remaps(rs) + rest == Remaps(init) + (["-r", last] + rest);
      RemapsRead(init, ["-r", last] + rest);
      RuleRead(last, rest);
      assert init + ([last] + ReadRos(rest).rules) == rs + ReadRos(rest).rules;
    }
  }

  // ---- what is found ----

  /** The node's own rules. */
  function OwnRules(name: string, ns: string): seq<string> {
    (if name != "" then ["__node:=" + name] else [])
    + (if ns != "" then ["__ns:=" + (if ns[0] == '/' then ns else "/" + ns)] else [])
  }

  /**
   * Behind `--ros-args` a reader finds the node's own rules, then the request's in order, the log level and the
   * parameter file, each of them exactly if the request gives it.
   */
  lemma TailIsRead(r: Request, paramFile: string)
    ensures RosArgs(r, paramFile) != [] && RosArgs(r, paramFile)[0] == "--ros-args"
    ensures ReadRos(RosArgs(r, paramFile)[1..])
         == Settings(OwnRules(r.nodeName, r.nodeNamespace) + r.remaps,
                     if r.logLevel > 0 then Some(Decimal.Text(r.logLevel)) else None,
                     if paramFile != "" then Some(paramFile) else None)
  {
    hide RosArgs, ReadRos;
    var params := ParamsArgs(paramFile);
    var remaps := Remaps(r.remaps) + params;
    var level := LevelArgs(r) + remaps;
    TailSplits(r, paramFile);
    EndRead(paramFile);
    RemapsRead(r.remaps, params);
    LevelFound(r, remaps);
    NamesFound(r, level);
    var rest := ReadRos(params).rules;
    hide OwnRules;
    var own := OwnRules(r.nodeName, r.nodeNamespace);
    assert own + (r.remaps + rest) == own + r.remaps;
  }

  lemma TailSplits(r: Request, paramFile: string)
    ensures var tail := RosArgs(r, paramFile);
            && tail != [] && tail[0] == "--ros-args"
            && tail[1..] == NameArgs(r) + (NamespaceArgs(r)
                                           + (LevelArgs(r) + (Remaps(r.remaps) + ParamsArgs(paramFile))))
  {
    hide NameArgs, NamespaceArgs, LevelArgs, Remaps, ParamsArgs;
  }

  lemma EndRead(paramFile: string)
    ensures ReadRos(ParamsArgs(paramFile)) == NOTHING.(params := if paramFile != "" then Some(paramFile) else None)
  {
    if paramFile != "" {
      ParamsRead(paramFile);
    }
  }

  lemma LevelFound(r: Request, rest: seq<string>)
    requires ReadRos(rest).level == None
    ensures ReadRos(LevelArgs(r) + rest)
         == ReadRos(rest).(level := if r.logLevel > 0 then Some(Decimal.Text(r.logLevel)) else None)
  {
    hide ReadRos;
    if r.logLevel > 0 {
      LevelRead(Decimal.Text(r.logLevel), rest);
    } else {
      assert LevelArgs(r) + rest == rest;
    }
  }

  lemma NamesFound(r: Request, rest: seq<string>)
    ensures ReadRos(NameArgs(r) + (NamespaceArgs(r) + rest))
         == ReadRos(rest).(rules := OwnRules(r.nodeName, r.nodeNamespace) + ReadRos(rest).rules)
  {
    hide ReadRos;
    NamespaceFound(r, rest);
    var later := NamespaceArgs(r) + rest;
    if r.nodeName != "" {
      RuleRead("__node:=" + r.nodeName, later);
    } else {
      assert NameArgs(r) + later == later;
    }
    assert OwnRules(r.nodeName, r.nodeNamespace) == OwnRules(r.nodeName, "") + OwnRules("", r.nodeNamespace);
  }

  lemma NamespaceFound(r: Request, rest: seq<string>)
    ensures ReadRos(NamespaceArgs(r) + rest)
         == ReadRos(rest).(rules := OwnRules("", r.nodeNamespace) + ReadRos(rest).rules)
  {
    hide ReadRos;
    if r.nodeNamespace != "" {
      RuleRead("__ns:=" + (if r.nodeNamespace[0] == '/' then r.nodeNamespace else "/" + r.nodeNamespace), rest);
    } else {
      assert NamespaceArgs(r) + rest == rest;
    }
  }

  /**
   * So among the node's own rules `__node` carries exactly the node's name and `__ns` its namespace, made absolute by
   * one slash if it was not, each there exactly if the request gives it.
   */
  lemma NodeIsNamed(r: Request)
    ensures var own := OwnRules(r.nodeName, r.nodeNamespace);
            && Remapped(own, "__node") == (if r.nodeName != "" then Some(r.nodeName) else None)
            && Remapped(own, "__ns") == (if r.nodeNamespace == "" then None
                                         else if r.nodeNamespace[0] == '/' then Some(r.nodeNamespace)
                                         else Some("/" + r.nodeNamespace))
            && forall rule | rule in own :: StartsWith(rule, "__node:=") || StartsWith(rule, "__ns:=")
  {
    var ns := if r.nodeNamespace != "" && r.nodeNamespace[0] != '/' then "/" + r.nodeNamespace else r.nodeNamespace;
    KeysDiffer(r.nodeName, ns);
    if r.nodeName != "" && r.nodeNamespace != "" {
      var own := ["__node:=" + r.nodeName, "__ns:=" + ns];
      assert OwnRules(r.nodeName, r.nodeNamespace) == own && own[1..] == ["__ns:=" + ns];
    }
  }

  lemma KeysDiffer(name: string, ns: string)
    ensures "__node" + ":=" == "__node:=" && "__ns" + ":=" == "__ns:="
    ensures StartsWith("__node:=" + name, "__node:=") && ("__node:=" + name)[8..] == name
    ensures StartsWith("__ns:=" + ns, "__ns:=") && ("__ns:=" + ns)[6..] == ns
    ensures !StartsWith("__node:=" + name, "__ns:=") && !StartsWith("__ns:=" + ns, "__node:=")
  {
    assert ("__node:=" + name)[3] == 'o' && "__ns:="[3] == 's';
    assert ("__ns:=" + ns)[3] == 's' && "__node:="[3] == 'o';
  }

  // ---- the arguments before it ----

  /** The first arguments of every child, word for word. */
  lemma HeadIsSpelled(path: string, r: Request, multi: bool, fd: nat, paramFile: string)
    ensures var args := Args(path, r, multi, fd, paramFile);
            && |args| > 7
            && args[..7] == [path, "--package", r.package, "--plugin", r.plugin, "--ready-fd", Decimal.Text(fd)]
            && (multi <==> args[7] == "--use-multi-threaded-executor")
  {
    FirstExtra(r.extras);
    TailIsRead(r, paramFile);
    hide AllExtras, RosArgs, ReadRos;
    var args, tail := Args(path, r, multi, fd, paramFile), AllExtras(r.extras) + RosArgs(r, paramFile);
    assert args == [path, "--package", r.package, "--plugin", r.plugin, "--ready-fd", Decimal.Text(fd)]
                   + (if multi then ["--use-multi-threaded-executor"] else []) + tail;
    if !multi {
      assert args[7] == tail[0];
      assert |"--use-multi-threaded-executor"| == 29 && |"--ros-args"| == 10;
    }
  }

  lemma {:induction false} FirstExtra(es: seq<Extra>)
    ensures AllExtras(es) != [] ==> |AllExtras(es)[0]| != 29
  {
    if es != [] {
      FirstExtra(es[..|es| - 1]);
      assert |"--forward-global-arguments"| == 26 && |"--executor-threads"| == 18;
    }
  }

  /** An extra argument for the executor's threads or for forwarding, word for word; no other adds anything. */
  lemma ExtrasAreSpelled(e: Extra)
    ensures ExtraArgs(e)
         == if e.name == "forward_global_arguments" && e.value == BoolValue(true) then ["--forward-global-arguments"]
            else if e.name == "executor_threads" && e.value.IntegerValue? && e.value.i > 0
            then ["--executor-threads", Decimal.Text(e.value.i)]
            else []
  {
    assert |"forward_global_arguments"| == 24 && |"executor_threads"| == 16;
  }

  /** `log_dir` is the last of the texts given for it, and empty if there is none. */
  lemma {:induction false} LogDirIsLast(es: seq<Extra>)
    ensures || (LastLogDir(es) == "" && forall e | e in es :: e.name == "log_dir" ==> !e.value.StringValue?)
            || exists k :: 0 <= k < |es| && es[k].name == "log_dir" && es[k].value == StringValue(LastLogDir(es))
                           && forall j | k < j < |es| :: es[j].name == "log_dir" ==> !es[j].value.StringValue?
  {
    if es != [] {
      var init, last := es[..|es| - 1], es[|es| - 1];
      if last.name == "log_dir" && last.value.StringValue? {
        assert es[|es| - 1].value == StringValue(LastLogDir(es));
      } else {
        LogDirIsLast(init);
        assert forall e | e in es :: e in init || e == last;
        if k :| 0 <= k < |init| && init[k].name == "log_dir" && init[k].value == StringValue(LastLogDir(init))
                && forall j | k < j < |init| :: init[j].name == "log_dir" ==> !init[j].value.StringValue? {
          assert es[k] == init[k];
        }
      }
    }
  }

  /** The thread count handed on is the last positive one asked for, and zero if there is none. */
  lemma {:induction false} ThreadsAreLast(es: seq<Extra>)
    ensures || (LastThreads(es) == 0 && forall e | e in es :: !AsksThreads(e))
            || exists k :: 0 <= k < |es| && es[k].name == "executor_threads"
                           && es[k].value == IntegerValue(LastThreads(es)) && LastThreads(es) > 0
                           && forall j | k < j < |es| :: !AsksThreads(es[j])
  {
    if es != [] {
      var init, last := es[..|es| - 1], es[|es| - 1];
      if AsksThreads(last) {
        assert es[|es| - 1].value == IntegerValue(LastThreads(es));
      } else {
        ThreadsAreLast(init);
        assert forall e | e in es :: e in init || e == last;
        if k :| 0 <= k < |init| && init[k].name == "executor_threads"
                && init[k].value == IntegerValue(LastThreads(init)) && LastThreads(init) > 0
                && forall j | k < j < |init| :: !AsksThreads(init[j]) {
          assert es[k] == init[k];
        }
      }
    }
  }

  // ---- the child's own reading ----

  predicate Known(a: string) {
    || a == "--package" || a == "--plugin" || a == "--ready-fd" || a == "--use-multi-threaded-executor"
    || a == "--forward-global-arguments" || a == "--executor-threads" || a == "--ros-args"
  }

  /** Without any argument it knows, the child has no names, no pipe, and takes nothing for ROS. */
  lemma {:induction false} NothingIsDefault(argv: seq<string>, i: nat, p: Parsed)
    requires i <= |argv| && forall k | i <= k < |argv| :: !Known(argv[k])
    ensures ParseFrom(argv, i, p) == p
    ensures Defaults(|argv|) == Parsed("", "", -1, false, false, 0, |argv|)
    decreases |argv| - i
  {
    if i < |argv| {
      NothingIsDefault(argv, i + 1, p);
    }
  }

  /** The space, and tab, line feed, vertical tab, form feed and carriage return. */
  predicate White(c: char) {
    c == ' ' || c as int in {0x09, 0x0A, 0x0B, 0x0C, 0x0D}
  }

  /** Numbers are read as C reads them: behind white space, with a sign, up to the first character that is no digit. */
  lemma {:induction false} AtoiReads(space: string, n: int, rest: string)
    requires forall c | c in space :: White(c)
    requires -0x8000_0000 <= n <= 0x7FFF_FFFF && (rest == "" || !IsDigit(rest[0]))
    ensures Atoi(space + (Decimal.Signed(n) + rest)) == n
  {
    SkipsSpace(space, Decimal.Signed(n) + rest);
    Decimal.SignedScans(n, rest);
    var m := if n < 0 then -n else n;
    Decimal.DigitsThenOther(Decimal.Text(m), rest, 0);
    Decimal.TextReads(m);
  }

  lemma {:induction false} SkipsSpace(space: string, t: string)
    requires forall c | c in space :: White(c)
    requires t != "" && !CSpace(t[0])
    ensures SkipCSpace(space + t) == t
  {
    if space == "" {
      assert space + t == t;
    } else {
      assert (space + t)[1..] == space[1..] + t && White(space[0]);
      assert forall c | c in space[1..] :: c in space;
      SkipsSpace(space[1..], t);
    }
  }

  /** A text that starts with neither a digit nor a sign is zero to it. */
  lemma NoNumberIsZero(t: string)
    requires t == "" || (!CSpace(t[0]) && !IsDigit(t[0]) && t[0] != '-' && t[0] != '+')
    ensures Atoi(t) == 0
  {
  }

  /** Beyond 32 bits the low bits are kept, as a signed number; beyond 64 the text is read as the nearest 64-bit one. */
  lemma AtoiWraps(n: int)
    ensures -0x8000_0000_0000_0000 <= n < 0x8000_0000_0000_0000 ==>
              (Atoi(Decimal.Signed(n)) - n) % 0x1_0000_0000 == 0
    ensures n >= 0x8000_0000_0000_0000 ==> Atoi(Decimal.Signed(n)) == -1
    ensures n <= -0x8000_0000_0000_0000 ==> Atoi(Decimal.Signed(n)) == 0
    ensures -0x8000_0000 <= Atoi(Decimal.Signed(n)) <= 0x7FFF_FFFF
  {
    SignedIsScanned(n);
    hide Scan, Decimal.Signed;
    assert SkipCSpace(Decimal.Signed(n)) == Decimal.Signed(n);
  }

  lemma SignedIsScanned(n: int)
    ensures Scan(Decimal.Signed(n)) == Some(Scanned(n < 0, if n < 0 then -n else n))
  {
    Decimal.TextScans(if n < 0 then -n else n);
  }
}

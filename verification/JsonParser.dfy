/** The recursive-descent parser with its moving cursor, proved against the functions of `JsonSpec`. */
module JsonParser {
  import opened Common
  import opened JsonValue
  import opened JsonSpec
  import opened JsonReading
  import Decimal
  import Utf8

  /** `append_utf8`. */
  method AppendUtf8(cp: nat, out: string) returns (longer: string)
    requires cp < 0x20_0000
    ensures longer == out + Utf8.Encode(cp)
  {
    longer := out;
    if cp <= 0x7F {
      longer := longer + [Utf8.Byte(cp)];
    } else if cp <= 0x7FF {
      longer := longer + [Utf8.Byte(0xC0 + cp / 0x40)];
      longer := longer + [Utf8.Byte(0x80 + cp % 0x40)];
    } else if cp <= 0xFFFF {
      longer := longer + [Utf8.Byte(0xE0 + cp / 0x1000)];
      longer := longer + [Utf8.Byte(0x80 + cp / 0x40 % 0x40)];
      longer := longer + [Utf8.Byte(0x80 + cp % 0x40)];
    } else {
      longer := longer + [Utf8.Byte(0xF0 + cp / 0x4_0000)];
      longer := longer + [Utf8.Byte(0x80 + cp / 0x1000 % 0x40)];
      longer := longer + [Utf8.Byte(0x80 + cp / 0x40 % 0x40)];
      longer := longer + [Utf8.Byte(0x80 + cp % 0x40)];
    }
  }

  // ---- how one turn of a loop moves what it has to what is left ----

  function AsObject(r: Parse<map<string, Value>>): Parse<Value> {
    if r.Ok? then Ok(Object(r.value), r.next) else Bad(r.msg, r.at)
  }

  function AsArray(r: Parse<seq<Value>>): Parse<Value> {
    if r.Ok? then Ok(Array(r.value), r.next) else Bad(r.msg, r.at)
  }

  lemma ObjectCases(s: string, i: nat)
    requires Is(s, i, '{')
    ensures var j := SkipWs(s, i + 1);
            ValueAt(s, i) == if Is(s, j, '}') then Ok(Object(map[]), j + 1) else AsObject(Members(s, j))
  {
    hide Members, Elements, SkipWs, Chars, NumberAt;
  }

  lemma ArrayCases(s: string, i: nat)
    requires Is(s, i, '[')
    ensures var j := SkipWs(s, i + 1);
            ValueAt(s, i) == if Is(s, j, ']') then Ok(Array([]), j + 1) else AsArray(Elements(s, j))
  {
    hide Members, Elements, SkipWs, Chars, NumberAt;
  }

  lemma AtIsSlice(s: string, i: nat, word: string)
    ensures At(s, i, word) <==> i + |word| <= |s| && s[i..i + |word|] == word
  {
    if i + |word| <= |s| && s[i..i + |word|] == word {
      forall k | 0 <= k < |word|
        ensures s[i + k] == word[k]
      {
        assert s[i + k] == s[i..i + |word|][k];
      }
    }
  }

  lemma AfterNothing(r: Parse<string>)
    ensures r == After("", r)
  {
    if r.Ok? {
      assert "" + r.value == r.value;
    }
  }

  lemma AfterTwice(a: string, b: string, r: Parse<string>)
    ensures After(a, After(b, r)) == After(a + b, r)
  {
    if r.Ok? {
      assert a + (b + r.value) == (a + b) + r.value;
    }
  }

  /** What one escape leaves to be read. */
  lemma EscapeTurn(s: string, i: nat, done: string)
    requires Is(s, i, '\\') && i + 1 < |s|
    ensures var r := Escape(s, i + 1);
            After(done, Chars(s, i)) == if r.Bad? then r else After(done + r.value, Chars(s, r.next))
  {
    var r := Escape(s, i + 1);
    hide Escape;
    if r.Ok? {
      AfterTwice(done, r.value, Chars(s, r.next));
    }
  }

  lemma BehindNothing(r: Parse<map<string, Value>>)
    ensures r == Behind(map[], r)
  {
    if r.Ok? {
      assert r.value + map[] == r.value;
    }
  }

  /** `emplace` keeps the member that is there. */
  lemma EmplaceBehind(done: map<string, Value>, key: string, v: Value, r: Parse<map<string, Value>>)
    ensures Behind(done, Behind(map[key := v], r))
         == Behind(if key in done then done else done[key := v], r)
  {
    if r.Ok? {
      assert (r.value + map[key := v]) + done == r.value + (if key in done then done else done[key := v]);
    }
  }

  lemma EmplaceLast(done: map<string, Value>, key: string, v: Value, next: nat)
    ensures Behind(done, Ok(map[key := v], next)) == Ok(if key in done then done else done[key := v], next)
  {
    assert map[key := v] + done == if key in done then done else done[key := v];
  }

  lemma BeyondNothing(r: Parse<seq<Value>>)
    ensures r == Beyond([], r)
  {
    if r.Ok? {
      assert [] + r.value == r.value;
    }
  }

  lemma BeyondTwice(done: seq<Value>, v: Value, r: Parse<seq<Value>>)
    ensures Beyond(done, Beyond([v], r)) == Beyond(done + [v], r)
  {
    if r.Ok? {
      assert done + ([v] + r.value) == (done + [v]) + r.value;
    }
  }

  // ---- the parser ----

  class Parser {
    const s: string
    /** Whether the caller supplied an error string. */
    const reports: bool
    var error: string
    var i: nat

    /** Between calls: the cursor is inside the text and nothing has failed yet. */
    ghost predicate Ready()
      reads this
    {
      i <= |s| && error == ""
    }

    function Report(msg: string, at: nat): string {
      if reports then msg + " at offset " + Decimal.Text(at) else ""
    }

    /** What an error reads like. */
    lemma ReportIsSpelled(msg: string)
      ensures reports ==> Report(msg, 120) == msg + " at offset 120"
      ensures !reports ==> Report(msg, 120) == ""
    {
      assert Decimal.Text(120) == "120";
    }

    /** The cursor, the error and the result are the ones `r` says. */
    ghost predicate Did<T>(r: Parse<T>, ok: bool, out: T)
      reads this
    {
      match r
      case Ok(value, next) => ok && out == value && i == next && error == ""
      case Bad(msg, at) => Failed(msg, at, ok)
    }

    ghost predicate Failed(msg: string, at: nat, ok: bool)
      reads this
    {
      !ok && i == at && error == Report(msg, at)
    }

    constructor (text: string, reports: bool)
      ensures s == text && this.reports == reports && i == 0 && error == ""
    {
      s := text;
      this.reports := reports;
      error := "";
      i := 0;
    }

    method Fail(msg: string) returns (ok: bool)
      requires error == ""
      modifies this`error
      ensures Failed(msg, i, ok)
    {
      if reports && error == "" {
        error := msg + " at offset " + Decimal.Text(i);
      }
      return false;
    }

    method SkipSpace()
      requires i <= |s|
      modifies this`i
      ensures i == SkipWs(s, old(i))
    {
      while i < |s|
        invariant old(i) <= i <= |s| && SkipWs(s, old(i)) == SkipWs(s, i)
      {
        var c := s[i];
        if c == ' ' || c == '\t' || c == '\n' || c == '\r' {
          i := i + 1;
        } else {
          break;
        }
      }
    }

    method Literal(word: string) returns (ok: bool)
      requires i <= |s|
      modifies this`i
      ensures ok == At(s, old(i), word)
      ensures i == if ok then old(i) + |word| else old(i)
    {
      var n := |word|;
      AtIsSlice(s, i, word);
      if i + n > |s| || s[i..i + n] != word {
        return false;
      }
      i := i + n;
      return true;
    }

    method ParseHex4() returns (ok: bool, out: nat)
      requires Ready()
      modifies this
      ensures Did(Hex4(s, old(i)), ok, out)
    {
      out := 0;
      if i + 4 > |s| {
        ok := Fail(SHORT_CODE);
        return;
      }
      var v: nat := 0;
      for k := 0 to 4
        invariant i == old(i) && error == ""
        invariant AllHex(s[i..i + k]) && v == HexValue(s[i..i + k])
      {
        var c := s[i + k];
        ghost var was := v;
        v := v * 16;
        assert s[i..i + k + 1][..k] == s[i..i + k];
        if '0' <= c <= '9' {
          v := v + (c as int - '0' as int);
        } else if 'a' <= c <= 'f' {
          v := v + (c as int - 'a' as int + 10);
        } else if 'A' <= c <= 'F' {
          v := v + (c as int - 'A' as int + 10);
        } else {
          assert s[i..i + 4][k] == c;
          ok := Fail(BAD_CODE);
          return;
        }
      }
      i := i + 4;
      out := v;
      ok := true;
    }

    /** What the source does behind `\u`: a high half looks ahead, and steps back if it finds no other half. */
    method ParseUnicode(out: string) returns (ok: bool, longer: string)
      requires Ready()
      modifies this
      ensures Did(After(out, Unicode(s, old(i))), ok, longer)
    {
      longer := out;
      var cp: nat;
      ok, cp := ParseHex4();
      if !ok {
        return;
      }
      if 0xD800 <= cp <= 0xDBFF && i + 1 < |s| && s[i] == '\\' && s[i + 1] == 'u' {
        var save := i;
        i := i + 2;
        var low: nat;
        ok, low := ParseHex4();
        if !ok {
          return;
        }
        if 0xDC00 <= low <= 0xDFFF {
          cp := 0x1_0000 + (cp - 0xD800) * 0x400 + (low - 0xDC00);
        } else {
          i := save;
        }
      }
      longer := AppendUtf8(cp, out);
    }

    method ParseString() returns (ok: bool, out: string)
      requires Ready() && i < |s|
      modifies this
      ensures Did(Chars(s, old(i) + 1), ok, out)
    {
      hide Unicode, Report;
      i := i + 1;
      out := "";
      AfterNothing(Chars(s, i));
      while true
        invariant Ready() && old(i) < i
        invariant Chars(s, old(i) + 1) == After(out, Chars(s, i))
        decreases |s| - i
      {
        ghost var from, was := i, out;
        if i >= |s| {
          ok := Fail(OPEN_STRING);
          return;
        }
        var c := s[i];
        i := i + 1;
        if c == '"' {
          assert out + "" == out;
          return true, out;
        }
        if c != '\\' {
          out := out + [c];
          AfterTwice(was, [c], Chars(s, i));
          continue;
        }
        if i >= |s| {
          ok := Fail(OPEN_ESCAPE);
          return;
        }
        ghost var r := Escape(s, i);
        EscapeTurn(s, from, was);
        hide Chars, After;
        var e := s[i];
        i := i + 1;
        if e == '"' {
          out := out + "\"";
        } else if e == '\\' {
          out := out + "\\";
        } else if e == '/' {
          out := out + "/";
        } else if e == 'b' {
          out := out + [8 as char];
        } else if e == 'f' {
          out := out + [12 as char];
        } else if e == 'n' {
          out := out + "\n";
        } else if e == 'r' {
          out := out + "\r";
        } else if e == 't' {
          out := out + "\t";
        } else if e == 'u' {
          ok, out := ParseUnicode(out);
          if !ok {
            return;
          }
        } else {
          ok := Fail(BAD_ESCAPE);
          return;
        }
        assert r.Ok? && out == was + r.value && i == r.next;
      }
    }

    method ParseNumber() returns (ok: bool, out: Value)
      requires Ready() && i < |s|
      modifies this
      ensures Did(NumberAt(s, old(i)), ok, out)
    {
      out := Null;
      var start := i;
      if i < |s| && (s[i] == '-' || s[i] == '+') {
        i := i + 1;
      }
      ghost var first := i;
      var any := false;
      while i < |s| && ('0' <= s[i] <= '9' || s[i] == '.' || s[i] == 'e' || s[i] == 'E' || s[i] == '-' || s[i] == '+')
        invariant first <= i <= |s| && error == ""
        invariant any == (i > first) && NumberEnd(s, first) == NumberEnd(s, i)
      {
        any := true;
        i := i + 1;
      }
      if !any {
        ok := Fail(NO_VALUE);
        return;
      }
      return true, Number(s[start..i]);
    }

    method ParseLiteral(word: string, v: Value) returns (ok: bool, out: Value)
      requires Ready() && word != ""
      modifies this
      ensures Did(LiteralAt(s, old(i), word, v), ok, out)
    {
      out := Null;
      ok := Literal(word);
      if !ok {
        ok := Fail(BAD_LITERAL);
        return;
      }
      return true, v;
    }

    method ParseValue() returns (ok: bool, out: Value)
      requires Ready()
      modifies this
      ensures Did(ValueAt(s, old(i)), ok, out)
      decreases |s| - i, 2
    {
      out := Null;
      hide Elements, Members, Chars, NumberAt, LiteralAt;
      if i >= |s| {
        ok := Fail(END_OF_INPUT);
      } else if s[i] == '{' {
        ok, out := ParseObject();
      } else if s[i] == '[' {
        ok, out := ParseArray();
      } else if s[i] == '"' {
        var str: string;
        ok, str := ParseString();
        if ok {
          out := String(str);
        }
      } else if s[i] == 't' {
        ok, out := ParseLiteral("true", Bool(true));
      } else if s[i] == 'f' {
        ok, out := ParseLiteral("false", Bool(false));
      } else if s[i] == 'n' {
        ok, out := ParseLiteral("null", Null);
      } else {
        ok, out := ParseNumber();
      }
    }

    /** The part of the object loop up to the white space behind a value. */
    method ParseMember() returns (ok: bool, key: string, value: Value)
      requires Ready()
      modifies this
      ensures Did(MemberAt(s, old(i)), ok, (key, value))
      decreases |s| - i, 3
    {
      hide ValueAt, Elements, ElementAt, Members, Chars, SkipWs, Report;
      key, value := "", Null;
      SkipSpace();
      if i >= |s| || s[i] != '"' {
        ok := Fail(NO_KEY);
        return;
      }
      ok, key := ParseString();
      if !ok {
        return;
      }
      SkipSpace();
      if i >= |s| || s[i] != ':' {
        ok := Fail(NO_COLON);
        return;
      }
      i := i + 1;
      SkipSpace();
      ok, value := ParseValue();
      if !ok {
        return;
      }
      SkipSpace();
    }

    method ParseObject() returns (ok: bool, out: Value)
      requires Ready() && i < |s| && s[i] == '{'
      modifies this
      ensures Did(ValueAt(s, old(i)), ok, out)
      decreases |s| - i, 1
    {
      hide ValueAt, ElementAt, Elements, MemberAt, Members, SkipWs;
      ObjectCases(s, i);
      i := i + 1;
      out := Null;
      SkipSpace();
      if i < |s| && s[i] == '}' {
        i := i + 1;
        return true, Object(map[]);
      }
      ghost var all := Members(s, i);
      var members: map<string, Value> := map[];
      BehindNothing(all);
      while true
        invariant Ready() && old(i) < i
        invariant ValueAt(s, old(i)) == AsObject(all) && all == Behind(members, Members(s, i))
        decreases |s| - i
      {
        MembersTurn(s, i, MemberAt(s, i));
        var key, value;
        ok, key, value := ParseMember();
        if !ok {
          return;
        }
        ghost var was := members;
        members := if key in members then members else members[key := value];
        if i >= |s| {
          ok := Fail(OPEN_OBJECT);
          return;
        }
        if s[i] == ',' {
          EmplaceBehind(was, key, value, Members(s, i + 1));
          i := i + 1;
          continue;
        }
        if s[i] == '}' {
          i := i + 1;
          EmplaceLast(was, key, value, i);
          return true, Object(members);
        }
        ok := Fail(NO_BRACE);
        return;
      }
    }

    /** The part of the array loop up to the white space behind a value. */
    method ParseElement() returns (ok: bool, value: Value)
      requires Ready()
      modifies this
      ensures Did(ElementAt(s, old(i)), ok, value)
      decreases |s| - i, 3
    {
      hide ValueAt, Elements, MemberAt, Members, Chars, SkipWs;
      SkipSpace();
      ok, value := ParseValue();
      if ok {
        SkipSpace();
      }
    }

    method ParseArray() returns (ok: bool, out: Value)
      requires Ready() && i < |s| && s[i] == '['
      modifies this
      ensures Did(ValueAt(s, old(i)), ok, out)
      decreases |s| - i, 1
    {
      hide ValueAt, ElementAt, Elements, MemberAt, Members, SkipWs;
      ArrayCases(s, i);
      i := i + 1;
      out := Null;
      SkipSpace();
      if i < |s| && s[i] == ']' {
        i := i + 1;
        return true, Array([]);
      }
      ghost var all := Elements(s, i);
      var items: seq<Value> := [];
      BeyondNothing(all);
      while true
        invariant Ready() && old(i) < i
        invariant ValueAt(s, old(i)) == AsArray(all) && all == Beyond(items, Elements(s, i))
        decreases |s| - i
      {
        ElementsTurn(s, i, ElementAt(s, i));
        var value;
        ok, value := ParseElement();
        if !ok {
          return;
        }
        ghost var was := items;
        items := items + [value];
        if i >= |s| {
          ok := Fail(OPEN_ARRAY);
          return;
        }
        if s[i] == ',' {
          BeyondTwice(was, value, Elements(s, i + 1));
          i := i + 1;
          continue;
        }
        if s[i] == ']' {
          i := i + 1;
          return true, Array(items);
        }
        ok := Fail(NO_BRACKET);
        return;
      }
    }

    method Run() returns (ok: bool, out: Value)
      requires Ready() && i == 0
      modifies this
      ensures Did(ParseText(s), ok, out)
    {
      hide ValueAt;
      SkipSpace();
      ok, out := ParseValue();
      if !ok {
        return;
      }
      SkipSpace();
      if i != |s| {
        ok := Fail(TRAILING);
        return;
      }
    }
  }

  /**
   * `parse`: it always comes to an end, accepts what `ParseText` accepts with the same value, and on a rejection says
   * what was wrong and where, if it was given somewhere to say it.
   */
  method ParseJson(text: string, reports: bool) returns (ok: bool, out: Value, error: string)
    ensures ok == ParseText(text).Ok?
    ensures ok ==> out == ParseText(text).value && error == ""
    ensures !ok && reports ==> error == ParseText(text).msg + " at offset " + Decimal.Text(ParseText(text).at)
    ensures !ok && !reports ==> error == ""
    ensures !ok && reports ==> error != ""
  {
    var parser := new Parser(text, reports);
    ok, out := parser.Run();
    error := parser.error;
  }
}

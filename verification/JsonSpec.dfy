/**
 * What the parser computes, as functions of the text and a position: each one is a member of `JsonParser.Parser`
 * without its cursor. A rejection carries the message and the position the source reports.
 */
module JsonSpec {
  import opened Common
  import opened JsonValue
  import Utf8

  datatype Parse<+T> = Ok(value: T, next: nat) | Bad(msg: string, at: nat)
  {
    /** Every acceptance consumes something and stays inside the text; every rejection has something to say. */
    ghost predicate From(s: string, i: nat) {
      match this
      case Ok(_, next) => i < next <= |s|
      case Bad(msg, at) => msg != "" && i <= at <= |s|
    }
  }

  const END_OF_INPUT := "unexpected end of input"
  const BAD_LITERAL := "invalid literal"
  const NO_KEY := "expected an object key"
  const NO_COLON := "expected ':'"
  const OPEN_OBJECT := "unterminated object"
  const NO_BRACE := "expected ',' or '}'"
  const OPEN_ARRAY := "unterminated array"
  const NO_BRACKET := "expected ',' or ']'"
  const SHORT_CODE := "truncated \\u escape"
  const BAD_CODE := "bad hex digit in \\u escape"
  const OPEN_STRING := "unterminated string"
  const OPEN_ESCAPE := "unterminated escape"
  const BAD_ESCAPE := "unknown escape"
  const NO_VALUE := "expected a value"
  const TRAILING := "trailing characters after the JSON value"

  predicate Space(c: char) {
    c == ' ' || c == '\t' || c == '\n' || c == '\r'
  }

  /** The first position at or after `i` that holds no white space. */
  function SkipWs(s: string, i: nat): (j: nat)
    requires i <= |s|
    ensures i <= j <= |s|
    ensures forall k | i <= k < j :: Space(s[k])
    ensures j < |s| ==> !Space(s[j])
    decreases |s| - i
  {
    if i < |s| && Space(s[i]) then SkipWs(s, i + 1) else i
  }

  /** `t` stands in `s` at `i`. */
  predicate At(s: string, i: nat, t: string) {
    i + |t| <= |s| && forall k | 0 <= k < |t| :: s[i + k] == t[k]
  }

  predicate Is(s: string, i: nat, c: char) {
    i < |s| && s[i] == c
  }

  // ---- strings ----

  predicate IsHex(c: char) {
    '0' <= c <= '9' || 'a' <= c <= 'f' || 'A' <= c <= 'F'
  }

  function HexDigit(c: char): (d: nat)
    requires IsHex(c)
    ensures d < 16
  {
    if '0' <= c <= '9' then c as int - '0' as int
    else if 'a' <= c <= 'f' then c as int - 'a' as int + 10
    else c as int - 'A' as int + 10
  }

  predicate AllHex(h: string) {
    forall k | 0 <= k < |h| :: IsHex(h[k])
  }

  /** Hexadecimal digits, the most significant first. */
  function HexValue(h: string): nat
    requires AllHex(h)
  {
    if h == "" then 0 else 16 * HexValue(h[..|h| - 1]) + HexDigit(h[|h| - 1])
  }

  lemma HexValueOfFour(h: string)
    requires AllHex(h) && |h| == 4
    ensures HexValue(h)
         == 4096 * HexDigit(h[0]) + 256 * HexDigit(h[1]) + 16 * HexDigit(h[2]) + HexDigit(h[3]) < 0x1_0000
  {
    assert h[..3][..2] == h[..2] && h[..2][..1] == h[..1] && h[..1][..0] == "";
    assert HexValue(h[..1]) == HexDigit(h[0]);
    assert HexValue(h[..2]) == 16 * HexValue(h[..1]) + HexDigit(h[1]);
    assert HexValue(h[..3]) == 16 * HexValue(h[..2]) + HexDigit(h[2]);
  }

  function Hex4(s: string, i: nat): (r: Parse<nat>)
    requires i <= |s|
    ensures r.From(s, i)
    ensures r.Ok? ==> r.next == i + 4 && AllHex(s[i..i + 4]) && r.value == HexValue(s[i..i + 4]) < 0x1_0000
  {
    if i + 4 > |s| then Bad(SHORT_CODE, i)
    else if !AllHex(s[i..i + 4]) then Bad(BAD_CODE, i)
    else
      HexValueOfFour(s[i..i + 4]);
      Ok(HexValue(s[i..i + 4]), i + 4)
  }

  predicate High(cp: nat) {
    0xD800 <= cp <= 0xDBFF
  }

  predicate Low(cp: nat) {
    0xDC00 <= cp <= 0xDFFF
  }

  /** The character a surrogate pair stands for. */
  function Join(high: nat, low: nat): (cp: nat)
    requires High(high) && Low(low)
    ensures 0x1_0000 <= cp <= 0x10_FFFF
  {
    0x1_0000 + (high - 0xD800) * 0x400 + (low - 0xDC00)
  }

  /** What follows `\u`. A high half looks ahead for its other half, and stays alone if the next escape is not it. */
  function Unicode(s: string, i: nat): (r: Parse<string>)
    requires i <= |s|
    ensures r.From(s, i)
  {
    var first := Hex4(s, i);
    if first.Bad? then Bad(first.msg, first.at)
    else if High(first.value) && Is(s, first.next, '\\') && Is(s, first.next + 1, 'u') then
      var second := Hex4(s, first.next + 2);
      if second.Bad? then Bad(second.msg, second.at)
      else if Low(second.value) then Ok(Utf8.Encode(Join(first.value, second.value)), second.next)
      else Ok(Utf8.Encode(first.value), first.next)
    else Ok(Utf8.Encode(first.value), first.next)
  }

  /** The two-character escapes of RFC 8259, section 7. */
  function Short(e: char): Option<char> {
    if e == '"' || e == '\\' || e == '/' then Some(e)
    else if e == 'b' then Some(8 as char)
    else if e == 'f' then Some(12 as char)
    else if e == 'n' then Some('\n')
    else if e == 'r' then Some('\r')
    else if e == 't' then Some('\t')
    else None
  }

  /** What follows a backslash. */
  function Escape(s: string, i: nat): (r: Parse<string>)
    requires i <= |s|
    ensures r.From(s, i)
  {
    if i == |s| then Bad(OPEN_ESCAPE, i)
    else if s[i] == 'u' then Unicode(s, i + 1)
    else if Short(s[i]).Some? then Ok([Short(s[i]).value], i + 1)
    else Bad(BAD_ESCAPE, i + 1)
  }

  /** `r` with `done` in front of what it read. */
  function After(done: string, r: Parse<string>): Parse<string> {
    if r.Ok? then Ok(done + r.value, r.next) else r
  }

  /** The rest of a string, up to and with its closing quote. */
  function Chars(s: string, i: nat): (r: Parse<string>)
    requires i <= |s|
    ensures r.From(s, i)
    decreases |s| - i
  {
    if i == |s| then Bad(OPEN_STRING, i)
    else if s[i] == '"' then Ok("", i + 1)
    else if s[i] != '\\' then After([s[i]], Chars(s, i + 1))
    else
      var e := Escape(s, i + 1);
      if e.Bad? then e else After(e.value, Chars(s, e.next))
  }

  // ---- numbers ----

  predicate Sign(c: char) {
    c == '-' || c == '+'
  }

  predicate NumberChar(c: char) {
    IsDigit(c) || c == '.' || c == 'e' || c == 'E' || Sign(c)
  }

  /** The end of the run of number characters at `i`. */
  function NumberEnd(s: string, i: nat): (j: nat)
    requires i <= |s|
    ensures i <= j <= |s|
    ensures forall k | i <= k < j :: NumberChar(s[k])
    ensures j < |s| ==> !NumberChar(s[j])
    decreases |s| - i
  {
    if i < |s| && NumberChar(s[i]) then NumberEnd(s, i + 1) else i
  }

  function NumberAt(s: string, i: nat): (r: Parse<Value>)
    requires i < |s|
    ensures r.From(s, i)
  {
    var first := if Sign(s[i]) then i + 1 else i;
    var last := NumberEnd(s, first);
    if last == first then Bad(NO_VALUE, first) else Ok(Number(s[i..last]), last)
  }

  // ---- values ----

  function LiteralAt(s: string, i: nat, word: string, v: Value): (r: Parse<Value>)
    requires i <= |s| && word != ""
    ensures r.From(s, i)
  {
    if At(s, i, word) then Ok(v, i + |word|) else Bad(BAD_LITERAL, i)
  }

  function ValueAt(s: string, i: nat): (r: Parse<Value>)
    requires i <= |s|
    ensures r.From(s, i)
    decreases |s| - i, 0
  {
    if i == |s| then Bad(END_OF_INPUT, i)
    else if s[i] == '{' then
      var j := SkipWs(s, i + 1);
      if Is(s, j, '}') then Ok(Object(map[]), j + 1)
      else
        var r := Members(s, j);
        if r.Ok? then Ok(Object(r.value), r.next) else Bad(r.msg, r.at)
    else if s[i] == '[' then
      var j := SkipWs(s, i + 1);
      if Is(s, j, ']') then Ok(Array([]), j + 1)
      else
        var r := Elements(s, j);
        if r.Ok? then Ok(Array(r.value), r.next) else Bad(r.msg, r.at)
    else if s[i] == '"' then
      var r := Chars(s, i + 1);
      if r.Ok? then Ok(String(r.value), r.next) else Bad(r.msg, r.at)
    else if s[i] == 't' then LiteralAt(s, i, "true", Bool(true))
    else if s[i] == 'f' then LiteralAt(s, i, "false", Bool(false))
    else if s[i] == 'n' then LiteralAt(s, i, "null", Null)
    else NumberAt(s, i)
  }

  /** One member of an object: its key and value, up to the comma or brace behind it. */
  function MemberAt(s: string, i: nat): (r: Parse<(string, Value)>)
    requires i <= |s|
    ensures r.From(s, i)
    decreases |s| - i, 1
  {
    var k := SkipWs(s, i);
    if !Is(s, k, '"') then Bad(NO_KEY, k)
    else
      var key := Chars(s, k + 1);
      if key.Bad? then Bad(key.msg, key.at)
      else
        var c := SkipWs(s, key.next);
        if !Is(s, c, ':') then Bad(NO_COLON, c)
        else
          var v := ValueAt(s, SkipWs(s, c + 1));
          if v.Bad? then Bad(v.msg, v.at) else Ok((key.value, v.value), SkipWs(s, v.next))
  }

  /** The members from `i` to the closing brace; of two with one key the earlier one counts. */
  function Members(s: string, i: nat): (r: Parse<map<string, Value>>)
    requires i <= |s|
    ensures r.From(s, i)
    decreases |s| - i, 2
  {
    var m := MemberAt(s, i);
    if m.Bad? then Bad(m.msg, m.at)
    else if m.next == |s| then Bad(OPEN_OBJECT, m.next)
    else if s[m.next] == ',' then Behind(map[m.value.0 := m.value.1], Members(s, m.next + 1))
    else if s[m.next] == '}' then Ok(map[m.value.0 := m.value.1], m.next + 1)
    else Bad(NO_BRACE, m.next)
  }

  /** `r` with the members read before it, which win. */
  function Behind(done: map<string, Value>, r: Parse<map<string, Value>>): Parse<map<string, Value>> {
    if r.Ok? then Ok(r.value + done, r.next) else r
  }

  function ElementAt(s: string, i: nat): (r: Parse<Value>)
    requires i <= |s|
    ensures r.From(s, i)
    decreases |s| - i, 1
  {
    var v := ValueAt(s, SkipWs(s, i));
    if v.Bad? then v else Ok(v.value, SkipWs(s, v.next))
  }

  /** The elements from `i` to the closing bracket. */
  function Elements(s: string, i: nat): (r: Parse<seq<Value>>)
    requires i <= |s|
    ensures r.From(s, i)
    decreases |s| - i, 2
  {
    var v := ElementAt(s, i);
    if v.Bad? then Bad(v.msg, v.at)
    else if v.next == |s| then Bad(OPEN_ARRAY, v.next)
    else if s[v.next] == ',' then Beyond([v.value], Elements(s, v.next + 1))
    else if s[v.next] == ']' then Ok([v.value], v.next + 1)
    else Bad(NO_BRACKET, v.next)
  }

  /** `r` with the elements read before it. */
  function Beyond(done: seq<Value>, r: Parse<seq<Value>>): Parse<seq<Value>> {
    if r.Ok? then Ok(done + r.value, r.next) else r
  }

  /** A whole text: one value, white space around it, nothing else. */
  function ParseText(s: string): (r: Parse<Value>)
    ensures r.Ok? ==> r.next == |s| > 0
    ensures r.Bad? ==> r.msg != "" && r.at <= |s|
  {
    var v := ValueAt(s, SkipWs(s, 0));
    if v.Bad? then v
    else
      var last := SkipWs(s, v.next);
      if last == |s| then Ok(v.value, last) else Bad(TRAILING, last)
  }
}

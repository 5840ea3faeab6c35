/** The printer half: `quote` and `ObjectWriter`, and that the parser undoes them. */
module JsonWriter {
  import opened Common
  import opened JsonValue
  import opened JsonSpec
  import opened JsonGrammar
  import opened JsonSoundness
  import Decimal
  import JsonReading
  import Utf8

  function HexChar(d: nat): (c: char)
    requires d < 16
    ensures IsHex(c) && HexDigit(c) == d
  {
    if d < 10 then ('0' as int + d) as char else ('a' as int + d - 10) as char
  }

  /** `%04x` of a byte. */
  function Hex04(n: nat): (h: string)
    requires n < 0x100
    ensures |h| == 4 && AllHex(h)
  {
    ['0', '0', HexChar(n / 16), HexChar(n % 16)]
  }

  /** How one byte is spelled between quotes. */
  function Spelled(c: char): string {
    if c == '"' then "\\\""
    else if c == '\\' then "\\\\"
    else if c == 8 as char then "\\b"
    else if c == 12 as char then "\\f"
    else if c == '\n' then "\\n"
    else if c == '\r' then "\\r"
    else if c == '\t' then "\\t"
    else if c < ' ' then "\\u" + Hex04(c as int)
    else [c]
  }

  function SpelledOut(s: string): string {
    if s == "" then "" else SpelledOut(s[..|s| - 1]) + Spelled(s[|s| - 1])
  }

  function Quoted(s: string): string {
    "\"" + (SpelledOut(s) + "\"")
  }

  lemma Appended(a: string, b: string)
    ensures ("\"" + a) + b == "\"" + (a + b)
  {
  }

  method Quote(s: string) returns (out: string)
    ensures out == Quoted(s)
  {
    out := "\"";
    for k := 0 to |s|
      invariant out == "\"" + SpelledOut(s[..k])
    {
      var c := s[k];
      ghost var was := out;
      assert SpelledOut(s[..k + 1]) == SpelledOut(s[..k]) + Spelled(c) by {
        assert s[..k + 1][..k] == s[..k];
      }
      if c == '"' {
        out := out + "\\\"";
      } else if c == '\\' {
        out := out + "\\\\";
      } else if c == 8 as char {
        out := out + "\\b";
      } else if c == 12 as char {
        out := out + "\\f";
      } else if c == '\n' {
        out := out + "\\n";
      } else if c == '\r' {
        out := out + "\\r";
      } else if c == '\t' {
        out := out + "\\t";
      } else if c < ' ' {
        out := out + ("\\u" + Hex04(c as int));
      } else {
        out := out + [c];
      }
      assert out == was + Spelled(c);
      Appended(SpelledOut(s[..k]), Spelled(c));
    }
    assert s[..|s|] == s;
    Appended(SpelledOut(s), "\"");
    out := out + "\"";
  }

  /** The same byte as an item of the grammar. */
  function ItemOf(c: char): (t: Item)
    ensures LegalItem(t, true) && ItemText(t) == Spelled(c)
    ensures t.Code? ==> c < ' ' && t.hex == Hex04(c as int)
    ensures t.Plain? ==> t.c == c
    ensures t.Esc? ==> Short(t.e) == Some(c)
  {
    if c == '"' then Esc('"')
    else if c == '\\' then Esc('\\')
    else if c == 8 as char then Esc('b')
    else if c == 12 as char then Esc('f')
    else if c == '\n' then Esc('n')
    else if c == '\r' then Esc('r')
    else if c == '\t' then Esc('t')
    else if c < ' ' then Code(Hex04(c as int))
    else Plain(c)
  }

  function ItemsOf(s: string): (items: seq<Item>)
    ensures |items| == |s| && forall k | 0 <= k < |s| :: items[k] == ItemOf(s[k])
    ensures LegalItems(items, true)
  {
    seq(|s|, k requires 0 <= k < |s| => ItemOf(s[k]))
  }

  lemma HexRead(n: nat)
    requires n < 0x20
    ensures HexValue(Hex04(n)) == n
  {
    HexValueOfFour(Hex04(n));
  }

  lemma ByteSpoken(c: char, rest: seq<Item>)
    requires LegalItems(rest, false)
    ensures LegalItems([ItemOf(c)] + rest, false) && Spoken([ItemOf(c)] + rest) == [c] + Spoken(rest)
  {
    var items := [ItemOf(c)] + rest;
    assert items[1..] == rest;
    if items[0].Code? {
      HexRead(c as int);
      assert Utf8.Encode(c as int) == [c];
    }
  }

  /** Every string is spoken back byte for byte, whatever it holds. */
  lemma {:induction false} SpokenBack(s: string)
    ensures LegalItems(ItemsOf(s), false) && Spoken(ItemsOf(s)) == s
  {
    if s != "" {
      SpokenBack(s[1..]);
      ByteSpoken(s[0], ItemsOf(s[1..]));
      hide Spoken;
      assert ItemsOf(s) == [ItemOf(s[0])] + ItemsOf(s[1..]);
      assert s == [s[0]] + s[1..];
    }
  }

  lemma {:induction false} SpelledIsItems(s: string)
    ensures ItemsText(ItemsOf(s)) == SpelledOut(s)
  {
    if s != "" {
      var init := s[..|s| - 1];
      var last := ItemOf(s[|s| - 1]);
      SpelledIsItems(init);
      JsonReading.OneItem(last);
      hide ItemsText;
      assert ItemsOf(s) == ItemsOf(init) + [last];
      JsonReading.FrontText(ItemsOf(init), [last]);
    }
  }

  // ---- fields ----

  datatype FieldValue = TextField(s: string) | Unsigned(n: nat) | Signed(i: int) | Flag(b: bool)

  datatype Field = Field(key: string, value: FieldValue)

  /** Values the overloads take: 64-bit integers, signed or not. */
  predicate InRange(f: Field) {
    && (f.value.Unsigned? ==> f.value.n < TWO_64)
    && (f.value.Signed? ==> -TWO_63 <= f.value.i < TWO_63)
  }

  function FieldText(f: Field): string {
    Quoted(f.key) + (":" +
      match f.value
      case TextField(s) => Quoted(s)
      case Unsigned(n) => Decimal.Text(n)
      case Signed(i) => Decimal.Signed(i)
      case Flag(b) => if b then "true" else "false")
  }

  /** The fields with commas between them. */
  function Joined(fields: seq<Field>): string
    requires fields != []
  {
    if |fields| == 1 then FieldText(fields[0]) else FieldText(fields[0]) + ("," + Joined(fields[1..]))
  }

  function Written(fields: seq<Field>): string {
    if fields == [] then "{}" else "{" + Joined(fields) + "}"
  }

  lemma {:induction false} JoinedGrows(fields: seq<Field>, f: Field)
    requires fields != []
    ensures Joined(fields + [f]) == Joined(fields) + "," + FieldText(f)
  {
    if |fields| > 1 {
      assert (fields + [f])[1..] == fields[1..] + [f];
      JoinedGrows(fields[1..], f);
    } else {
      assert (fields + [f])[1..] == [f];
    }
  }

  /** What each overload leaves in the buffer, where `b` is the buffer with its brace or comma. */
  lemma Grown(before: seq<Field>, f: Field, b: string, value: string)
    requires b == if before == [] then "{" else "{" + Joined(before) + ","
    requires FieldText(f) == Quoted(f.key) + (":" + value)
    ensures b + Quoted(f.key) + ":" + value == "{" + Joined(before + [f])
  {
    FieldJoined(b, Quoted(f.key), value);
    hide FieldText, Quoted;
    if before != [] {
      JoinedGrows(before, f);
      hide Joined;
      CommaJoined(Joined(before), FieldText(f));
    } else {
      assert before + [f] == [f];
    }
  }

  lemma FieldJoined(b: string, key: string, value: string)
    ensures b + key + ":" + value == b + (key + (":" + value))
  {
    assert (key + ":") + value == key + (":" + value);
    assert b + key + ":" + value == b + ((key + ":") + value);
  }

  lemma CommaJoined(fields: string, field: string)
    ensures "{" + fields + "," + field == "{" + (fields + "," + field)
  {
  }

  class ObjectWriter {
    var buf: string
    ghost var fields: seq<Field>

    /** The buffer holds the fields so far, without the closing brace. */
    ghost predicate Valid()
      reads this
    {
      buf == if fields == [] then "" else "{" + Joined(fields)
    }

    constructor ()
      ensures Valid() && fields == []
    {
      buf := "";
      fields := [];
    }

    method Separate()
      modifies this`buf
      ensures buf == if old(buf) == "" then "{" else old(buf) + ","
    {
      if buf == "" {
        buf := buf + "{";
      } else {
        buf := buf + ",";
      }
    }

    method FieldString(key: string, value: string)
      requires Valid()
      modifies this
      ensures Valid() && fields == old(fields) + [Field(key, TextField(value))]
    {
      Separate();
      ghost var b := buf;
      var k := Quote(key);
      buf := buf + k;
      buf := buf + ":";
      var v := Quote(value);
      buf := buf + v;
      Grown(fields, Field(key, TextField(value)), b, v);
      fields := fields + [Field(key, TextField(value))];
    }

    /** A null C string is written as an empty one. */
    method FieldCString(key: string, value: Option<string>)
      requires Valid()
      modifies this
      ensures Valid() && fields == old(fields) + [Field(key, TextField(value.GetOr("")))]
    {
      FieldString(key, value.GetOr(""));
    }

    method FieldUint64(key: string, value: nat)
      requires Valid() && value < TWO_64
      modifies this
      ensures Valid() && fields == old(fields) + [Field(key, Unsigned(value))]
    {
      Separate();
      ghost var b := buf;
      var k := Quote(key);
      buf := buf + k;
      buf := buf + ":";
      buf := buf + Decimal.Text(value);
      Grown(fields, Field(key, Unsigned(value)), b, Decimal.Text(value));
      fields := fields + [Field(key, Unsigned(value))];
    }

    method FieldInt64(key: string, value: int)
      requires Valid() && -TWO_63 <= value < TWO_63
      modifies this
      ensures Valid() && fields == old(fields) + [Field(key, Signed(value))]
    {
      Separate();
      ghost var b := buf;
      var k := Quote(key);
      buf := buf + k;
      buf := buf + ":";
      buf := buf + Decimal.Signed(value);
      Grown(fields, Field(key, Signed(value)), b, Decimal.Signed(value));
      fields := fields + [Field(key, Signed(value))];
    }

    method FieldBool(key: string, value: bool)
      requires Valid()
      modifies this
      ensures Valid() && fields == old(fields) + [Field(key, Flag(value))]
    {
      Separate();
      ghost var b := buf;
      var k := Quote(key);
      buf := buf + k;
      buf := buf + ":";
      var v := if value then "true" else "false";
      buf := buf + v;
      Grown(fields, Field(key, Flag(value)), b, v);
      fields := fields + [Field(key, Flag(value))];
    }

    method Str() returns (text: string)
      requires Valid()
      ensures text == Written(fields)
    {
      if buf == "" {
        text := "{}";
      } else {
        text := buf + "}";
      }
    }
  }

  // ---- the writer's text is RFC 8259, and is read back ----

  function ValueDoc(v: FieldValue): Doc {
    match v
    case TextField(s) => StringDoc(ItemsOf(s))
    case Unsigned(n) => NumberDoc(Decimal.Text(n))
    case Signed(i) => NumberDoc(Decimal.Signed(i))
    case Flag(b) => BoolDoc(b)
  }

  function FieldDocs(fields: seq<Field>): MemberDocs
    requires fields != []
  {
    MemberDocs("", ItemsOf(fields[0].key), "", "", ValueDoc(fields[0].value), "",
               if |fields| == 1 then None else Some(FieldDocs(fields[1..])))
  }

  function WrittenDoc(fields: seq<Field>): Doc {
    if fields == [] then EmptyObject("") else ObjectDoc(FieldDocs(fields))
  }

  function TailText(fields: seq<Field>): string
    requires fields != []
  {
    if |fields| == 1 then "}" else "," + MembersText(FieldDocs(fields[1..]))
  }

  lemma DocsText(fields: seq<Field>)
    requires fields != []
    ensures var key, value := ItemsText(ItemsOf(fields[0].key)), Text(ValueDoc(fields[0].value));
            MembersText(FieldDocs(fields))
            == "" + ("\"" + (key + ("\"" + ("" + (":" + ("" + (value + ("" + TailText(fields)))))))))
  {
    hide ItemsText, Text, ItemsOf, ValueDoc;
  }

  lemma FirstText(fields: seq<Field>)
    requires fields != []
    ensures MembersText(FieldDocs(fields)) == FieldText(fields[0]) + TailText(fields)
  {
    hide FieldText, ItemsText, Text, ItemsOf, ValueDoc, FieldDocs, MembersText, TailText;
    var f := fields[0];
    DocsText(fields);
    FieldIsParts(f);
    FieldParts(ItemsText(ItemsOf(f.key)), Text(ValueDoc(f.value)), TailText(fields));
  }

  lemma FieldIsParts(f: Field)
    ensures FieldText(f) == "\"" + (ItemsText(ItemsOf(f.key)) + "\"") + (":" + Text(ValueDoc(f.value)))
  {
    SpelledIsItems(f.key);
    if f.value.TextField? {
      SpelledIsItems(f.value.s);
    }
  }

  lemma {:induction false} FieldsText(fields: seq<Field>)
    requires fields != []
    ensures MembersText(FieldDocs(fields)) == Joined(fields) + "}"
  {
    FirstText(fields);
    hide FieldText, FieldDocs, MembersText;
    if |fields| > 1 {
      FieldsText(fields[1..]);
      Behind(FieldText(fields[0]), Joined(fields[1..]));
    }
  }

  lemma Behind(a: string, b: string)
    ensures a + ("," + (b + "}")) == a + ("," + b) + "}"
  {
  }

  lemma FieldParts(key: string, value: string, tail: string)
    ensures "" + ("\"" + (key + ("\"" + ("" + (":" + ("" + (value + ("" + tail))))))))
         == "\"" + (key + "\"") + (":" + value) + tail
  {
    var end := value + tail;
    assert "" + tail == tail && "" + end == end && "" + (":" + end) == ":" + end;
  }

  lemma {:induction false} DecimalDigits(n: nat)
    ensures Digits(Decimal.Text(n)) && (Decimal.Text(n)[0] == '0' ==> |Decimal.Text(n)| == 1)
    ensures n > 0 ==> Decimal.Text(n)[0] != '0'
  {
    if n >= 10 {
      DecimalDigits(n / 10);
    }
  }

  /** Integers are spelled as section 6 of RFC 8259 wants them: no plus sign, no leading zero. */
  lemma IntegersAreNumbers(i: int)
    ensures StrictNumber(Decimal.Signed(i))
  {
    var n := if i < 0 then -i else i;
    DecimalDigits(n);
    var spelling := Spelling(i < 0, Decimal.Text(n), None, None);
    assert WellSpelt(spelling) && Spell(spelling) == Decimal.Signed(i);
  }

  lemma {:induction false} FieldsAreLegal(fields: seq<Field>)
    requires fields != []
    ensures LegalMembers(FieldDocs(fields), true)
  {
    var f := fields[0];
    if f.value.Unsigned? {
      IntegersAreNumbers(f.value.n);
    } else if f.value.Signed? {
      IntegersAreNumbers(f.value.i);
    }
    if |fields| > 1 {
      FieldsAreLegal(fields[1..]);
    }
  }

  /** Whatever is written is an RFC 8259 object. */
  lemma WritesJson(fields: seq<Field>)
    ensures Legal(WrittenDoc(fields), true) && Text(WrittenDoc(fields)) == Written(fields)
    ensures Renders(Written(fields), WrittenDoc(fields))
  {
    hide Joined;
    if fields != [] {
      FieldsAreLegal(fields);
      FieldsText(fields);
      assert "{" + (Joined(fields) + "}") == "{" + Joined(fields) + "}";
    }
    assert Blank("") && "" + Text(WrittenDoc(fields)) + "" == Written(fields);
  }

  /** The first field written under `key`. */
  function FirstField(fields: seq<Field>, key: string): Option<FieldValue> {
    if fields == [] then None
    else if fields[0].key == key then Some(fields[0].value)
    else FirstField(fields[1..], key)
  }

  function ReadBack(v: FieldValue): Value {
    match v
    case TextField(s) => String(s)
    case Unsigned(n) => Number(Decimal.Text(n))
    case Signed(i) => Number(Decimal.Signed(i))
    case Flag(b) => Bool(b)
  }

  lemma {:induction false} FirstFieldCounts(fields: seq<Field>, key: string)
    requires fields != [] && LegalMembers(FieldDocs(fields), false)
    ensures Lookup(MemberValues(FieldDocs(fields)), key)
         == if FirstField(fields, key).Some? then Some(ReadBack(FirstField(fields, key).value)) else None
  {
    var f := fields[0];
    SpokenBack(f.key);
    if f.value.TextField? {
      SpokenBack(f.value.s);
    }
    if |fields| > 1 {
      FirstFieldCounts(fields[1..], key);
    } else {
      assert fields[1..] == [];
    }
  }

  /**
   * Every list of fields is read back: the keys are exactly those written, a string comes back byte for byte, an
   * integer as its digits, and of fields written under one key the first.
   */
  lemma WriterReadBack(fields: seq<Field>) returns (members: map<string, Value>)
    ensures ParseText(Written(fields)) == Ok(Object(members), |Written(fields)|)
    ensures forall key: string :: Lookup(members, key)
              == if FirstField(fields, key).Some? then Some(ReadBack(FirstField(fields, key).value)) else None
  {
    var d := WrittenDoc(fields);
    WritesJson(fields);
    EveryRfcTextIsRead(Written(fields), d);
    members := Meaning(d).members;
    if fields != [] {
      forall key: string
        ensures Lookup(members, key)
             == if FirstField(fields, key).Some? then Some(ReadBack(FirstField(fields, key).value)) else None
      {
        FirstFieldCounts(fields, key);
      }
    }
  }

  /** What a caller reads under each key, through the typed accessors and with any fallback. */
  lemma TypedReadBack(fields: seq<Field>, k: nat, text: string, n: nat, i: int, b: bool)
    requires k < |fields| && InRange(fields[k])
    requires forall j | 0 <= j < k :: fields[j].key != fields[k].key
    ensures var r := ParseText(Written(fields));
            && r.Ok?
            && var v := r.value.Get(fields[k].key);
               match fields[k].value
               case TextField(s) => v.AsString(text) == s
               case Unsigned(m) => v.AsUint64(n) == m
               case Signed(m) => v.AsInt64(i) == Some(m)
               case Flag(f) => v.AsBool(b) == f
  {
    var members := WriterReadBack(fields);
    FirstAt(fields, k);
    assert Lookup(members, fields[k].key) == Some(ReadBack(fields[k].value));
    match fields[k].value
    case Unsigned(m) => Decimal.Uint64RoundTrip(m, n);
    case Signed(m) => Decimal.Int64RoundTrip(m, i);
    case _ =>
  }

  lemma {:induction false} FirstAt(fields: seq<Field>, k: nat)
    requires k < |fields| && forall j | 0 <= j < k :: fields[j].key != fields[k].key
    ensures FirstField(fields, fields[k].key) == Some(fields[k].value)
  {
    if k > 0 {
      assert fields[0].key != fields[k].key;
      FirstAt(fields[1..], k - 1);
    }
  }
}

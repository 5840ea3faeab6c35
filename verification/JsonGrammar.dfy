/**
 * The grammar of RFC 8259, sections 2 to 7, as trees that keep every choice a writer has: white space, escapes,
 * the spelling of numbers. `Text` writes a tree out; `Meaning` is the value it stands for.
 */
module JsonGrammar {
  import opened Common
  import opened JsonValue
  import opened JsonSpec
  import Utf8

  /** One character of a string: itself, a two-character escape, or four hexadecimal digits behind `\u`. */
  datatype Item = Plain(c: char) | Esc(e: char) | Code(hex: string)

  datatype Doc =
    | NullDoc
    | BoolDoc(b: bool)
    | NumberDoc(text: string)
    | StringDoc(items: seq<Item>)
    | EmptyArray(gap: string)
    | ArrayDoc(elements: ElementDocs)
    | EmptyObject(gap: string)
    | ObjectDoc(members: MemberDocs)

  /** One element with the white space around it, and the ones after its comma. */
  datatype ElementDocs = ElementDocs(before: string, doc: Doc, after: string, more: Option<ElementDocs>)

  /** One member: white space, key, white space, colon, white space, value, white space. */
  datatype MemberDocs = MemberDocs(
    before: string, key: seq<Item>, left: string, right: string, doc: Doc, after: string, more: Option<MemberDocs>)

  // ---- numbers as section 6 of RFC 8259 spells them ----

  datatype Exponent = Exponent(e: char, sign: string, digits: string)

  datatype Spelling = Spelling(minus: bool, whole: string, fraction: Option<string>, exponent: Option<Exponent>)

  predicate Digits(t: string) {
    t != "" && forall k | 0 <= k < |t| :: IsDigit(t[k])
  }

  predicate WellSpelt(n: Spelling) {
    && Digits(n.whole) && (n.whole[0] == '0' ==> |n.whole| == 1)
    && (n.fraction.Some? ==> Digits(n.fraction.value))
    && (n.exponent.Some? ==>
          && (n.exponent.value.e == 'e' || n.exponent.value.e == 'E')
          && n.exponent.value.sign in {"", "+", "-"}
          && Digits(n.exponent.value.digits))
  }

  function Spell(n: Spelling): string {
    (if n.minus then "-" else "") + n.whole
    + (if n.fraction.Some? then "." + n.fraction.value else "")
    + (if n.exponent.Some? then [n.exponent.value.e] + n.exponent.value.sign + n.exponent.value.digits else "")
  }

  ghost predicate StrictNumber(t: string) {
    exists n: Spelling :: WellSpelt(n) && Spell(n) == t
  }

  /** What the parser takes for a number: a run of number characters, not of a lone sign. */
  predicate LooseNumber(t: string) {
    && t != ""
    && (forall k | 0 <= k < |t| :: NumberChar(t[k]))
    && (Sign(t[0]) ==> |t| > 1)
  }

  // ---- legality: with `strict`, RFC 8259; without, all the parser takes ----

  predicate Blank(w: string) {
    forall k | 0 <= k < |w| :: Space(w[k])
  }

  predicate LegalItem(t: Item, strict: bool) {
    match t
    case Plain(c) => c != '"' && c != '\\' && (strict ==> c >= ' ')
    case Esc(e) => Short(e).Some?
    case Code(h) => |h| == 4 && AllHex(h)
  }

  predicate LegalItems(items: seq<Item>, strict: bool) {
    forall k | 0 <= k < |items| :: LegalItem(items[k], strict)
  }

  ghost predicate Legal(d: Doc, strict: bool) {
    match d
    case NullDoc => true
    case BoolDoc(_) => true
    case NumberDoc(t) => if strict then StrictNumber(t) else LooseNumber(t)
    case StringDoc(items) => LegalItems(items, strict)
    case EmptyArray(gap) => Blank(gap)
    case ArrayDoc(es) => LegalElements(es, strict)
    case EmptyObject(gap) => Blank(gap)
    case ObjectDoc(ms) => LegalMembers(ms, strict)
  }

  ghost predicate LegalElements(es: ElementDocs, strict: bool) {
    && Blank(es.before) && Legal(es.doc, strict) && Blank(es.after)
    && (es.more.Some? ==> LegalElements(es.more.value, strict))
  }

  ghost predicate LegalMembers(ms: MemberDocs, strict: bool) {
    && Blank(ms.before) && LegalItems(ms.key, strict) && Blank(ms.left) && Blank(ms.right)
    && Legal(ms.doc, strict) && Blank(ms.after)
    && (ms.more.Some? ==> LegalMembers(ms.more.value, strict))
  }

  // ---- the text of a tree ----

  function ItemText(t: Item): string {
    match t
    case Plain(c) => [c]
    case Esc(e) => ['\\', e]
    case Code(h) => "\\u" + h
  }

  function ItemsText(items: seq<Item>): string {
    if items == [] then "" else ItemText(items[0]) + ItemsText(items[1..])
  }

  function Text(d: Doc): string {
    match d
    case NullDoc => "null"
    case BoolDoc(b) => if b then "true" else "false"
    case NumberDoc(t) => t
    case StringDoc(items) => "\"" + (ItemsText(items) + "\"")
    case EmptyArray(gap) => "[" + (gap + "]")
    case ArrayDoc(es) => "[" + ElementsText(es)
    case EmptyObject(gap) => "{" + (gap + "}")
    case ObjectDoc(ms) => "{" + MembersText(ms)
  }

  /** Closing bracket included. */
  function ElementsText(es: ElementDocs): string {
    es.before + (Text(es.doc) + (es.after +
      (if es.more.None? then "]" else "," + ElementsText(es.more.value))))
  }

  /** Closing brace included. */
  function MembersText(ms: MemberDocs): string {
    ms.before + ("\"" + (ItemsText(ms.key) + ("\"" + (ms.left + (":" + (ms.right + (Text(ms.doc) + (ms.after +
      (if ms.more.None? then "}" else "," + MembersText(ms.more.value))))))))))
  }

  // ---- the value a tree stands for ----

  /** A high half and the low half right behind it are one character; any other code stands for itself. */
  predicate PairAt(items: seq<Item>)
    requires LegalItems(items, false)
  {
    && |items| > 1 && items[0].Code? && items[1].Code?
    && High(HexValue(items[0].hex)) && Low(HexValue(items[1].hex))
  }

  function Spoken(items: seq<Item>): string
    requires LegalItems(items, false)
  {
    if items == [] then ""
    else if PairAt(items) then
      Utf8.Encode(Join(HexValue(items[0].hex), HexValue(items[1].hex))) + Spoken(items[2..])
    else
      (match items[0]
       case Plain(c) => [c]
       case Esc(e) => [Short(e).value]
       case Code(h) => HexValueOfFour(h); Utf8.Encode(HexValue(h)))
      + Spoken(items[1..])
  }

  ghost function Meaning(d: Doc): Value
    requires Legal(d, false)
  {
    match d
    case NullDoc => Null
    case BoolDoc(b) => Bool(b)
    case NumberDoc(t) => Number(t)
    case StringDoc(items) => String(Spoken(items))
    case EmptyArray(_) => Array([])
    case ArrayDoc(es) => Array(ElementValues(es))
    case EmptyObject(_) => Object(map[])
    case ObjectDoc(ms) => Object(MemberValues(ms))
  }

  ghost function ElementValues(es: ElementDocs): seq<Value>
    requires LegalElements(es, false)
  {
    [Meaning(es.doc)] + (if es.more.None? then [] else ElementValues(es.more.value))
  }

  ghost function MemberValues(ms: MemberDocs): map<string, Value>
    requires LegalMembers(ms, false)
  {
    (if ms.more.None? then map[] else MemberValues(ms.more.value)) + map[Spoken(ms.key) := Meaning(ms.doc)]
  }

  /** The value written at the first of the members named `key`. */
  ghost function FirstNamed(ms: MemberDocs, key: string): Option<Doc>
    requires LegalMembers(ms, false)
  {
    if Spoken(ms.key) == key then Some(ms.doc)
    else if ms.more.None? then None
    else FirstNamed(ms.more.value, key)
  }

  /** Of duplicate keys the first counts, and there are no other keys. */
  lemma {:induction false} FirstCounts(ms: MemberDocs, key: string)
    requires LegalMembers(ms, false)
    ensures FirstNamed(ms, key).Some? ==> Legal(FirstNamed(ms, key).value, false)
    ensures Lookup(MemberValues(ms), key)
         == if FirstNamed(ms, key).Some? then Some(Meaning(FirstNamed(ms, key).value)) else None
  {
    if ms.more.Some? {
      FirstCounts(ms.more.value, key);
    }
  }

  // ---- RFC 8259 is part of what the parser takes ----

  lemma {:induction false} SpeltIsLoose(n: Spelling)
    requires WellSpelt(n)
    ensures LooseNumber(Spell(n))
  {
    var t := Spell(n);
    assert n.minus ==> t[0] == '-' && t[1] == n.whole[0];
    assert !n.minus ==> t[0] == n.whole[0];
  }

  lemma {:induction false} StrictIsLoose(d: Doc)
    requires Legal(d, true)
    ensures Legal(d, false)
  {
    match d
    case NumberDoc(t) =>
      var n: Spelling :| WellSpelt(n) && Spell(n) == t;
      SpeltIsLoose(n);
    case ArrayDoc(es) => StrictElements(es);
    case ObjectDoc(ms) => StrictMembers(ms);
    case _ =>
  }

  lemma {:induction false} StrictElements(es: ElementDocs)
    requires LegalElements(es, true)
    ensures LegalElements(es, false)
  {
    StrictIsLoose(es.doc);
    if es.more.Some? {
      StrictElements(es.more.value);
    }
  }

  lemma {:induction false} StrictMembers(ms: MemberDocs)
    requires LegalMembers(ms, true)
    ensures LegalMembers(ms, false)
  {
    StrictIsLoose(ms.doc);
    if ms.more.Some? {
      StrictMembers(ms.more.value);
    }
  }
}

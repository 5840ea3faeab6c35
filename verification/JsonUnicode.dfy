/** Characters in strings, however they are written: as their bytes, by a short escape, by a code or by a pair. */
module JsonUnicode {
  import opened Common
  import opened JsonValue
  import opened JsonSpec
  import opened JsonGrammar
  import opened JsonSoundness
  import opened JsonWriter
  import Utf8

  datatype Glyph = Raw(cp: nat) | Short(e: char) | Single(hex: string) | Pair(high: string, low: string)

  predicate IsCode(h: string) {
    |h| == 4 && AllHex(h)
  }

  /** The ways a Unicode character may be written in a string; the parser takes raw control characters too. */
  predicate WellWritten(g: Glyph) {
    match g
    case Raw(cp) => Utf8.IsScalar(cp) && cp != 0x22 && cp != 0x5C
    case Short(e) => JsonSpec.Short(e).Some?
    case Single(h) => IsCode(h) && Utf8.IsScalar(HexValue(h))
    case Pair(h, l) => IsCode(h) && IsCode(l) && High(HexValue(h)) && Low(HexValue(l))
  }

  function CodePoint(g: Glyph): (cp: nat)
    requires WellWritten(g)
  {
    match g
    case Raw(cp) => cp
    case Short(e) => JsonSpec.Short(e).value as int
    case Single(h) => HexValue(h)
    case Pair(h, l) => Join(HexValue(h), HexValue(l))
  }

  function Plains(bytes: string): (items: seq<Item>)
    ensures |items| == |bytes| && forall k | 0 <= k < |bytes| :: items[k] == Plain(bytes[k])
  {
    seq(|bytes|, k requires 0 <= k < |bytes| => Plain(bytes[k]))
  }

  function GlyphItems(g: Glyph): (items: seq<Item>)
    requires WellWritten(g)
    ensures LegalItems(items, false)
  {
    match g
    case Raw(cp) => RawBytes(cp); Plains(Utf8.Encode(cp))
    case Short(e) => [Esc(e)]
    case Single(h) => [Code(h)]
    case Pair(h, l) => [Code(h), Code(l)]
  }

  /** A character's own bytes are neither quotes nor backslashes unless it is one. */
  lemma RawBytes(cp: nat)
    requires WellWritten(Raw(cp))
    ensures LegalItems(Plains(Utf8.Encode(cp)), false)
  {
  }

  function AllItems(gs: seq<Glyph>): seq<Item>
    requires forall g | g in gs :: WellWritten(g)
  {
    if gs == [] then [] else GlyphItems(gs[0]) + AllItems(gs[1..])
  }

  /** The characters' UTF-8, one after the other. */
  function Utf8Text(gs: seq<Glyph>): string
    requires forall g | g in gs :: WellWritten(g)
  {
    if gs == [] then "" else Utf8.Encode(CodePoint(gs[0])) + Utf8Text(gs[1..])
  }

  lemma PlainSpoken(c: char, rest: seq<Item>)
    requires LegalItem(Plain(c), false) && LegalItems(rest, false)
    ensures Spoken([Plain(c)] + rest) == [c] + Spoken(rest)
  {
    assert ([Plain(c)] + rest)[1..] == rest;
  }

  lemma {:induction false} PlainsSpoken(bytes: string, rest: seq<Item>)
    requires LegalItems(Plains(bytes), false) && LegalItems(rest, false)
    ensures LegalItems(Plains(bytes) + rest, false)
    ensures Spoken(Plains(bytes) + rest) == bytes + Spoken(rest)
  {
    hide Spoken;
    if bytes == "" {
      assert Plains(bytes) + rest == rest;
    } else {
      assert Plains(bytes) + rest == [Plain(bytes[0])] + (Plains(bytes[1..]) + rest);
      assert LegalItem(Plains(bytes)[0], false);
      PlainsSpoken(bytes[1..], rest);
      PlainSpoken(bytes[0], Plains(bytes[1..]) + rest);
    }
  }

  /** A character is read as itself, whatever follows it. */
  lemma GlyphSpoken(g: Glyph, rest: seq<Item>)
    requires WellWritten(g) && LegalItems(rest, false)
    ensures Spoken(GlyphItems(g) + rest) == Utf8.Encode(CodePoint(g)) + Spoken(rest)
  {
    match g
    case Raw(cp) => PlainsSpoken(Utf8.Encode(cp), rest);
    case Short(e) => assert ([Esc(e)] + rest)[1..] == rest;
    case Single(h) =>
      HexValueOfFour(h);
      assert ([Code(h)] + rest)[1..] == rest;
    case Pair(h, l) => assert ([Code(h), Code(l)] + rest)[2..] == rest;
  }

  lemma {:induction false} AllSpoken(gs: seq<Glyph>)
    requires forall g | g in gs :: WellWritten(g)
    ensures LegalItems(AllItems(gs), false)
    ensures Spoken(AllItems(gs)) == Utf8Text(gs)
  {
    if gs != [] {
      AllSpoken(gs[1..]);
      GlyphSpoken(gs[0], AllItems(gs[1..]));
    }
  }

  /**
   * A string of Unicode characters, each written in any of its ways, is read as the characters' UTF-8: no escape takes
   * part of its neighbour, and a pair is one character.
   */
  lemma CharactersAreRead(gs: seq<Glyph>)
    requires forall g | g in gs :: WellWritten(g)
    ensures ParseText("\"" + ItemsText(AllItems(gs)) + "\"").Ok?
    ensures ParseText("\"" + ItemsText(AllItems(gs)) + "\"").value == String(Utf8Text(gs))
  {
    AllSpoken(gs);
    StringRead(AllItems(gs));
  }

  /** Every legal spelling between quotes is read as what it says. */
  lemma StringRead(items: seq<Item>)
    requires LegalItems(items, false)
    ensures ParseText("\"" + ItemsText(items) + "\"").Ok?
    ensures ParseText("\"" + ItemsText(items) + "\"").value == String(Spoken(items))
  {
    hide ItemsText, Spoken, ParseText;
    var d := StringDoc(items);
    var s := "\"" + ItemsText(items) + "\"";
    assert Blank("") && s == "" + Text(d) + "";
    TreesAreAccepted(s, d);
  }

  /** Four hexadecimal digits of a number. */
  function Hex4Of(n: nat): (h: string)
    requires n < 0x1_0000
    ensures IsCode(h) && HexValue(h) == n
  {
    var h := [HexChar(n / 0x1000), HexChar(n / 0x100 % 0x10), HexChar(n / 0x10 % 0x10), HexChar(n % 0x10)];
    HexValueOfFour(h);
    FourBits(n);
    h
  }

  lemma FourBits(n: nat)
    ensures n == n / 0x1000 * 0x1000 + n / 0x100 % 0x10 * 0x100 + n / 0x10 % 0x10 * 0x10 + n % 0x10
  {
    assert n / 0x100 == n / 0x10 / 0x10 && n / 0x1000 == n / 0x100 / 0x10;
    assert n / 0x10 == n / 0x100 * 0x10 + n / 0x10 % 0x10;
    assert n / 0x100 == n / 0x1000 * 0x10 + n / 0x100 % 0x10;
  }

  /** Every character has a code or a pair of codes, and UTF-8 decoding finds the character again. */
  lemma EveryCharacterEscapes(cp: nat) returns (g: Glyph)
    requires Utf8.IsScalar(cp)
    ensures WellWritten(g) && CodePoint(g) == cp
    ensures if cp < 0x1_0000 then g.Single? else g.Pair?
    ensures Utf8.Decode(Utf8.Encode(CodePoint(g))) == Some(cp)
  {
    hide Utf8.Encode, Utf8.Decode, Hex4Of;
    if cp < 0x1_0000 {
      g := Single(Hex4Of(cp));
    } else {
      g := Pair(Hex4Of(0xD800 + (cp - 0x1_0000) / 0x400), Hex4Of(0xDC00 + (cp - 0x1_0000) % 0x400));
    }
    Utf8.EncodeDecodes(cp);
  }

  // ---- exactly which strings come out as UTF-8 ----

  lemma {:induction false} CharactersAreWellFormed(gs: seq<Glyph>)
    requires forall g | g in gs :: WellWritten(g)
    ensures Utf8.WellFormed(Utf8Text(gs))
  {
    if gs != [] {
      CharactersAreWellFormed(gs[1..]);
      Characters(gs[0]);
      Utf8.WellFormedAfter(CodePoint(gs[0]), Utf8Text(gs[1..]));
    }
  }

  lemma Characters(g: Glyph)
    requires WellWritten(g)
    ensures Utf8.IsScalar(CodePoint(g))
  {
  }

  /** A byte from the middle of a sequence can only stand for itself: no escape starts with one. */
  lemma TailIsPlain(items: seq<Item>)
    requires LegalItems(items, false) && Spoken(items) != "" && Utf8.Tail(Spoken(items)[0])
    ensures items != [] && items[0] == Plain(Spoken(items)[0])
    ensures Spoken(items) == [Spoken(items)[0]] + Spoken(items[1..])
  {
    if PairAt(items) {
      Utf8.EncodeStarts(Join(HexValue(items[0].hex), HexValue(items[1].hex)));
    } else if items[0].Code? {
      HexValueOfFour(items[0].hex);
      Utf8.EncodeStarts(HexValue(items[0].hex));
    }
  }

  lemma OneMore(c: char, r: string, m: nat, t: string)
    requires m <= |r| && r == r[..m] + t
    ensures ([c] + r)[..m + 1] == [c] + r[..m] && [c] + r == ([c] + r)[..m + 1] + t
  {
  }

  lemma PlainsGrow(c: char, bytes: string)
    ensures Plains([c] + bytes) == [Plain(c)] + Plains(bytes)
  {
  }

  /** One more plain byte in front of those found so far. */
  lemma PlainInFront(items: seq<Item>, c: char, r: string, t: string, n: nat)
    requires 0 < n <= |items| && n - 1 <= |r| && items[0] == Plain(c)
    requires items[1..][..n - 1] == Plains(r[..n - 1]) && r == r[..n - 1] + t
    ensures items[..n] == Plains(([c] + r)[..n]) && [c] + r == ([c] + r)[..n] + t
  {
    OneMore(c, r, n - 1, t);
    PlainsGrow(c, r[..n - 1]);
    hide Plains;
    assert items[..n] == [items[0]] + items[1..][..n - 1];
  }

  /** So what follows a first byte in its sequence stands there plainly. */
  lemma {:induction false} TailsArePlain(items: seq<Item>, n: nat)
    requires LegalItems(items, false) && n <= |Spoken(items)|
    requires forall k | 0 <= k < n :: Utf8.Tail(Spoken(items)[k])
    ensures n <= |items| && items[..n] == Plains(Spoken(items)[..n])
    ensures Spoken(items) == Spoken(items)[..n] + Spoken(items[n..])
  {
    if n > 0 {
      assert Utf8.Tail(Spoken(items)[0]);
      TailIsPlain(items);
      hide Spoken, LegalItems, Plains;
      var c, rest := Spoken(items)[0], items[1..];
      var r := Spoken(rest);
      assert forall k | 0 <= k < n - 1 :: r[k] == Spoken(items)[k + 1];
      TailsArePlain(rest, n - 1);
      hide Utf8.Tail;
      assert rest[n - 1..] == items[n..];
      PlainInFront(items, c, r, Spoken(items[n..]), n);
    } else {
      assert items[0..] == items;
    }
  }

  lemma SequenceTails(b: string)
    requires Utf8.Decode(b).Some?
    ensures forall k | 1 <= k < |b| :: Utf8.Tail(b[k])
    ensures |b| > 1 ==> Utf8.Decode(b).value >= 0x80
    ensures |b| == 1 ==> Utf8.Decode(b) == Some(b[0] as int)
  {
  }

  /** The first character of a string that is UTF-8: how it is written, and what is left. */
  lemma FirstGlyph(items: seq<Item>) returns (g: Glyph)
    requires LegalItems(items, false) && items != [] && Utf8.WellFormed(Spoken(items))
    ensures WellWritten(g) && GlyphItems(g) != [] && GlyphItems(g) <= items
    ensures Utf8.WellFormed(Spoken(items[|GlyphItems(g)|..]))
  {
    if items[0].Plain? {
      g := FirstPlain(items);
    } else if PairAt(items) {
      g := Pair(items[0].hex, items[1].hex);
      Utf8.WellFormedAfter(CodePoint(g), Spoken(items[2..]));
    } else if items[0].Code? {
      g := Single(items[0].hex);
      HexValueOfFour(items[0].hex);
      Utf8.WellFormedAfter(HexValue(items[0].hex), Spoken(items[1..]));
    } else {
      g := Short(items[0].e);
      EscapeIsOneByte(CodePoint(g));
      Utf8.WellFormedAfter(CodePoint(g), Spoken(items[1..]));
    }
  }

  lemma EscapeIsOneByte(cp: nat)
    requires cp <= 0x7F
    ensures Utf8.Encode(cp) == [cp as char]
  {
  }

  lemma FirstPlain(items: seq<Item>) returns (g: Glyph)
    requires LegalItems(items, false) && items != [] && items[0].Plain? && Utf8.WellFormed(Spoken(items))
    ensures WellWritten(g) && GlyphItems(g) != [] && GlyphItems(g) <= items
    ensures Utf8.WellFormed(Spoken(items[|GlyphItems(g)|..]))
  {
    var b := Spoken(items);
    PlainFirst(items);
    var n := Utf8.Announced(b[0]);
    var bytes := b[..n];
    assert 0 < n <= |b| && Utf8.Decode(bytes).Some? && Utf8.WellFormed(b[n..]);
    hide Spoken, Utf8.Decode, Utf8.Encode, Utf8.WellFormed, Utf8.Announced, Utf8.Tail, LegalItems;
    SequenceTails(bytes);
    Utf8.DecodeEncodes(bytes);
    SequenceIsPlain(items, n);
    assert b[n..] == Spoken(items[n..]);
    g := Raw(Utf8.Decode(bytes).value);
    RawIsLegal(items[0], bytes);
    assert GlyphItems(g) == Plains(bytes) == items[..n];
  }

  lemma PlainFirst(items: seq<Item>)
    requires LegalItems(items, false) && items != [] && items[0].Plain?
    ensures Spoken(items) == [items[0].c] + Spoken(items[1..])
  {
  }

  lemma RawIsLegal(t: Item, bytes: string)
    requires LegalItem(t, false) && t.Plain? && bytes != "" && bytes[0] == t.c && Utf8.Decode(bytes).Some?
    requires Utf8.IsScalar(Utf8.Decode(bytes).value)
    ensures WellWritten(Raw(Utf8.Decode(bytes).value))
  {
    SequenceTails(bytes);
    hide Utf8.Decode;
  }

  lemma SequenceIsPlain(items: seq<Item>, n: nat)
    requires LegalItems(items, false) && items != [] && items[0].Plain? && 0 < n <= |Spoken(items)|
    requires forall k | 1 <= k < n :: Utf8.Tail(Spoken(items)[..n][k])
    ensures n <= |items| && items[..n] == Plains(Spoken(items)[..n])
    ensures Spoken(items) == Spoken(items)[..n] + Spoken(items[n..])
  {
    PlainFirst(items);
    hide Spoken, Utf8.Tail;
    var c, rest := items[0].c, items[1..];
    var r := Spoken(rest);
    Shifted(c, r, n);
    TailsArePlain(rest, n - 1);
    hide LegalItems, Plains;
    assert rest[n - 1..] == items[n..];
    PlainInFront(items, c, r, Spoken(items[n..]), n);
  }

  lemma Shifted(c: char, r: string, n: nat)
    requires 0 < n <= |r| + 1
    requires forall k | 1 <= k < n :: Utf8.Tail(([c] + r)[..n][k])
    ensures forall k | 0 <= k < n - 1 :: Utf8.Tail(r[k])
  {
    forall k | 0 <= k < n - 1
      ensures Utf8.Tail(r[k])
    {
      assert r[k] == ([c] + r)[..n][k + 1];
    }
  }

  lemma {:induction false} WellFormedIsCharacters(items: seq<Item>) returns (gs: seq<Glyph>)
    requires LegalItems(items, false) && Utf8.WellFormed(Spoken(items))
    ensures forall g | g in gs :: WellWritten(g)
    ensures AllItems(gs) == items
    decreases |items|
  {
    if items == [] {
      gs := [];
    } else {
      hide Spoken, Utf8.WellFormed, WellWritten;
      var g := FirstGlyph(items);
      hide GlyphItems;
      var n := |GlyphItems(g)|;
      var rest := WellFormedIsCharacters(items[n..]);
      gs := [g] + rest;
      assert gs[1..] == rest;
      assert items == items[..n] + items[n..];
    }
  }

  /**
   * A string that is read comes out as UTF-8 exactly if it was written character by character, each in one of its ways:
   * half a pair alone, or bytes that are no character, are accepted all the same, and what comes out is not UTF-8.
   */
  lemma ReadsUtf8IffCharacters(items: seq<Item>)
    requires LegalItems(items, false)
    ensures ParseText("\"" + ItemsText(items) + "\"").Ok?
    ensures ParseText("\"" + ItemsText(items) + "\"").value == String(Spoken(items))
    ensures Utf8.WellFormed(Spoken(items))
            <==> exists gs: seq<Glyph> :: (forall g | g in gs :: WellWritten(g)) && AllItems(gs) == items
  {
    hide ItemsText, ParseText;
    StringRead(items);
    if Utf8.WellFormed(Spoken(items)) {
      var gs := WellFormedIsCharacters(items);
    }
    if gs: seq<Glyph> :| (forall g | g in gs :: WellWritten(g)) && AllItems(gs) == items {
      AllSpoken(gs);
      CharactersAreWellFormed(gs);
    }
  }
}

/** The characters the JSON parser knows, spelled out, and what each is worth. */
module JsonAlphabet {
  import opened Common
  import opened JsonValue
  import opened JsonSpec
  import opened JsonGrammar
  import opened JsonSoundness
  import JsonUnicode
  import JsonReading
  import Utf8
  import JsonWriter

  const LOWER := "0123456789abcdef"
  const UPPER := "0123456789ABCDEF"

  // ---- digits ----

  lemma LettersAre(d: nat)
    requires 10 <= d < 16
    ensures LOWER[d] as int == 'a' as int + (d - 10) && UPPER[d] as int == 'A' as int + (d - 10)
  {
    assert LOWER[10..] == "abcdef" && UPPER[10..] == "ABCDEF";
    assert "abcdef"[0] == 'a' && "abcdef"[1] == 'b' && "abcdef"[2] == 'c';
    assert "abcdef"[3] == 'd' && "abcdef"[4] == 'e' && "abcdef"[5] == 'f';
    assert "ABCDEF"[0] == 'A' && "ABCDEF"[1] == 'B' && "ABCDEF"[2] == 'C';
    assert "ABCDEF"[3] == 'D' && "ABCDEF"[4] == 'E' && "ABCDEF"[5] == 'F';
    assert LOWER[d] == LOWER[10..][d - 10] && UPPER[d] == UPPER[10..][d - 10];
  }

  lemma FiguresAre(d: nat)
    requires d < 10
    ensures LOWER[d] == UPPER[d] && LOWER[d] as int == '0' as int + d
  {
    var f := "0123456789";
    assert LOWER[..10] == f && UPPER[..10] == f;
    assert f[0] == '0' && f[1] == '1' && f[2] == '2' && f[3] == '3' && f[4] == '4';
    assert f[5] == '5' && f[6] == '6' && f[7] == '7' && f[8] == '8' && f[9] == '9';
    assert LOWER[d] == LOWER[..10][d] && UPPER[d] == UPPER[..10][d];
  }

  /** The digit at position `d` of either row is worth `d`; the decimal readers agree on the first ten. */
  lemma DigitsCount(d: nat)
    requires d < 16
    ensures IsHex(LOWER[d]) && HexDigit(LOWER[d]) == d
    ensures IsHex(UPPER[d]) && HexDigit(UPPER[d]) == d
    ensures d < 10 ==> IsDigit(LOWER[d]) && DigitValue(LOWER[d]) == d
    ensures d >= 10 ==> !IsDigit(LOWER[d]) && !IsDigit(UPPER[d])
  {
    if d < 10 {
      FiguresAre(d);
    } else {
      LettersAre(d);
    }
  }

  /** And there are no other digits. */
  lemma NoOtherDigits(c: char)
    ensures IsHex(c) <==> c in LOWER || c in UPPER
    ensures IsDigit(c) <==> c in "0123456789"
  {
    if IsHex(c) {
      var d := HexDigit(c);
      if d < 10 {
        FiguresAre(d);
        assert LOWER[d] == c;
      } else {
        LettersAre(d);
        assert c == LOWER[d] || c == UPPER[d];
      }
    }
    if c in LOWER {
      var d :| 0 <= d < |LOWER| && LOWER[d] == c;
      DigitsCount(d);
    }
    if c in UPPER {
      var d :| 0 <= d < |UPPER| && UPPER[d] == c;
      DigitsCount(d);
    }
    var f := "0123456789";
    if IsDigit(c) {
      FiguresAre(DigitValue(c));
      assert LOWER[..10] == f && LOWER[..10][DigitValue(c)] == c;
    }
    if c in f {
      var d :| 0 <= d < |f| && f[d] == c;
      assert LOWER[..10] == f && LOWER[d] == LOWER[..10][d];
      FiguresAre(d);
    }
  }

  /** `h` spells `n` in four digits, each in upper or lower case. */
  predicate SpellsHex(h: string, n: nat) {
    && n < 0x1_0000 && |h| == 4
    && (h[0] == LOWER[n / 0x1000] || h[0] == UPPER[n / 0x1000])
    && (h[1] == LOWER[n / 0x100 % 0x10] || h[1] == UPPER[n / 0x100 % 0x10])
    && (h[2] == LOWER[n / 0x10 % 0x10] || h[2] == UPPER[n / 0x10 % 0x10])
    && (h[3] == LOWER[n % 0x10] || h[3] == UPPER[n % 0x10])
  }

  lemma FourDigits(n: nat)
    requires n < 0x1_0000
    ensures n == 4096 * (n / 0x1000) + 256 * (n / 0x100 % 0x10) + 16 * (n / 0x10 % 0x10) + n % 0x10
    ensures n / 0x1000 < 16
  {
    assert n / 0x100 == n / 0x1000 * 0x10 + n / 0x100 % 0x10;
    assert n / 0x10 == n / 0x100 * 0x10 + n / 0x10 % 0x10;
  }

  lemma SpellingCounts(h: string, n: nat)
    requires SpellsHex(h, n)
    ensures AllHex(h) && HexValue(h) == n
  {
    FourDigits(n);
    DigitsCount(n / 0x1000);
    DigitsCount(n / 0x100 % 0x10);
    DigitsCount(n / 0x10 % 0x10);
    DigitsCount(n % 0x10);
    hide LOWER, UPPER, IsHex, HexDigit, HexValue;
    HexValueOfFour(h);
  }

  /**
   * Through the parser: an escape of four hexadecimal digits, each in either case, is read as the code point they spell
   * in base sixteen.
   */
  lemma EveryHexSpellingIsRead(h: string, n: nat)
    requires SpellsHex(h, n)
    ensures ParseText("\"\\u" + h + "\"").Ok?
    ensures ParseText("\"\\u" + h + "\"").value == String(Utf8.Encode(n))
  {
    SpellingCounts(h, n);
    var items := [Code(h)];
    assert items[1..] == [];
    JsonUnicode.StringRead(items);
    JsonReading.OneItem(Code(h));
    assert "\"" + ItemsText(items) + "\"" == "\"\\u" + h + "\"";
  }

  // ---- white space, escapes, numbers ----

  /** White space is the space, the tab, the line feed and the carriage return. */
  lemma SpacesAre(c: char)
    ensures Space(c) <==> c as int == 0x20 || c as int == 0x09 || c as int == 0x0A || c as int == 0x0D
  {
  }

  /** The eight short escapes, and the characters they stand for. */
  lemma EscapesAre(e: char)
    ensures Short(e) == match e
                        case '\"' => Some(0x22 as char)
                        case '\\' => Some(0x5C as char)
                        case '/' => Some(0x2F as char)
                        case 'b' => Some(0x08 as char)
                        case 'f' => Some(0x0C as char)
                        case 'n' => Some(0x0A as char)
                        case 'r' => Some(0x0D as char)
                        case 't' => Some(0x09 as char)
                        case _ => None
  {
  }

  lemma NumberCharsAre(c: char)
    ensures NumberChar(c) <==> c in "0123456789.eE+-"
    ensures Sign(c) <==> c in "+-"
  {
    NoOtherDigits(c);
    var all := "0123456789.eE+-";
    assert all == "0123456789" + ".eE+-";
    assert c in ".eE+-" <==> c == '.' || c == 'e' || c == 'E' || c == '+' || c == '-';
    assert c in all <==> c in "0123456789" || c in ".eE+-";
  }

  // ---- halves of characters ----

  /** The two ranges of halves, and how ten bits of each make a character, by section 7 of RFC 8259. */
  lemma PairsJoin(high: nat, low: nat)
    requires high < 0x400 && low < 0x400
    ensures High(0xD800 + high) && Low(0xDC00 + low)
    ensures Join(0xD800 + high, 0xDC00 + low) == 0x1_0000 + high * 0x400 + low
    ensures !High(0xDC00 + low) && !Low(0xD800 + high)
  {
  }

  // ---- whole texts ----

  /** Two escapes as one, spelled in any case: the halves of a character beyond U+FFFF are read as that character. */
  lemma EveryPairIsRead(high: string, low: string, cp: nat)
    requires 0x1_0000 <= cp <= 0x10_FFFF
    requires SpellsHex(high, 0xD800 + (cp - 0x1_0000) / 0x400) && SpellsHex(low, 0xDC00 + (cp - 0x1_0000) % 0x400)
    ensures ParseText("\"" + ("\\u" + high + ("\\u" + low)) + "\"").Ok?
    ensures ParseText("\"" + ("\\u" + high + ("\\u" + low)) + "\"").value == String(Utf8.Encode(cp))
  {
    var items := [Code(high), Code(low)];
    PairText(high, low);
    PairSpoken(high, low, cp);
    hide ParseText, ItemsText, Spoken, SpellsHex, Utf8.Encode;
    JsonUnicode.StringRead(items);
  }

  lemma PairText(high: string, low: string)
    ensures ItemsText([Code(high), Code(low)]) == "\\u" + high + ("\\u" + low)
  {
    assert [Code(high), Code(low)][1..] == [Code(low)];
    JsonReading.OneItem(Code(low));
  }

  lemma PairSpoken(high: string, low: string, cp: nat)
    requires 0x1_0000 <= cp <= 0x10_FFFF
    requires SpellsHex(high, 0xD800 + (cp - 0x1_0000) / 0x400) && SpellsHex(low, 0xDC00 + (cp - 0x1_0000) % 0x400)
    ensures LegalItems([Code(high), Code(low)], false) && Spoken([Code(high), Code(low)]) == Utf8.Encode(cp)
  {
    var h, l := (cp - 0x1_0000) / 0x400, (cp - 0x1_0000) % 0x400;
    HalvesJoin(cp, h, l);
    hide SpellsHex, Utf8.Encode, HexValue, AllHex, Spoken, High, Low, Join;
    SpellingCounts(high, 0xD800 + h);
    SpellingCounts(low, 0xDC00 + l);
    HalvesSpoken(high, low);
  }

  lemma HalvesJoin(cp: nat, h: nat, l: nat)
    requires 0x1_0000 <= cp <= 0x10_FFFF && h == (cp - 0x1_0000) / 0x400 && l == (cp - 0x1_0000) % 0x400
    ensures h < 0x400 && l < 0x400 && High(0xD800 + h) && Low(0xDC00 + l) && Join(0xD800 + h, 0xDC00 + l) == cp
  {
    PairsJoin(h, l);
  }

  lemma HalvesSpoken(high: string, low: string)
    requires |high| == 4 && |low| == 4 && AllHex(high) && AllHex(low)
    requires High(HexValue(high)) && Low(HexValue(low))
    ensures LegalItems([Code(high), Code(low)], false)
    ensures Spoken([Code(high), Code(low)]) == Utf8.Encode(Join(HexValue(high), HexValue(low)))
  {
    hide Utf8.Encode, HexValue, AllHex, High, Low, Join;
    var items := [Code(high), Code(low)];
    assert items[2..] == [] && PairAt(items);
    assert Spoken(items) == Utf8.Encode(Join(HexValue(high), HexValue(low))) + Spoken([]);
  }

  // ---- how the writer spells ----

  /** Quotes, backslashes and control characters are escaped, in lower case; nothing else is. */
  lemma BytesAreSpelled(c: char)
    ensures JsonWriter.Spelled(c) == match c
                                     case '\"' => "\\\""
                                     case '\\' => "\\\\"
                                     case '\n' => "\\n"
                                     case '\r' => "\\r"
                                     case '\t' => "\\t"
                                     case _ =>
                                       if c as int == 0x08 then "\\b"
                                       else if c as int == 0x0C then "\\f"
                                       else if c as int >= 0x20 then [c]
                                       else "\\u" + ['0', '0', LOWER[c as int / 16], LOWER[c as int % 16]]
  {
    if c as int < 0x20 {
      HexIsSpelled(c as int / 16);
      HexIsSpelled(c as int % 16);
    }
  }

  lemma HexIsSpelled(d: nat)
    requires d < 16
    ensures JsonWriter.HexChar(d) == LOWER[d]
  {
    if d < 10 {
      FiguresAre(d);
    } else {
      LettersAre(d);
    }
  }

  // ---- what is said of texts that are rejected ----

  lemma RejectionsAreSpelled()
    ensures ParseText("") == Bad("unexpected end of input", 0)
    ensures ParseText("x") == Bad("expected a value", 0)
    ensures ParseText("-") == Bad("expected a value", 1)
    ensures ParseText("tru") == Bad("invalid literal", 0)
    ensures ParseText("{") == Bad("expected an object key", 1)
    ensures ParseText("1 2") == Bad("trailing characters after the JSON value", 2)
  {
  }

  lemma StringRejections()
    ensures ParseText("\"a") == Bad("unterminated string", 2)
    ensures ParseText("\"\\") == Bad("unterminated escape", 2)
    ensures ParseText("\"\\x\"") == Bad("unknown escape", 3)
    ensures ParseText("\"\\u12\"") == Bad("truncated \\u escape", 3)
  {
  }

  lemma CodeRejection()
    ensures ParseText("\"\\u12G4\"") == Bad("bad hex digit in \\u escape", 3)
  {
    var s := "\"\\u12G4\"";
    assert s[3..7][2] == 'G';
    assert Hex4(s, 3) == Bad("bad hex digit in \\u escape", 3);
    hide Hex4, AllHex;
    assert Chars(s, 1) == Bad("bad hex digit in \\u escape", 3);
  }

  lemma OpenList()
    ensures ParseText("[1") == Bad("unterminated array", 2)
  {
    var s := "[1";
    assert s[1..2] == "1" && ValueAt(s, 1) == Ok(Number("1"), 2);
    assert SkipWs(s, 1) == 1 && SkipWs(s, 2) == 2 && ElementAt(s, 1) == Ok(Number("1"), 2);
    hide NumberAt, ElementAt;
    assert Elements(s, 1) == Bad("unterminated array", 2);
  }

  lemma LooseList()
    ensures ParseText("[1 2]") == Bad("expected ',' or ']'", 3)
  {
    var s := "[1 2]";
    assert s[1..2] == "1" && NumberAt(s, 1) == Ok(Number("1"), 2);
    hide NumberAt;
    assert SkipWs(s, 1) == 1 && SkipWs(s, 2) == 3;
    assert ElementAt(s, 1) == Ok(Number("1"), 3);
    hide ElementAt;
    assert Elements(s, 1) == Bad("expected ',' or ']'", 3);
  }

  lemma NoColon()
    ensures ParseText("{\"\" 1}") == Bad("expected ':'", 4)
  {
    var s := "{\"\" 1}";
    assert SkipWs(s, 1) == 1 && Chars(s, 2) == Ok("", 3) && SkipWs(s, 3) == 4;
    assert MemberAt(s, 1) == Bad("expected ':'", 4);
    hide MemberAt, Chars;
    assert Members(s, 1) == Bad("expected ':'", 4);
  }

  lemma OpenObject()
    ensures ParseText("{\"\":1") == Bad("unterminated object", 5)
  {
    var s := "{\"\":1";
    assert SkipWs(s, 1) == 1 && Chars(s, 2) == Ok("", 3) && SkipWs(s, 3) == 3 && SkipWs(s, 4) == 4 && SkipWs(s, 5) == 5;
    assert s[4..5] == "1" && NumberAt(s, 4) == Ok(Number("1"), 5);
    hide NumberAt, Chars;
    assert MemberAt(s, 1) == Ok(("", Number("1")), 5);
    hide MemberAt;
    assert Members(s, 1) == Bad("unterminated object", 5);
  }

  lemma LooseSpaces(s: string)
    requires s == "{\"\":1 2}"
    ensures |s| == 8 && s[0] == '{' && s[1] == '"' && s[6] == '2'
    ensures SkipWs(s, 1) == 1 && SkipWs(s, 3) == 3 && SkipWs(s, 4) == 4 && SkipWs(s, 5) == 6
  {
  }

  lemma LooseMember(s: string)
    requires s == "{\"\":1 2}"
    ensures MemberAt(s, 1) == Ok(("", Number("1")), 6)
  {
    LooseSpaces(s);
    hide SkipWs;
    assert Chars(s, 2) == Ok("", 3);
    hide Chars;
    assert s[4..5] == "1" && NumberAt(s, 4) == Ok(Number("1"), 5);
    hide NumberAt;
    assert ValueAt(s, 4) == Ok(Number("1"), 5);
  }

  lemma LooseObject()
    ensures ParseText("{\"\":1 2}") == Bad("expected ',' or '}'", 6)
  {
    var s := "{\"\":1 2}";
    LooseSpaces(s);
    LooseMember(s);
    hide SkipWs, MemberAt, Chars, NumberAt;
    assert Members(s, 1) == Bad("expected ',' or '}'", 6);
    SkipsNothing(s);
  }

  lemma SkipsNothing(s: string)
    requires s != "" && !Space(s[0])
    ensures SkipWs(s, 0) == 0
  {
  }

  /** Every way a list, an object or a string can be rejected, with its message and position. */
  lemma StructuresAreRejected()
    ensures ParseText("[1") == Bad("unterminated array", 2) && ParseText("[1 2]") == Bad("expected ',' or ']'", 3)
    ensures ParseText("{\"\" 1}") == Bad("expected ':'", 4) && ParseText("{\"\":1") == Bad("unterminated object", 5)
    ensures ParseText("{\"\":1 2}") == Bad("expected ',' or '}'", 6)
    ensures ParseText("\"a") == Bad("unterminated string", 2) && ParseText("\"\\") == Bad("unterminated escape", 2)
    ensures ParseText("\"\\x\"") == Bad("unknown escape", 3)
    ensures ParseText("\"\\u12\"") == Bad("truncated \\u escape", 3)
    ensures ParseText("\"\\u12G4\"") == Bad("bad hex digit in \\u escape", 3)
  {
    hide *;
    StringRejections();
    CodeRejection();
    OpenList();
    LooseList();
    NoColon();
    OpenObject();
    LooseObject();
  }
}

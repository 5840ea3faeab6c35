/** The parser reads the text of every legal tree, and nothing else, and finds the value the tree stands for. */
module JsonReading {
  import opened Common
  import opened JsonValue
  import opened JsonSpec
  import opened JsonGrammar
  import Utf8

  lemma AtSplits(s: string, i: nat, a: string, b: string)
    ensures At(s, i, a + b) <==> At(s, i, a) && At(s, i + |a|, b)
  {
    if At(s, i, a + b) {
      forall k | 0 <= k < |a|
        ensures s[i + k] == a[k]
      {
        assert s[i + k] == (a + b)[k];
      }
      forall k | 0 <= k < |b|
        ensures s[i + |a| + k] == b[k]
      {
        assert s[i + (|a| + k)] == (a + b)[|a| + k];
      }
    }
    if At(s, i, a) && At(s, i + |a|, b) {
      forall k | 0 <= k < |a + b|
        ensures s[i + k] == (a + b)[k]
      {
        assert k >= |a| ==> s[i + |a| + (k - |a|)] == b[k - |a|];
      }
    }
  }

  lemma CharAt(s: string, i: nat, c: char)
    ensures At(s, i, [c]) <==> Is(s, i, c)
  {
    if At(s, i, [c]) {
      assert s[i + 0] == [c][0];
    }
  }

  /** Either way white space is passed over to where it ends. */
  lemma {:induction false} BlankPassed(s: string, i: nat, w: string)
    requires At(s, i, w) && Blank(w)
    requires i + |w| < |s| ==> !Space(s[i + |w|])
    ensures SkipWs(s, i) == i + |w|
  {
    forall k | i <= k < i + |w|
      ensures Space(s[k])
    {
      assert s[i + (k - i)] == w[k - i];
    }
  }

  /** The white space passed over, as a piece of the text. */
  lemma BlankFound(s: string, i: nat)
    requires i <= |s|
    ensures Blank(s[i..SkipWs(s, i)])
    ensures At(s, i, s[i..SkipWs(s, i)])
  {
  }

  // ---- strings ----

  lemma HexAt(s: string, i: nat, h: string)
    requires At(s, i, "\\u" + h) && |h| == 4 && AllHex(h)
    ensures Is(s, i, '\\') && Is(s, i + 1, 'u')
    ensures Hex4(s, i + 2) == Ok(HexValue(h), i + 6) && HexValue(h) < 0x1_0000
  {
    AtSplits(s, i, "\\u", h);
    assert s[i + 0] == "\\u"[0] && s[i + 1] == "\\u"[1];
    assert s[i + 2..i + 6] == h;
  }

  /** What stands behind an item is read as the next item, or is the closing quote. */
  lemma Follow(s: string, i: nat, items: seq<Item>)
    requires LegalItems(items, false) && At(s, i, ItemsText(items) + "\"")
    ensures items == [] ==> Is(s, i, '"')
    ensures items != [] ==>
              && At(s, i, ItemText(items[0]))
              && At(s, i + |ItemText(items[0])|, ItemsText(items[1..]) + "\"")
    ensures Is(s, i, '\\') && Is(s, i + 1, 'u') ==> items != [] && items[0].Code?
  {
    if items == [] {
      assert ItemsText(items) + "\"" == "\"";
      CharAt(s, i, '"');
    } else {
      var t, rest := ItemText(items[0]), ItemsText(items[1..]) + "\"";
      assert ItemsText(items) + "\"" == t + rest;
      AtSplits(s, i, t, rest);
      ItemFront(s, i, items[0]);
    }
  }

  /** Only a code starts with a backslash and a `u`. */
  lemma ItemFront(s: string, i: nat, t: Item)
    requires LegalItem(t, false) && At(s, i, ItemText(t))
    ensures |ItemText(t)| > 0 && s[i] == ItemText(t)[0] != '"'
    ensures t.Plain? ==> s[i] == t.c
    ensures t.Esc? ==> Is(s, i + 1, t.e)
    ensures Is(s, i, '\\') && Is(s, i + 1, 'u') ==> t.Code?
  {
    assert s[i + 0] == ItemText(t)[0];
    assert t.Esc? ==> s[i + 1] == ItemText(t)[1];
  }

  lemma {:induction false} CharsRead(s: string, i: nat, items: seq<Item>)
    requires LegalItems(items, false) && At(s, i, ItemsText(items) + "\"")
    ensures Chars(s, i) == Ok(Spoken(items), i + |ItemsText(items)| + 1)
    decreases |items|
  {
    Follow(s, i, items);
    if items != [] {
      ItemFront(s, i, items[0]);
      if items[0].Code? {
        CodeRead(s, i, items);
      } else {
        CharsRead(s, i + |ItemText(items[0])|, items[1..]);
      }
    }
  }

  /** The look-ahead takes the next escape exactly when the two are the halves of one character. */
  lemma {:induction false} PairRead(s: string, i: nat, items: seq<Item>)
    requires LegalItems(items, false) && At(s, i, ItemsText(items) + "\"")
    requires items != [] && items[0].Code? && PairAt(items)
    ensures Chars(s, i) == Ok(Spoken(items), i + |ItemsText(items)| + 1)
    decreases |items|, 0
  {
    var h, rest := items[0].hex, items[1..];
    Follow(s, i, items);
    HexAt(s, i, h);
    Follow(s, i + 6, rest);
    HexAt(s, i + 6, rest[0].hex);
    CharsRead(s, i + 12, rest[1..]);
    assert rest[1..] == items[2..];
    assert Escape(s, i + 1) == Ok(Utf8.Encode(Join(HexValue(h), HexValue(rest[0].hex))), i + 12);
  }

  lemma {:induction false} CodeRead(s: string, i: nat, items: seq<Item>)
    requires LegalItems(items, false) && At(s, i, ItemsText(items) + "\"")
    requires items != [] && items[0].Code?
    ensures Chars(s, i) == Ok(Spoken(items), i + |ItemsText(items)| + 1)
    decreases |items|, 1
  {
    if PairAt(items) {
      PairRead(s, i, items);
    } else {
      var h, rest := items[0].hex, items[1..];
      Follow(s, i, items);
      HexAt(s, i, h);
      Follow(s, i + 6, rest);
      if rest != [] && rest[0].Code? {
        HexAt(s, i + 6, rest[0].hex);
      }
      CharsRead(s, i + 6, rest);
      assert Escape(s, i + 1) == Ok(Utf8.Encode(HexValue(h)), i + 6);
    }
  }

  /** Four hexadecimal digits at `i`, as an item. */
  lemma CodeFound(s: string, i: nat)
    requires Is(s, i, '\\') && Is(s, i + 1, 'u') && Hex4(s, i + 2).Ok?
    ensures LegalItem(Code(s[i + 2..i + 6]), false) && At(s, i, ItemText(Code(s[i + 2..i + 6])))
  {
    assert s[i..i + 6] == "\\u" + s[i + 2..i + 6];
  }

  /** Every string the parser accepts is some list of items and a quote. */
  lemma {:induction false} CharsFound(s: string, i: nat) returns (items: seq<Item>)
    requires i <= |s| && Chars(s, i).Ok?
    ensures LegalItems(items, false) && At(s, i, ItemsText(items) + "\"")
    ensures Chars(s, i) == Ok(Spoken(items), i + |ItemsText(items)| + 1)
    decreases |s| - i
  {
    if s[i] == '"' {
      items := [];
      CharAt(s, i, '"');
      assert ItemsText(items) + "\"" == "\"";
    } else {
      var front, j := FirstFound(s, i);
      var rest := CharsFound(s, j);
      items := front + rest;
      FrontText(front, rest);
      assert ItemsText(items) + "\"" == ItemsText(front) + (ItemsText(rest) + "\"");
      AtSplits(s, i, ItemsText(front), ItemsText(rest) + "\"");
    }
    CharsRead(s, i, items);
  }

  lemma {:induction false} FrontText(front: seq<Item>, rest: seq<Item>)
    ensures ItemsText(front + rest) == ItemsText(front) + ItemsText(rest)
  {
    if front == [] {
      assert front + rest == rest;
    } else {
      assert (front + rest)[1..] == front[1..] + rest;
      FrontText(front[1..], rest);
    }
  }

  lemma OneItem(t: Item)
    ensures ItemsText([t]) == ItemText(t)
  {
    assert ItemsText([t]) == ItemText(t) + "";
  }

  /** What one turn of the parser's loop took, as one or two items. */
  lemma FirstFound(s: string, i: nat) returns (front: seq<Item>, j: nat)
    requires i < |s| && s[i] != '"' && Chars(s, i).Ok?
    ensures LegalItems(front, false) && At(s, i, ItemsText(front)) && j == i + |ItemsText(front)|
    ensures i < j <= |s| && Chars(s, j).Ok?
  {
    if s[i] != '\\' {
      front, j := [Plain(s[i])], i + 1;
      OneItem(Plain(s[i]));
      CharAt(s, i, s[i]);
    } else if s[i + 1] == 'u' {
      front, j := CodesFound(s, i);
    } else {
      front, j := [Esc(s[i + 1])], i + 2;
      OneItem(front[0]);
    }
  }

  lemma CodesFound(s: string, i: nat) returns (front: seq<Item>, j: nat)
    requires Is(s, i, '\\') && Is(s, i + 1, 'u') && Chars(s, i).Ok?
    ensures LegalItems(front, false) && At(s, i, ItemsText(front)) && j == i + |ItemsText(front)|
    ensures i < j <= |s| && Chars(s, j).Ok?
  {
    CodeFound(s, i);
    var first := Code(s[i + 2..i + 6]);
    j := Escape(s, i + 1).next;
    if j == i + 6 {
      front := [first];
      OneItem(first);
    } else {
      CodeFound(s, i + 6);
      var second := Code(s[i + 8..i + 12]);
      front := [first, second];
      assert front[1..] == [second];
      OneItem(second);
      AtSplits(s, i, ItemText(first), ItemText(second));
    }
  }

  // ---- values ----

  /** A number ends where its characters end. */
  predicate Ended(s: string, j: nat) {
    j < |s| ==> !NumberChar(s[j])
  }

  lemma DocFront(d: Doc)
    requires Legal(d, false)
    ensures Text(d) != "" && !Space(Text(d)[0]) && Text(d)[0] != ']'
  {
  }

  lemma LiteralRead(s: string, i: nat, word: string)
    requires At(s, i, word) && word != ""
    ensures s[i] == word[0]
  {
    assert s[i + 0] == word[0];
  }

  lemma NumberRead(s: string, i: nat, t: string)
    requires At(s, i, t) && LooseNumber(t) && Ended(s, i + |t|)
    ensures ValueAt(s, i) == Ok(Number(t), i + |t|)
  {
    LiteralRead(s, i, t);
    var first := if Sign(s[i]) then i + 1 else i;
    forall k | i <= k < i + |t|
      ensures NumberChar(s[k])
    {
      assert s[i + (k - i)] == t[k - i];
    }
    assert NumberEnd(s, first) == i + |t|;
    assert s[i..i + |t|] == t;
  }

  /** One turn of the parser's loop over elements depends on its element alone. */
  lemma ElementsTurn(s: string, i: nat, e: Parse<Value>)
    requires i <= |s| && ElementAt(s, i) == e
    ensures Elements(s, i).Ok? ==> e.Ok? && (Is(s, e.next, ']') || Is(s, e.next, ','))
    ensures e.Bad? ==> Elements(s, i) == Bad(e.msg, e.at)
    ensures e.Ok? && e.next == |s| ==> Elements(s, i) == Bad(OPEN_ARRAY, e.next)
    ensures e.Ok? && e.next < |s| && s[e.next] != ']' && s[e.next] != ',' ==> Elements(s, i) == Bad(NO_BRACKET, e.next)
    ensures e.Ok? && Is(s, e.next, ']') ==> Elements(s, i) == Ok([e.value], e.next + 1)
    ensures e.Ok? && Is(s, e.next, ',') ==> Elements(s, i) == Beyond([e.value], Elements(s, e.next + 1))
  {
    hide ElementAt, ValueAt, MemberAt, Members, Chars, SkipWs, NumberAt;
  }

  /** And one turn of its loop over members on its member. */
  lemma MembersTurn(s: string, i: nat, m: Parse<(string, Value)>)
    requires i <= |s| && MemberAt(s, i) == m
    ensures Members(s, i).Ok? ==> m.Ok? && (Is(s, m.next, '}') || Is(s, m.next, ','))
    ensures m.Bad? ==> Members(s, i) == Bad(m.msg, m.at)
    ensures m.Ok? && m.next == |s| ==> Members(s, i) == Bad(OPEN_OBJECT, m.next)
    ensures m.Ok? && m.next < |s| && s[m.next] != '}' && s[m.next] != ',' ==> Members(s, i) == Bad(NO_BRACE, m.next)
    ensures m.Ok? && Is(s, m.next, '}') ==> Members(s, i) == Ok(map[m.value.0 := m.value.1], m.next + 1)
    ensures m.Ok? && Is(s, m.next, ',') ==>
              Members(s, i) == Behind(map[m.value.0 := m.value.1], Members(s, m.next + 1))
  {
    hide ElementAt, ValueAt, MemberAt, Elements, Chars, SkipWs, NumberAt;
  }

  /** The loops start by passing white space over again. */
  lemma SkipTwice(s: string, i: nat)
    requires i <= |s|
    ensures ElementAt(s, SkipWs(s, i)) == ElementAt(s, i)
    ensures MemberAt(s, SkipWs(s, i)) == MemberAt(s, i)
  {
    hide ValueAt, Elements, Members, Chars, NumberAt;
    assert SkipWs(s, SkipWs(s, i)) == SkipWs(s, i);
  }

  lemma ElementsSkip(s: string, i: nat)
    requires i <= |s| && Elements(s, i).Ok?
    ensures Elements(s, SkipWs(s, i)) == Elements(s, i)
  {
    hide *;
    SkipTwice(s, i);
    ElementsTurn(s, i, ElementAt(s, i));
    ElementsTurn(s, SkipWs(s, i), ElementAt(s, i));
  }

  lemma MembersSkip(s: string, i: nat)
    requires i <= |s| && Members(s, i).Ok?
    ensures Members(s, SkipWs(s, i)) == Members(s, i)
  {
    hide *;
    SkipTwice(s, i);
    MembersTurn(s, i, MemberAt(s, i));
    MembersTurn(s, SkipWs(s, i), MemberAt(s, i));
  }

  /** A bracket, and elements behind the white space. */
  lemma ArrayTurn(s: string, i: nat)
    requires Is(s, i, '[') && SkipWs(s, i + 1) < |s| && s[SkipWs(s, i + 1)] != ']' && Elements(s, i + 1).Ok?
    ensures ValueAt(s, i) == Ok(Array(Elements(s, i + 1).value), Elements(s, i + 1).next)
  {
    ElementsSkip(s, i + 1);
    hide ElementAt, MemberAt, Members, Elements, Chars, SkipWs, NumberAt;
  }

  /** A brace, and members behind the white space. */
  lemma ObjectTurn(s: string, i: nat)
    requires Is(s, i, '{') && SkipWs(s, i + 1) < |s| && s[SkipWs(s, i + 1)] != '}' && Members(s, i + 1).Ok?
    ensures ValueAt(s, i) == Ok(Object(Members(s, i + 1).value), Members(s, i + 1).next)
  {
    MembersSkip(s, i + 1);
    hide ElementAt, MemberAt, Members, Elements, Chars, SkipWs, NumberAt;
  }

  /** Everything but an array or object with something in it. */
  lemma AtomRead(s: string, i: nat, d: Doc)
    requires !d.ArrayDoc? && !d.ObjectDoc?
    requires Legal(d, false) && At(s, i, Text(d))
    requires d.NumberDoc? ==> Ended(s, i + |Text(d)|)
    ensures ValueAt(s, i) == Ok(Meaning(d), i + |Text(d)|)
  {
    DocFront(d);
    LiteralRead(s, i, Text(d));
    hide Elements, Members;
    match d
    case NumberDoc(t) => NumberRead(s, i, t);
    case StringDoc(items) =>
      AtSplits(s, i, "\"", ItemsText(items) + "\"");
      CharsRead(s, i + 1, items);
    case EmptyArray(gap) => EmptyRead(s, i, "[", gap, ']');
    case EmptyObject(gap) => EmptyRead(s, i, "{", gap, '}');
    case _ =>
  }

  lemma {:induction false} ValueRead(s: string, i: nat, d: Doc)
    requires Legal(d, false) && At(s, i, Text(d))
    requires d.NumberDoc? ==> Ended(s, i + |Text(d)|)
    ensures ValueAt(s, i) == Ok(Meaning(d), i + |Text(d)|)
    decreases d
  {
    hide ValueAt, Elements, Members, SkipWs, At, ElementsText, MembersText, ElementValues, MemberValues;
    if d.ArrayDoc? {
      AtSplits(s, i, "[", ElementsText(d.elements));
      CharAt(s, i, '[');
      ElementPlace(s, i + 1, d.elements);
      ElementsRead(s, i + 1, d.elements);
      ArrayTurn(s, i);
    } else if d.ObjectDoc? {
      AtSplits(s, i, "{", MembersText(d.members));
      CharAt(s, i, '{');
      MemberPlace(s, i + 1, d.members);
      MembersRead(s, i + 1, d.members);
      ObjectTurn(s, i);
    } else {
      AtomRead(s, i, d);
    }
  }

  lemma EmptyRead(s: string, i: nat, open: string, gap: string, close: char)
    requires |open| == 1 && Blank(gap) && !Space(close) && At(s, i, open + (gap + [close]))
    ensures SkipWs(s, i + 1) == i + 1 + |gap| && Is(s, i + 1 + |gap|, close)
  {
    AtSplits(s, i, open, gap + [close]);
    AtSplits(s, i + 1, gap, [close]);
    CharAt(s, i + 1 + |gap|, close);
    BlankPassed(s, i + 1, gap);
  }

  /** What stands behind an element or a member: nothing more, or a comma and the rest. */
  function Tail(close: char, rest: Option<string>): string {
    if rest.None? then [close] else "," + rest.value
  }

  /** A value between white space, up to the comma or bracket behind it. */
  lemma SpacedRead(s: string, i: nat, before: string, d: Doc, after: string, close: char, rest: Option<string>)
    requires Blank(before) && Legal(d, false) && Blank(after)
    requires close == ']' || close == '}'
    requires At(s, i, before + (Text(d) + (after + Tail(close, rest))))
    ensures At(s, i + |before|, Text(d)) && Ended(s, i + |before| + |Text(d)|)
    ensures SkipWs(s, i) == i + |before|
    ensures SkipWs(s, i + |before| + |Text(d)|) == i + |before| + |Text(d)| + |after|
    ensures At(s, i + |before| + |Text(d)| + |after|, Tail(close, rest))
    ensures Is(s, i + |before| + |Text(d)| + |after|, if rest.None? then close else ',')
  {
    hide Text, Legal, SkipWs, Blank;
    var k := i + |before|;
    var l := k + |Text(d)|;
    var tail := Tail(close, rest);
    AtSplits(s, i, before, Text(d) + (after + tail));
    AtSplits(s, k, Text(d), after + tail);
    AtSplits(s, l, after, tail);
    DocFront(d);
    LiteralRead(s, k, Text(d));
    LiteralRead(s, l + |after|, tail);
    BlankPassed(s, i, before);
    BlankPassed(s, l, after);
    if after != "" {
      LiteralRead(s, l, after);
    }
  }

  /** Where one element's value stands, and where it ends. */
  lemma ElementPlace(s: string, i: nat, es: ElementDocs)
    requires LegalElements(es, false) && At(s, i, ElementsText(es))
    ensures At(s, i + |es.before|, Text(es.doc)) && Ended(s, i + |es.before| + |Text(es.doc)|)
    ensures SkipWs(s, i) == i + |es.before| < |s| && s[SkipWs(s, i)] != ']'
    ensures var j := i + |es.before| + |Text(es.doc)| + |es.after|;
            && SkipWs(s, i + |es.before| + |Text(es.doc)|) == j
            && if es.more.None? then Is(s, j, ']') && |ElementsText(es)| == j - i + 1
               else && Is(s, j, ',') && At(s, j + 1, ElementsText(es.more.value))
                    && |ElementsText(es)| == j - i + 1 + |ElementsText(es.more.value)|
  {
    hide At, SkipWs, Legal, Text;
    var rest := if es.more.None? then None else Some(ElementsText(es.more.value));
    var v := i + |es.before|;
    SpacedRead(s, i, es.before, es.doc, es.after, ']', rest);
    DocFront(es.doc);
    LiteralRead(s, v, Text(es.doc));
    if es.more.Some? {
      AtSplits(s, v + |Text(es.doc)| + |es.after|, ",", rest.value);
    }
  }

  lemma ElementRead(s: string, i: nat, v: nat, value: Value, l: nat, j: nat)
    requires i <= |s| && SkipWs(s, i) == v && ValueAt(s, v) == Ok(value, l) && l <= |s| && SkipWs(s, l) == j
    ensures ElementAt(s, i) == Ok(value, j)
  {
    hide SkipWs, ValueAt, Elements, MemberAt, Members;
  }

  lemma {:induction false} ElementsRead(s: string, i: nat, es: ElementDocs)
    requires LegalElements(es, false) && At(s, i, ElementsText(es))
    ensures Elements(s, i) == Ok(ElementValues(es), i + |ElementsText(es)|)
    decreases es
  {
    hide At, SkipWs, Is, ValueAt, ElementAt, Elements, MemberAt, Members, Text, Meaning, Legal, ElementsText, Blank;
    var v := i + |es.before|;
    var l := v + |Text(es.doc)|;
    ElementPlace(s, i, es);
    ValueRead(s, v, es.doc);
    ElementRead(s, i, v, Meaning(es.doc), l, l + |es.after|);
    ElementsTurn(s, i, Ok(Meaning(es.doc), l + |es.after|));
    if es.more.Some? {
      ElementsRead(s, l + |es.after| + 1, es.more.value);
    } else {
      assert ElementValues(es) == [Meaning(es.doc)];
    }
  }

  /** A key, its colon, and where the value's white space starts. */
  lemma KeyRead(s: string, i: nat, ms: MemberDocs, rest: string)
    requires LegalMembers(ms, false)
    requires At(s, i, ms.before + ("\"" + (ItemsText(ms.key) + ("\"" + (ms.left + (":" + rest))))))
    ensures SkipWs(s, i) == i + |ms.before| && Is(s, i + |ms.before|, '"')
    ensures Chars(s, i + |ms.before| + 1) == Ok(Spoken(ms.key), i + |ms.before| + |ItemsText(ms.key)| + 2)
    ensures var k := i + |ms.before| + |ItemsText(ms.key)| + 2;
            && SkipWs(s, k) == k + |ms.left| && Is(s, k + |ms.left|, ':')
            && At(s, k + |ms.left| + 1, rest)
  {
    hide At, SkipWs, Chars, ItemsText, Spoken, Legal, Blank;
    var key := ItemsText(ms.key);
    var a := i + |ms.before|;
    var k := a + |key| + 2;
    AtSplits(s, i, ms.before, "\"" + (key + ("\"" + (ms.left + (":" + rest)))));
    AtSplits(s, a, "\"", key + ("\"" + (ms.left + (":" + rest))));
    assert key + ("\"" + (ms.left + (":" + rest))) == (key + "\"") + (ms.left + (":" + rest));
    AtSplits(s, a + 1, key + "\"", ms.left + (":" + rest));
    AtSplits(s, k, ms.left, ":" + rest);
    AtSplits(s, k + |ms.left|, ":", rest);
    CharAt(s, a, '"');
    CharAt(s, k + |ms.left|, ':');
    BlankPassed(s, i, ms.before);
    BlankPassed(s, k, ms.left);
    CharsRead(s, a + 1, ms.key);
  }

  /** Where one member's key and value stand, and where they end. */
  lemma MemberPlace(s: string, i: nat, ms: MemberDocs)
    requires LegalMembers(ms, false) && At(s, i, MembersText(ms))
    ensures SkipWs(s, i) == i + |ms.before| && Is(s, i + |ms.before|, '"')
    ensures Chars(s, i + |ms.before| + 1) == Ok(Spoken(ms.key), i + |ms.before| + |ItemsText(ms.key)| + 2)
    ensures var n := i + |ms.before| + |ItemsText(ms.key)| + 2;
            var c := n + |ms.left|;
            var v := c + 1 + |ms.right|;
            var l := v + |Text(ms.doc)|;
            var j := l + |ms.after|;
            && SkipWs(s, n) == c && Is(s, c, ':') && SkipWs(s, c + 1) == v
            && At(s, v, Text(ms.doc)) && Ended(s, l) && SkipWs(s, l) == j
            && if ms.more.None? then Is(s, j, '}') && |MembersText(ms)| == j - i + 1
               else && Is(s, j, ',') && At(s, j + 1, MembersText(ms.more.value))
                    && |MembersText(ms)| == j - i + 1 + |MembersText(ms.more.value)|
  {
    hide At, SkipWs, Legal, Text, Chars, ItemsText, Spoken, LegalItems;
    var more := if ms.more.None? then None else Some(MembersText(ms.more.value));
    var v := i + |ms.before| + |ItemsText(ms.key)| + 2 + |ms.left| + 1;
    KeyRead(s, i, ms, ms.right + (Text(ms.doc) + (ms.after + Tail('}', more))));
    SpacedRead(s, v, ms.right, ms.doc, ms.after, '}', more);
    if ms.more.Some? {
      AtSplits(s, v + |ms.right| + |Text(ms.doc)| + |ms.after|, ",", more.value);
    }
  }

  lemma MemberRead(s: string, i: nat, k: nat, key: string, n: nat, c: nat, v: nat, value: Value, l: nat, j: nat)
    requires i <= |s| && SkipWs(s, i) == k && Is(s, k, '"') && Chars(s, k + 1) == Ok(key, n)
    requires n <= |s| && SkipWs(s, n) == c && Is(s, c, ':')
    requires SkipWs(s, c + 1) == v && ValueAt(s, v) == Ok(value, l) && l <= |s| && SkipWs(s, l) == j
    ensures MemberAt(s, i) == Ok((key, value), j)
  {
    hide SkipWs, ValueAt, ElementAt, Elements, Members, Chars;
  }

  lemma {:induction false} MembersRead(s: string, i: nat, ms: MemberDocs)
    requires LegalMembers(ms, false) && At(s, i, MembersText(ms))
    ensures Members(s, i) == Ok(MemberValues(ms), i + |MembersText(ms)|)
    decreases ms
  {
    hide At, SkipWs, Is, ValueAt, ElementAt, Elements, MemberAt, Members, Text, Meaning, Legal, Chars, ItemsText,
         Spoken, LegalItems, MembersText, Blank;
    var k := i + |ms.before|;
    var n := k + |ItemsText(ms.key)| + 2;
    var c := n + |ms.left|;
    var v := c + 1 + |ms.right|;
    var l := v + |Text(ms.doc)|;
    MemberPlace(s, i, ms);
    ValueRead(s, v, ms.doc);
    MemberRead(s, i, k, Spoken(ms.key), n, c, v, Meaning(ms.doc), l, l + |ms.after|);
    MembersTurn(s, i, Ok((Spoken(ms.key), Meaning(ms.doc)), l + |ms.after|));
    if ms.more.Some? {
      MembersRead(s, l + |ms.after| + 1, ms.more.value);
    } else {
      assert MemberValues(ms) == map[Spoken(ms.key) := Meaning(ms.doc)];
    }
  }
}

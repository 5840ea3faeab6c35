/** Whatever the parser accepts is the text of a tree, and so the parser accepts exactly those texts. */
module JsonSoundness {
  import opened Common
  import opened JsonValue
  import opened JsonSpec
  import opened JsonGrammar
  import opened JsonReading

  /** `d` is what the parser read at `i`, up to `next`. */
  ghost predicate Found(s: string, i: nat, d: Doc, next: nat) {
    && Legal(d, false) && At(s, i, Text(d)) && next == i + |Text(d)|
    && (d.NumberDoc? ==> Ended(s, next))
  }

  /** A value between white space, with what is behind it. */
  lemma SpacedFound(s: string, i: nat, d: Doc, l: nat, tail: string) returns (before: string, after: string)
    requires i <= |s| && Found(s, SkipWs(s, i), d, l) && l <= |s| && At(s, SkipWs(s, l), tail)
    ensures Blank(before) && Blank(after)
    ensures At(s, i, before + (Text(d) + (after + tail)))
    ensures |before + (Text(d) + (after + tail))| == SkipWs(s, l) + |tail| - i
  {
    hide At, SkipWs, Text, Legal, Blank;
    var k, j := SkipWs(s, i), SkipWs(s, l);
    BlankFound(s, i);
    BlankFound(s, l);
    before, after := s[i..k], s[l..j];
    AtSplits(s, l, after, tail);
    AtSplits(s, k, Text(d), after + tail);
    AtSplits(s, i, before, Text(d) + (after + tail));
  }

  lemma NumberFound(s: string, i: nat) returns (d: Doc)
    requires i < |s| && NumberAt(s, i).Ok?
    ensures Found(s, i, d, NumberAt(s, i).next)
  {
    d := NumberDoc(s[i..NumberAt(s, i).next]);
  }

  lemma GapFound(s: string, i: nat, open: string, close: char) returns (gap: string)
    requires |open| == 1 && Is(s, i, open[0]) && Is(s, SkipWs(s, i + 1), close)
    ensures Blank(gap) && At(s, i, open + (gap + [close])) && |gap| == SkipWs(s, i + 1) - i - 1
  {
    gap := s[i + 1..SkipWs(s, i + 1)];
    BlankFound(s, i + 1);
    CharAt(s, SkipWs(s, i + 1), close);
    AtSplits(s, i + 1, gap, [close]);
    assert open == [open[0]];
    CharAt(s, i, open[0]);
    AtSplits(s, i, open, gap + [close]);
  }

  /** Everything but an array or object with something in it. */
  lemma AtomFound(s: string, i: nat) returns (d: Doc)
    requires i < |s| && ValueAt(s, i).Ok?
    requires s[i] == '[' ==> Is(s, SkipWs(s, i + 1), ']')
    requires s[i] == '{' ==> Is(s, SkipWs(s, i + 1), '}')
    ensures Found(s, i, d, ValueAt(s, i).next)
  {
    hide Elements, Members, Chars;
    if s[i] == '{' {
      var gap := GapFound(s, i, "{", '}');
      d := EmptyObject(gap);
    } else if s[i] == '[' {
      var gap := GapFound(s, i, "[", ']');
      d := EmptyArray(gap);
    } else if s[i] == '"' {
      var items := CharsFound(s, i + 1);
      CharAt(s, i, '"');
      AtSplits(s, i, "\"", ItemsText(items) + "\"");
      d := StringDoc(items);
    } else if s[i] == 't' {
      d := BoolDoc(true);
    } else if s[i] == 'f' {
      d := BoolDoc(false);
    } else if s[i] == 'n' {
      d := NullDoc;
    } else {
      d := NumberFound(s, i);
    }
  }

  lemma {:induction false} ValueFound(s: string, i: nat) returns (d: Doc)
    requires i <= |s| && ValueAt(s, i).Ok?
    ensures Found(s, i, d, ValueAt(s, i).next)
    decreases |s| - i, 0
  {
    hide Elements, Members, Chars, SkipWs, NumberAt, At, Legal;
    if s[i] == '[' && !Is(s, SkipWs(s, i + 1), ']') {
      var es := ElementsFound(s, SkipWs(s, i + 1));
      d := ListFound(s, i, es);
    } else if s[i] == '{' && !Is(s, SkipWs(s, i + 1), '}') {
      var ms := MembersFound(s, SkipWs(s, i + 1));
      d := MapFound(s, i, ms);
    } else {
      d := AtomFound(s, i);
    }
  }

  lemma ElementsShift(gap: string, es: ElementDocs)
    ensures ElementsText(es.(before := gap + es.before)) == gap + ElementsText(es)
  {
    hide Text;
    var rest := Text(es.doc) + (es.after + (if es.more.None? then "]" else "," + ElementsText(es.more.value)));
    assert (gap + es.before) + rest == gap + (es.before + rest);
  }

  lemma MembersShift(gap: string, ms: MemberDocs)
    ensures MembersText(ms.(before := gap + ms.before)) == gap + MembersText(ms)
  {
    hide Text, ItemsText;
    var rest := "\"" + (ItemsText(ms.key) + ("\"" + (ms.left + (":" + (ms.right + (Text(ms.doc) + (ms.after +
      (if ms.more.None? then "}" else "," + MembersText(ms.more.value)))))))));
    assert (gap + ms.before) + rest == gap + (ms.before + rest);
  }

  lemma BlanksJoin(v: string, w: string)
    requires Blank(v) && Blank(w)
    ensures Blank(v + w)
  {
  }

  /** White space in front of a list belongs to its first element. */
  lemma ListFound(s: string, i: nat, es: ElementDocs) returns (d: Doc)
    requires Is(s, i, '[')
    requires LegalElements(es, false) && At(s, SkipWs(s, i + 1), ElementsText(es))
    ensures Found(s, i, d, SkipWs(s, i + 1) + |ElementsText(es)|)
  {
    hide SkipWs, Blank, At, ElementsText;
    var gap := s[i + 1..SkipWs(s, i + 1)];
    BlankFound(s, i + 1);
    BlanksJoin(gap, es.before);
    ElementsShift(gap, es);
    AtSplits(s, i + 1, gap, ElementsText(es));
    CharAt(s, i, '[');
    d := ArrayDoc(es.(before := gap + es.before));
    AtSplits(s, i, "[", ElementsText(d.elements));
    assert Legal(d, false) && At(s, i, Text(d)) && |Text(d)| == 1 + |gap| + |ElementsText(es)|;
  }

  lemma MapFound(s: string, i: nat, ms: MemberDocs) returns (d: Doc)
    requires Is(s, i, '{')
    requires LegalMembers(ms, false) && At(s, SkipWs(s, i + 1), MembersText(ms))
    ensures Found(s, i, d, SkipWs(s, i + 1) + |MembersText(ms)|)
  {
    hide SkipWs, Blank, At, MembersText;
    var gap := s[i + 1..SkipWs(s, i + 1)];
    BlankFound(s, i + 1);
    BlanksJoin(gap, ms.before);
    MembersShift(gap, ms);
    AtSplits(s, i + 1, gap, MembersText(ms));
    CharAt(s, i, '{');
    d := ObjectDoc(ms.(before := gap + ms.before));
    AtSplits(s, i, "{", MembersText(d.members));
    assert Legal(d, false) && At(s, i, Text(d)) && |Text(d)| == 1 + |gap| + |MembersText(ms)|;
  }

  lemma {:induction false} ElementsFound(s: string, i: nat) returns (es: ElementDocs)
    requires i <= |s| && Elements(s, i).Ok?
    ensures LegalElements(es, false) && At(s, i, ElementsText(es))
    ensures Elements(s, i).next == i + |ElementsText(es)|
    decreases |s| - i, 2
  {
    hide ValueAt, Elements, MemberAt, Members, Chars, SkipWs, NumberAt, At, Text, Legal, Blank;
    var e := ElementAt(s, i);
    ElementsTurn(s, i, e);
    var l := ValueAt(s, SkipWs(s, i)).next;
    var d := ValueFound(s, SkipWs(s, i));
    if Is(s, e.next, ']') {
      CharAt(s, e.next, ']');
      var before, after := SpacedFound(s, i, d, l, "]");
      es := ElementDocs(before, d, after, None);
    } else {
      CharAt(s, e.next, ',');
      var rest := ElementsFound(s, e.next + 1);
      AtSplits(s, e.next, ",", ElementsText(rest));
      var before, after := SpacedFound(s, i, d, l, "," + ElementsText(rest));
      es := ElementDocs(before, d, after, Some(rest));
    }
  }

  lemma KeyJoined(s: string, i: nat, before: string, key: string, left: string, rest: string)
    requires At(s, i, before) && At(s, i + |before|, "\"") && At(s, i + |before| + 1, key + "\"")
    requires var n := i + |before| + |key| + 2;
             At(s, n, left) && At(s, n + |left|, ":") && At(s, n + |left| + 1, rest)
    ensures At(s, i, before + ("\"" + (key + ("\"" + (left + (":" + rest))))))
  {
    hide At;
    var k := i + |before|;
    var n := k + |key| + 2;
    AtSplits(s, n + |left|, ":", rest);
    AtSplits(s, n, left, ":" + rest);
    AtSplits(s, k + 1, key + "\"", left + (":" + rest));
    assert (key + "\"") + (left + (":" + rest)) == key + ("\"" + (left + (":" + rest)));
    AtSplits(s, k, "\"", key + ("\"" + (left + (":" + rest))));
    AtSplits(s, i, before, "\"" + (key + ("\"" + (left + (":" + rest)))));
  }

  /** A key with its colon, in front of what is behind them. */
  lemma KeyFound(s: string, i: nat, k: nat, n: nat, c: nat, rest: string)
      returns (before: string, key: seq<Item>, left: string)
    requires i <= |s| && SkipWs(s, i) == k && Is(s, k, '"') && Chars(s, k + 1).Ok? && Chars(s, k + 1).next == n
    requires SkipWs(s, n) == c && Is(s, c, ':') && At(s, c + 1, rest)
    ensures Blank(before) && Blank(left) && LegalItems(key, false)
    ensures At(s, i, before + ("\"" + (ItemsText(key) + ("\"" + (left + (":" + rest))))))
    ensures |before| + |ItemsText(key)| + |left| + 3 + i == c + 1
  {
    hide Chars, SkipWs, LegalItems, ItemsText, At;
    key := CharsFound(s, k + 1);
    BlankFound(s, i);
    BlankFound(s, n);
    CharAt(s, k, '"');
    CharAt(s, c, ':');
    before, left := s[i..k], s[n..c];
    hide Blank, Is;
    KeyJoined(s, i, before, ItemsText(key), left, rest);
  }

  lemma {:induction false} MembersFound(s: string, i: nat) returns (ms: MemberDocs)
    requires i <= |s| && Members(s, i).Ok?
    ensures LegalMembers(ms, false) && At(s, i, MembersText(ms))
    ensures Members(s, i).next == i + |MembersText(ms)|
    decreases |s| - i, 2
  {
    hide ValueAt, Elements, ElementAt, Members, Chars, SkipWs, NumberAt, At, Text, Legal, Blank, ItemsText, LegalItems;
    var m := MemberAt(s, i);
    MembersTurn(s, i, m);
    var n := Chars(s, SkipWs(s, i) + 1).next;
    var c := SkipWs(s, n);
    var v := SkipWs(s, c + 1);
    var d := ValueFound(s, v);
    var more := None;
    var tail := "}";
    if Is(s, m.next, '}') {
      CharAt(s, m.next, '}');
    } else {
      CharAt(s, m.next, ',');
      var rest := MembersFound(s, m.next + 1);
      AtSplits(s, m.next, ",", MembersText(rest));
      more, tail := Some(rest), "," + MembersText(rest);
    }
    var right, after := SpacedFound(s, c + 1, d, ValueAt(s, v).next, tail);
    var before, key, left := KeyFound(s, i, SkipWs(s, i), n, c, right + (Text(d) + (after + tail)));
    ms := MemberDocs(before, key, left, right, d, after, more);
  }

  // ---- whole texts ----

  /** `s` is the tree `d`, with white space around it. */
  ghost predicate Renders(s: string, d: Doc) {
    exists w: string, x: string {:trigger Blank(w), Blank(x)} :: Blank(w) && Blank(x) && s == w + Text(d) + x
  }

  lemma AtStart(s: string)
    ensures At(s, 0, s)
  {
  }

  lemma ThreeParts(s: string, w: string, t: string, x: string)
    requires s == w + t + x
    ensures At(s, 0, w) && At(s, |w|, t) && At(s, |w| + |t|, x)
  {
    hide At;
    assert s == w + (t + x);
    AtStart(s);
    AtSplits(s, 0, w, t + x);
    AtSplits(s, |w|, t, x);
  }

  lemma BlankEnds(s: string, j: nat, x: string)
    requires At(s, j, x) && Blank(x) && j + |x| == |s|
    ensures Ended(s, j) && SkipWs(s, j) == |s|
  {
    assert x != "" ==> s[j + 0] == x[0];
    BlankPassed(s, j, x);
  }

  /** Every text of a tree is accepted, and the value is the one the tree stands for. */
  lemma TreesAreAccepted(s: string, d: Doc)
    requires Legal(d, false) && Renders(s, d)
    ensures ParseText(s) == Ok(Meaning(d), |s|)
  {
    hide Legal, Text, ValueAt, Meaning, At, Blank, SkipWs;
    var w: string, x: string :| Blank(w) && Blank(x) && s == w + Text(d) + x;
    ThreeParts(s, w, Text(d), x);
    DocFront(d);
    LiteralRead(s, |w|, Text(d));
    BlankPassed(s, 0, w);
    BlankEnds(s, |w| + |Text(d)|, x);
    ValueRead(s, |w|, d);
  }

  /** And only they are. */
  lemma {:induction false} AcceptedAreTrees(s: string) returns (d: Doc)
    requires ParseText(s).Ok?
    ensures Legal(d, false) && Renders(s, d)
    ensures ParseText(s) == Ok(Meaning(d), |s|)
  {
    hide ValueAt, Legal, Text, SkipWs;
    var k := SkipWs(s, 0);
    var l := ValueAt(s, k).next;
    d := ValueFound(s, k);
    assert Blank(s[..k]) && Blank(s[l..]);
    assert s[k..l] == Text(d);
    assert s == s[..k] + Text(d) + s[l..];
    TreesAreAccepted(s, d);
  }

  /** The texts the parser accepts are exactly the renderings of the grammar's trees. */
  lemma ParserIsTheGrammar(s: string)
    ensures ParseText(s).Ok? <==> exists d: Doc :: Legal(d, false) && Renders(s, d)
  {
    if ParseText(s).Ok? {
      var d := AcceptedAreTrees(s);
    }
    if d: Doc :| Legal(d, false) && Renders(s, d) {
      TreesAreAccepted(s, d);
    }
  }

  /**
   * RFC 8259, section 9: a parser accepts every text of the grammar. Each is read as the value it stands for, whatever
   * white space, escapes and spelling of numbers its writer chose.
   */
  lemma EveryRfcTextIsRead(s: string, d: Doc)
    requires Legal(d, true) && Renders(s, d)
    ensures Legal(d, false) && ParseText(s) == Ok(Meaning(d), |s|)
  {
    StrictIsLoose(d);
    TreesAreAccepted(s, d);
  }

  /** What a text means does not depend on how it is taken apart. */
  lemma MeaningIsUnique(s: string, d: Doc, e: Doc)
    requires Legal(d, false) && Renders(s, d) && Legal(e, false) && Renders(s, e)
    ensures Meaning(d) == Meaning(e)
  {
    TreesAreAccepted(s, d);
    TreesAreAccepted(s, e);
  }
}

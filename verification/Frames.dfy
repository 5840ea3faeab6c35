/** Frames on the control socket: a little-endian length in four bytes, then that many bytes. */
module Frames {
  import Utf8

  /** Text is bytes, one `char` each. */
  const CAP: nat := 8 * 1024 * 1024
  const TWO_32: nat := 0x1_0000_0000

  predicate Bytes(s: string) {
    forall k | 0 <= k < |s| :: s[k] as int < 0x100
  }

  /** `len` as the sender writes it; a length of 2^32 or more is cut down to 32 bits first. */
  function Header(size: nat): (h: string)
    ensures |h| == 4 && Bytes(h)
  {
    var len := size % TWO_32;
    [Utf8.Byte(len % 0x100), Utf8.Byte(len / 0x100 % 0x100), Utf8.Byte(len / 0x1_0000 % 0x100),
     Utf8.Byte(len / 0x100_0000 % 0x100)]
  }

  /** `len` as the receiver reads it. */
  function Length(h: string): nat
    requires |h| == 4
  {
    h[0] as int + h[1] as int * 0x100 + h[2] as int * 0x1_0000 + h[3] as int * 0x100_0000
  }

  lemma HeaderLength(size: nat)
    ensures Length(Header(size)) == size % TWO_32
  {
    var len := size % TWO_32;
    var q1 := len / 0x100;
    var q2 := q1 / 0x100;
    var q3 := q2 / 0x100;
    assert len / 0x1_0000 == q2 && len / 0x100_0000 == q3 < 0x100;
    assert q2 == q3 * 0x100 + q2 % 0x100;
    assert q1 == q2 * 0x100 + q1 % 0x100;
    assert len == q1 * 0x100 + len % 0x100;
  }

  function Frame(payload: string): (f: string)
    ensures |f| == 4 + |payload|
  {
    Header(|payload|) + payload
  }

  function Stream(payloads: seq<string>): string {
    if payloads == [] then "" else Frame(payloads[0]) + Stream(payloads[1..])
  }

  /** What a reader dispatches of the bytes it gets before the end of the stream; a length over the cap ends it too. */
  function Received(data: string): seq<string>
    decreases |data|
  {
    if |data| < 4 then []
    else
      var len := Length(data[..4]);
      if len > CAP || |data| < 4 + len then []
      else [data[4..4 + len]] + Received(data[4 + len..])
  }

  predicate Fits(payloads: seq<string>) {
    forall p | p in payloads :: |p| <= CAP
  }

  /** A whole frame at the front is received first. */
  lemma FrameReceived(p: string, rest: string)
    requires |p| <= CAP
    ensures Received(Frame(p) + rest) == [p] + Received(rest)
  {
    hide Header, Length;
    var data := Frame(p) + rest;
    HeaderLength(|p|);
    assert data[..4] == Header(|p|);
    assert data[4..4 + |p|] == p;
    assert data[4 + |p|..] == rest;
  }

  lemma {:induction false} StreamJoins(ps: seq<string>, qs: seq<string>)
    ensures Stream(ps + qs) == Stream(ps) + Stream(qs)
  {
    if ps == [] {
      assert ps + qs == qs;
    } else {
      assert (ps + qs)[1..] == ps[1..] + qs;
      StreamJoins(ps[1..], qs);
    }
  }

  lemma FrontFirst<T>(a: seq<T>, b: seq<T>, c: seq<T>)
    ensures (a + b) + c == a + (b + c)
  {
  }

  /** Everything sent is received, and what follows it is read as if it stood alone. */
  lemma {:induction false} StreamReceived(ps: seq<string>, rest: string)
    requires Fits(ps)
    ensures Received(Stream(ps) + rest) == ps + Received(rest)
  {
    hide Received, Frame;
    if ps == [] {
      assert Stream(ps) + rest == rest;
      assert ps + Received(rest) == Received(rest);
    } else {
      StreamReceived(ps[1..], rest);
      FrontFirst(Frame(ps[0]), Stream(ps[1..]), rest);
      assert Stream(ps) == Frame(ps[0]) + Stream(ps[1..]);
      hide Stream;
      FrameReceived(ps[0], Stream(ps[1..]) + rest);
      FrontFirst([ps[0]], ps[1..], Received(rest));
      assert [ps[0]] + ps[1..] == ps;
    }
  }

  /** A frame cut short is not received at all. */
  lemma CutReceived(p: string, n: nat)
    requires |p| <= CAP && n < |Frame(p)|
    ensures Received(Frame(p)[..n]) == []
  {
    HeaderLength(|p|);
    if n >= 4 {
      assert Frame(p)[..n][..4] == Header(|p|);
    }
  }

  /** Where a stream is cut: so many whole frames, and less than all of the next one. */
  function Whole(ps: seq<string>, n: nat): (m: nat)
    requires n <= |Stream(ps)|
    ensures m <= |ps|
  {
    if ps == [] || n < |Frame(ps[0])| then 0 else 1 + Whole(ps[1..], n - |Frame(ps[0])|)
  }

  lemma {:induction false} WholeCut(ps: seq<string>, n: nat)
    requires n <= |Stream(ps)|
    ensures var m := Whole(ps, n);
            && |Stream(ps[..m])| <= n
            && Stream(ps)[..n] == Stream(ps[..m]) + Stream(ps)[|Stream(ps[..m])|..n]
            && if m == |ps| then n == |Stream(ps)|
               else n - |Stream(ps[..m])| < |Frame(ps[m])|
                    && Stream(ps)[|Stream(ps[..m])|..n] == Frame(ps[m])[..n - |Stream(ps[..m])|]
  {
    hide Frame;
    var m := Whole(ps, n);
    if ps == [] || n < |Frame(ps[0])| {
      assert ps[..m] == [];
      if ps != [] {
        assert Stream(ps) == Frame(ps[0]) + Stream(ps[1..]);
        hide Stream;
        assert Stream(ps)[..n] == Frame(ps[0])[..n];
      }
    } else {
      var f, k := Frame(ps[0]), n - |Frame(ps[0])|;
      WholeCut(ps[1..], k);
      assert ps[..m][1..] == ps[1..][..m - 1] && ps[..m][0] == ps[0];
      assert Stream(ps) == f + Stream(ps[1..]) && Stream(ps[..m]) == f + Stream(ps[1..][..m - 1]);
      hide Stream, Whole;
      CutBehind(f, Stream(ps[1..]), Stream(ps[1..][..m - 1]), k);
    }
  }

  /** A cut behind `f` is the cut of what follows it. */
  lemma CutBehind(f: string, all: string, part: string, k: nat)
    requires |part| <= k <= |all| && all[..k] == part + all[|part|..k]
    ensures (f + all)[..|f| + k] == (f + part) + (f + all)[|f + part|..|f| + k]
    ensures (f + all)[|f + part|..|f| + k] == all[|part|..k]
  {
  }

  /**
   * A reader that gets any first part of a stream dispatches exactly the frames that are whole in it: a prefix of what
   * was sent, nothing torn and nothing mixed.
   */
  lemma {:induction false} PrefixReceived(ps: seq<string>, n: nat)
    requires Fits(ps) && n <= |Stream(ps)|
    ensures Received(Stream(ps)[..n]) == ps[..Whole(ps, n)]
    ensures n == |Stream(ps)| ==> Whole(ps, n) == |ps|
  {
    hide Received, Frame, Stream, Whole;
    var m := Whole(ps, n);
    WholeCut(ps, n);
    var rest := Stream(ps)[|Stream(ps[..m])|..n];
    StreamReceived(ps[..m], rest);
    if m < |ps| {
      CutReceived(ps[m], n - |Stream(ps[..m])|);
      if n == |Stream(ps)| {
        WholeAll(ps);
      }
    } else {
      assert ps[..m] == ps && rest == "";
      NothingReceived();
    }
    assert ps[..m] + [] == ps[..m];
  }

  lemma NothingReceived()
    ensures Received("") == []
  {
  }

  lemma {:induction false} WholeAll(ps: seq<string>)
    ensures Whole(ps, |Stream(ps)|) == |ps|
  {
    if ps != [] {
      WholeAll(ps[1..]);
    }
  }

  /** The sender does not look at the cap. A payload is received as itself exactly when it is within it. */
  lemma CapDecides(p: string, rest: string)
    ensures |p| <= CAP <==> Received(Frame(p) + rest) != [] && Received(Frame(p) + rest)[0] == p
    ensures CAP < |p| < TWO_32 ==> Received(Frame(p) + rest) == []
  {
    HeaderLength(|p|);
    var data := Frame(p) + rest;
    assert data[..4] == Header(|p|);
    if |p| <= CAP {
      FrameReceived(p, rest);
    }
  }

  /** From 2^32 bytes on the length itself is cut down, and what is received can be a piece of the payload. */
  lemma HugeIsTorn(p: string, rest: string)
    requires |p| >= TWO_32 && |p| % TWO_32 <= CAP
    ensures Received(Frame(p) + rest) != []
    ensures Received(Frame(p) + rest)[0] == p[..|p| % TWO_32] != p
  {
    HeaderLength(|p|);
    var data := Frame(p) + rest;
    var len := |p| % TWO_32;
    assert data[..4] == Header(|p|);
    assert data[4..4 + len] == p[..len];
  }

  /** The four bytes in their order on the wire. */
  lemma HeaderIsSpelled()
    ensures Header(0x0403_0201) == [1 as char, 2 as char, 3 as char, 4 as char]
    ensures Header(5) == [5 as char, 0 as char, 0 as char, 0 as char]
  {
  }

  /** Eight mebibytes pass, and one byte more does not. */
  lemma CapIsEightMebibytes(p: string)
    ensures |p| <= 8_388_608 ==> Received(Frame(p)) == [p]
    ensures 8_388_608 < |p| < 0x1_0000_0000 ==> Received(Frame(p)) == []
  {
    CapDecides(p, "");
    assert Frame(p) + "" == Frame(p);
  }
}

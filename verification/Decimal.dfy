/** `std::to_string` on integers. */
module Decimal {
  import opened Common
  import opened JsonValue

  function Digit(d: nat): (c: char)
    requires d < 10
    ensures IsDigit(c) && DigitValue(c) == d
  {
    ('0' as int + d) as char
  }

  /** No leading zeros; zero itself is one digit. */
  function Text(n: nat): (t: string)
    ensures t != "" && forall i | 0 <= i < |t| :: IsDigit(t[i])
  {
    if n < 10 then [Digit(n)] else Text(n / 10) + [Digit(n % 10)]
  }

  function Signed(n: int): (t: string)
    ensures |t| >= (if n < 0 then 2 else 1)
    ensures if n < 0 then t[0] == '-' else IsDigit(t[0])
  {
    if n < 0 then "-" + Text(-n) else Text(n)
  }

  /** Reading on past a run of digits continues with the value read so far. */
  lemma {:induction false} ReadOn(a: string, b: string, acc: nat)
    requires forall i | 0 <= i < |a| :: IsDigit(a[i])
    ensures ReadDigits(a + b, acc) == ReadDigits(b, ReadDigits(a, acc))
  {
    if a == "" {
      assert a + b == b;
    } else {
      assert (a + b)[1..] == a[1..] + b;
      ReadOn(a[1..], b, 10 * acc + DigitValue(a[0]));
    }
  }

  /** Every natural number is read back exactly. */
  lemma {:induction false} TextReads(n: nat)
    ensures ReadDigits(Text(n), 0) == n
  {
    if n >= 10 {
      TextReads(n / 10);
      ReadOn(Text(n / 10), [Digit(n % 10)], 0);
      LastDigit(n);
    } else {
      assert [Digit(n)][1..] == "";
    }
  }

  lemma LastDigit(n: nat)
    ensures ReadDigits([Digit(n % 10)], n / 10) == n
  {
    assert [Digit(n % 10)][1..] == "";
  }

  /** Every 64-bit unsigned integer survives being written and read, whatever the fallback. */
  lemma Uint64RoundTrip(n: nat, fallback: nat)
    requires n < TWO_64
    ensures Number(Text(n)).AsUint64(fallback) == n
  {
    TextReads(n);
  }

  /** And so does every 64-bit signed one. */
  lemma Int64RoundTrip(n: int, fallback: int)
    requires -TWO_63 <= n < TWO_63
    ensures Number(Signed(n)).AsInt64(fallback) == Some(n)
  {
    TextReads(if n < 0 then -n else n);
    if n < 0 {
      assert Signed(n)[1..] == Text(-n);
    }
  }

  /** Reading stops at the first character that is no digit. */
  lemma {:induction false} DigitsThenOther(a: string, rest: string, acc: nat)
    requires forall i | 0 <= i < |a| :: IsDigit(a[i])
    requires rest == "" || !IsDigit(rest[0])
    ensures ReadDigits(a + rest, acc) == ReadDigits(a, acc)
  {
    ReadOn(a, rest, acc);
  }

  /**
   * An integer read of a fraction or of a number with an exponent is the integer its text starts with, not its value:
   * `1e3` is read as 1, whatever the fallback. Only a text that starts with no digits, or with too large an integer,
   * goes on to be read as a double.
   */
  lemma IntegerPartIsRead(n: int, rest: string, whole: nat, fallback: int)
    requires -TWO_63 <= n < TWO_63 && rest != "" && !IsDigit(rest[0])
    ensures Number(Signed(n) + rest).AsInt64(fallback) == Some(n)
    ensures 0 <= n ==> Number(Signed(n) + rest).AsUint64(whole) == n
  {
    var m := if n < 0 then -n else n;
    TextReads(m);
    DigitsThenOther(Text(m), rest, 0);
    SignedScans(n, rest);
  }

  /** What the integer readers see of it. */
  lemma SignedScans(n: int, rest: string)
    ensures var m := if n < 0 then -n else n;
            Scan(Signed(n) + rest) == Some(Scanned(n < 0, ReadDigits(Text(m) + rest, 0)))
  {
    hide ReadDigits, Text, Scan;
    if n < 0 {
      MinusScans(Text(-n), rest);
    } else {
      DigitsScan(Text(n), rest);
    }
  }

  lemma DigitsScan(d: string, rest: string)
    requires d != "" && IsDigit(d[0])
    ensures Scan(d + rest) == Some(Scanned(false, ReadDigits(d + rest, 0)))
  {
    hide ReadDigits;
    assert (d + rest)[0] == d[0];
  }

  lemma MinusScans(d: string, rest: string)
    requires d != "" && IsDigit(d[0])
    ensures Scan("-" + d + rest) == Some(Scanned(true, ReadDigits(d + rest, 0)))
  {
    hide ReadDigits;
    var t := "-" + d + rest;
    assert t[0] == '-' && t[1..] == d + rest && (d + rest)[0] == d[0];
  }

  // ---- base ten ----

  function Tens(k: nat): (p: nat)
    ensures p > 0
  {
    if k == 0 then 1 else 10 * Tens(k - 1)
  }

  lemma DivideTwice(n: nat, m: nat)
    requires m > 0
    ensures n / 10 / m == n / (10 * m)
  {
    var q, r := n / 10 / m, n / 10 % m;
    assert n == 10 * (q * m + r) + n % 10;
    assert n == q * (10 * m) + (10 * r + n % 10);
    assert 10 * r + n % 10 < 10 * m;
    QuotientIs(n, 10 * m, q, 10 * r + n % 10);
  }

  lemma QuotientIs(n: nat, d: nat, q: nat, r: nat)
    requires d > 0 && n == q * d + r && r < d
    ensures n / d == q
  {
    var p := n / d;
    assert p * d <= n < (p + 1) * d;
    if p < q {
      NoMore(p + 1, q, d);
    } else if p > q {
      NoMore(q + 1, p, d);
    }
  }

  lemma NoMore(a: nat, b: nat, d: nat)
    requires a <= b
    ensures a * d <= b * d
  {
  }

  /** Each digit of a number's text stands for its power of ten, and a longer number starts with no zero. */
  lemma {:induction false} PlacesAreTens(n: nat, k: nat)
    requires k < |Text(n)|
    ensures DigitValue(Text(n)[|Text(n)| - 1 - k]) == n / Tens(k) % 10
    ensures n >= 10 ==> Text(n)[0] != '0'
    ensures n < Tens(|Text(n)|)
  {
    if n >= 10 {
      PlacesAreTens(n / 10, if k > 0 then k - 1 else 0);
      if k > 0 {
        DivideTwice(n, Tens(k - 1));
      }
    }
  }

  // ---- readings that fall back ----

  lemma TextScans(n: nat)
    ensures Scan(Text(n)) == Some(Scanned(false, n)) && Scan("-" + Text(n)) == Some(Scanned(true, n))
    ensures Scan("+" + Text(n)) == Some(Scanned(false, n))
  {
    TextReads(n);
    var plus := "+" + Text(n);
    assert plus[0] == '+' && plus[1..] == Text(n);
    hide ReadDigits, Text, Scan;
    assert Text(n) + "" == Text(n) && "-" + Text(n) + "" == "-" + Text(n);
    DigitsScan(Text(n), "");
    MinusScans(Text(n), "");
  }

  /** An integer out of a reader's range is not read, and one with a minus sign wraps in the unsigned reader. */
  lemma OutOfRangeFallsBack(n: nat, whole: nat, fallback: int)
    ensures n >= 18446744073709551616 ==> Number(Text(n)).AsUint64(whole) == whole
    ensures n > 9223372036854775807 ==> Number(Text(n)).AsInt64(fallback) == None
    ensures n > 9223372036854775808 ==> Number("-" + Text(n)).AsInt64(fallback) == None
    ensures 0 < n < 18446744073709551616 ==> Number("-" + Text(n)).AsUint64(whole) == 18446744073709551616 - n
    ensures n < 18446744073709551616 ==> Number("+" + Text(n)).AsUint64(whole) == n
    ensures n <= 9223372036854775807 ==> Number("+" + Text(n)).AsInt64(fallback) == Some(n)
  {
    hide Scan, Text;
    TextScans(n);
  }

  /** A value of another kind, or a text with no digits in front, gives the fallback. */
  lemma OthersFallBack(v: Value, text: string, whole: nat, fallback: int, b: bool)
    ensures !v.Number? ==> v.AsUint64(whole) == whole && v.AsInt64(fallback) == Some(fallback)
    ensures !v.String? ==> v.AsString(text) == text
    ensures !v.Bool? ==> v.AsBool(b) == b
    ensures text != "" && !IsDigit(text[0]) && text[0] != '-' && text[0] != '+' ==>
              Number(text).AsUint64(whole) == whole && Number(text).AsInt64(fallback) == None
    ensures !v.Object? ==> v.Get(text) == Null
  {
  }
}

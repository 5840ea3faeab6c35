/** Code points as bytes: what `append_utf8` writes, against section 3 of RFC 3629. */
module Utf8 {
  import opened Common

  /** `static_cast<char>` of a byte value. */
  function Byte(n: nat): (c: char)
    requires n < 256
    ensures c as int == n
  {
    n as char
  }

  /** The masks and shifts of the source, as quotients and remainders by powers of two. */
  function Encode(cp: nat): (bytes: string)
    requires cp < 0x20_0000
  {
    if cp <= 0x7F then [Byte(cp)]
    else if cp <= 0x7FF then [Byte(0xC0 + cp / 0x40), Byte(0x80 + cp % 0x40)]
    else if cp <= 0xFFFF then
      [Byte(0xE0 + cp / 0x1000), Byte(0x80 + cp / 0x40 % 0x40), Byte(0x80 + cp % 0x40)]
    else
      [Byte(0xF0 + cp / 0x4_0000), Byte(0x80 + cp / 0x1000 % 0x40), Byte(0x80 + cp / 0x40 % 0x40),
       Byte(0x80 + cp % 0x40)]
  }

  /** The bit operators of the source agree with that arithmetic on every 32-bit word they are applied to. */
  lemma BitsAreArithmetic(cp: bv32)
    ensures 0x80 | (cp & 0x3F) == 0x80 + cp % 0x40
    ensures 0x80 | ((cp >> 6) & 0x3F) == 0x80 + cp / 0x40 % 0x40
    ensures 0x80 | ((cp >> 12) & 0x3F) == 0x80 + cp / 0x1000 % 0x40
    ensures cp <= 0x7FF ==> 0xC0 | (cp >> 6) == 0xC0 + cp / 0x40
    ensures cp <= 0xFFFF ==> 0xE0 | (cp >> 12) == 0xE0 + cp / 0x1000
    ensures cp <= 0x1F_FFFF ==> 0xF0 | (cp >> 18) == 0xF0 + cp / 0x4_0000
  {
  }

  predicate IsScalar(cp: nat) {
    cp < 0xD800 || 0xE000 <= cp <= 0x10_FFFF
  }

  predicate Tail(c: char) {
    0x80 <= c as int < 0xC0
  }

  /** The bits a continuation byte carries. */
  function Low(c: char): nat
    requires Tail(c)
  {
    c as int - 0x80
  }

  /** RFC 3629, section 4: the well-formed sequences and the characters they stand for. */
  function Decode(b: string): Option<nat> {
    if |b| == 1 && b[0] as int <= 0x7F then Some(b[0] as int)
    else if |b| == 2 && 0xC2 <= b[0] as int <= 0xDF && Tail(b[1]) then
      Some((b[0] as int - 0xC0) * 0x40 + Low(b[1]))
    else if |b| == 3 && 0xE0 <= b[0] as int <= 0xEF && Tail(b[1]) && Tail(b[2]) then
      if b[0] as int == 0xE0 && (b[1] as int) < 0xA0 then None        // overlong
      else if b[0] as int == 0xED && b[1] as int > 0x9F then None     // surrogates
      else Some((b[0] as int - 0xE0) * 0x1000 + Low(b[1]) * 0x40 + Low(b[2]))
    else if |b| == 4 && 0xF0 <= b[0] as int <= 0xF4 && Tail(b[1]) && Tail(b[2]) && Tail(b[3]) then
      if b[0] as int == 0xF0 && (b[1] as int) < 0x90 then None        // overlong
      else if b[0] as int == 0xF4 && b[1] as int > 0x8F then None     // above U+10FFFF
      else Some((b[0] as int - 0xF0) * 0x4_0000 + Low(b[1]) * 0x1000 + Low(b[2]) * 0x40 + Low(b[3]))
    else None
  }

  /** A code point in digits of six bits. */
  lemma SixBits(cp: nat)
    ensures cp == cp / 0x40 * 0x40 + cp % 0x40
    ensures cp / 0x40 == cp / 0x1000 * 0x40 + cp / 0x40 % 0x40
    ensures cp / 0x1000 == cp / 0x4_0000 * 0x40 + cp / 0x1000 % 0x40
  {
    assert cp / 0x1000 == cp / 0x40 / 0x40 && cp / 0x4_0000 == cp / 0x1000 / 0x40;
  }

  /** The digits determine the number they are taken from. */
  lemma FromSixBits(a: nat, b: nat, c: nat, d: nat)
    requires b < 0x40 && c < 0x40 && d < 0x40
    ensures var cp := a * 0x4_0000 + b * 0x1000 + c * 0x40 + d;
            cp / 0x4_0000 == a && cp / 0x1000 % 0x40 == b && cp / 0x40 % 0x40 == c && cp % 0x40 == d
            && cp / 0x1000 == a * 0x40 + b && cp / 0x40 == a * 0x1000 + b * 0x40 + c
  {
    var cp := a * 0x4_0000 + b * 0x1000 + c * 0x40 + d;
    assert cp / 0x40 == a * 0x1000 + b * 0x40 + c && cp % 0x40 == d;
    assert cp / 0x1000 == cp / 0x40 / 0x40 == a * 0x40 + b;
    assert cp / 0x4_0000 == cp / 0x1000 / 0x40 == a;
  }

  lemma EncodeTwo(cp: nat)
    requires 0x7F < cp <= 0x7FF
    ensures Decode(Encode(cp)) == Some(cp)
  {
    SixBits(cp);
  }

  lemma EncodeThree(cp: nat)
    requires 0x7FF < cp <= 0xFFFF
    ensures Decode(Encode(cp)) == if IsScalar(cp) then Some(cp) else None
  {
    SixBits(cp);
  }

  lemma EncodeFour(cp: nat)
    requires 0xFFFF < cp < 0x20_0000
    ensures Decode(Encode(cp)) == if IsScalar(cp) then Some(cp) else None
  {
    SixBits(cp);
  }

  /** Every Unicode scalar value is encoded as RFC 3629 says, and only those are. */
  lemma EncodeDecodes(cp: nat)
    requires cp < 0x20_0000
    ensures IsScalar(cp) ==> Decode(Encode(cp)) == Some(cp)
    ensures !IsScalar(cp) ==> Decode(Encode(cp)) == None
  {
    if cp <= 0x7F {
    } else if cp <= 0x7FF {
      EncodeTwo(cp);
    } else if cp <= 0xFFFF {
      EncodeThree(cp);
    } else {
      EncodeFour(cp);
    }
  }

  lemma DecodeTwo(b: string)
    requires |b| == 2 && Decode(b).Some?
    ensures IsScalar(Decode(b).value) && Encode(Decode(b).value) == b
  {
    FromSixBits(0, 0, b[0] as int - 0xC0, Low(b[1]));
  }

  lemma DecodeThree(b: string)
    requires |b| == 3 && Decode(b).Some?
    ensures IsScalar(Decode(b).value) && Encode(Decode(b).value) == b
  {
    FromSixBits(0, b[0] as int - 0xE0, Low(b[1]), Low(b[2]));
  }

  lemma DecodeFour(b: string)
    requires |b| == 4 && Decode(b).Some?
    ensures IsScalar(Decode(b).value) && Encode(Decode(b).value) == b
  {
    FromSixBits(b[0] as int - 0xF0, Low(b[1]), Low(b[2]), Low(b[3]));
  }

  /** A well-formed sequence is the encoding of the character it stands for: there is only one. */
  lemma DecodeEncodes(bytes: string)
    requires Decode(bytes).Some?
    ensures IsScalar(Decode(bytes).value) && Encode(Decode(bytes).value) == bytes
  {
    if |bytes| == 2 {
      DecodeTwo(bytes);
    } else if |bytes| == 3 {
      DecodeThree(bytes);
    } else if |bytes| == 4 {
      DecodeFour(bytes);
    }
  }

  /** The examples of section 7 of RFC 3629, and the first and last characters of each length. */
  lemma ExamplesEncode()
    ensures Encode(0x41) == [0x41 as char]
    ensures Encode(0x391) == [0xCE as char, 0x91 as char]
    ensures Encode(0x2262) == [0xE2 as char, 0x89 as char, 0xA2 as char]
    ensures Encode(0x65E5) == [0xE6 as char, 0x97 as char, 0xA5 as char]
    ensures Encode(0x2_33B4) == [0xF0 as char, 0xA3 as char, 0x8E as char, 0xB4 as char]
    ensures Encode(0x7F) == [0x7F as char] && Encode(0x80) == [0xC2 as char, 0x80 as char]
    ensures Encode(0x7FF) == [0xDF as char, 0xBF as char]
    ensures Encode(0x800) == [0xE0 as char, 0xA0 as char, 0x80 as char]
    ensures Encode(0xFFFF) == [0xEF as char, 0xBF as char, 0xBF as char]
    ensures Encode(0x1_0000) == [0xF0 as char, 0x90 as char, 0x80 as char, 0x80 as char]
    ensures Encode(0x10_FFFF) == [0xF4 as char, 0x8F as char, 0xBF as char, 0xBF as char]
  {
  }

  // ---- whole strings ----

  /** The length a first byte announces; zero for one that starts no sequence. */
  function Announced(c: char): (n: nat)
    ensures n <= 4
  {
    var b := c as int;
    if b <= 0x7F then 1
    else if 0xC2 <= b <= 0xDF then 2
    else if 0xE0 <= b <= 0xEF then 3
    else if 0xF0 <= b <= 0xF4 then 4
    else 0
  }

  /** RFC 3629, section 4: a string of well-formed sequences. */
  predicate WellFormed(b: string) {
    b == ""
    || (var n := Announced(b[0]);
        0 < n <= |b| && Decode(b[..n]).Some? && WellFormed(b[n..]))
  }

  /** A code point's bytes start with the byte that announces them all, and never in the middle of a sequence. */
  lemma EncodeStarts(cp: nat)
    requires cp < 0x20_0000
    ensures Encode(cp) != "" && !Tail(Encode(cp)[0])
    ensures cp <= 0x10_FFFF ==> Announced(Encode(cp)[0]) == |Encode(cp)|
  {
    SixBits(cp);
  }

  /** Behind a character's bytes a string is well-formed if the rest of it is; behind another code point's it is not. */
  lemma WellFormedAfter(cp: nat, rest: string)
    requires cp <= 0x10_FFFF
    ensures WellFormed(Encode(cp) + rest) <==> IsScalar(cp) && WellFormed(rest)
  {
    var b := Encode(cp) + rest;
    EncodeStarts(cp);
    EncodeDecodes(cp);
    hide Encode, Decode, Announced;
    var n := |Encode(cp)|;
    assert b[0] == Encode(cp)[0] && b[..n] == Encode(cp) && b[n..] == rest;
  }
}

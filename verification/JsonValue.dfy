/** JSON values as the control channel reads them, and the typed reads on them. */
module JsonValue {
  import opened Common

  /** Text is a string of bytes, one `char` each; a number keeps its text. */
  datatype Value =
    | Null
    | Bool(b: bool)
    | Number(text: string)
    | String(s: string)
    | Array(items: seq<Value>)
    | Object(members: map<string, Value>)
  {
    /** A missing key, or a value that is no object, reads as `Null`. */
    function Get(key: string): Value {
      if Object? && key in members then members[key] else Null
    }

    function AsString(fallback: string): string {
      if String? then s else fallback
    }

    function AsBool(fallback: bool): bool {
      if Bool? then b else fallback
    }

    /** `strtoull`: no digits or a value out of range gives the fallback; a minus sign wraps. */
    function AsUint64(fallback: nat): nat {
      if !Number? then fallback
      else
        var r := Scan(text);
        if r.None? || r.value.magnitude >= TWO_64 then fallback
        else if r.value.negative then (TWO_64 - r.value.magnitude) % TWO_64
        else r.value.magnitude
    }

    /** `strtoll`; `None` where the source goes on to read the text as a double. */
    function AsInt64(fallback: int): Option<int> {
      if !Number? then Some(fallback)
      else
        var r := Scan(text);
        if r.None? then None
        else
          var n := if r.value.negative then -(r.value.magnitude as int) else r.value.magnitude;
          if -TWO_63 <= n < TWO_63 then Some(n) else None
    }
  }

  const TWO_63: int := 0x8000_0000_0000_0000
  const TWO_64: nat := 0x1_0000_0000_0000_0000

  predicate IsDigit(c: char) {
    '0' <= c <= '9'
  }

  function DigitValue(c: char): (d: nat)
    requires IsDigit(c)
    ensures d < 10
  {
    c as int - '0' as int
  }

  /** What the C library's integer readers see: a sign, then as many digits as there are. */
  datatype Scanned = Scanned(negative: bool, magnitude: nat)

  function Scan(text: string): Option<Scanned> {
    var signed := text != "" && (text[0] == '-' || text[0] == '+');
    var digits := if signed then text[1..] else text;
    if digits == "" || !IsDigit(digits[0]) then None
    else Some(Scanned(signed && text[0] == '-', ReadDigits(digits, 0)))
  }

  /** The digits at the front of `s`, appended to `acc` in base ten. */
  function ReadDigits(s: string, acc: nat): nat {
    if s == "" || !IsDigit(s[0]) then acc
    else ReadDigits(s[1..], 10 * acc + DigitValue(s[0]))
  }
}

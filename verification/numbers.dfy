/** Decimal integers as JavaScript writes and reads them: `Number.prototype.toString` on an
    integer and `parseInt(s, 10)`, whose `NaN` is `None`. */
module Numbers {
  import opened Wrappers

  predicate IsDigit(c: char)
  {
    '0' <= c <= '9'
  }

  predicate AllDigits(s: string)
  {
    forall i :: 0 <= i < |s| ==> IsDigit(s[i])
  }

  function DigitValue(c: char): (r: nat)
    requires IsDigit(c)
    ensures r < 10
  {
    c as int - '0' as int
  }

  function DigitChar(d: nat): (r: char)
    requires d < 10
    ensures IsDigit(r) && DigitValue(r) == d
  {
    ('0' as int + d) as char
  }

  /** The characters `parseInt` skips before the number: the white space and line terminators
      of sections 12.2 and 12.3 of ECMA-262. */
  predicate IsJsSpace(c: char)
  {
    var n := c as int;
    n == 0x09 || n == 0x0A || n == 0x0B || n == 0x0C || n == 0x0D || n == 0x20 || n == 0xA0
    || n == 0x1680 || (0x2000 <= n <= 0x200A) || n == 0x2028 || n == 0x2029 || n == 0x202F
    || n == 0x205F || n == 0x3000 || n == 0xFEFF
  }

  function TrimStart(s: string): string
  {
    if |s| > 0 && IsJsSpace(s[0]) then TrimStart(s[1..]) else s
  }

  /** The longest prefix of decimal digits. */
  function DigitPrefix(s: string): (r: string)
    ensures AllDigits(r) && |r| <= |s| && r == s[..|r|]
    ensures |r| < |s| ==> !IsDigit(s[|r|])
  {
    if |s| > 0 && IsDigit(s[0]) then [s[0]] + DigitPrefix(s[1..]) else ""
  }

  /** The value of a string of decimal digits, most significant first. */
  function DigitsValue(d: string): nat
    requires AllDigits(d)
  {
    if |d| == 0 then 0 else DigitsValue(d[..|d| - 1]) * 10 + DigitValue(d[|d| - 1])
  }

  /** `parseInt(s, 10)`: leading white space, an optional sign, then as many digits as there are;
      `None` (NaN) when no digit follows. */
  function ParseInt(s: string): Option<int>
  {
    var t := TrimStart(s);
    var signed := |t| > 0 && (t[0] == '-' || t[0] == '+');
    var d := DigitPrefix(if signed then t[1..] else t);
    var v: int := if |d| == 0 then 0 else DigitsValue(d);
    if |d| == 0 then None
    else if signed && t[0] == '-' then Some(-v)
    else Some(v)
  }

  /** `parseInt` answers `-0`, not `0`, when a minus sign precedes digits that are all zero
      (`"-0"`, `"-00"`, `"-0.5"`); `Option<int>` alone cannot tell the two apart. */
  predicate ParsesToNegativeZero(s: string)
  {
    var t := TrimStart(s);
    |t| > 0 && t[0] == '-' && ParseInt(s) == Some(0)
  }

  /** What `parseInt` does with a string that starts with a digit or a minus sign. */
  lemma ParseIntUnsigned(s: string)
    requires |s| > 0 && IsDigit(s[0])
    ensures ParseInt(s) == Some(DigitsValue(DigitPrefix(s)))
  {
    assert !IsJsSpace(s[0]);
    assert TrimStart(s) == s;
    assert s[0] != '-' && s[0] != '+';
    assert |DigitPrefix(s)| > 0 by {
      assert DigitPrefix(s) == [s[0]] + DigitPrefix(s[1..]);
    }
  }

  lemma ParseIntNegative(s: string)
    requires |s| > 1 && s[0] == '-' && IsDigit(s[1])
    ensures ParseInt(s) == Some(-(DigitsValue(DigitPrefix(s[1..])) as int))
  {
    assert !IsJsSpace(s[0]);
    assert TrimStart(s) == s;
    assert |DigitPrefix(s[1..])| > 0;
  }

  /** The decimal numeral of a natural number, without leading zeros. */
  function NatToString(n: nat): (r: string)
    ensures |r| > 0 && AllDigits(r)
  {
    if n < 10 then [DigitChar(n)] else NatToString(n / 10) + [DigitChar(n % 10)]
  }

  /** `String(n)` for an integer `n`. */
  function IntToString(n: int): (r: string)
    ensures |r| > 0
    ensures n >= 0 ==> AllDigits(r)
    ensures n < 0 ==> r[0] == '-' && AllDigits(r[1..])
  {
    if n < 0 then "-" + NatToString(-n) else NatToString(n)
  }

  lemma {:induction false} NatToStringValue(n: nat)
    ensures DigitsValue(NatToString(n)) == n
  {
    if n >= 10 {
      var s := NatToString(n);
      assert s[..|s| - 1] == NatToString(n / 10);
      NatToStringValue(n / 10);
    }
  }

  /** The digit prefix of a digit string followed by a non-digit is that digit string. */
  lemma {:induction false} DigitPrefixOf(d: string, rest: string)
    requires AllDigits(d)
    requires |rest| == 0 || !IsDigit(rest[0])
    ensures DigitPrefix(d + rest) == d
    decreases |d|
  {
    if |d| > 0 {
      assert (d + rest)[1..] == d[1..] + rest;
      DigitPrefixOf(d[1..], rest);
    } else {
      assert d + rest == rest;
    }
  }

  /** A leading zero does not change a numeral's value. */
  lemma {:induction false} LeadingZero(d: string)
    requires AllDigits(d)
    ensures AllDigits("0" + d) && DigitsValue("0" + d) == DigitsValue(d)
    decreases |d|
  {
    if |d| > 0 {
      var z := "0" + d;
      assert z[..|z| - 1] == "0" + d[..|d| - 1];
      LeadingZero(d[..|d| - 1]);
    }
  }

  lemma ParseIntOfNatToString(n: nat, rest: string)
    requires |rest| == 0 || !IsDigit(rest[0])
    ensures ParseInt(NatToString(n) + rest) == Some(n)
  {
    var d := NatToString(n);
    var s := d + rest;
    assert s[0] == d[0];
    ParseIntUnsigned(s);
    DigitPrefixOf(d, rest);
    NatToStringValue(n);
  }

  lemma ParseIntOfNegative(n: nat, rest: string)
    requires n > 0
    requires |rest| == 0 || !IsDigit(rest[0])
    ensures ParseInt("-" + NatToString(n) + rest) == Some(-(n as int))
  {
    var d := NatToString(n);
    var s := "-" + NatToString(n) + rest;
    assert s[1..] == d + rest;
    assert s[1] == d[0];
    ParseIntNegative(s);
    DigitPrefixOf(d, rest);
    NatToStringValue(n);
  }

  /** `parseInt` reads back what `String` wrote, whatever non-digit text follows. */
  lemma ParseIntOfIntToString(n: int, rest: string)
    requires |rest| == 0 || !IsDigit(rest[0])
    ensures ParseInt(IntToString(n) + rest) == Some(n)
  {
    if n < 0 {
      ParseIntOfNegative(-n, rest);
    } else {
      ParseIntOfNatToString(n, rest);
    }
  }

  /** `parseInt` ignores one leading zero written before a natural number. */
  lemma ParseIntOfPadded(n: nat)
    ensures ParseInt("0" + NatToString(n)) == Some(n)
  {
    var d := NatToString(n);
    var s := "0" + d;
    LeadingZero(d);
    ParseIntUnsigned(s);
    DigitPrefixOf(s, "");
    assert s + "" == s;
    NatToStringValue(n);
  }
}

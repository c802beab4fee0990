/** JavaScript's global `parseInt` with no radix argument, the `<=` comparison on its
    results (where `NaN` is `None`), and `Number.prototype.toString` on integers, which is
    what `parseInt` sees when it is handed a number. */
module JsNumber {
  import opened Wrappers

  /** The characters `parseInt` skips before the number: ECMAScript's WhiteSpace
      (tab, vertical tab, form feed, space, no-break space, byte order mark and the
      Unicode space separators) and LineTerminator (LF, CR, U+2028, U+2029). */
  predicate IsWhiteSpace(c: char)
  {
    var n := c as int;
    || (0x09 <= n <= 0x0D) || n == 0x20 || n == 0xA0 || n == 0x1680
    || (0x2000 <= n <= 0x200A) || n == 0x2028 || n == 0x2029
    || n == 0x202F || n == 0x205F || n == 0x3000 || n == 0xFEFF
  }

  /** The string with its leading white space removed. */
  function TrimStart(s: string): (r: string)
    ensures r == [] || !IsWhiteSpace(r[0])
  {
    if s != [] && IsWhiteSpace(s[0]) then TrimStart(s[1..]) else s
  }

  /** The value of `c` as a digit in base `radix` (10 or 16, either letter case). */
  function DigitValue(c: char, radix: nat): (d: Option<nat>)
    requires radix == 10 || radix == 16
    ensures d.Some? ==> d.value < radix
  {
    if '0' <= c <= '9' then Some(c as int - '0' as int)
    else if radix == 16 && 'a' <= c <= 'f' then Some(c as int - 'a' as int + 10)
    else if radix == 16 && 'A' <= c <= 'F' then Some(c as int - 'A' as int + 10)
    else None
  }

  predicate AllDigits(z: string, radix: nat)
    requires radix == 10 || radix == 16
  {
    forall i :: 0 <= i < |z| ==> DigitValue(z[i], radix).Some?
  }

  /** The longest prefix of `s` made of base-`radix` digits. */
  function DigitPrefix(s: string, radix: nat): (z: string)
    requires radix == 10 || radix == 16
    ensures z <= s && AllDigits(z, radix)
    ensures |z| == |s| || DigitValue(s[|z|], radix).None?
  {
    if s != [] && DigitValue(s[0], radix).Some? then [s[0]] + DigitPrefix(s[1..], radix) else []
  }

  /** The number a string of base-`radix` digits denotes, most significant digit first. */
  function DigitsValue(z: string, radix: nat): nat
    requires radix == 10 || radix == 16
    requires AllDigits(z, radix)
  {
    if z == [] then 0
    else DigitsValue(z[..|z| - 1], radix) * radix + DigitValue(z[|z| - 1], radix).value
  }

  /** `parseInt(s)`: skip leading white space, read an optional sign, then the number
      `ParseUnsigned` reads. No digits gives `NaN` (`None`). */
  function ParseInt(s: string): Option<int>
  {
    var t := TrimStart(s);
    if t != [] && (t[0] == '-' || t[0] == '+') then
      match ParseUnsigned(t[1..])
      case None => None
      case Some(v) => var n: int := v; Some(if t[0] == '-' then -n else n)
    else
      match ParseUnsigned(t)
      case None => None
      case Some(v) => Some(v)
  }

  /** The digits after the sign: base 16 after a `0x` or `0X` prefix, base 10 otherwise. */
  function ParseUnsigned(u: string): Option<nat>
  {
    if HasHexPrefix(u) then ParseDigits(u[2..], 16) else ParseDigits(u, 10)
  }

  predicate HasHexPrefix(u: string)
  {
    |u| >= 2 && u[0] == '0' && (u[1] == 'x' || u[1] == 'X')
  }

  /** The value of the digits before the first non-digit; none at all is `NaN`. */
  function ParseDigits(v: string, radix: nat): Option<nat>
    requires radix == 10 || radix == 16
  {
    var z := DigitPrefix(v, radix);
    if z == [] then None else Some(DigitsValue(z, radix))
  }

  /** `a <= b` on two results of `parseInt`: every comparison with `NaN` is false. */
  predicate AtMost(a: Option<int>, b: Option<int>)
  {
    a.Some? && b.Some? && a.value <= b.value
  }

  function DigitChar(d: nat): (c: char)
    requires d < 10
    ensures DigitValue(c, 10) == Some(d)
  {
    ('0' as int + d) as char
  }

  /** The decimal digits of `n`, without leading zeros. */
  function Decimal(n: nat): (s: string)
    ensures s != [] && AllDigits(s, 10)
    ensures '0' <= s[0] <= '9'
  {
    if n < 10 then [DigitChar(n)] else Decimal(n / 10) + [DigitChar(n % 10)]
  }

  /** `String(n)` for an integer-valued JavaScript number of magnitude at most 2^53. Up to
      10^21 JavaScript also writes plain digits, but past 2^53 it writes the shortest
      digits that read back as the same double, which may differ from these. */
  function ToDecimal(n: int): string
  {
    if n < 0 then "-" + Decimal(-n) else Decimal(n)
  }

  lemma {:induction false} DecimalValue(n: nat)
    ensures DigitsValue(Decimal(n), 10) == n
  {
    if n >= 10 {
      DecimalValue(n / 10);
      var s := Decimal(n);
      assert s[..|s| - 1] == Decimal(n / 10);
    }
  }

  /** The longest digit prefix of a digit string followed by a non-digit is that string. */
  lemma {:induction false} DigitPrefixStops(z: string, rest: string, radix: nat)
    requires radix == 10 || radix == 16
    requires AllDigits(z, radix)
    requires rest == [] || DigitValue(rest[0], radix).None?
    ensures DigitPrefix(z + rest, radix) == z
  {
    if z != [] {
      assert (z + rest)[1..] == z[1..] + rest;
      DigitPrefixStops(z[1..], rest, radix);
    }
  }

  /** Leading white space does not change what `parseInt` reads. */
  lemma {:induction false} ParseIntSkipsWhiteSpace(ws: string, s: string)
    requires forall i :: 0 <= i < |ws| ==> IsWhiteSpace(ws[i])
    ensures ParseInt(ws + s) == ParseInt(s)
  {
    TrimStartWhiteSpace(ws, s);
  }

  lemma {:induction false} TrimStartWhiteSpace(ws: string, s: string)
    requires forall i :: 0 <= i < |ws| ==> IsWhiteSpace(ws[i])
    ensures TrimStart(ws + s) == TrimStart(s)
  {
    if ws == [] {
      assert ws + s == s;
    } else {
      assert IsWhiteSpace((ws + s)[0]);
      assert (ws + s)[1..] == ws[1..] + s;
      assert forall i :: 0 <= i < |ws[1..]| ==> ws[1..][i] == ws[i + 1];
      TrimStartWhiteSpace(ws[1..], s);
    }
  }

  /** The unsigned part of `parseInt` reads back the digits `Decimal` wrote, and stops at
      whatever non-digit follows them. */
  lemma ParseUnsignedReadsDecimal(m: nat, rest: string)
    requires rest == [] || (DigitValue(rest[0], 10).None? && rest[0] != 'x' && rest[0] != 'X')
    ensures ParseUnsigned(Decimal(m) + rest) == Some(m)
  {
    var d := Decimal(m);
    var u := d + rest;
    assert !HasHexPrefix(u) by {
      if |u| >= 2 {
        if |d| == 1 {
          assert u[1] == rest[0];
        } else {
          assert u[1] == d[1];
          assert DigitValue(d[1], 10).Some?;
        }
      }
    }
    DecimalValue(m);
    DigitPrefixStops(d, rest, 10);
  }

  /** `parseInt` reads back the integer `String()` wrote, and stops at whatever
      non-digit follows it (`"12.5"` and `"100 USD"` read as 12 and 100). */
  lemma ParseIntReadsDecimal(n: int, rest: string)
    requires rest == [] || (DigitValue(rest[0], 10).None? && rest[0] != 'x' && rest[0] != 'X')
    ensures ParseInt(ToDecimal(n) + rest) == Some(n)
  {
    var m: nat := if n < 0 then -n else n;
    var d := Decimal(m);
    var u := d + rest;
    ParseUnsignedReadsDecimal(m, rest);
    if n < 0 {
      assert ToDecimal(n) == "-" + d;
      assert ToDecimal(n) + rest == "-" + u;
      ParseIntMinus(u);
    } else {
      assert ToDecimal(n) == d;
      assert ToDecimal(n) + rest == u;
      assert u[0] == d[0];
      ParseIntDigit(u);
    }
  }

  lemma ParseIntMinus(u: string)
    ensures ParseUnsigned(u).Some? ==> ParseInt("-" + u) == Some(-(ParseUnsigned(u).value as int))
  {
    var s := "-" + u;
    assert s[0] == '-' && s[1..] == u;
    assert TrimStart(s) == s;
  }

  lemma ParseIntDigit(u: string)
    requires u != [] && '0' <= u[0] <= '9'
    ensures ParseUnsigned(u).Some? ==> ParseInt(u) == Some(ParseUnsigned(u).value)
  {
    assert TrimStart(u) == u;
  }

  /** `parseInt` reads back the integer `String()` wrote. */
  lemma ParseIntToDecimal(n: int)
    ensures ParseInt(ToDecimal(n)) == Some(n)
  {
    ParseIntReadsDecimal(n, []);
    assert ToDecimal(n) + [] == ToDecimal(n);
  }

  /** A string whose first non-blank character is neither a sign nor a decimal digit
      (`""`, `"abc"`, `"undefined"`, `"null"`) parses to `NaN`. */
  lemma ParseIntNaN(s: string)
    requires var t := TrimStart(s); t == [] || (t[0] != '-' && t[0] != '+' && DigitValue(t[0], 10).None?)
    ensures ParseInt(s).None?
  {
  }
}

/** JavaScript's `parseInt(string)` with no radix argument: leading white
    space is skipped, one sign is read, a `0x`/`0X` prefix switches to base
    16, and the longest run of digits of the base that follows is read; no
    digit at all gives NaN, here `None`. */
module ParseInt {
  import opened Wrappers
  import opened Text

  /** The value of a digit character in `radix` (letters of either case
      count from 10), if it is one. */
  function DigitValue(c: char, radix: nat): (v: Option<nat>)
    ensures v.Some? ==> v.value < radix
  {
    var d :=
      if '0' <= c <= '9' then (c as int) - ('0' as int)
      else if 'a' <= c <= 'z' then (c as int) - ('a' as int) + 10
      else if 'A' <= c <= 'Z' then (c as int) - ('A' as int) + 10
      else radix;
    if d < radix then Some(d) else None
  }

  /** Length of the longest prefix of `s` made of digits of `radix`. */
  function DigitRun(s: string, radix: nat): (n: nat)
    ensures n <= |s|
    ensures forall k :: 0 <= k < n ==> DigitValue(s[k], radix).Some?
    ensures n < |s| ==> DigitValue(s[n], radix).None?
  {
    if |s| == 0 || DigitValue(s[0], radix).None? then 0
    else 1 + DigitRun(s[1..], radix)
  }

  /** The number a run of digits denotes, most significant first (it is
      only applied to runs of digits of `radix`). */
  function ValueOf(digits: string, radix: nat): nat
  {
    if |digits| == 0 then 0
    else
      var high := ValueOf(digits[..|digits| - 1], radix);
      var low := match DigitValue(digits[|digits| - 1], radix) case Some(d) => d case None => 0;
      high * radix + low
  }

  /** Whether the text starts with a base-16 prefix `0x` or `0X`. */
  predicate HexPrefixed(u: string)
  {
    |u| >= 2 && u[0] == '0' && (u[1] == 'x' || u[1] == 'X')
  }

  /** The unsigned part: the radix chosen by the prefix, then the longest
      run of digits of that radix; `None` when the run is empty. */
  function ParseUnsigned(u: string): Option<nat>
  {
    var radix := if HexPrefixed(u) then 16 else 10;
    var v := if HexPrefixed(u) then u[2..] else u;
    var n := DigitRun(v, radix);
    if n == 0 then None else Some(ValueOf(v[..n], radix))
  }

  /** What `parseInt` reads once the leading white space is skipped: an
      optional sign, then the unsigned part. */
  function ParseSigned(t: string): Option<int>
  {
    if |t| > 0 && (t[0] == '-' || t[0] == '+') then
      match ParseUnsigned(t[1..])
      case None => None
      case Some(m) => var v: int := m; Some(if t[0] == '-' then -v else v)
    else
      match ParseUnsigned(t)
      case None => None
      case Some(m) => Some(m)
  }

  /** `parseInt(s)`. */
  function Parse(s: string): (r: Option<int>)
    ensures AllSpace(s) ==> r.None?
  {
    var t := TrimStart(s);
    assert AllSpace(s) ==> t == [] by {
      if AllSpace(s) {
        TrimStartAllSpace(s);
      }
    }
    ParseSigned(t)
  }

  /** The decimal digits of `n`, most significant first, no leading zero. */
  function Decimal(n: nat): (s: string)
    ensures |s| >= 1
    ensures forall k :: 0 <= k < |s| ==> '0' <= s[k] <= '9'
    ensures s[0] == '0' <==> n == 0
  {
    var last := ((n % 10) + ('0' as int)) as char;
    if n < 10 then [last] else Decimal(n / 10) + [last]
  }

  /** Reading back the digits of `n` gives `n`. */
  lemma {:induction false} ValueOfDecimal(n: nat)
    ensures forall k :: 0 <= k < |Decimal(n)| ==> DigitValue(Decimal(n)[k], 10).Some?
    ensures ValueOf(Decimal(n), 10) == n
  {
    var s := Decimal(n);
    if n >= 10 {
      ValueOfDecimal(n / 10);
      assert s[..|s| - 1] == Decimal(n / 10);
    }
  }

  /** The unsigned reader reads a decimal number back when the text after
      it does not continue the digits or form a hexadecimal prefix. */
  lemma UnsignedRoundTrip(n: nat, rest: string)
    requires rest == [] || DigitValue(rest[0], 10).None?
    requires n == 0 && rest != [] ==> rest[0] != 'x' && rest[0] != 'X'
    ensures ParseUnsigned(Decimal(n) + rest) == Some(n)
  {
    var d := Decimal(n);
    var u := d + rest;
    ValueOfDecimal(n);
    assert !HexPrefixed(u) by {
      if |d| == 1 && n == 0 {
        assert rest == [] || u[1] == rest[0];
      }
    }
    DigitRunOfPrefix(d, rest, 10);
    assert u[..|d|] == d;
  }

  /** `parseInt` reads a number written in decimal back, whatever text
      follows it, as long as that text does not start with a digit (nor,
      after a lone `0`, with the `x` of a hexadecimal prefix). */
  lemma DecimalRoundTrip(n: nat, rest: string)
    requires rest == [] || DigitValue(rest[0], 10).None?
    requires n == 0 && rest != [] ==> rest[0] != 'x' && rest[0] != 'X'
    ensures Parse(Decimal(n) + rest) == Some(n)
  {
    var s := Decimal(n) + rest;
    UnsignedRoundTrip(n, rest);
    PlainStart(s);
  }

  /** Text that starts with neither white space nor a sign is read by the
      unsigned reader alone. */
  lemma PlainStart(s: string)
    requires |s| > 0 && !IsSpace(s[0]) && s[0] != '-' && s[0] != '+'
    ensures Parse(s) == (match ParseUnsigned(s) case None => None case Some(m) => Some(m))
  {
    TrimStartDrops([], s);
    assert [] + s == s;
  }

  /** A run of digits followed by a non-digit (or nothing) is read whole. */
  lemma {:induction false} DigitRunOfPrefix(d: string, rest: string, radix: nat)
    requires forall k :: 0 <= k < |d| ==> DigitValue(d[k], radix).Some?
    requires rest == [] || DigitValue(rest[0], radix).None?
    ensures DigitRun(d + rest, radix) == |d|
  {
    if |d| > 0 {
      assert (d + rest)[1..] == d[1..] + rest;
      DigitRunOfPrefix(d[1..], rest, radix);
    } else {
      assert d + rest == rest;
    }
  }

  /** Leading white space is skipped. */
  lemma SkipsLeadingSpace(pre: string, s: string)
    requires AllSpace(pre) && |s| > 0 && !IsSpace(s[0])
    ensures Parse(pre + s) == Parse(s)
  {
    TrimStartDrops(pre, s);
    TrimStartDrops([], s);
    assert [] + s == s;
  }

  /** A sign in front of a decimal number is read as its sign. */
  lemma SignedRoundTrip(sign: char, n: nat, rest: string)
    requires sign == '-' || sign == '+'
    requires rest == [] || DigitValue(rest[0], 10).None?
    requires n == 0 && rest != [] ==> rest[0] != 'x' && rest[0] != 'X'
    ensures Parse([sign] + (Decimal(n) + rest)) == Some(if sign == '-' then 0 - n else n)
  {
    UnsignedRoundTrip(n, rest);
    SignBefore(sign, Decimal(n) + rest);
  }

  /** A sign in front of any text applies to the unsigned reading of that
      text. */
  lemma SignBefore(sign: char, u: string)
    requires sign == '-' || sign == '+'
    ensures Parse([sign] + u) ==
      match ParseUnsigned(u)
      case None => None
      case Some(m) => Some(if sign == '-' then 0 - m else m)
  {
    var s := [sign] + u;
    assert s[0] == sign;
    assert s[1..] == u;
    assert TrimStart(s) == s by {
      assert !IsSpace(sign);
      TrimStartDrops([], s);
      assert [] + s == s;
    }
  }

  /** Text that does not start with white space, a sign or a digit is NaN,
      and so is the empty text. */
  lemma NoDigitsIsNaN(s: string)
    requires s == [] || (!IsSpace(s[0]) && s[0] != '-' && s[0] != '+' && DigitValue(s[0], 10).None?)
    ensures Parse(s).None?
  {
    if s != [] {
      PlainStart(s);
      UnsignedNeedsADigit(s);
      assert ParseUnsigned(s).None?;
      assert (match ParseUnsigned(s) case None => None case Some(m) => Some(m)) == None;
    } else {
      assert TrimStart(s) == [];
    }
  }

  lemma UnsignedNeedsADigit(u: string)
    requires u == [] || DigitValue(u[0], 10).None?
    ensures ParseUnsigned(u).None?
  {
    if u != [] {
      assert DigitValue('0', 10).Some?;
      assert !HexPrefixed(u);
    }
  }

  /** `0x` switches to base 16. */
  lemma HexExample()
    ensures Parse("0x1f") == Some(31)
  {
    var s := "0x1f";
    PlainStart(s);
    assert HexPrefixed(s);
    assert s[2..] == "1f";
    assert DigitRun("1f", 16) == 2 by {
      assert "1f"[1..] == "f";
      assert "f"[1..] == [];
    }
    assert "1f"[..2] == "1f";
    assert "1f"[..1] == "1";
    assert "1"[..0] == [];
    assert ValueOf("1", 16) == 1;
  }
}

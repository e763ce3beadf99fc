/**
 * Text helpers shared by the C++ renderers (printf-style `%f`, `%.2f`, `%d`,
 * `%u`, bounded `snprintf`) and the Python readers (`str.split`, `str.strip`,
 * `str.startswith`, the `in` substring test, `int(...)`).
 */
module Text {
  import opened Wrappers

  /**
   * The characters Python 3's argument-less `str.strip()` removes: those for
   * which `str.isspace()` holds, the information separators U+001C..U+001F
   * included.
   */
  const Whitespace: string := " \t\n\r\U{0B}\U{0C}\U{1C}\U{1D}\U{1E}\U{1F}\U{85}\U{A0}\U{1680}"
    + "\U{2000}\U{2001}\U{2002}\U{2003}\U{2004}\U{2005}\U{2006}\U{2007}\U{2008}\U{2009}\U{200A}"
    + "\U{2028}\U{2029}\U{202F}\U{205F}\U{3000}"

  predicate IsDigit(c: char) { '0' <= c <= '9' }

  predicate AllDigits(s: string) { forall i :: 0 <= i < |s| ==> IsDigit(s[i]) }

  function DigitChar(d: nat): (c: char)
    requires d < 10
    ensures IsDigit(c) && c as int - '0' as int == d
  {
    ('0' as int + d) as char
  }

  /** Decimal rendering of a natural number, without leading zeros. */
  function NatToDecimal(n: nat): (s: string)
    ensures 1 <= |s| && AllDigits(s)
    decreases n
  {
    if n < 10 then [DigitChar(n)] else NatToDecimal(n / 10) + [DigitChar(n % 10)]
  }

  /** Decimal rendering of a signed integer (`%d`). */
  function IntToDecimal(i: int): (s: string)
    ensures 1 <= |s|
    ensures i < 0 <==> s[0] == '-'
  {
    if i < 0 then "-" + NatToDecimal(-i) else NatToDecimal(i)
  }

  /** The value of a string of decimal digits. */
  function DigitsValue(s: string): nat
    requires AllDigits(s)
  {
    if s == [] then 0 else DigitsValue(s[..|s| - 1]) * 10 + (s[|s| - 1] as int - '0' as int)
  }

  lemma {:induction false} DigitsValueOfDecimal(n: nat)
    ensures DigitsValue(NatToDecimal(n)) == n
    decreases n
  {
    var s := NatToDecimal(n);
    if n >= 10 {
      DigitsValueOfDecimal(n / 10);
      assert s[..|s| - 1] == NatToDecimal(n / 10);
    }
  }

  /** Python's `str.startswith`. */
  predicate StartsWith(s: string, prefix: string) {
    |prefix| <= |s| && s[..|prefix|] == prefix
  }

  /** Python's `sub in s`. */
  predicate ContainsText(s: string, sub: string)
    decreases |s|
  {
    StartsWith(s, sub) || (|s| > 0 && ContainsText(s[1..], sub))
  }

  /** Python's `str.lstrip(chars)`. */
  function StripLeft(s: string, chars: string): (r: string)
    ensures |r| <= |s| && r == s[|s| - |r|..]
    ensures |r| > 0 ==> r[0] !in chars
    ensures forall i :: 0 <= i < |s| - |r| ==> s[i] in chars
    decreases |s|
  {
    if |s| > 0 && s[0] in chars then
      var r := StripLeft(s[1..], chars);
      assert s[1..][|s| - 1 - |r|..] == s[|s| - |r|..];
      assert forall i :: 1 <= i < |s| - |r| ==> s[i] == s[1..][i - 1];
      r
    else s
  }

  /** Python's `str.rstrip(chars)`. */
  function StripRight(s: string, chars: string): (r: string)
    ensures |r| <= |s| && r == s[..|r|]
    ensures |r| > 0 ==> r[|r| - 1] !in chars
    ensures forall i :: |r| <= i < |s| ==> s[i] in chars
    decreases |s|
  {
    if |s| > 0 && s[|s| - 1] in chars then StripRight(s[..|s| - 1], chars) else s
  }

  lemma StripLeftFrom(c: char, s: string, chars: string)
    ensures StripLeft([c] + s, chars) == if c in chars then StripLeft(s, chars) else [c] + s
  {
    assert ([c] + s)[1..] == s;
  }

  lemma StripRightFrom(s: string, c: char, chars: string)
    ensures StripRight(s + [c], chars) == if c in chars then StripRight(s, chars) else s + [c]
  {
    assert (s + [c])[..|s|] == s;
  }

  lemma StripLeftStops(s: string, chars: string)
    requires |s| > 0 && s[0] !in chars
    ensures StripLeft(s, chars) == s
  {
  }

  lemma StripRightStops(s: string, chars: string)
    requires |s| > 0 && s[|s| - 1] !in chars
    ensures StripRight(s, chars) == s
  {
  }

  /** Python's `str.strip(chars)`. */
  function Strip(s: string, chars: string): string {
    StripRight(StripLeft(s, chars), chars)
  }

  lemma StripNothing(s: string, chars: string)
    requires forall i :: 0 <= i < |s| ==> s[i] !in chars
    ensures Strip(s, chars) == s
  {
  }

  /**
   * Python's `s.split(sep)` for a non-empty separator: the text between
   * the leftmost non-overlapping occurrences of `sep`.
   */
  function Split(s: string, sep: string): (parts: seq<string>)
    requires |sep| > 0
    ensures |parts| >= 1
    decreases |s|
  {
    if |s| < |sep| then [s]
    else if s[..|sep|] == sep then [""] + Split(s[|sep|..], sep)
    else
      var rest := Split(s[1..], sep);
      [[s[0]] + rest[0]] + rest[1..]
  }

  /** Python's `sep.join(parts)`. */
  function Join(parts: seq<string>, sep: string): string {
    if parts == [] then ""
    else if |parts| == 1 then parts[0]
    else parts[0] + sep + Join(parts[1..], sep)
  }

  predicate Avoids(s: string, c: char) { forall i :: 0 <= i < |s| ==> s[i] != c }

  lemma {:induction false} SplitUnbroken(p: string, rest: string, sep: string)
    requires |sep| > 0 && Avoids(p, sep[0])
    ensures Split(p + rest, sep) == [p + Split(rest, sep)[0]] + Split(rest, sep)[1..]
    decreases |p|
  {
    var s := p + rest;
    if p == [] {
      assert s == rest;
      var q := Split(rest, sep);
      assert q == [q[0]] + q[1..];
      assert p + q[0] == q[0];
    } else {
      assert s[0] == p[0] != sep[0];
      if |s| < |sep| {
        assert Split(rest, sep) == [rest];
      } else {
        assert s[..|sep|] != sep;
        SplitUnbroken(p[1..], rest, sep);
        assert s[1..] == p[1..] + rest;
        var q := Split(rest, sep);
        assert [s[0]] + (p[1..] + q[0]) == p + q[0];
      }
    }
  }

  lemma {:induction false} SplitJoin(parts: seq<string>, sep: string)
    requires |sep| > 0 && |parts| >= 1
    requires forall k :: 0 <= k < |parts| ==> Avoids(parts[k], sep[0])
    ensures Split(Join(parts, sep), sep) == parts
    decreases |parts|
  {
    if |parts| == 1 {
      SplitUnbroken(parts[0], "", sep);
      assert parts[0] + "" == parts[0];
    } else {
      var tail := Join(parts[1..], sep);
      SplitJoin(parts[1..], sep);
      var s := sep + tail;
      assert s[..|sep|] == sep && s[|sep|..] == tail;
      assert Split(s, sep) == [""] + Split(tail, sep);
      assert Split(s, sep) == [""] + parts[1..];
      SplitUnbroken(parts[0], s, sep);
      assert Join(parts, sep) == parts[0] + s;
      assert Split(s, sep)[0] == "" && Split(s, sep)[1..] == parts[1..];
      assert parts[0] + "" == parts[0];
      assert [parts[0]] + parts[1..] == parts;
    }
  }

  /** `key=value` for each pair. */
  function Assignments(fields: seq<(string, string)>): (tokens: seq<string>)
    ensures |tokens| == |fields|
    ensures forall i :: 0 <= i < |fields| ==> tokens[i] == fields[i].0 + "=" + fields[i].1
  {
    if fields == [] then [] else [fields[0].0 + "=" + fields[0].1] + Assignments(fields[1..])
  }

  /** The first `n` characters of `s` (a bounded `snprintf` keeps `size - 1`). */
  function Truncate(s: string, n: nat): (r: string)
    ensures |r| <= n && StartsWith(s, r)
    ensures |s| <= n ==> r == s
  {
    if |s| <= n then s else s[..n]
  }

  function Pow10(d: nat): (p: nat)
    ensures p >= 1
  {
    if d == 0 then 1 else 10 * Pow10(d - 1)
  }

  /** Round a non-negative real to the nearest integer, ties to even. */
  function RoundHalfEven(x: real): (n: nat)
    requires x >= 0.0
    ensures (n as real) - 0.5 <= x <= (n as real) + 0.5
  {
    var f := x.Floor;
    var frac := x - f as real;
    if frac < 0.5 then f
    else if frac > 0.5 then f + 1
    else if f % 2 == 0 then f
    else f + 1
  }

  /** `s` padded on the left with '0' to at least `width` characters. */
  function ZeroPad(s: string, width: nat): (r: string)
    ensures |r| == if |s| < width then width else |s|
    ensures AllDigits(s) ==> AllDigits(r)
    decreases width - |s|
  {
    if |s| < width then ZeroPad("0" + s, width) else s
  }

  /** Characters a `%f` rendering can contain. */
  predicate IsNumeral(c: char) { IsDigit(c) || c == '.' || c == '-' }

  predicate AllNumeral(s: string) { forall i :: 0 <= i < |s| ==> IsNumeral(s[i]) }

  lemma AllNumeralConcat(a: string, b: string)
    requires AllNumeral(a) && AllNumeral(b)
    ensures AllNumeral(a + b)
  {
    assert forall i :: |a| <= i < |a + b| ==> (a + b)[i] == b[i - |a|];
  }

  lemma DigitsAreNumeral(s: string)
    requires AllDigits(s)
    ensures AllNumeral(s)
  {
  }

  /** `scaled / p`, with `p` a power of ten: the whole part of a fixed-point number. */
  function Shifted(scaled: nat, p: nat): nat
    requires p >= 1
  {
    scaled / p
  }

  /** `scaled % p`, with `p` a power of ten: the decimals of a fixed-point number. */
  function Fraction(scaled: nat, p: nat): nat
    requires p >= 1
  {
    scaled % p
  }

  function WholeDigits(scaled: nat, prec: nat): (s: string)
    ensures |s| >= 1 && AllDigits(s)
  {
    NatToDecimal(Shifted(scaled, Pow10(prec)))
  }

  function DecimalDigits(scaled: nat, prec: nat): (s: string)
    ensures |s| >= prec && AllDigits(s)
  {
    ZeroPad(NatToDecimal(Fraction(scaled, Pow10(prec))), prec)
  }

  /** The digits of `scaled / 10^prec` with exactly `prec` decimals. */
  function FixedDigits(scaled: nat, prec: nat): (s: string)
    ensures |s| >= 1 && AllNumeral(s) && IsDigit(s[0])
  {
    var w := WholeDigits(scaled, prec);
    DigitsAreNumeral(w);
    if prec == 0 then w
    else
      var f := DecimalDigits(scaled, prec);
      DigitsAreNumeral(f);
      AllNumeralConcat(w, ".");
      AllNumeralConcat(w + ".", f);
      w + "." + f
  }

  /** `|x|` scaled by `10^prec`: the fixed-point magnitude `%.<prec>f` rounds. */
  function ScaledMagnitude(x: real, prec: nat): (m: real)
    ensures m >= 0.0
  {
    (if x < 0.0 then -x else x) * Pow10(prec) as real
  }

  /** The digits of `n / 10^prec`, after a minus sign when `negative`. */
  function SignedDigits(negative: bool, n: nat, prec: nat): (s: string)
    ensures |s| >= 1 && AllNumeral(s)
  {
    var digits := FixedDigits(n, prec);
    if negative then
      AllNumeralConcat("-", digits);
      "-" + digits
    else digits
  }

  /** The fixed-point number `n / 10^prec`. */
  function Quotient(n: nat, prec: nat): real {
    n as real / Pow10(prec) as real
  }

  /** Half a unit of the last of `prec` decimal places. */
  function HalfUnit(prec: nat): real {
    0.5 / Pow10(prec) as real
  }

  /** The number `SignedDigits(negative, n, prec)` stands for. */
  function SignedValue(negative: bool, n: nat, prec: nat): real {
    if negative then -Quotient(n, prec) else Quotient(n, prec)
  }

  /**
   * printf's `%.<prec>f`: sign, integer part, and `prec` decimals rounded to
   * nearest (ties to even); no decimal point when `prec` is 0.
   */
  function FormatFixed(x: real, prec: nat): (s: string)
    ensures |s| >= 1 && AllNumeral(s)
  {
    SignedDigits(x < 0.0, RoundHalfEven(ScaledMagnitude(x, prec)), prec)
  }

  /** The number `%.<prec>f` writes for `x`: `x` rounded to `prec` decimals. */
  function FixedValue(x: real, prec: nat): real {
    SignedValue(x < 0.0, RoundHalfEven(ScaledMagnitude(x, prec)), prec)
  }

  /** The rounded value lies within half a unit of the last place of `x`. */
  lemma FixedValueWithinHalfUnit(x: real, prec: nat)
    ensures x - HalfUnit(prec) <= FixedValue(x, prec) <= x + HalfUnit(prec)
  {
    var n := RoundHalfEven(ScaledMagnitude(x, prec));
    WithinHalfUnit(n as real, if x < 0.0 then -x else x, Pow10(prec) as real, Quotient(n, prec), HalfUnit(prec));
  }

  /**
   * Python's `int(s)` on decimal text: surrounding whitespace is ignored, an
   * optional sign, then at least one digit; anything else is a ValueError
   * (`None`).
   */
  function ParseInt(s: string): (r: Option<int>)
  {
    var t := Strip(s, Whitespace);
    if |t| > 0 && (t[0] == '-' || t[0] == '+') then
      var d := t[1..];
      var v: int := if |d| > 0 && AllDigits(d) then DigitsValue(d) else 0;
      if |d| > 0 && AllDigits(d) then Some(if t[0] == '-' then -v else v)
      else None
    else if |t| > 0 && AllDigits(t) then Some(DigitsValue(t))
    else None
  }

  /** The value of the decimal numeral `whole.frac`. */
  function DecimalValue(whole: string, frac: string): real
    requires AllDigits(whole) && AllDigits(frac)
  {
    DigitsValue(whole) as real + DigitsValue(frac) as real / Pow10(|frac|) as real
  }

  /** Unsigned decimal text: digits with at most one point and at least one digit. */
  function ParseUnsigned(body: string): Option<real> {
    var parts := Split(body, ".");
    if |parts| == 1 && |parts[0]| > 0 && AllDigits(parts[0]) then Some(DigitsValue(parts[0]) as real)
    else if |parts| == 2 && |parts[0]| + |parts[1]| > 0 && AllDigits(parts[0]) && AllDigits(parts[1]) then
      Some(DecimalValue(parts[0], parts[1]))
    else None
  }

  /**
   * Python's `float(s)` on decimal text: surrounding whitespace is ignored,
   * then an optional sign and unsigned decimal text; anything else is a
   * ValueError (`None`).
   */
  function ParseReal(s: string): Option<real> {
    ParseSigned(Strip(s, Whitespace))
  }

  /** An optional sign, then unsigned decimal text. */
  function ParseSigned(t: string): Option<real> {
    var signed := |t| > 0 && (t[0] == '-' || t[0] == '+');
    var body := if signed then t[1..] else t;
    var v := ParseUnsigned(body);
    if v.None? then None
    else if |t| > 0 && t[0] == '-' then Some(-v.value)
    else v
  }

  /** A non-empty run of digits reads back as its value. */
  lemma ParseUnsignedOfDigits(s: string)
    requires |s| > 0 && AllDigits(s)
    ensures ParseUnsigned(s) == Some(DigitsValue(s) as real)
  {
    assert Avoids(s, '.') by {
      forall i | 0 <= i < |s| ensures s[i] != '.' {
        assert IsDigit(s[i]);
      }
    }
    SplitAbsent(s, ".");
  }

  /** Stripping whitespace leaves a run of digits unchanged. */
  lemma DigitsUnstripped(s: string)
    requires AllDigits(s)
    ensures Strip(s, Whitespace) == s
  {
    forall i | 0 <= i < |s| ensures s[i] !in Whitespace {
      assert IsDigit(s[i]);
    }
    StripNothing(s, Whitespace);
  }

  /** A non-empty run of digits, without a sign, reads back as its value. */
  lemma ParseSignedOfDigits(s: string)
    requires |s| > 0 && AllDigits(s)
    ensures ParseSigned(s) == Some(DigitsValue(s) as real)
  {
    assert IsDigit(s[0]);
    ParseUnsignedOfDigits(s);
  }

  /** A non-empty run of digits, without sign or spaces, reads back as its value. */
  lemma ParseRealOfDigits(s: string)
    requires |s| > 0 && AllDigits(s)
    ensures ParseReal(s) == Some(DigitsValue(s) as real)
  {
    DigitsUnstripped(s);
    ParseSignedOfDigits(s);
  }

  /** A decimal rendering of a natural number reads back as that number. */
  lemma ParseRealOfDecimal(n: nat)
    ensures ParseReal(NatToDecimal(n)) == Some(n as real)
  {
    DigitsValueOfDecimal(n);
    ParseRealOfDigits(NatToDecimal(n));
  }

  /** Splitting text that does not hold the separator's first character gives the text back. */
  lemma SplitAbsent(s: string, sep: string)
    requires |sep| > 0 && Avoids(s, sep[0])
    ensures Split(s, sep) == [s]
  {
    assert Join([s], sep) == s;
    SplitJoin([s], sep);
  }

  lemma ParseIntOfDecimal(n: nat)
    ensures ParseInt(NatToDecimal(n)) == Some(n)
  {
    DigitsUnstripped(NatToDecimal(n));
    DigitsValueOfDecimal(n);
  }

  /** Leading zeros do not change the value of a digit string. */
  lemma {:induction false} LeadingZero(s: string)
    requires AllDigits(s)
    ensures AllDigits("0" + s) && DigitsValue("0" + s) == DigitsValue(s)
    decreases |s|
  {
    var t := "0" + s;
    if s != [] {
      LeadingZero(s[..|s| - 1]);
      assert t[..|t| - 1] == "0" + s[..|s| - 1];
      assert t[|t| - 1] == s[|s| - 1];
    }
  }

  /** Zero padding does not change the value of a digit string. */
  lemma {:induction false} ZeroPadValue(s: string, width: nat)
    requires AllDigits(s)
    ensures DigitsValue(ZeroPad(s, width)) == DigitsValue(s)
    decreases width - |s|
  {
    if |s| < width {
      LeadingZero(s);
      ZeroPadValue("0" + s, width);
    }
  }

  /** A number below `10^d`, `d >= 1`, has at most `d` decimal digits. */
  lemma {:induction false} DecimalLength(n: nat, d: nat)
    requires d >= 1 && n < Pow10(d)
    ensures |NatToDecimal(n)| <= d
    decreases n
  {
    if n >= 10 {
      assert d >= 2;
      DecimalLength(n / 10, d - 1);
    }
  }

  /** A fixed-point number is its whole part times `p` plus its decimals. */
  lemma ShiftedFraction(scaled: nat, p: nat)
    requires p >= 1
    ensures scaled == Shifted(scaled, p) * p + Fraction(scaled, p)
  {
  }

  /** `q + r/p` is `n/p` when `n == q*p + r`. */
  lemma FixedPointValue(q: nat, r: nat, p: nat, n: nat)
    requires p >= 1 && n == q * p + r
    ensures q as real + r as real / p as real == n as real / p as real
  {
    assert n as real == q as real * p as real + r as real;
  }

  /** The decimals of a fixed-point number: exactly `prec` digits, worth `scaled % 10^prec`. */
  lemma DecimalDigitsValue(scaled: nat, prec: nat)
    requires prec >= 1
    ensures |DecimalDigits(scaled, prec)| == prec
    ensures DigitsValue(DecimalDigits(scaled, prec)) == Fraction(scaled, Pow10(prec))
  {
    var r := Fraction(scaled, Pow10(prec));
    DecimalLength(r, prec);
    DigitsValueOfDecimal(r);
    ZeroPadValue(NatToDecimal(r), prec);
  }

  /** Two digit runs joined by a point split back into the two runs. */
  lemma SplitAtPoint(w: string, f: string)
    requires AllDigits(w) && AllDigits(f)
    ensures Split(w + "." + f, ".") == [w, f]
  {
    var parts := [w, f];
    forall k | 0 <= k < 2 ensures Avoids(parts[k], '.') {
      assert AllDigits(parts[k]);
    }
    assert Join(parts, ".") == w + "." + f;
    SplitJoin(parts, ".");
  }

  /** With no decimals, the digits of `scaled` read back as `scaled`. */
  lemma WholeDigitsValue(scaled: nat)
    ensures ParseUnsigned(FixedDigits(scaled, 0)) == Some(Quotient(scaled, 0))
  {
    var w := WholeDigits(scaled, 0);
    assert Pow10(0) == 1 && Shifted(scaled, 1) == scaled;
    DigitsValueOfDecimal(scaled);
    ParseUnsignedOfDigits(w);
    assert Quotient(scaled, 0) == scaled as real;
  }

  /** With `prec >= 1` decimals, `whole.decimals` reads back as `scaled / 10^prec`. */
  lemma PointDigitsValue(scaled: nat, prec: nat)
    requires prec >= 1
    ensures ParseUnsigned(FixedDigits(scaled, prec)) == Some(Quotient(scaled, prec))
  {
    var p := Pow10(prec);
    var q, r := Shifted(scaled, p), Fraction(scaled, p);
    var w, f := WholeDigits(scaled, prec), DecimalDigits(scaled, prec);
    DigitsValueOfDecimal(q);
    DecimalDigitsValue(scaled, prec);
    SplitAtPoint(w, f);
    assert ParseUnsigned(w + "." + f) == Some(DecimalValue(w, f));
    ShiftedFraction(scaled, p);
    FixedPointValue(q, r, p, scaled);
  }

  /** The digits of `scaled / 10^prec` read back, as unsigned text, as that quotient. */
  lemma FixedDigitsValue(scaled: nat, prec: nat)
    ensures ParseUnsigned(FixedDigits(scaled, prec)) == Some(Quotient(scaled, prec))
  {
    if prec == 0 {
      WholeDigitsValue(scaled);
    } else {
      PointDigitsValue(scaled, prec);
    }
  }

  /** `%f` output holds no whitespace, so stripping leaves it alone. */
  lemma NumeralUnstripped(s: string)
    requires AllNumeral(s)
    ensures Strip(s, Whitespace) == s
  {
    forall i | 0 <= i < |s| ensures s[i] !in Whitespace {
      assert IsNumeral(s[i]);
    }
    StripNothing(s, Whitespace);
  }

  /** Dividing `n - 1/2 <= a*p <= n + 1/2` by `p`: `a` lies within `h = 1/(2p)` of `q = n/p`. */
  lemma WithinHalfUnit(n: real, a: real, p: real, q: real, h: real)
    requires p > 0.0 && n - 0.5 <= a * p <= n + 0.5
    requires q == n / p && h == 0.5 / p
    ensures q - h <= a <= q + h
  {
    assert (n - 0.5) / p <= (a * p) / p <= (n + 0.5) / p;
  }

  /** `float` reads numeral text as it stands, with nothing to strip. */
  lemma NumeralReadsAsSigned(t: string)
    requires AllNumeral(t)
    ensures ParseReal(t) == ParseSigned(t)
  {
    NumeralUnstripped(t);
  }

  /** Text without a leading sign reads as unsigned text. */
  lemma ParseSignedUnsigned(t: string)
    requires |t| > 0 && t[0] != '-' && t[0] != '+'
    ensures ParseSigned(t) == ParseUnsigned(t)
  {
  }

  /** A minus sign negates the unsigned text after it. */
  lemma ParseSignedMinus(t: string, v: real)
    requires ParseUnsigned(t) == Some(v)
    ensures ParseSigned("-" + t) == Some(-v)
  {
    assert ("-" + t)[1..] == t;
  }

  /** Unsigned numeral text that starts with a digit reads back, under `float`, as its unsigned value. */
  lemma UnsignedNumeralReadsBack(t: string, v: real)
    requires |t| >= 1 && IsDigit(t[0]) && AllNumeral(t) && ParseUnsigned(t) == Some(v)
    ensures ParseReal(t) == Some(v)
  {
    NumeralReadsAsSigned(t);
    ParseSignedUnsigned(t);
  }

  /** A minus sign before such text negates what it reads back as. */
  lemma NegatedNumeralReadsBack(s: string, t: string, v: real)
    requires s == "-" + t
    requires |t| >= 1 && IsDigit(t[0]) && AllNumeral(t) && ParseUnsigned(t) == Some(v)
    ensures ParseReal(s) == Some(-v)
  {
    AllNumeralConcat("-", t);
    NumeralReadsAsSigned(s);
    ParseSignedMinus(t, v);
  }

  /** Fixed-point digits after a minus sign read back as the negated quotient. */
  lemma NegativeDigitsReadBack(negative: bool, n: nat, prec: nat)
    requires negative
    ensures ParseReal(SignedDigits(negative, n, prec)).Some?
    ensures ParseReal(SignedDigits(negative, n, prec)).value == SignedValue(negative, n, prec)
  {
    FixedDigitsValue(n, prec);
    NegatedNumeralReadsBack(SignedDigits(negative, n, prec), FixedDigits(n, prec), Quotient(n, prec));
  }

  /** Signed fixed-point digits read back as the number they stand for. */
  lemma SignedDigitsReadBack(negative: bool, n: nat, prec: nat)
    ensures ParseReal(SignedDigits(negative, n, prec)) == Some(SignedValue(negative, n, prec))
  {
    if negative {
      NegativeDigitsReadBack(negative, n, prec);
    } else {
      FixedDigitsValue(n, prec);
      UnsignedNumeralReadsBack(FixedDigits(n, prec), Quotient(n, prec));
    }
  }

  /** Reading a `%.<prec>f` rendering back (Python's `float`) gives the value rounded to `prec` decimals. */
  lemma FormatFixedReadsBack(x: real, prec: nat)
    ensures ParseReal(FormatFixed(x, prec)) == Some(FixedValue(x, prec))
  {
    SignedDigitsReadBack(x < 0.0, RoundHalfEven(ScaledMagnitude(x, prec)), prec);
  }
}

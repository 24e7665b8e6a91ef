/**
 * The two number readers the parser relies on: Java's `Integer.parseInt`
 * (memory addresses) and `Double.parseDouble` (push literals), each over the
 * decimal notation it accepts, together with a decimal printer used as their
 * inverse.
 */
module Numerals {
  import opened Wrappers

  /** Bounds of a Java `int`; `Integer.parseInt` rejects values outside them. */
  const IntMin: int := -0x8000_0000
  const IntMax: int := 0x7fff_ffff

  predicate IsDigit(c: char)
  {
    '0' <= c <= '9'
  }

  predicate IsDigits(s: string)
  {
    forall k :: 0 <= k < |s| ==> IsDigit(s[k])
  }

  function DigitValue(c: char): (d: nat)
    requires IsDigit(c)
    ensures d < 10
  {
    (c as int) - ('0' as int)
  }

  function DigitChar(d: nat): (c: char)
    requires d < 10
    ensures IsDigit(c) && DigitValue(c) == d
  {
    (('0' as int) + d) as char
  }

  /** The value of a string of decimal digits, most significant first. */
  function DigitsValue(s: string): nat
    requires IsDigits(s)
  {
    if s == [] then 0 else 10 * DigitsValue(s[..|s| - 1]) + DigitValue(s[|s| - 1])
  }

  function Pow10(n: nat): (p: nat)
    ensures p >= 1
  {
    if n == 0 then 1 else 10 * Pow10(n - 1)
  }

  /** `Integer.parseInt`: an optional sign followed by at least one digit, within the `int` range. */
  function ParseInt(s: string): (r: Option<int>)
    ensures r.Some? ==> IntMin <= r.value <= IntMax
    ensures r.Some? ==> |s| > 0
  {
    var signed := |s| > 0 && (s[0] == '+' || s[0] == '-');
    var magnitude := if signed then s[1..] else s;
    if magnitude == [] || !IsDigits(magnitude) then None
    else
      var v: int := if signed && s[0] == '-' then -(DigitsValue(magnitude) as int) else DigitsValue(magnitude);
      if IntMin <= v <= IntMax then Some(v) else None
  }

  /** Index of the first '.' in `s`, or `|s|` when there is none. */
  function DotIndex(s: string): (k: nat)
    ensures k <= |s|
    ensures k < |s| ==> s[k] == '.'
    ensures forall j :: 0 <= j < k ==> s[j] != '.'
  {
    if s == [] || s[0] == '.' then 0 else 1 + DotIndex(s[1..])
  }

  /** An unsigned decimal: digits, optionally followed by '.' and more digits, with at least one digit in all. */
  function ParseUnsigned(s: string): Option<real>
  {
    var k := DotIndex(s);
    var whole := s[..k];
    var fraction := if k < |s| then s[k + 1..] else [];
    if !IsDigits(whole) || !IsDigits(fraction) || |whole| + |fraction| == 0 then None
    else Some(DecimalValue(whole, fraction))
  }

  /** The value of the digits `whole` followed by a '.' and the digits `fraction`. */
  function DecimalValue(whole: string, fraction: string): real
    requires IsDigits(whole) && IsDigits(fraction)
  {
    DigitsValue(whole) as real + FractionValue(fraction)
  }

  /** The value of the digits after a decimal point, each worth a tenth of the one before it. */
  function FractionValue(f: string): (v: real)
    requires IsDigits(f)
    ensures f == [] ==> v == 0.0
  {
    if f == [] then 0.0 else (DigitValue(f[0]) as real + FractionValue(f[1..])) / 10.0
  }

  /** `Double.parseDouble`, restricted to signed decimal notation. */
  function ParseNumber(s: string): Option<real>
  {
    if |s| > 0 && (s[0] == '+' || s[0] == '-') then
      match ParseUnsigned(s[1..])
      case None => None
      case Some(v) => Some(if s[0] == '-' then -v else v)
    else ParseUnsigned(s)
  }

  /** Shortest decimal spelling of a natural number. */
  function ShowNat(n: nat): (s: string)
    ensures |s| > 0 && IsDigits(s)
  {
    if n < 10 then [DigitChar(n)] else ShowNat(n / 10) + [DigitChar(n % 10)]
  }

  /** Decimal spelling of an integer, with a leading '-' when negative. */
  function ShowInt(k: int): (s: string)
    ensures |s| > 0 && s[0] != 'm' && s[0] != '+'
    ensures forall j :: 0 <= j < |s| ==> s[j] != ' '
  {
    if k < 0 then "-" + ShowNat(-k) else ShowNat(k)
  }

  /** Exactly `w` digits spelling `f` modulo 10^w, with leading zeros. */
  function PadDigits(f: nat, w: nat): (s: string)
    ensures |s| == w && IsDigits(s)
  {
    if w == 0 then [] else PadDigits(f / 10, w - 1) + [DigitChar(f % 10)]
  }

  /** The spelling `q.f` with exactly `places` fraction digits. */
  function PointSpelling(q: nat, f: nat, places: nat): (s: string)
    ensures |s| > 0 && IsDigit(s[0])
    ensures forall j :: 0 <= j < |s| ==> s[j] != ' '
  {
    var whole, fraction := ShowNat(q), PadDigits(f, places);
    assert forall j :: 0 <= j < |whole| ==> whole[j] != ' ' by {
      assert IsDigits(whole);
    }
    assert forall j :: 0 <= j < |fraction| ==> fraction[j] != ' ' by {
      assert IsDigits(fraction);
    }
    whole + "." + fraction
  }

  /**
   * Decimal spelling of z / 10^places: the integer spelling when `places` is
   * 0, otherwise an optional '-', the whole part, a '.' and exactly `places`
   * fraction digits.
   */
  function ShowDecimal(z: int, places: nat): (s: string)
    ensures |s| > 0 && s[0] != 'm' && s[0] != '+'
    ensures forall j :: 0 <= j < |s| ==> s[j] != ' '
  {
    if places == 0 then ShowInt(z)
    else
      var n: nat := if z < 0 then -z else z;
      var (q, f) := WholeAndFraction(n, Pow10(places));
      var unsigned := PointSpelling(q, f, places);
      if z < 0 then Negated(unsigned) else unsigned
  }

  /** The whole part and the remainder of n / p. */
  function WholeAndFraction(n: nat, p: nat): (r: (nat, nat))
    requires p > 0
    ensures n == r.0 * p + r.1 && r.1 < p
  {
    (n / p, n % p)
  }

  /** A numeral with a leading '-'. */
  function Negated(u: string): (s: string)
    requires forall j :: 0 <= j < |u| ==> u[j] != ' '
    ensures |s| > 0 && s[0] == '-' && s[1..] == u
    ensures forall j :: 0 <= j < |s| ==> s[j] != ' '
  {
    "-" + u
  }

  /** Reading back a printed natural number gives the number. */
  lemma {:induction false} ShowNatValue(n: nat)
    ensures DigitsValue(ShowNat(n)) == n
  {
    if n >= 10 {
      var s := ShowNat(n / 10) + [DigitChar(n % 10)];
      assert s[..|s| - 1] == ShowNat(n / 10);
      ShowNatValue(n / 10);
    }
  }

  /** `Integer.parseInt` inverts `ShowNat` exactly on the `int` range and rejects larger numbers. */
  lemma ParseIntShowNat(n: nat)
    ensures ParseInt(ShowNat(n)) == if n <= IntMax then Some(n) else None
  {
    ShowNatValue(n);
  }

  /** `Integer.parseInt` inverts `ShowInt` exactly on the `int` range, negative numbers included. */
  lemma ParseIntShowInt(z: int)
    ensures ParseInt(ShowInt(z)) == if IntMin <= z <= IntMax then Some(z) else None
  {
    var n: nat := if z < 0 then -z else z;
    ShowNatValue(n);
    if z < 0 {
      assert ShowInt(z)[1..] == ShowNat(n);
    }
  }

  /** `Integer.parseInt` rejects any string holding a character that is neither a digit nor a sign. */
  lemma ParseIntRejects(s: string, k: nat)
    requires k < |s| && !IsDigit(s[k]) && s[k] != '+' && s[k] != '-'
    ensures ParseInt(s) == None
  {
    if |s| > 0 && (s[0] == '+' || s[0] == '-') {
      assert s[1..][k - 1] == s[k];
    }
  }

  lemma DotIndexOfDigits(s: string)
    requires IsDigits(s)
    ensures DotIndex(s) == |s|
  {
  }

  /** A plain string of digits reads as its digit value. */
  lemma ParseUnsignedDigits(s: string)
    requires |s| > 0 && IsDigits(s)
    ensures ParseUnsigned(s) == Some(DigitsValue(s) as real)
  {
    DotIndexOfDigits(s);
    var whole := s[..DotIndex(s)];
    assert whole == s;
    var fraction: string := [];
    assert FractionValue(fraction) == 0.0;
    assert ParseUnsigned(s) == Some(DigitsValue(whole) as real + FractionValue(fraction));
  }

  /** `Double.parseDouble` reads back every printed integer as that integer. */
  lemma ParseNumberShowInt(k: int)
    ensures ParseNumber(ShowInt(k)) == Some(k as real)
  {
    var n: nat := if k < 0 then -k else k;
    ShowNatValue(n);
    ParseUnsignedDigits(ShowNat(n));
    if k < 0 {
      assert ShowInt(k)[1..] == ShowNat(n);
    }
  }

  /** Padded digits read back as their value below 10^w. */
  lemma {:induction false} PadDigitsValue(f: nat, w: nat)
    requires f < Pow10(w)
    ensures DigitsValue(PadDigits(f, w)) == f
  {
    if w > 0 {
      var s := PadDigits(f / 10, w - 1) + [DigitChar(f % 10)];
      assert s[..|s| - 1] == PadDigits(f / 10, w - 1);
      PadDigitsValue(f / 10, w - 1);
    }
  }

  /** Whole part, point and fraction digits read as whole + fraction / 10^|fraction|. */
  lemma ParseUnsignedPoint(whole: string, fraction: string)
    requires |whole| > 0 && IsDigits(whole) && IsDigits(fraction)
    ensures ParseUnsigned(whole + "." + fraction) == Some(DecimalValue(whole, fraction))
  {
    var s := whole + "." + fraction;
    var k := |whole|;
    assert DotIndex(s) == k by {
      assert s == whole + ("." + fraction);
      DotIndexAfter(whole, "." + fraction);
    }
    assert s[..k] == whole && s[k + 1..] == fraction;
    ParseUnsignedSplit(s, k);
  }

  /** A numeral whose first '.' is at k reads as the digits before it plus the fraction after it. */
  lemma ParseUnsignedSplit(s: string, k: nat)
    requires DotIndex(s) == k < |s| && 0 < k
    requires IsDigits(s[..k]) && IsDigits(s[k + 1..])
    ensures ParseUnsigned(s) == Some(DecimalValue(s[..k], s[k + 1..]))
  {
  }

  lemma {:induction false} DotIndexAfter(w: string, rest: string)
    requires IsDigits(w) && |rest| > 0 && rest[0] == '.'
    ensures DotIndex(w + rest) == |w|
    decreases |w|
  {
    if w != [] {
      assert (w + rest)[1..] == w[1..] + rest;
      DotIndexAfter(w[1..], rest);
    }
  }

  /** `Double.parseDouble` reads back every printed finite decimal z / 10^places as that value. */
  lemma ParseNumberShowDecimal(z: int, places: nat)
    ensures ParseNumber(ShowDecimal(z, places)) == Some(z as real / Pow10(places) as real)
  {
    if places == 0 {
      ParseNumberShowInt(z);
      assert ShowDecimal(z, places) == ShowInt(z);
      assert z as real / Pow10(places) as real == z as real by {
        assert Pow10(places) == 1;
        assert z as real / 1.0 == z as real;
      }
    } else {
      ParseNumberShowPoint(z, places);
    }
  }

  lemma ParseNumberShowPoint(z: int, places: nat)
    requires places > 0
    ensures ParseNumber(ShowDecimal(z, places)) == Some(z as real / Pow10(places) as real)
  {
    var n: nat := if z < 0 then -z else z;
    var p := Pow10(places);
    var qf := WholeAndFraction(n, p);
    var unsigned := PointSpelling(qf.0, qf.1, places);
    var v := ParseUnsignedQuotient(n, places);
    var r := if z < 0 then -v else v;
    assert ParseNumber(ShowDecimal(z, places)) == Some(r) by {
      ParseNumberSign(z < 0, unsigned, v);
      assert ShowDecimal(z, places) == if z < 0 then Negated(unsigned) else unsigned;
    }
    assert r == z as real / p as real by {
      SignedQuotient(z, n, p);
    }
  }

  /** A sign in front of an unsigned numeral negates its value or keeps it. */
  lemma ParseNumberSign(negative: bool, u: string, v: real)
    requires |u| > 0 && IsDigit(u[0]) && (forall j :: 0 <= j < |u| ==> u[j] != ' ')
    requires ParseUnsigned(u) == Some(v)
    ensures ParseNumber(if negative then Negated(u) else u) == Some(if negative then -v else v)
  {
    if negative {
      var t := Negated(u);
      assert t[0] == '-' && t[1..] == u;
    }
  }

  /** The unsigned spelling of n / 10^places reads as that quotient. */
  lemma ParseUnsignedQuotient(n: nat, places: nat) returns (v: real)
    requires places > 0
    ensures v == n as real / Pow10(places) as real
    ensures ParseUnsigned(PointSpelling(WholeAndFraction(n, Pow10(places)).0, WholeAndFraction(n, Pow10(places)).1, places)) == Some(v)
  {
    var p := Pow10(places);
    var qf := WholeAndFraction(n, p);
    ParseUnsignedPointSpelling(qf.0, qf.1, places);
    DecimalSplit(n, qf.0, qf.1, p);
    v := n as real / p as real;
  }

  /** The unsigned spelling `q.f` reads as q + f / 10^places. */
  lemma ParseUnsignedPointSpelling(q: nat, f: nat, places: nat)
    requires f < Pow10(places)
    ensures ParseUnsigned(PointSpelling(q, f, places)) == Some(q as real + f as real / Pow10(places) as real)
  {
    var whole, fraction := ShowNat(q), PadDigits(f, places);
    assert PointSpelling(q, f, places) == whole + "." + fraction;
    ParseUnsignedPoint(whole, fraction);
    var v := DecimalValue(whole, fraction);
    assert v == q as real + f as real / Pow10(places) as real by {
      ShowNatValue(q);
      PadDigitsValue(f, places);
      assert |fraction| == places;
      DecimalValueOf(whole, fraction, q, f);
    }
  }

  lemma DecimalValueOf(whole: string, fraction: string, q: nat, f: nat)
    requires IsDigits(whole) && IsDigits(fraction)
    requires DigitsValue(whole) == q && DigitsValue(fraction) == f
    ensures DecimalValue(whole, fraction) == q as real + f as real / Pow10(|fraction|) as real
  {
    FractionValueDigits(fraction);
  }

  /** The fraction digits f are worth their integer value divided by 10^|f|. */
  lemma {:induction false} FractionValueDigits(f: string)
    requires IsDigits(f)
    ensures FractionValue(f) == DigitsValue(f) as real / Pow10(|f|) as real
    decreases |f|
  {
    if f != [] {
      var t := f[1..];
      assert f == [f[0]] + t;
      FractionValueDigits(t);
      DigitsValueCons(f[0], t);
      ShiftFraction(DigitValue(f[0]), DigitsValue(t), Pow10(|t|));
    }
  }

  /** A leading digit c is worth c * 10^|t| in front of the digits t. */
  lemma {:induction false} DigitsValueCons(c: char, t: string)
    requires IsDigit(c) && IsDigits(t)
    ensures DigitsValue([c] + t) == DigitValue(c) * Pow10(|t|) + DigitsValue(t)
    decreases |t|
  {
    var s := [c] + t;
    if t != [] {
      var u := t[..|t| - 1];
      assert s[..|s| - 1] == [c] + u;
      assert s[|s| - 1] == t[|t| - 1];
      DigitsValueCons(c, u);
      var d, p, e := DigitValue(c), Pow10(|u|), DigitValue(t[|t| - 1]);
      assert DigitsValue(s) == 10 * (d * p + DigitsValue(u)) + e;
      assert DigitsValue(t) == 10 * DigitsValue(u) + e;
      assert Pow10(|t|) == 10 * p;
      assert 10 * (d * p) == d * (10 * p);
    }
  }

  /** (d + b / p) / 10 == (d * p + b) / (10 * p). */
  lemma ShiftFraction(d: nat, b: nat, p: nat)
    requires p > 0
    ensures (d as real + b as real / p as real) / 10.0 == (d * p + b) as real / (10 * p) as real
  {
    var x := d as real + b as real / p as real;
    assert x * p as real == (d * p + b) as real;
  }

  /** The quotient z / p in terms of the magnitude n of z. */
  lemma SignedQuotient(z: int, n: nat, p: nat)
    requires p > 0 && n == (if z < 0 then -z else z)
    ensures z as real / p as real == if z < 0 then -(n as real / p as real) else n as real / p as real
  {
  }

  /** The real value of n / p split into whole part q and remainder f. */
  lemma DecimalSplit(n: nat, q: nat, f: nat, p: nat)
    requires p > 0 && n == q * p + f
    ensures q as real + f as real / p as real == n as real / p as real
  {
    assert n as real == q as real * p as real + f as real;
  }
}

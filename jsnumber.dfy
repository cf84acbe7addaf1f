/**
 * `Number.prototype.toFixed` and `parseFloat`, with JavaScript numbers read as
 * exact reals. A NaN result is `None`.
 */
module JsNumber {
  import opened Wrappers
  import opened JsText

  /**
   * The text `x.toFixed(d)` writes, kept as its parts: whether it starts with a
   * minus sign, the number its digits spell with the point left out, and how
   * many digits follow the point. `Text` writes it out; `Value` is the number
   * it denotes.
   */
  datatype Fixed = Fixed(negative: bool, digits: nat, decimals: nat)

  /**
   * The integer `n` that toFixed(d) prints for a non-negative x: the one for
   * which n / 10^d is nearest to x, the larger one when two are equally near.
   */
  function ScaledRound(x: real, d: nat): int {
    (x * Pow10(d) as real + 0.5).Floor
  }

  lemma NonNegativeRounds(x: real, d: nat)
    requires x >= 0.0
    ensures ScaledRound(x, d) >= 0
  {
    var p := Pow10(d) as real;
    assert x * p >= 0.0;
  }

  /**
   * `x.toFixed(d)` (below 1e21, where JavaScript switches to exponent notation):
   * a negative number is written as a minus sign and the text of its magnitude.
   */
  function ToFixed(x: real, d: nat): (f: Fixed)
    ensures f.decimals == d
    ensures f.negative <==> x < 0.0
  {
    var m := if x < 0.0 then -x else x;
    NonNegativeRounds(m, d);
    Fixed(x < 0.0, ScaledRound(m, d), d)
  }

  /** Non-negative scaled integer printed with `d` decimals (at least one integer digit). */
  function FixedDigits(n: nat, d: nat): (s: string)
    ensures |s| >= d + 1
  {
    var digits := PadStart(NatToString(n), d + 1, '0');
    if d == 0 then digits else digits[..|digits| - d] + "." + digits[|digits| - d..]
  }

  /** The characters of the text. */
  function Text(f: Fixed): string {
    (if f.negative then "-" else "") + FixedDigits(f.digits, f.decimals)
  }

  /** The number the text denotes. */
  function Value(f: Fixed): real {
    var magnitude := f.digits as real / Pow10(f.decimals) as real;
    if f.negative then -magnitude else magnitude
  }

  /** toFixed rounds to the nearest multiple of 10^-d: the error is at most half of one. */
  lemma RoundingError(x: real, d: nat)
    ensures x - 0.5 / Pow10(d) as real <= Value(ToFixed(x, d)) <= x + 0.5 / Pow10(d) as real
  {
    var f := ToFixed(x, d);
    var m := if x < 0.0 then -x else x;
    var q := f.digits as real / Pow10(d) as real;
    MagnitudeError(m, d, f.digits, q);
    SignedValue(f, q);
  }

  /** The magnitude printed for a non-negative `m` lies within half a unit of the last decimal of `m`. */
  lemma MagnitudeError(m: real, d: nat, n: int, q: real)
    requires n == ScaledRound(m, d) && q == n as real / Pow10(d) as real
    ensures m - 0.5 / Pow10(d) as real <= q <= m + 0.5 / Pow10(d) as real
  {
    var q' := NearestMultiple(m, Pow10(d) as real, n);
  }

  /** The value of a text is its magnitude, `q`, with the text's sign. */
  lemma SignedValue(f: Fixed, q: real)
    requires q == f.digits as real / Pow10(f.decimals) as real
    ensures Value(f) == if f.negative then -q else q
  {
  }

  /** The quotient `n / p` of the rounded `m * p` lies within `0.5 / p` of `m`. */
  lemma NearestMultiple(m: real, p: real, n: int) returns (q: real)
    requires p > 0.0 && (m * p + 0.5).Floor == n
    ensures q == n as real / p
    ensures m - 0.5 / p <= q <= m + 0.5 / p
  {
    q := n as real / p;
    assert n as real <= m * p + 0.5 < n as real + 1.0;
    assert q * p == n as real;
    assert q <= m + 0.5 / p by {
      assert (m + 0.5 / p) * p == m * p + 0.5;
    }
    assert m - 0.5 / p <= q by {
      assert (m - 0.5 / p) * p == m * p - 0.5;
    }
  }

  /** Rounding to `d` decimals never moves a number downwards past a smaller one. */
  lemma ToFixedMonotonic(x: real, y: real, d: nat)
    requires 0.0 <= x <= y
    ensures Value(ToFixed(x, d)) <= Value(ToFixed(y, d))
  {
    var p := Pow10(d) as real;
    assert x * p <= y * p;
    assert ScaledRound(x, d) <= ScaledRound(y, d);
  }

  /** A whole number is printed with all-zero decimals, so its value is unchanged. */
  lemma ToFixedOfWhole(n: nat, d: nat)
    ensures Value(ToFixed(n as real, d)) == n as real
  {
    var p := Pow10(d);
    assert (n as real) * (p as real) == (n * p) as real;
    assert ScaledRound(n as real, d) == n * p;
    assert (n * p) as real / p as real == n as real;
  }

  /** A number between two whole numbers stays between them once rounded. */
  lemma ToFixedWithin(x: real, lo: nat, hi: nat, d: nat)
    requires lo as real <= x <= hi as real
    ensures lo as real <= Value(ToFixed(x, d)) <= hi as real
  {
    ToFixedMonotonic(lo as real, x, d);
    ToFixedMonotonic(x, hi as real, d);
    ToFixedOfWhole(lo, d);
    ToFixedOfWhole(hi, d);
  }

  /** A whole number is printed by toFixed(0) exactly as by toString. */
  lemma ToFixedWhole(n: nat)
    ensures Text(ToFixed(n as real, 0)) == NatToString(n)
    ensures Value(ToFixed(n as real, 0)) == n as real
  {
    ToFixedOfWhole(n, 0);
    var f := ToFixed(n as real, 0);
    assert f.digits == n && !f.negative by {
      assert Pow10(0) == 1;
      assert ScaledRound(n as real, 0) == n;
    }
    assert FixedDigits(n, 0) == NatToString(n);
    assert "" + NatToString(n) == NatToString(n);
  }

  // ---------------------------------------------------------------------------
  // parseFloat
  // ---------------------------------------------------------------------------

  /** Length of the longest run of digits at the start of `s`. */
  function DigitRun(s: string): (k: nat)
    ensures k <= |s| && AllDigits(s[..k])
    ensures k < |s| ==> !IsDigit(s[k])
  {
    if |s| == 0 || !IsDigit(s[0]) then 0
    else
      var k := 1 + DigitRun(s[1..]);
      assert s[..k] == [s[0]] + s[1..][..k - 1];
      k
  }

  /** The unsigned decimal `digits[.digits]` at the start of `s`; NaN when there is none. */
  function ParseUnsigned(s: string): Option<real> {
    var k := DigitRun(s);
    if k < |s| && s[k] == '.' then ParseFraction(s[..k], s[k + 1..])
    else if k == 0 then None
    else Some(DigitsValue(s[..k]) as real)
  }

  /** The value of integer digits `ip` followed by a point and then `after`. */
  function ParseFraction(ip: string, after: string): Option<real>
    requires AllDigits(ip)
  {
    var m := DigitRun(after);
    if |ip| == 0 && m == 0 then None
    else Some(DigitsValue(ip) as real + DigitsValue(after[..m]) as real / Pow10(m) as real)
  }

  /**
   * `parseFloat(s)` for the decimal texts this code base produces: an optional sign,
   * digits, and an optional fraction, read as far as they go.
   */
  function ParseFloat(s: string): Option<real> {
    if |s| > 0 && s[0] == '-' then
      match ParseUnsigned(s[1..])
      case Some(v) => Some(-v)
      case None => None
    else if |s| > 0 && s[0] == '+' then ParseUnsigned(s[1..])
    else ParseUnsigned(s)
  }

  lemma {:induction false} DigitRunOfDigits(ds: string, rest: string)
    requires AllDigits(ds)
    requires |rest| == 0 || !IsDigit(rest[0])
    ensures DigitRun(ds + rest) == |ds|
    decreases |ds|
  {
    if |ds| > 0 {
      assert (ds + rest)[1..] == ds[1..] + rest;
      DigitRunOfDigits(ds[1..], rest);
    } else {
      assert ds + rest == rest;
    }
  }

  lemma FixedDigitsValue(n: nat, d: nat)
    ensures ParseUnsigned(FixedDigits(n, d)).Some?
    ensures ParseUnsigned(FixedDigits(n, d)).value == n as real / Pow10(d) as real
  {
    var digits := PadStart(NatToString(n), d + 1, '0');
    NatToStringValue(n);
    ZeroPadValue(NatToString(n), d + 1);
    if d == 0 {
      assert FixedDigits(n, d) == digits;
      WholeDigitsValue(digits);
      assert Pow10(0) == 1;
      DivOne(n);
    } else {
      FractionalFixedDigitsValue(n, d, digits);
    }
  }

  lemma FractionalFixedDigitsValue(n: nat, d: nat, digits: string)
    requires d > 0 && |digits| >= d + 1
    requires digits == PadStart(NatToString(n), d + 1, '0')
    requires AllDigits(digits) && DigitsValue(digits) == n
    ensures ParseUnsigned(FixedDigits(n, d)).Some?
    ensures ParseUnsigned(FixedDigits(n, d)).value == n as real / Pow10(d) as real
  {
    assert FixedDigits(n, d) == digits[..|digits| - d] + "." + digits[|digits| - d..];
    SplitDigitsValue(digits, d);
  }

  /** Digits with a point put before the last `d` of them denote their value divided by 10^d. */
  lemma SplitDigitsValue(digits: string, d: nat)
    requires d > 0 && |digits| >= d + 1 && AllDigits(digits)
    ensures ParseUnsigned(digits[..|digits| - d] + "." + digits[|digits| - d..]).Some?
    ensures ParseUnsigned(digits[..|digits| - d] + "." + digits[|digits| - d..]).value
         == DigitsValue(digits) as real / Pow10(d) as real
  {
    var ip, fp := digits[..|digits| - d], digits[|digits| - d..];
    assert digits == ip + fp;
    FractionDigitsValue(ip, fp);
    DigitsValueAppend(ip, fp);
    ValueSplit(DigitsValue(ip), DigitsValue(fp), |fp|, DigitsValue(digits));
  }

  lemma DivOne(n: nat)
    ensures n as real / Pow10(0) as real == n as real
  {
    assert Pow10(0) == 1;
  }

  lemma ValueSplit(a: nat, b: nat, k: nat, n: nat)
    requires n == a * Pow10(k) + b
    ensures a as real + b as real / Pow10(k) as real == n as real / Pow10(k) as real
  {
    var p := Pow10(k);
    assert n as real == a as real * p as real + b as real;
  }

  lemma WholeDigitsValue(digits: string)
    requires AllDigits(digits) && |digits| > 0
    ensures ParseUnsigned(digits).Some? && ParseUnsigned(digits).value == DigitsValue(digits) as real
  {
    DigitRunOfDigits(digits, "");
    assert digits + "" == digits;
    assert digits[..|digits|] == digits;
  }

  lemma FractionDigitsValue(ip: string, fp: string)
    requires AllDigits(ip) && AllDigits(fp) && |ip| > 0 && |fp| > 0
    ensures ParseUnsigned(ip + "." + fp).Some?
    ensures ParseUnsigned(ip + "." + fp).value
         == DigitsValue(ip) as real + DigitsValue(fp) as real / Pow10(|fp|) as real
  {
    var s := ip + "." + fp;
    assert s == ip + ("." + fp);
    DigitRunOfDigits(ip, "." + fp);
    assert s[..|ip|] == ip && s[|ip| + 1..] == fp;
    assert ParseUnsigned(s) == ParseFraction(ip, fp);
    WholeFraction(ip, fp);
  }

  lemma WholeFraction(ip: string, fp: string)
    requires AllDigits(ip) && AllDigits(fp) && |fp| > 0
    ensures ParseFraction(ip, fp).Some?
    ensures ParseFraction(ip, fp).value
         == DigitsValue(ip) as real + DigitsValue(fp) as real / Pow10(|fp|) as real
  {
    DigitRunOfDigits(fp, "");
    assert fp + "" == fp;
    assert fp[..|fp|] == fp;
  }

  /** `parseFloat` reads back the number a toFixed text denotes. */
  lemma ParseText(f: Fixed)
    ensures ParseFloat(Text(f)) == Some(Value(f))
  {
    var s := FixedDigits(f.digits, f.decimals);
    FixedDigitsValue(f.digits, f.decimals);
    if f.negative {
      assert Text(f)[1..] == s;
    } else {
      assert Text(f) == s;
      assert IsDigit(s[0]) by {
        var digits := PadStart(NatToString(f.digits), f.decimals + 1, '0');
        assert AllDigits(digits) by { ZeroPadValue(NatToString(f.digits), f.decimals + 1); }
        assert s[0] == digits[0];
      }
    }
  }
}

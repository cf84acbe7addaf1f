/**
 * The JavaScript string operations the dashboard relies on, over Dafny strings:
 * relational comparison (`<`, `<=` on strings), `includes`, `replace` with a
 * string pattern, `padStart`, `toString` of integers, ASCII case mapping and `join`.
 */
module JsText {

  // ---------------------------------------------------------------------------
  // Relational comparison of strings (lexicographic by UTF-16 code unit)
  // ---------------------------------------------------------------------------

  /**
   * Where a character falls in JavaScript's string order, which compares
   * UTF-16 code units. Below U+D800 that is the character itself; a character
   * beyond the Basic Multilingual Plane begins with a surrogate (0xD800 to
   * 0xDBFF), so it sorts after U+D7FF and before U+E000, while the characters
   * from U+E000 to U+FFFF sort after all of those.
   */
  function CodeUnitRank(c: char): (r: int)
    ensures (c as int) < 0xD800 ==> r == c as int
  {
    var n := c as int;
    if n < 0xD800 then n
    else if n >= 0x10000 then 0xD800 + (n - 0x10000)
    else n + 0x100000
  }

  /** `a < b` for two JavaScript strings. */
  predicate StrLt(a: string, b: string)
    decreases |a|
  {
    if |a| == 0 then |b| > 0
    else if |b| == 0 then false
    else if a[0] == b[0] then StrLt(a[1..], b[1..])
    else CodeUnitRank(a[0]) < CodeUnitRank(b[0])
  }

  /** U+FF21 (a full-width A) sorts after U+1F600 in JavaScript, though it is the smaller character. */
  lemma SurrogateOrder()
    ensures StrLt("\U{1F600}", "\U{FF21}") && '\U{FF21}' < '\U{1F600}'
  {
  }

  /** `s.length`: the number of UTF-16 code units, two for each character beyond the Basic Multilingual Plane. */
  function CodeUnits(s: string): (n: nat)
    ensures |s| <= n <= 2 * |s|
    ensures n == |s| <==> forall i :: 0 <= i < |s| ==> (s[i] as int) < 0x10000
  {
    if |s| == 0 then 0
    else
      assert forall i :: 1 <= i < |s| ==> s[1..][i - 1] == s[i];
      (if (s[0] as int) < 0x10000 then 1 else 2) + CodeUnits(s[1..])
  }

  /** `a <= b` for two JavaScript strings. */
  predicate StrLe(a: string, b: string) {
    a == b || StrLt(a, b)
  }

  lemma {:induction false} StrLtIrreflexive(a: string)
    ensures !StrLt(a, a)
    decreases |a|
  {
    if |a| > 0 {
      StrLtIrreflexive(a[1..]);
    }
  }

  lemma {:induction false} StrLtAsymmetric(a: string, b: string)
    requires StrLt(a, b)
    ensures !StrLt(b, a)
    decreases |a|
  {
    if |a| > 0 && |b| > 0 && a[0] == b[0] {
      StrLtAsymmetric(a[1..], b[1..]);
    }
  }

  lemma {:induction false} StrLtTransitive(a: string, b: string, c: string)
    requires StrLt(a, b) && StrLt(b, c)
    ensures StrLt(a, c)
    decreases |a|
  {
    if |a| > 0 && a[0] == b[0] && b[0] == c[0] {
      StrLtTransitive(a[1..], b[1..], c[1..]);
    }
  }

  /** Any two strings are equal or ordered one way or the other. */
  lemma {:induction false} StrLtTotal(a: string, b: string)
    ensures a == b || StrLt(a, b) || StrLt(b, a)
    decreases |a|
  {
    if |a| > 0 && |b| > 0 && a[0] == b[0] {
      StrLtTotal(a[1..], b[1..]);
      if a[1..] == b[1..] {
        assert a == [a[0]] + a[1..] && b == [b[0]] + b[1..];
      }
    }
  }

  lemma StrLeTransitive(a: string, b: string, c: string)
    requires StrLe(a, b) && StrLe(b, c)
    ensures StrLe(a, c)
  {
    if a != b && b != c {
      StrLtTransitive(a, b, c);
    }
  }

  /** `!(a > b)` means `a <= b`: the negation the date handlers rely on. */
  lemma NotGreaterIsLe(a: string, b: string)
    requires !StrLt(b, a)
    ensures StrLe(a, b)
  {
    StrLtTotal(a, b);
  }

  /** Two strings of the same length that are ordered keep that order whatever follows them. */
  lemma {:induction false} StrLtExtend(p: string, q: string, x: string, y: string)
    requires |p| == |q| && StrLt(p, q)
    ensures StrLt(p + x, q + y)
    decreases |p|
  {
    assert |p| > 0;
    assert (p + x)[0] == p[0] && (q + y)[0] == q[0];
    if p[0] == q[0] {
      assert (p + x)[1..] == p[1..] + x && (q + y)[1..] == q[1..] + y;
      StrLtExtend(p[1..], q[1..], x, y);
    }
  }

  /** A common prefix does not change how two strings compare. */
  lemma {:induction false} StrLtSamePrefix(p: string, x: string, y: string)
    ensures StrLt(p + x, p + y) <==> StrLt(x, y)
    decreases |p|
  {
    if |p| > 0 {
      assert (p + x)[0] == p[0] == (p + y)[0];
      assert (p + x)[1..] == p[1..] + x && (p + y)[1..] == p[1..] + y;
      StrLtSamePrefix(p[1..], x, y);
    } else {
      assert p + x == x && p + y == y;
    }
  }

  /** A string is `<=` itself extended by anything. */
  lemma {:induction false} StrLePrefix(p: string, x: string)
    ensures StrLe(p, p + x)
    decreases |p|
  {
    if x != [] {
      if |p| > 0 {
        assert (p + x)[0] == p[0] && (p + x)[1..] == p[1..] + x;
        StrLePrefix(p[1..], x);
      }
    } else {
      assert p + x == p;
    }
  }

  // ---------------------------------------------------------------------------
  // Decimal digits
  // ---------------------------------------------------------------------------

  predicate IsDigit(c: char) {
    '0' <= c <= '9'
  }

  predicate AllDigits(s: string) {
    forall i :: 0 <= i < |s| ==> IsDigit(s[i])
  }

  function DigitChar(d: nat): (c: char)
    requires d < 10
    ensures IsDigit(c)
  {
    ('0' as int + d) as char
  }

  function DigitValue(c: char): (d: nat)
    requires IsDigit(c)
    ensures d < 10
  {
    (c as int - '0' as int) as nat
  }

  lemma DigitValueOfChar(d: nat)
    requires d < 10
    ensures DigitValue(DigitChar(d)) == d
  {
  }

  /** `n.toString()` for a non-negative integer: its decimal digits, no leading zeros. */
  function NatToString(n: nat): (s: string)
    ensures |s| >= 1 && AllDigits(s)
    ensures n < 10 <==> |s| == 1
  {
    if n < 10 then [DigitChar(n)] else NatToString(n / 10) + [DigitChar(n % 10)]
  }

  /** `i.toString()` for any integer. */
  function IntToString(i: int): (s: string)
    ensures |s| >= 1
    ensures i >= 0 ==> s == NatToString(i)
  {
    if i < 0 then "-" + NatToString(-i) else NatToString(i)
  }

  /** The value a run of decimal digits denotes, most significant first. */
  function DigitsValue(s: string): nat
    requires AllDigits(s)
  {
    if |s| == 0 then 0 else DigitsValue(s[..|s| - 1]) * 10 + DigitValue(s[|s| - 1])
  }

  function Pow10(k: nat): (p: nat)
    ensures p >= 1
  {
    if k == 0 then 1 else 10 * Pow10(k - 1)
  }

  /** Reading back the digits `toString` writes gives the number again. */
  lemma {:induction false} NatToStringValue(n: nat)
    ensures DigitsValue(NatToString(n)) == n
  {
    if n >= 10 {
      var s := NatToString(n / 10) + [DigitChar(n % 10)];
      assert s[..|s| - 1] == NatToString(n / 10);
      NatToStringValue(n / 10);
    }
  }

  /** The value of a concatenation of digit runs. */
  lemma {:induction false} DigitsValueAppend(a: string, b: string)
    requires AllDigits(a) && AllDigits(b)
    ensures AllDigits(a + b)
    ensures DigitsValue(a + b) == DigitsValue(a) * Pow10(|b|) + DigitsValue(b)
    decreases |b|
  {
    if |b| == 0 {
      assert a + b == a;
    } else {
      var b' := b[..|b| - 1];
      var last := DigitValue(b[|b| - 1]);
      assert (a + b)[..|a + b| - 1] == a + b';
      assert (a + b)[|a + b| - 1] == b[|b| - 1];
      DigitsValueAppend(a, b');
      var x, p, y := DigitsValue(a), Pow10(|b'|), DigitsValue(b');
      assert DigitsValue(a + b) == (x * p + y) * 10 + last;
      assert DigitsValue(b) == y * 10 + last;
      assert Pow10(|b|) == 10 * p;
      ShiftDigit(x, p, y);
    }
  }

  /** `DigitsValueAppend` with the values and the power of ten named. */
  lemma AppendValue(a: string, b: string, va: nat, vb: nat, p: nat)
    requires AllDigits(a) && AllDigits(b) && DigitsValue(a) == va && DigitsValue(b) == vb && Pow10(|b|) == p
    ensures AllDigits(a + b) && DigitsValue(a + b) == va * p + vb
  {
    DigitsValueAppend(a, b);
  }

  lemma ShiftDigit(x: int, p: int, y: int)
    ensures (x * p + y) * 10 == x * (10 * p) + y * 10
  {
  }

  /** A digit run of length k denotes a number below 10^k. */
  lemma {:induction false} DigitsBound(s: string)
    requires AllDigits(s)
    ensures DigitsValue(s) < Pow10(|s|)
    decreases |s|
  {
    if |s| > 0 {
      DigitsBound(s[..|s| - 1]);
    }
  }

  /** The value of a digit run, read from its leading digit. */
  lemma LeadingDigitValue(s: string)
    requires AllDigits(s) && |s| > 0
    ensures DigitsValue(s) == DigitValue(s[0]) * Pow10(|s| - 1) + DigitsValue(s[1..])
  {
    assert s == [s[0]] + s[1..];
    assert DigitsValue([s[0]]) == DigitValue(s[0]) by {
      assert [s[0]][..0] == [];
    }
    DigitsValueAppend([s[0]], s[1..]);
  }

  lemma LeadingDigitOrder(a: nat, b: nat, p: nat, x: nat, y: nat)
    requires a < b && x < p
    ensures a * p + x < b * p + y
  {
    var k := b - a - 1;
    assert b * p == a * p + p + k * p;
    assert k * p >= 0;
  }

  /** Digit runs of the same length compare as strings exactly as their values compare. */
  lemma {:induction false} DigitsOrder(s: string, t: string)
    requires AllDigits(s) && AllDigits(t) && |s| == |t|
    ensures StrLt(s, t) <==> DigitsValue(s) < DigitsValue(t)
    decreases |s|
  {
    if |s| > 0 {
      var p := Pow10(|s| - 1);
      var a, b := DigitValue(s[0]), DigitValue(t[0]);
      LeadingDigitValue(s);
      LeadingDigitValue(t);
      DigitsBound(s[1..]);
      DigitsBound(t[1..]);
      if a < b {
        LeadingDigitOrder(a, b, p, DigitsValue(s[1..]), DigitsValue(t[1..]));
      } else if b < a {
        LeadingDigitOrder(b, a, p, DigitsValue(t[1..]), DigitsValue(s[1..]));
      } else {
        DigitsOrder(s[1..], t[1..]);
      }
    }
  }

  /** `n.toString()` has at most k digits when n is below 10^k. */
  lemma {:induction false} NatToStringLength(n: nat, k: nat)
    requires 1 <= k && n < Pow10(k)
    ensures |NatToString(n)| <= k
    decreases k
  {
    if n >= 10 {
      assert k >= 2;
      NatToStringLength(n / 10, k - 1);
    }
  }

  function Repeat(c: char, k: nat): (s: string)
    ensures |s| == k
    ensures forall i :: 0 <= i < k ==> s[i] == c
  {
    if k == 0 then [] else [c] + Repeat(c, k - 1)
  }

  lemma {:induction false} ZerosValue(k: nat)
    ensures AllDigits(Repeat('0', k)) && DigitsValue(Repeat('0', k)) == 0
  {
    if k > 0 {
      var z := Repeat('0', k);
      assert z[..k - 1] == Repeat('0', k - 1);
      ZerosValue(k - 1);
    }
  }

  /** `s.padStart(w, c)` for a one-character filler. */
  function PadStart(s: string, w: nat, c: char): (r: string)
    ensures |r| == if |s| >= w then |s| else w
  {
    if |s| >= w then s else Repeat(c, w - |s|) + s
  }

  /** Left-padding with zeros does not change the value of a digit run. */
  lemma ZeroPadValue(s: string, w: nat)
    requires AllDigits(s)
    ensures AllDigits(PadStart(s, w, '0'))
    ensures DigitsValue(PadStart(s, w, '0')) == DigitsValue(s)
  {
    if |s| < w {
      ZerosValue(w - |s|);
      DigitsValueAppend(Repeat('0', w - |s|), s);
    }
  }

  /** `n.toString().padStart(2, '0')`, as used for the hours and minutes of a clock time. */
  function Pad2(n: nat): string {
    PadStart(NatToString(n), 2, '0')
  }

  /** Below 100, the two-character form is the tens digit followed by the units digit. */
  lemma Pad2Digits(n: nat)
    requires n < 100
    ensures Pad2(n) == [DigitChar(n / 10), DigitChar(n % 10)]
  {
    if n >= 10 {
      assert NatToString(n / 10) == [DigitChar(n / 10)];
    }
  }

  lemma DigitCharMonotonic(x: nat, y: nat)
    requires x < y < 10
    ensures DigitChar(x) < DigitChar(y)
  {
  }

  /** Two-character forms below 100 compare as strings exactly as the numbers compare. */
  lemma Pad2Monotonic(a: nat, b: nat)
    requires a < b < 100
    ensures StrLt(Pad2(a), Pad2(b))
  {
    var ta, tb, ua, ub := a / 10, b / 10, a % 10, b % 10;
    Pad2Digits(a);
    Pad2Digits(b);
    TwoDigitsLt(ta, ua, tb, ub);
  }

  lemma TwoDigitsLt(ta: nat, ua: nat, tb: nat, ub: nat)
    requires ta < 10 && ua < 10 && tb < 10 && ub < 10
    requires 10 * ta + ua < 10 * tb + ub
    ensures StrLt([DigitChar(ta), DigitChar(ua)], [DigitChar(tb), DigitChar(ub)])
  {
    var p, q := [DigitChar(ta), DigitChar(ua)], [DigitChar(tb), DigitChar(ub)];
    if ta == tb {
      DigitCharMonotonic(ua, ub);
      assert p[1..] == [DigitChar(ua)] && q[1..] == [DigitChar(ub)];
    } else {
      DigitCharMonotonic(ta, tb);
    }
  }

  // ---------------------------------------------------------------------------
  // Searching and rewriting
  // ---------------------------------------------------------------------------

  predicate IsPrefix(p: string, s: string) {
    |p| <= |s| && s[..|p|] == p
  }

  /** `s.includes(sub)`. */
  predicate Contains(s: string, sub: string)
    decreases |s|
  {
    IsPrefix(sub, s) || (|s| > 0 && Contains(s[1..], sub))
  }

  /** `sub` occurs in `s` starting at position `i`. */
  predicate OccursAt(s: string, sub: string, i: int) {
    0 <= i <= |s| - |sub| && s[i..i + |sub|] == sub
  }

  /** `includes` is exactly "occurs at some position". */
  lemma {:induction false} ContainsAt(s: string, sub: string)
    ensures Contains(s, sub) <==> exists i :: OccursAt(s, sub, i)
    decreases |s|
  {
    if IsPrefix(sub, s) {
      assert OccursAt(s, sub, 0);
    }
    if |s| > 0 {
      ContainsAt(s[1..], sub);
      if Contains(s[1..], sub) {
        var i :| OccursAt(s[1..], sub, i);
        assert s[1..][i..i + |sub|] == s[i + 1..i + 1 + |sub|];
        assert OccursAt(s, sub, i + 1);
      }
      if exists i :: OccursAt(s, sub, i) {
        var i :| OccursAt(s, sub, i);
        if i > 0 {
          assert s[1..][i - 1..i - 1 + |sub|] == s[i..i + |sub|];
          assert OccursAt(s[1..], sub, i - 1);
        }
      }
    } else if exists i :: OccursAt(s, sub, i) {
      var i :| OccursAt(s, sub, i);
      assert i == 0;
    }
  }

  /** `s.replace(pat, rep)` with a string pattern: only the first occurrence is replaced. */
  function ReplaceFirst(s: string, pat: string, rep: string): string
    decreases |s|
  {
    if IsPrefix(pat, s) then rep + s[|pat|..]
    else if |s| == 0 then s
    else [s[0]] + ReplaceFirst(s[1..], pat, rep)
  }

  /** `s.replace(/c/g, '')`: every occurrence of one character removed. */
  function RemoveAll(s: string, c: char): (r: string)
    ensures forall i :: 0 <= i < |r| ==> r[i] != c
    ensures |r| <= |s|
  {
    if |s| == 0 then []
    else if s[0] == c then RemoveAll(s[1..], c)
    else [s[0]] + RemoveAll(s[1..], c)
  }
  /** Removing a character from a concatenation removes it from each part. */
  lemma {:induction false} RemoveAllAppend(a: string, b: string, c: char)
    ensures RemoveAll(a + b, c) == RemoveAll(a, c) + RemoveAll(b, c)
  {
    if |a| > 0 {
      assert (a + b)[0] == a[0] && (a + b)[1..] == a[1..] + b;
      RemoveAllAppend(a[1..], b, c);
    } else {
      assert a + b == b;
    }
  }

  /** A text without the character is left as it is. */
  lemma {:induction false} RemoveAllAbsent(s: string, c: char)
    requires c !in s
    ensures RemoveAll(s, c) == s
  {
    if |s| > 0 {
      assert s == [s[0]] + s[1..];
      RemoveAllAbsent(s[1..], c);
    }
  }


  /** `parts.join(sep)`. */
  function Join(parts: seq<string>, sep: string): string {
    if |parts| == 0 then ""
    else if |parts| == 1 then parts[0]
    else parts[0] + sep + Join(parts[1..], sep)
  }

  // ---------------------------------------------------------------------------
  // Case
  // ---------------------------------------------------------------------------

  predicate IsUpper(c: char) {
    'A' <= c <= 'Z'
  }

  function UpperChar(c: char): (u: char)
    ensures 'a' <= c <= 'z' ==> IsUpper(u)
    ensures !('a' <= c <= 'z') ==> u == c
  {
    if 'a' <= c <= 'z' then (c as int - 32) as char else c
  }

  function LowerChar(c: char): (l: char)
    ensures !IsUpper(l)
    ensures !IsUpper(c) ==> l == c
  {
    if IsUpper(c) then (c as int + 32) as char else c
  }

  /** `s.toLowerCase()` restricted to ASCII letters. */
  function ToLower(s: string): (r: string)
    ensures |r| == |s|
    ensures forall i :: 0 <= i < |s| ==> r[i] == LowerChar(s[i])
  {
    if |s| == 0 then [] else [LowerChar(s[0])] + ToLower(s[1..])
  }
}

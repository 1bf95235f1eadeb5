/** The string operations the client builds its messages and URLs with. */
module Strings {

  // ---------------------------------------------------------------------------
  // Python's `t in s` for strings
  // ---------------------------------------------------------------------------

  /** `t` occurs in `s` at index `i`. */
  predicate OccursAt(s: string, t: string, i: nat) {
    i + |t| <= |s| && s[i..i + |t|] == t
  }

  /** `t` is a contiguous substring of `s`. */
  predicate Contains(s: string, t: string): (c: bool)
    ensures c ==> |t| <= |s|
    ensures t == [] || t == s ==> c
  {
    assert t == [] || t == s ==> OccursAt(s, t, 0);
    exists i: nat | i <= |s| :: OccursAt(s, t, i)
  }

  /** A window that lies in the left part of a concatenation is a window of the left part. */
  lemma SliceInLeft(x: string, y: string, i: nat, n: nat)
    requires i + n <= |x|
    ensures (x + y)[i..i + n] == x[i..i + n]
  {
  }

  /** A window that lies in the right part of a concatenation is a window of the right part. */
  lemma SliceInRight(x: string, y: string, i: nat, n: nat)
    requires |x| <= i && i + n <= |x| + |y|
    ensures (x + y)[i..i + n] == y[i - |x|..i - |x| + n]
  {
  }

  /** Every character inside an occurrence of `t` is a character of `t`. */
  lemma CharInOccurrence(s: string, t: string, i: nat, j: nat)
    requires OccursAt(s, t, i)
    ensures i <= j < i + |t| ==> s[j] in t
  {
    if i <= j < i + |t| {
      assert s[j] == s[i..i + |t|][j - i];
    }
  }

  /** An occurrence in the middle part is an occurrence in the whole. */
  lemma ContainsInfix(a: string, b: string, c: string, t: string)
    requires Contains(b, t)
    ensures Contains(a + b + c, t)
  {
    var i: nat :| i <= |b| && OccursAt(b, t, i);
    SliceInLeft(b, c, i, |t|);
    SliceInRight(a, b + c, |a| + i, |t|);
    assert a + b + c == a + (b + c);
    assert OccursAt(a + b + c, t, |a| + i);
  }

  /** An occurrence cannot start inside a prefix that lacks `t`'s first character. */
  lemma ContainsPastPrefix(p: string, x: string, t: string)
    requires |t| > 0
    requires forall k | 0 <= k < |p| :: p[k] != t[0]
    requires Contains(p + x, t)
    ensures Contains(x, t)
  {
    var s := p + x;
    var i: nat :| i <= |s| && OccursAt(s, t, i);
    assert s[i] == s[i..i + |t|][0];
    assert i >= |p|;
    SliceInRight(p, x, i, |t|);
    assert OccursAt(x, t, i - |p|);
  }

  /** An occurrence cannot end inside a suffix that lacks `t`'s last character. */
  lemma ContainsBeforeSuffix(x: string, q: string, t: string)
    requires |t| > 0
    requires forall k | 0 <= k < |q| :: q[k] != t[|t| - 1]
    requires Contains(x + q, t)
    ensures Contains(x, t)
  {
    var s := x + q;
    var i: nat :| i <= |s| && OccursAt(s, t, i);
    assert s[i + |t| - 1] == s[i..i + |t|][|t| - 1];
    assert i + |t| <= |x|;
    SliceInLeft(x, q, i, |t|);
    assert OccursAt(x, t, i);
  }

  /** An occurrence cannot straddle a character that `t` does not have. */
  lemma ContainsAcrossSeparator(a: string, c: char, b: string, t: string)
    requires c !in t
    requires Contains(a + [c] + b, t)
    ensures Contains(a, t) || Contains(b, t)
  {
    var s := a + [c] + b;
    var i: nat :| i <= |s| && OccursAt(s, t, i);
    CharInOccurrence(s, t, i, |a|);
    assert s[|a|] == c;
    assert i + |t| <= |a| || i > |a|;
    if i + |t| <= |a| {
      SliceInLeft(a, [c] + b, i, |t|);
      assert s == a + ([c] + b);
      assert OccursAt(a, t, i);
    } else {
      SliceInRight(a + [c], b, i, |t|);
      assert OccursAt(b, t, i - |a| - 1);
    }
  }

  /** Between strings of equal length, containment is equality. */
  lemma ContainsSameLength(s: string, t: string)
    requires |s| == |t|
    ensures Contains(s, t) <==> s == t
  {
    if s == t {
      assert OccursAt(s, t, 0);
    }
  }

  // ---------------------------------------------------------------------------
  // Python's f"{n}" for integers
  // ---------------------------------------------------------------------------

  predicate IsDigit(c: char) {
    '0' <= c <= '9'
  }

  predicate AllDigits(s: string) {
    forall k | 0 <= k < |s| :: IsDigit(s[k])
  }

  function DigitChar(d: nat): (c: char)
    requires d < 10
    ensures IsDigit(c)
  {
    (48 + d) as char
  }

  /** Decimal digits of `n`, most significant first, with no leading zero. */
  function NatToString(n: nat): (s: string)
    ensures |s| > 0 && AllDigits(s)
    ensures |s| > 1 ==> s[0] != '0'
    decreases n
  {
    if n < 10 then [DigitChar(n)] else NatToString(n / 10) + [DigitChar(n % 10)]
  }

  /** Decimal rendering of an integer, with a leading `-` when negative: the digits after the
      sign have no leading zero and read back as the magnitude. */
  function IntToString(i: int): (s: string)
    ensures i >= 0 ==> |s| > 0 && AllDigits(s) && DecimalValue(s) == i
    ensures i < 0 ==> |s| > 1 && s[0] == '-' && AllDigits(s[1..]) && DecimalValue(s[1..]) == -i
    ensures var digits := if i < 0 then s[1..] else s; |digits| > 1 ==> digits[0] != '0'
  {
    if i < 0 then
      DecimalRoundTrip(-i);
      assert ("-" + NatToString(-i))[1..] == NatToString(-i);
      "-" + NatToString(-i)
    else
      DecimalRoundTrip(i);
      NatToString(i)
  }

  /** The number a string of decimal digits denotes. */
  function DecimalValue(s: string): nat
    requires AllDigits(s)
  {
    if s == [] then 0 else DecimalValue(s[..|s| - 1]) * 10 + (s[|s| - 1] as int - 48)
  }

  /** Reading back the rendering of `n` gives `n`. */
  lemma {:induction false} DecimalRoundTrip(n: nat)
    ensures DecimalValue(NatToString(n)) == n
  {
    if n >= 10 {
      var s := NatToString(n);
      assert s[..|s| - 1] == NatToString(n / 10);
      DecimalRoundTrip(n / 10);
    }
  }

  /** A number from 100 to 999 renders as three digits, which contain "404" only when the number is 404. */
  lemma ThreeDigitContains404(n: nat)
    requires 100 <= n < 1000
    ensures |NatToString(n)| == 3
    ensures Contains(NatToString(n), "404") <==> n == 404
  {
    assert NatToString(n) == NatToString(n / 10) + [DigitChar(n % 10)];
    assert NatToString(n / 10) == NatToString(n / 100) + [DigitChar(n / 10 % 10)];
    ContainsSameLength(NatToString(n), "404");
    if n == 404 {
      assert NatToString(404) == NatToString(40) + ['4'];
      assert NatToString(40) == NatToString(4) + ['0'];
    }
    if NatToString(n) == "404" {
      var s := "404";
      assert s[..2] == "40" && "40"[..1] == "4" && "4"[..0] == [];
      assert DecimalValue(s) == 404;
      DecimalRoundTrip(n);
    }
  }

  // ---------------------------------------------------------------------------
  // Python's s.rstrip(c) for one character
  // ---------------------------------------------------------------------------

  /** `s` with every trailing `c` removed. The result is a prefix of `s`, does not end in `c`
      and what was cut off is nothing but `c`s. */
  function TrimRight(s: string, c: char): (r: string)
    ensures r <= s
    ensures r == [] || r[|r| - 1] != c
    ensures forall k | |r| <= k < |s| :: s[k] == c
    decreases |s|
  {
    if s != [] && s[|s| - 1] == c then TrimRight(s[..|s| - 1], c) else s
  }

  /** The three properties in TrimRight's contract fix its result. */
  lemma {:induction false} TrimRightUnique(s: string, c: char, r: string)
    requires r <= s
    requires r == [] || r[|r| - 1] != c
    requires forall k | |r| <= k < |s| :: s[k] == c
    ensures r == TrimRight(s, c)
  {
    if s != [] && s[|s| - 1] == c {
      assert r != s;
      TrimRightUnique(s[..|s| - 1], c, r);
    } else {
      assert |r| == |s|;
    }
  }
}

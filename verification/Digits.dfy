/** Zero-padded decimal numbers as strings, and the order in which strings sort. */
module Digits {

  function Pow10(w: nat): nat {
    if w == 0 then 1 else 10 * Pow10(w - 1)
  }

  predicate IsDigit(c: char) {
    '0' <= c <= '9'
  }

  predicate AllDigits(s: string) {
    forall i :: 0 <= i < |s| ==> IsDigit(s[i])
  }

  function DigitChar(d: nat): char
    requires d < 10
  {
    ('0' as int + d) as char
  }

  function DigitValue(c: char): nat
    requires IsDigit(c)
  {
    c as int - '0' as int
  }

  /** The last `w` decimal digits of `n`, zero-padded: `%0wd` whenever `n` fits. */
  function Print(n: nat, w: nat): (s: string)
    ensures |s| == w && AllDigits(s)
  {
    if w == 0 then "" else Print(n / 10, w - 1) + [DigitChar(n % 10)]
  }

  function Parse(s: string): nat
    requires AllDigits(s)
  {
    if |s| == 0 then 0 else 10 * Parse(s[..|s| - 1]) + DigitValue(s[|s| - 1])
  }

  lemma {:induction false} ParsePrint(n: nat, w: nat)
    requires n < Pow10(w)
    ensures Parse(Print(n, w)) == n
    decreases w
  {
    if w > 0 {
      ParsePrint(n / 10, w - 1);
      assert Print(n, w)[..w - 1] == Print(n / 10, w - 1);
    }
  }

  /** The order of strings: by the first character that differs, a prefix first. */
  predicate Before(a: string, b: string)
    decreases |a|
  {
    if |b| == 0 then false
    else if |a| == 0 then true
    else a[0] < b[0] || (a[0] == b[0] && Before(a[1..], b[1..]))
  }

  lemma {:induction false} BeforeAfterPrefix(p: string, a: string, b: string)
    ensures Before(p + a, p + b) == Before(a, b)
    decreases |p|
  {
    if |p| == 0 {
      assert p + a == a && p + b == b;
    } else {
      BeforeAfterPrefix(p[1..], a, b);
      assert (p + a)[1..] == p[1..] + a && (p + b)[1..] == p[1..] + b;
    }
  }

  lemma {:induction false} BeforeIrreflexive(a: string)
    ensures !Before(a, a)
    decreases |a|
  {
    if |a| > 0 {
      BeforeIrreflexive(a[1..]);
    }
  }

  lemma {:induction false} BeforeTransitive(a: string, b: string, c: string)
    requires Before(a, b) && Before(b, c)
    ensures Before(a, c)
    decreases |a|
  {
    if |a| > 0 && a[0] == b[0] == c[0] {
      BeforeTransitive(a[1..], b[1..], c[1..]);
    }
  }

  lemma {:induction false} BeforeTotal(a: string, b: string)
    ensures a == b || Before(a, b) || Before(b, a)
    decreases |a|
  {
    if |a| > 0 && |b| > 0 && a[0] == b[0] {
      BeforeTotal(a[1..], b[1..]);
      assert a == [a[0]] + a[1..] && b == [b[0]] + b[1..];
    }
  }

  /** Zero-padded numbers of the same width sort as numbers, whatever follows them. */
  lemma {:induction false} PrintSorts(n: nat, m: nat, w: nat, x: string, y: string)
    requires n < m < Pow10(w)
    ensures Before(Print(n, w) + x, Print(m, w) + y)
    decreases w
  {
    var n', m' := n / 10, m / 10;
    var x', y' := [DigitChar(n % 10)] + x, [DigitChar(m % 10)] + y;
    assert Print(n, w) + x == Print(n', w - 1) + x';
    assert Print(m, w) + y == Print(m', w - 1) + y';
    if n' < m' {
      PrintSorts(n', m', w - 1, x', y');
    } else {
      BeforeAfterPrefix(Print(n', w - 1), x', y');
    }
  }
}

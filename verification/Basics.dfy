/** What all modules share. */
module Basics {
  datatype Option<+T> = None | Some(value: T)

  ghost predicate NoDups<T>(l: seq<T>) {
    forall i, j | 0 <= i < j < |l| :: l[i] != l[j]
  }

  lemma Regroup<T>(a: seq<T>, b: seq<T>, c: seq<T>)
    ensures a + (b + c) == a + b + c
  {
  }

  // ---------------------------------------------------------------- division

  lemma ProductSign(a: int, b: int)
    requires a >= 0 && b >= 0
    ensures a * b >= 0
  {
  }

  lemma QuotientBound(m: int, n: int)
    requires m >= 0 && n > 0
    ensures 0 <= m / n <= m
  {
    var q, r := m / n, m % n;
    assert m == n * q + r && 0 <= r < n;
    if q < 0 {
      ProductSign(n, -1 - q);
    } else {
      ProductSign(n - 1, q);
    }
  }

  lemma QuotientIs(m: int, n: int, q: int, r: int)
    requires n > 0 && m == n * q + r && 0 <= r < n
    ensures m / n == q
  {
    var d := m / n - q;
    assert m == n * (m / n) + m % n;
    assert n * d == r - m % n;
    if d > 0 {
      ProductSign(n, d - 1);
    } else if d < 0 {
      ProductSign(n, -1 - d);
    }
  }

  lemma Multiple(q: int, a: int)
    requires a > 0
    ensures q * a % a == 0
  {
    QuotientIs(q * a, a, q, 0);
  }
}

/** Division, remainders and powers of two, as far as the scan planner needs them. */
module Arithmetic {

  /** Quotient and remainder are determined by their defining equation. */
  lemma DivModUnique(x: int, n: int, q: int, r: int)
    requires n > 0 && x == q * n + r && 0 <= r < n
    ensures x / n == q && x % n == r
  {
    var d := q - x / n;
    assert -n < d * n < n by {
      assert d * n == q * n - x / n * n;
    }
    assert d >= 1 ==> d * n >= n;
    assert d <= -1 ==> d * n <= -n;
  }

  lemma ModOfSum(a: int, b: int, n: int)
    requires n > 0
    ensures (a % n + b) % n == (a + b) % n
  {
    var q := (a % n + b) / n;
    assert a + b == (a / n + q) * n + (a % n + b) % n by {
      assert (a / n + q) * n == a / n * n + q * n;
    }
    DivModUnique(a + b, n, a / n + q, (a % n + b) % n);
  }

  lemma Distribute(a: int, b: int, p: int)
    ensures (a + b) * p == a * p + b * p
    ensures (a - b) * p == a * p - b * p
  {
  }

  lemma PositiveMultiple(d: int, p: nat)
    requires d * p > 0
    ensures d * p >= p
  {
  }

  lemma MultiplesCompare(a: nat, b: nat, p: nat)
    requires p > 0
    ensures a * p >= b * p <==> a >= b
  {
  }

  lemma MultiplesAreApart(a: int, q: int, p: nat)
    requires q * p < a * p
    ensures a * p - q * p >= p
  {
    Distribute(a, q, p);
    PositiveMultiple(a - q, p);
  }

  lemma ModAtMost(x: nat, n: nat)
    requires n > 0
    ensures x % n <= x
  {
  }

  lemma ModCongruent(x: int, y: int, n: int, q: int)
    requires n > 0 && x == y + q * n
    ensures x % n == y % n
  {
    Distribute(y / n, q, n);
    DivModUnique(x, n, y / n + q, y % n);
  }

  /** Rounding down to a multiple of the size stays inside the same run of equal blocks. */
  lemma RoundDown(x: nat, size: nat, count: nat)
    requires size > 0 && x < count * size
    ensures var base := x / size * size;
            0 <= base <= x < base + size && base % size == 0 && base + size <= count * size
  {
    var q := x / size;
    DivModUnique(q * size, size, q, 0);
    MultiplesAreApart(count, q, size);
  }

  lemma RoundDownIsUnique(x: nat, size: nat, base: nat)
    requires size > 0 && base % size == 0 && base <= x < base + size
    ensures x / size * size == base
  {
    DivModUnique(x, size, base / size, x - base);
  }

  lemma MultipleOfProduct(x: nat, p: nat, m: nat)
    requires p > 0 && m > 0 && p * m > 0 && x % (p * m) == 0
    ensures x % m == 0
  {
    var q := x / (p * m);
    assert x == q * (p * m) == q * p * m;
    DivModUnique(x, m, q * p, 0);
  }

  /** Rounding up: the least j whose j-fold reaches n. */
  function CeilDiv(n: nat, k: nat): nat
    requires k > 0
  {
    (n + k - 1) / k
  }

  lemma CeilDivIsLeast(n: nat, k: nat, j: nat)
    requires k > 0
    ensures j * k >= n <==> j >= CeilDiv(n, k)
  {
    var c := CeilDiv(n, k);
    assert c * k <= n + k - 1 < (c + 1) * k;
    if j >= c { assert j * k >= c * k; }
    if j < c { assert j * k <= (c - 1) * k; }
  }

  function Pow2(e: nat): (p: nat)
    ensures p > e
  {
    if e == 0 then 1 else 2 * Pow2(e - 1)
  }

  lemma DoubledProduct(x: nat, y: nat)
    ensures (2 * x) * y == 2 * (x * y)
  {
  }

  lemma {:induction false} Pow2Sum(a: nat, b: nat)
    ensures Pow2(a + b) == Pow2(a) * Pow2(b)
  {
    if a > 0 {
      Pow2Sum(a - 1, b);
      DoubledProduct(Pow2(a - 1), Pow2(b));
    }
  }

  lemma {:induction false} Pow2Monotone(a: nat, b: nat)
    ensures a <= b ==> Pow2(a) <= Pow2(b)
    ensures Pow2(a) < Pow2(b) ==> a < b
    decreases a + b
  {
    if a > 0 && b > 0 { Pow2Monotone(a - 1, b - 1); }
  }

  // ----- Sums of few powers of two -----

  function SumPow2(es: seq<nat>): nat {
    if es == [] then 0 else Pow2(es[0]) + SumPow2(es[1..])
  }

  lemma {:induction false} SumPow2Remove(es: seq<nat>, i: nat)
    requires i < |es|
    ensures SumPow2(es) == Pow2(es[i]) + SumPow2(es[..i] + es[i + 1..])
  {
    if i > 0 {
      SumPow2Remove(es[1..], i - 1);
      assert es[1..][..i - 1] + es[1..][i..] == (es[..i] + es[i + 1..])[1..];
    } else {
      assert es[..0] + es[1..] == es[1..];
    }
  }

  /** A sum of powers of two is a multiple of each power dividing all of them. */
  lemma {:induction false} SumPow2Multiple(es: seq<nat>, m: nat) returns (q: nat)
    requires forall e :: e in es ==> m <= e
    ensures SumPow2(es) == q * Pow2(m)
  {
    if es == [] {
      q := 0;
    } else {
      assert es[0] in es && forall e :: e in es[1..] ==> e in es;
      var q' := SumPow2Multiple(es[1..], m);
      Pow2Sum(es[0] - m, m);
      Distribute(Pow2(es[0] - m), q', Pow2(m));
      q := Pow2(es[0] - m) + q';
    }
  }

  lemma {:induction false} LeastIndex(es: seq<nat>) returns (i: nat)
    requires es != []
    ensures i < |es| && forall e :: e in es ==> es[i] <= e
  {
    if |es| == 1 {
      i := 0;
    } else {
      var j := LeastIndex(es[1..]);
      i := if es[0] <= es[1..][j] then 0 else j + 1;
      assert es == [es[0]] + es[1..];
    }
  }

  /** A multiple of a smaller power that stays below a larger one stays below by that smaller power. */
  lemma GapIsMultiple(q: nat, m: nat, e: nat)
    requires m <= e && q * Pow2(m) < Pow2(e)
    ensures Pow2(e) - q * Pow2(m) >= Pow2(m)
  {
    Pow2Sum(e - m, m);
    MultiplesAreApart(Pow2(e - m), q, Pow2(m));
  }

  lemma Halve(gap: int, p: int, w: nat, bound: int)
    requires p <= gap && (gap + p) * w >= bound
    ensures gap * (2 * w) >= bound
  {
  }

  /** A sum of j powers of two that stays below 2^e stays below by at least 2^e / 2^j: taking away
      the smallest power at most doubles the gap, because it divides the gap. */
  lemma {:induction false} FewPowersLeaveGap(es: seq<nat>, e: nat)
    requires SumPow2(es) < Pow2(e)
    ensures (Pow2(e) - SumPow2(es)) * Pow2(|es|) >= Pow2(e)
    decreases |es|
  {
    if es != [] {
      var i := LeastIndex(es);
      var m := es[i];
      var rest := es[..i] + es[i + 1..];
      SumPow2Remove(es, i);
      FewPowersLeaveGap(rest, e);
      Pow2Monotone(m, e);
      var q := SumPow2Multiple(es, m);
      GapIsMultiple(q, m, e);
      Halve(Pow2(e) - SumPow2(es), Pow2(m), Pow2(|rest|), Pow2(e));
    }
  }
}

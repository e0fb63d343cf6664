/** Round-robin selection over a shared wrapping counter (consul.go). */
module RoundRobin {
  import opened Decimal

  type UInt64 = n: int | 0 <= n < TWO_64

  /** The conversion of an unsigned ticket to a signed machine integer wraps. */
  function ToInt(t: UInt64): Int64 {
    if t < TWO_63 then t else t - TWO_64
  }

  /** Go's remainder takes the sign of the dividend. */
  function Rem(a: int, n: int): int
    requires n > 0
  {
    if a >= 0 then a % n else -((-a) % n)
  }

  function IndexOf(ticket: UInt64, n: int): int
    requires n > 0
  {
    Rem(ToInt(ticket), n)
  }

  class Cursor {
    var rr: UInt64

    constructor ()
      ensures rr == 0
    {
      rr := 0;
    }

    /** Takes the next ticket, except when there is nothing to choose from. */
    method NextIndex(n: int) returns (index: int)
      modifies this
      ensures n <= 1 ==> index == 0 && rr == old(rr)
      ensures n > 1 ==> index == IndexOf(old(rr), n) && rr == (old(rr) + 1) % TWO_64
    {
      if n <= 1 {
        return 0;
      }
      rr := if rr + 1 == TWO_64 then 0 else rr + 1;
      var ticket: UInt64 := if rr == 0 then TWO_64 - 1 else rr - 1;
      index := IndexOf(ticket, n);
    }
  }

  /** A ticket selects a valid index exactly when it is below 2^63 or its distance to
      2^64 is a multiple of n. */
  lemma IndexInRangeExactly(ticket: UInt64, n: int)
    requires n > 1
    ensures 0 <= IndexOf(ticket, n) < n <==> ticket < TWO_63 || (TWO_64 - ticket) % n == 0
  {
  }

  /** How often index i is chosen by the k tickets from t on. */
  function Chosen(t: nat, k: nat, n: int, i: nat): nat
    requires n > 0 && t + k <= TWO_63
  {
    if k == 0 then 0
    else Chosen(t, k - 1, n, i) + (if IndexOf(t + k - 1, n) == i then 1 else 0)
  }

  /** How many of the first m tickets choose i. */
  function Before(m: nat, n: int, i: nat): int
    requires n > 0
  {
    (m + n - 1 - i) / n
  }

  lemma BeforeSteps(m: nat, n: int, i: nat)
    requires i < n
    ensures Before(m + 1, n, i) == Before(m, n, i) + (if m % n == i then 1 else 0)
  {
    var q, r := m / n, m % n;
    assert m == q * n + r;
    DivideAs(m + n - 1 - i, n, if r <= i then q else q + 1, if r <= i then r + n - 1 - i else r - 1 - i);
    DivideAs(m + n - i, n, if r < i then q else q + 1, if r < i then r + n - i else r - i);
  }

  lemma DivideAs(a: int, n: int, q: int, r: int)
    requires n > 0 && 0 <= r < n && a == q * n + r
    ensures a / n == q
  {
    var d, e := a / n, a % n;
    assert a == n * d + e;
    assert (q - d) * n == e - r && (d - q) * n == r - e;
    if q > d {
      AtLeastOnce(q - d, n);
    } else if q < d {
      AtLeastOnce(d - q, n);
    }
  }

  lemma AtLeastOnce(x: int, n: int)
    requires x > 0 && n > 0
    ensures x * n >= n
  {
  }

  lemma {:induction false} ChosenIsDifference(t: nat, k: nat, n: int, i: nat)
    requires i < n && t + k <= TWO_63
    ensures Chosen(t, k, n, i) == Before(t + k, n, i) - Before(t, n, i)
  {
    if k > 0 {
      ChosenIsDifference(t, k - 1, n, i);
      BeforeSteps(t + k - 1, n, i);
    }
  }

  /** Fairness: over any k consecutive tickets below the wrap, whoever draws them, each
      of n instances is chosen k/n times, rounded down or up. */
  lemma Fairness(t: nat, k: nat, n: int, i: nat)
    requires n > 1 && i < n && t + k <= TWO_63
    ensures k / n <= Chosen(t, k, n, i) <= (k + n - 1) / n
  {
    ChosenIsDifference(t, k, n, i);
    QuotientsDiffer(t + n - 1 - i, k, n);
  }

  lemma QuotientsDiffer(a: nat, k: nat, n: int)
    requires n > 0
    ensures k / n <= (a + k) / n - a / n <= (k + n - 1) / n
  {
    QuotientOfSum(a, k, n);
    QuotientUp(k, n);
  }

  /** The remainders of the two carry at most one. */
  lemma QuotientOfSum(a: nat, k: nat, n: int)
    requires n > 0
    ensures (a + k) / n == a / n + k / n + if a % n + k % n < n then 0 else 1
  {
    var q, r := a / n + k / n, a % n + k % n;
    assert a == n * (a / n) + a % n && k == n * (k / n) + k % n;
    SumOfMultiples(n, a / n, k / n);
    if r < n {
      DivideAs(a + k, n, q, r);
    } else {
      SumOfMultiples(n, q, 1);
      DivideAs(a + k, n, q + 1, r - n);
    }
  }

  lemma SumOfMultiples(n: int, x: int, y: int)
    ensures n * (x + y) == n * x + n * y == (x + y) * n
  {
  }

  lemma QuotientUp(k: nat, n: int)
    requires n > 0
    ensures (k + n - 1) / n == k / n + if k % n == 0 then 0 else 1
  {
    var q, r := k / n, k % n;
    assert k == n * q + r;
    SumOfMultiples(n, q, 1);
    if r == 0 {
      DivideAs(k + n - 1, n, q, n - 1);
    } else {
      DivideAs(k + n - 1, n, q + 1, r - 1);
    }
  }
}

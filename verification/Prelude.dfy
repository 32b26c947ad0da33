/** What every module shares. */
module Prelude {
  datatype Option<+T> = None | Some(value: T)

  /** A lower-cased host and port, as `hostKey` spells it. */
  datatype Host = Host(key: string)

  /** The origin a robots.txt belongs to; several origins may share one host. */
  datatype Origin = Origin(scheme: string, host: Host)

  /** The adapter asking: the breaker and the allowance key on this. */
  datatype Source = Source(id: string)

  function Max(a: int, b: int): int { if a >= b then a else b }

  ghost predicate CountsAt(count: nat -> nat, p: nat -> bool, k: nat) {
    count(k + 1) == count(k) + if p(k) then 1 else 0
  }

  /** A count that goes up by one exactly at the numbers in question is how many of them there are. */
  lemma {:induction false} CountIsCardinality(count: nat -> nat, p: nat -> bool, n: nat)
    requires count(0) == 0 && forall k :: 0 <= k < n ==> CountsAt(count, p, k)
    ensures count(n) == |set i: nat | i < n && p(i)|
  {
    var those := set i: nat | i < n && p(i);
    if n > 0 {
      CountIsCardinality(count, p, n - 1);
      assert CountsAt(count, p, n - 1);
      var fewer := set i: nat | i < n - 1 && p(i);
      assert those == if p(n - 1) then fewer + {n - 1} else fewer;
    }
  }

  lemma Differs(r: int, v: int, k: int)
    ensures r * k - v * k == (r - v) * k
  {
  }

  /** A multiple of `k` that is not zero is at least `k` away from it. */
  lemma TimesIsFar(x: int, k: nat)
    ensures x >= 1 ==> x * k >= k
    ensures x <= -1 ==> x * k + k <= 0
  {
    if x >= 1 {
      assert x * k == (x - 1) * k + k && (x - 1) * k >= 0;
    } else if x <= -1 {
      assert x * k == (x + 1) * k - k && (x + 1) * k <= 0;
    }
  }

  lemma MultipleDivides(k: int, n: nat)
    requires n > 0
    ensures k * n / n == k
  {
    var m := k * n;
    var q, r := m / n, m % n;
    assert m == q * n + r;
    Differs(k, q, n);
    TimesIsFar(k - q, n);
  }
}

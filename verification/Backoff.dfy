/** The poll delay: the previous delay times the multiplier, capped at the maximum interval. All in milliseconds. */
module Backoff {
  import opened Numbers

  function Pow(k: nat, n: nat): nat
  {
    if n == 0 then 1 else Pow(k, n - 1) * k
  }

  /** The delay a requeue computes from the original expiration of the message it replaces. */
  function Next(delay: nat, multiplier: nat, cap: nat): nat
  {
    Min(delay * multiplier, cap)
  }

  /** The delay after `n` requeues of a message first published with delay `initial`. */
  function Delay(initial: nat, multiplier: nat, cap: nat, n: nat): nat
  {
    if n == 0 then initial else Next(Delay(initial, multiplier, cap, n - 1), multiplier, cap)
  }

  lemma CapAbsorbs(a: nat, k: nat, cap: nat)
    ensures Min(Min(a, cap) * k, cap) == Min(a * k, cap)
  {
    if k == 0 {
      assert a * k == 0 && Min(a, cap) * k == 0;
    } else if a > cap {
      assert cap * k >= cap && a * k >= a;
    }
  }

  lemma MulAssoc(a: nat, b: nat, c: nat)
    ensures a * b * c == a * (b * c)
  {
  }

  lemma MulMono(a: nat, b: nat, c: nat)
    requires b <= c
    ensures a * b <= a * c
  {
  }

  /** The n-th requeue delay is the n-th power of the multiplier times the first delay, capped. */
  lemma {:induction false} ClosedForm(initial: nat, k: nat, cap: nat, n: nat)
    requires n >= 1
    ensures Delay(initial, k, cap, n) == Min(initial * Pow(k, n), cap)
  {
    var before, p := Delay(initial, k, cap, n - 1), Pow(k, n - 1);
    assert Min(before * k, cap) == Min(initial * p * k, cap) by {
      if n > 1 {
        ClosedForm(initial, k, cap, n - 1);
        CapAbsorbs(initial * p, k, cap);
      }
    }
    MulAssoc(initial, p, k);
  }

  lemma {:induction false} PowGrows(k: nat, m: nat, n: nat)
    requires k >= 1 && m <= n
    ensures 1 <= Pow(k, m) <= Pow(k, n)
  {
    if n > 0 {
      if m == n {
        PowGrows(k, m - 1, n - 1);
      } else {
        PowGrows(k, m, n - 1);
      }
      assert Pow(k, n) == Pow(k, n - 1) * k >= Pow(k, n - 1);
    }
  }

  /** Delays never shrink from the first requeue on, and from the start iff the first delay is within the cap. */
  lemma NonDecreasing(initial: nat, k: nat, cap: nat, m: nat, n: nat)
    requires k >= 1 && m <= n
    ensures m >= 1 || initial <= cap ==> Delay(initial, k, cap, m) <= Delay(initial, k, cap, n)
    ensures n >= 1 && initial > cap ==> Delay(initial, k, cap, 0) > Delay(initial, k, cap, n)
  {
    if n >= 1 {
      ClosedForm(initial, k, cap, n);
      PowGrows(k, m, n);
      MulMono(initial, Pow(k, m), Pow(k, n));
      if m >= 1 {
        ClosedForm(initial, k, cap, m);
      } else {
        assert initial * Pow(k, 0) == initial;
      }
    }
  }

  /** No delay is below the smaller of the first delay and the cap. */
  lemma AtLeast(initial: nat, k: nat, cap: nat, n: nat)
    requires k >= 1
    ensures Delay(initial, k, cap, n) >= Min(initial, cap)
  {
    if n >= 1 {
      ClosedForm(initial, k, cap, n);
      PowGrows(k, 0, n);
      MulMono(initial, 1, Pow(k, n));
    }
  }
}

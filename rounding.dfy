/** Rounding as PHP's round() does it (half away from zero), over exact reals. */
module Rounding {

  /** round($v): the nearest integer, ties away from zero. */
  function Round(v: real): (r: int)
    ensures v - 0.5 <= r as real <= v + 0.5
    ensures v >= 0.0 ==> v - 0.5 < r as real
    ensures v <= 0.0 ==> r as real < v + 0.5
  {
    if v >= 0.0 then (v + 0.5).Floor else -((-v + 0.5).Floor)
  }

  /** The contract of Round pins down a unique integer. */
  lemma RoundUnique(v: real, n: int)
    requires v - 0.5 <= n as real <= v + 0.5
    requires v >= 0.0 ==> v - 0.5 < n as real
    requires v <= 0.0 ==> n as real < v + 0.5
    ensures n == Round(v)
  {
  }

  lemma RoundMonotone(v: real, w: real)
    requires v <= w
    ensures Round(v) <= Round(w)
  {
  }

  /** Rounding is symmetric about zero. */
  lemma RoundOdd(v: real)
    ensures Round(-v) == -Round(v)
  {
  }

  lemma RoundInteger(n: int)
    ensures Round(n as real) == n
  {
  }

  lemma DivideBounds(lo: real, m: real, hi: real, p: real)
    requires lo <= m <= hi && p > 0.0
    ensures lo / p <= m / p <= hi / p
  {
  }
}

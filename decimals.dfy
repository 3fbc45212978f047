/** Rounding to one or two decimals, as PHP's round($v, 1), round($v, 2) and
    number_format($v, 2) do it, over exact reals. */
module Decimals {
  import opened Rounding

  /** The precisions the estimate rounds to. */
  datatype Places = OneDecimal | TwoDecimals

  /** How many units of the last kept decimal make one. */
  function UnitsPerOne(places: Places): real
  {
    match places
    case OneDecimal => 10.0
    case TwoDecimals => 100.0
  }

  /** v rounded to `places`: the whole number of units that Round picks for
      v * units, so the result lies on the decimal grid, within half a unit of
      v, with ties away from zero. */
  function RoundDecimals(v: real, places: Places): (r: real)
    ensures r * UnitsPerOne(places) == Round(v * UnitsPerOne(places)) as real
    ensures v - 0.5 / UnitsPerOne(places) <= r <= v + 0.5 / UnitsPerOne(places)
    ensures v >= 0.0 ==> r >= 0.0
  {
    Round(v * UnitsPerOne(places)) as real / UnitsPerOne(places)
  }

  /** Rounding to a fixed number of decimals is non-decreasing. */
  lemma RoundDecimalsMonotone(v: real, w: real, places: Places)
    requires v <= w
    ensures RoundDecimals(v, places) <= RoundDecimals(w, places)
  {
    RoundMonotone(v * UnitsPerOne(places), w * UnitsPerOne(places));
  }

  /** Values already on the grid are left alone. */
  lemma RoundDecimalsOnGrid(n: int, places: Places)
    ensures RoundDecimals(n as real / UnitsPerOne(places), places) == n as real / UnitsPerOne(places)
  {
    RoundInteger(n);
    assert (n as real / UnitsPerOne(places)) * UnitsPerOne(places) == n as real;
  }
}

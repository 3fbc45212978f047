/** DPI resolution and the conversion of trimmed pixel dimensions into
    centimetres, square centimetres and square inches. */
module Dimensions {
  import opened Outcomes

  /** The resolution metadata of the decoded image (dots per inch). */
  datatype Resolution = Resolution(x: real, y: real)

  const DefaultDpi: real := 72.0
  const CmPerInch: real := 2.54
  const Cm2PerIn2: real := 6.4516

  /** Both components present and non-zero (PHP truthiness of x() and y()). */
  predicate HasResolution(res: Option<Resolution>)
    ensures HasResolution(res) <==> res.Some? && res.value.x * res.value.y != 0.0
  {
    res.Some? && res.value.x != 0.0 && res.value.y != 0.0
  }

  /** The mean of the two components when both are usable, 72 otherwise. */
  function ResolveDpi(res: Option<Resolution>): (dpi: real)
    ensures HasResolution(res) ==> 2.0 * dpi == res.value.x + res.value.y
    ensures !HasResolution(res) ==> dpi == DefaultDpi
  {
    if HasResolution(res) then (res.value.x + res.value.y) / 2.0 else DefaultDpi
  }

  /** With non-negative metadata the resolved DPI is positive, and it lies
      between the two components. */
  lemma ResolveDpiPositive(res: Option<Resolution>)
    requires res.Some? ==> res.value.x >= 0.0 && res.value.y >= 0.0
    ensures ResolveDpi(res) > 0.0
    ensures HasResolution(res) ==>
      (res.value.x <= ResolveDpi(res) <= res.value.y) || (res.value.y <= ResolveDpi(res) <= res.value.x)
  {
  }

  /** Components of opposite sign can cancel: the guard lets a zero DPI through. */
  lemma ResolveDpiCanBeZero()
    ensures ResolveDpi(Some(Resolution(300.0, -300.0))) == 0.0
  {
  }

  datatype PhysicalSize = PhysicalSize(widthCm: real, heightCm: real, areaCm2: real, areaIn2: real)

  /** Pixels to physical units: cm = pixels / dpi * 2.54, cm² = width * height,
      in² = cm² / 6.4516. */
  function ToPhysical(widthPx: nat, heightPx: nat, dpi: real): (s: PhysicalSize)
    requires dpi != 0.0
    ensures s.widthCm == CmPerInch * (widthPx as real / dpi)
    ensures s.heightCm == CmPerInch * (heightPx as real / dpi)
    ensures s.areaIn2 == (widthPx as real / dpi) * (heightPx as real / dpi)
    ensures s.areaCm2 == Cm2PerIn2 * s.areaIn2
  {
    var widthCm := (widthPx as real / dpi) * CmPerInch;
    var heightCm := (heightPx as real / dpi) * CmPerInch;
    var areaCm2 := widthCm * heightCm;
    PhysicalSize(widthCm, heightCm, areaCm2, areaCm2 / Cm2PerIn2)
  }

  /** At a positive DPI every measure is non-negative, and the area is zero
      exactly when one side has no pixels. */
  lemma ToPhysicalNonNegative(widthPx: nat, heightPx: nat, dpi: real)
    requires dpi > 0.0
    ensures var s := ToPhysical(widthPx, heightPx, dpi);
      && s.widthCm >= 0.0 && s.heightCm >= 0.0 && s.areaCm2 >= 0.0 && s.areaIn2 >= 0.0
      && (s.areaIn2 == 0.0 <==> widthPx == 0 || heightPx == 0)
  {
    var s := ToPhysical(widthPx, heightPx, dpi);
    var wi, hi := widthPx as real / dpi, heightPx as real / dpi;
    assert wi >= 0.0 && hi >= 0.0;
    assert wi == 0.0 <==> widthPx == 0;
    assert hi == 0.0 <==> heightPx == 0;
    assert s.areaIn2 == wi * hi;
  }

  /** Scaling the pixel width by k scales the width and the areas by k and
      leaves the height alone. */
  lemma ToPhysicalScalesWithWidth(widthPx: nat, heightPx: nat, dpi: real, k: nat)
    requires dpi != 0.0
    ensures var s, t := ToPhysical(widthPx, heightPx, dpi), ToPhysical(k * widthPx, heightPx, dpi);
      && t.widthCm == k as real * s.widthCm
      && t.heightCm == s.heightCm
      && t.areaCm2 == k as real * s.areaCm2
      && t.areaIn2 == k as real * s.areaIn2
  {
    var kw := (k * widthPx) as real;
    assert kw == k as real * widthPx as real;
    assert kw / dpi == k as real * (widthPx as real / dpi);
  }

  /** 720 px at 72 DPI is ten inches: 25.4 cm, 645.16 cm², exactly 100 in². */
  lemma ToPhysicalTenInches()
    ensures ToPhysical(720, 720, 72.0) == PhysicalSize(25.4, 25.4, 645.16, 100.0)
  {
  }

  /** A single pixel is still a defined, positive size. */
  lemma ToPhysicalSinglePixel(dpi: real)
    requires dpi > 0.0
    ensures ToPhysical(1, 1, dpi).areaIn2 == 1.0 / (dpi * dpi) > 0.0
  {
  }
}

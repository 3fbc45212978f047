/** The coverage counter: how many pixels of the analysis grid are dark, and
    which fraction of the grid that is. The grid is addressed img[x, y] with
    x < img.Length0 (the width) and y < img.Length1 (the height). */
module Coverage {
  import opened Pixels
  import opened Outcomes

  /** Dark pixels in column x among rows 0 .. h-1. */
  ghost function DarkInColumn(img: array2<Rgb>, x: nat, h: nat): (n: nat)
    requires x < img.Length0 && h <= img.Length1
    reads img
    ensures n <= h
  {
    if h == 0 then 0
    else DarkInColumn(img, x, h - 1) + (if IsDark(img[x, h - 1]) then 1 else 0)
  }

  /** Dark pixels in the full-height columns 0 .. w-1. */
  ghost function DarkInColumns(img: array2<Rgb>, w: nat): (n: nat)
    requires w <= img.Length0
    reads img
    ensures n <= w * img.Length1
  {
    if w == 0 then 0
    else
      var rest := DarkInColumns(img, w - 1);
      assert w * img.Length1 == (w - 1) * img.Length1 + img.Length1;
      rest + DarkInColumn(img, w - 1, img.Length1)
  }

  /** The number of dark pixels of the whole grid. */
  ghost function DarkCount(img: array2<Rgb>): nat
    reads img
  {
    DarkInColumns(img, img.Length0)
  }

  /** The set of coordinates of dark pixels: the order-free reference count. */
  ghost function DarkCells(img: array2<Rgb>): set<(int, int)>
    reads img
  {
    set x, y | 0 <= x < img.Length0 && 0 <= y < img.Length1 && IsDark(img[x, y]) :: (x, y)
  }

  /** The nested loop of estimate(): x outer, y inner, one increment per dark pixel. */
  method CountDarkPixels(img: array2<Rgb>) returns (darkPixels: nat)
    ensures darkPixels == DarkCount(img)
  {
    var width, height := img.Length0, img.Length1;
    darkPixels := 0;
    var x := 0;
    while x < width
      invariant 0 <= x <= width
      invariant darkPixels == DarkInColumns(img, x)
    {
      var y := 0;
      while y < height
        invariant 0 <= y <= height
        invariant darkPixels == DarkInColumns(img, x) + DarkInColumn(img, x, y)
      {
        var color := img[x, y];
        if IsDark(color) {
          darkPixels := darkPixels + 1;
        }
        y := y + 1;
      }
      x := x + 1;
    }
  }

  // ---- the count is the number of dark cells (each visited once) ----

  ghost function ColumnCells(img: array2<Rgb>, x: int, h: nat): set<(int, int)>
    requires h <= img.Length1
    reads img
  {
    set y | 0 <= y < h && 0 <= x < img.Length0 && IsDark(img[x, y]) :: (x, y)
  }

  ghost function CellsOfColumns(img: array2<Rgb>, w: nat): set<(int, int)>
    requires w <= img.Length0
    reads img
  {
    set x, y | 0 <= x < w && 0 <= y < img.Length1 && IsDark(img[x, y]) :: (x, y)
  }

  lemma {:induction false} ColumnCellsCount(img: array2<Rgb>, x: nat, h: nat)
    requires x < img.Length0 && h <= img.Length1
    ensures |ColumnCells(img, x, h)| == DarkInColumn(img, x, h)
  {
    if h == 0 {
      assert ColumnCells(img, x, 0) == {};
    } else {
      ColumnCellsCount(img, x, h - 1);
      var before := ColumnCells(img, x, h - 1);
      assert (x, h - 1) !in before;
      if IsDark(img[x, h - 1]) {
        assert ColumnCells(img, x, h) == before + {(x, h - 1)};
      } else {
        assert ColumnCells(img, x, h) == before;
      }
    }
  }

  lemma {:induction false} CellsOfColumnsCount(img: array2<Rgb>, w: nat)
    requires w <= img.Length0
    ensures |CellsOfColumns(img, w)| == DarkInColumns(img, w)
  {
    if w == 0 {
      assert CellsOfColumns(img, 0) == {};
    } else {
      CellsOfColumnsCount(img, w - 1);
      ColumnCellsCount(img, w - 1, img.Length1);
      var before := CellsOfColumns(img, w - 1);
      var column := ColumnCells(img, w - 1, img.Length1);
      assert CellsOfColumns(img, w) == before + column;
      assert before !! column;
    }
  }

  /** Every grid cell is counted exactly once: the loop's count is the number
      of dark coordinates, whatever order the cells are visited in. */
  lemma DarkCountIsCellCount(img: array2<Rgb>)
    ensures DarkCount(img) == |DarkCells(img)|
  {
    CellsOfColumnsCount(img, img.Length0);
    assert CellsOfColumns(img, img.Length0) == DarkCells(img);
  }

  // ---- bounds, none and all ----

  lemma {:induction false} ColumnNone(img: array2<Rgb>, x: nat, h: nat)
    requires x < img.Length0 && h <= img.Length1
    ensures DarkInColumn(img, x, h) == 0 <==> forall y :: 0 <= y < h ==> !IsDark(img[x, y])
  {
    if h > 0 { ColumnNone(img, x, h - 1); }
  }

  lemma {:induction false} ColumnAll(img: array2<Rgb>, x: nat, h: nat)
    requires x < img.Length0 && h <= img.Length1
    ensures DarkInColumn(img, x, h) == h <==> forall y :: 0 <= y < h ==> IsDark(img[x, y])
  {
    if h > 0 { ColumnAll(img, x, h - 1); }
  }

  lemma {:induction false} ColumnsNone(img: array2<Rgb>, w: nat)
    requires w <= img.Length0
    ensures DarkInColumns(img, w) == 0 <==>
      forall x, y :: 0 <= x < w && 0 <= y < img.Length1 ==> !IsDark(img[x, y])
  {
    if w > 0 {
      ColumnsNone(img, w - 1);
      ColumnNone(img, w - 1, img.Length1);
    }
  }

  lemma {:induction false} ColumnsAll(img: array2<Rgb>, w: nat)
    requires w <= img.Length0
    ensures DarkInColumns(img, w) == w * img.Length1 <==>
      forall x, y :: 0 <= x < w && 0 <= y < img.Length1 ==> IsDark(img[x, y])
  {
    if w > 0 {
      ColumnsAll(img, w - 1);
      ColumnAll(img, w - 1, img.Length1);
      assert w * img.Length1 == (w - 1) * img.Length1 + img.Length1;
    }
  }

  /** 0 <= dark <= width * height; no dark pixel iff the count is 0; every pixel
      dark iff the count is width * height. */
  lemma DarkCountBounds(img: array2<Rgb>)
    ensures DarkCount(img) <= img.Length0 * img.Length1
    ensures DarkCount(img) == 0 <==>
      forall x, y :: 0 <= x < img.Length0 && 0 <= y < img.Length1 ==> !IsDark(img[x, y])
    ensures DarkCount(img) == img.Length0 * img.Length1 <==>
      forall x, y :: 0 <= x < img.Length0 && 0 <= y < img.Length1 ==> IsDark(img[x, y])
  {
    ColumnsNone(img, img.Length0);
    ColumnsAll(img, img.Length0);
  }

  // ---- the coverage fraction ----

  /** darkPixels / totalPixels; the source does not guard the division, so an
      empty grid is an error rather than a value. */
  function CoverageFraction(darkPixels: nat, totalPixels: nat): (r: Result<real>)
    ensures r.Err? <==> totalPixels == 0
    ensures r.Err? ==> r.error == EmptyAnalysisImage
    ensures r.Ok? ==> r.value * totalPixels as real == darkPixels as real
    ensures r.Ok? && darkPixels <= totalPixels ==> 0.0 <= r.value <= 1.0
  {
    if totalPixels == 0 then Err(EmptyAnalysisImage)
    else Ok(darkPixels as real / totalPixels as real)
  }

  /** Coverage of a non-empty grid lies in [0, 1]; it is 0 iff no pixel is dark
      and 1 iff every pixel is dark. */
  lemma CoverageOfGrid(img: array2<Rgb>)
    requires img.Length0 > 0 && img.Length1 > 0
    ensures var c := CoverageFraction(DarkCount(img), img.Length0 * img.Length1);
      && c.Ok?
      && 0.0 <= c.value <= 1.0
      && (c.value == 0.0 <==>
            forall x, y :: 0 <= x < img.Length0 && 0 <= y < img.Length1 ==> !IsDark(img[x, y]))
      && (c.value == 1.0 <==>
            forall x, y :: 0 <= x < img.Length0 && 0 <= y < img.Length1 ==> IsDark(img[x, y]))
  {
    DarkCountBounds(img);
    FractionExtremes(DarkCount(img), img.Length0 * img.Length1);
  }

  lemma FractionExtremes(darkPixels: nat, totalPixels: nat)
    requires 0 < totalPixels && darkPixels <= totalPixels
    ensures CoverageFraction(darkPixels, totalPixels).value == 0.0 <==> darkPixels == 0
    ensures CoverageFraction(darkPixels, totalPixels).value == 1.0 <==> darkPixels == totalPixels
  {
    var c := CoverageFraction(darkPixels, totalPixels).value;
    assert c * totalPixels as real == darkPixels as real;
  }
}

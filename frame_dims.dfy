/**
 * Frame-geometry inference from a byte count (detect_frame_dimensions in main/main.c).
 *
 * Frames are RGB565, two bytes per pixel, with no header. The detector first
 * looks the byte count up in a table of common resolutions and otherwise
 * searches downward from the integer square root of the pixel count for a
 * factor pair with both sides at most 2048.
 */
module FrameDims {
  import opened EspCommon

  datatype Dims = Dims(width: u16, height: u16)

  /** One row of common_dimensions: a resolution and its exact RGB565 byte count. */
  datatype TableRow = TableRow(width: u16, height: u16, bytes: u32)

  const BytesPerPixel := 2
  const MaxSide := 2048
  /** Width of the downward search window below the square root. */
  const SearchWindow := 100

  /** The common_dimensions table; the last row is the zero terminator. */
  const CommonDimensions: seq<TableRow> := [
    TableRow(240, 240, 115200),
    TableRow(320, 240, 153600),
    TableRow(480, 320, 307200),
    TableRow(640, 480, 614400),
    TableRow(800, 600, 960000),
    TableRow(1024, 768, 1572864),
    TableRow(1280, 720, 1843200),
    TableRow(0, 0, 0)
  ]

  // ---------------------------------------------------------------------------
  // Integer square root (the source truncates a double sqrt of a 32-bit value)
  // ---------------------------------------------------------------------------

  lemma {:induction false} SquareMonotone(a: nat, b: nat)
    requires a <= b
    ensures a * a <= b * b
    decreases b - a
  {
    if a < b {
      SquareMonotone(a, b - 1);
      assert b * b == (b - 1) * (b - 1) + 2 * b - 1;
    }
  }

  /** The root of n / 4, doubled, brackets the root of n to within one. */
  lemma SqrtStep(n: nat, s: nat)
    requires s * s <= n / 4 < (s + 1) * (s + 1)
    ensures (2 * s) * (2 * s) <= n < (2 * s + 2) * (2 * s + 2)
  {
    var m := n / 4;
    assert (2 * s) * (2 * s) == 4 * (s * s);
    assert (2 * s + 2) * (2 * s + 2) == 4 * ((s + 1) * (s + 1));
    assert 4 * m <= n < 4 * m + 4;
  }

  /** floor(sqrt(n)), computed from floor(sqrt(n / 4)). */
  function FloorSqrt(n: nat): (r: nat)
    ensures r * r <= n < (r + 1) * (r + 1)
    ensures r <= n
    decreases n
  {
    if n < 4 then
      (if n == 0 then 0 else 1)
    else
      var q := 2 * FloorSqrt(n / 4);
      SqrtStep(n, FloorSqrt(n / 4));
      if (q + 1) * (q + 1) <= n then q + 1 else q
  }

  /** The square-root bracket determines the root. */
  lemma FloorSqrtUnique(n: nat, r: nat)
    requires r * r <= n < (r + 1) * (r + 1)
    ensures FloorSqrt(n) == r
  {
    var s := FloorSqrt(n);
    if s < r {
      SquareMonotone(s + 1, r);
    } else if s > r {
      SquareMonotone(r + 1, s);
    }
  }

  // ---------------------------------------------------------------------------
  // Specification of the detector
  // ---------------------------------------------------------------------------

  /** Table scan: rows are tried in order until the zero terminator; the first exact match wins. */
  function TableMatch(t: seq<TableRow>, frameSize: int): (r: Option<Dims>)
    ensures r.Some? ==> exists j :: 0 <= j < |t| && t[j].bytes == frameSize &&
                                    (forall k :: 0 <= k <= j ==> t[k].bytes != 0) &&
                                    r.value == Dims(t[j].width, t[j].height)
  {
    if |t| == 0 || t[0].bytes == 0 then None
    else if t[0].bytes == frameSize then Some(Dims(t[0].width, t[0].height))
    else TableMatch(t[1..], frameSize)
  }

  /** A candidate width w for `pixels`: it divides evenly and both sides are within MaxSide. */
  predicate Acceptable(pixels: nat, w: nat)
  {
    w > 0 && pixels % w == 0 && w <= MaxSide && pixels / w <= MaxSide
  }

  /**
   * Descending search from w while w > 0 and w > lower, returning the first
   * acceptable width and its co-factor.
   */
  function SearchFrom(pixels: nat, w: nat, lower: nat): (r: Option<Dims>)
    ensures r.Some? ==>
      lower < r.value.width <= w && Acceptable(pixels, r.value.width) &&
      r.value.height == pixels / r.value.width
    ensures r.Some? ==> forall v :: r.value.width < v <= w ==> !Acceptable(pixels, v)
    ensures r.None? ==> forall v :: lower < v <= w ==> !Acceptable(pixels, v)
    decreases w
  {
    if w > 0 && w > lower then
      if pixels % w == 0 && pixels / w <= MaxSide && w <= MaxSide then
        Some(Dims(w, pixels / w))
      else
        SearchFrom(pixels, w - 1, lower)
    else
      None
  }

  /** A width no larger than the square root has a co-factor at least as large. */
  lemma CofactorAtLeastWidth(pixels: nat, w: nat, s: nat)
    requires 0 < w <= s && s * s <= pixels && pixels % w == 0
    ensures w * (pixels / w) == pixels && w <= pixels / w
  {
    var h := pixels / w;
    assert w * h == pixels;
    if h < w {
      SquareMonotone(w, s);
    }
  }

  /** Lower end (exclusive) of the search, `sqrt_pixels - 100` on uint32_t: it wraps below 100. */
  function SearchLower(sqrtPixels: u32): u32
  {
    Wrap32(sqrtPixels - SearchWindow)
  }

  /** Every row of common_dimensions before the terminator is a resolution of at most 2048x2048. */
  lemma CommonDimensionsBounded()
    ensures forall j :: 0 <= j < |CommonDimensions| && CommonDimensions[j].bytes != 0 ==>
              0 < CommonDimensions[j].width <= MaxSide && 0 < CommonDimensions[j].height <= MaxSide
  {
    forall j | 0 <= j < |CommonDimensions| && CommonDimensions[j].bytes != 0
      ensures 0 < CommonDimensions[j].width <= MaxSide && 0 < CommonDimensions[j].height <= MaxSide
    {
      if j == 0 {} else if j == 1 {} else if j == 2 {} else if j == 3 {}
      else if j == 4 {} else if j == 5 {} else if j == 6 {}
    }
  }

  /** One step of the table scan at row i. */
  lemma TableMatchAt(t: seq<TableRow>, frameSize: int, i: nat)
    requires i < |t|
    ensures t[i].bytes == 0 ==> TableMatch(t[i..], frameSize) == None
    ensures t[i].bytes != 0 && t[i].bytes == frameSize ==>
              TableMatch(t[i..], frameSize) == Some(Dims(t[i].width, t[i].height))
    ensures t[i].bytes != 0 && t[i].bytes != frameSize ==>
              TableMatch(t[i..], frameSize) == TableMatch(t[i + 1..], frameSize)
  {
    assert t[i..][0] == t[i];
    assert t[i..][1..] == t[i + 1..];
  }

  /** What detect_frame_dimensions reports for a byte count: a resolution, or None on failure. */
  function Detect(frameSize: u32): (r: Option<Dims>)
    ensures r.Some? ==> 0 < r.value.width <= MaxSide && 0 < r.value.height <= MaxSide
  {
    match TableMatch(CommonDimensions, frameSize)
    case Some(d) => CommonDimensionsBounded(); Some(d)
    case None =>
      var pixels := frameSize / BytesPerPixel;
      var s := FloorSqrt(pixels);
      var r := SearchFrom(pixels, s, SearchLower(s));
      if r.Some? then CofactorAtLeastWidth(pixels, r.value.width, s); r else r
  }

  /** Detect split into its two phases. */
  lemma DetectPhases(frameSize: u32)
    ensures TableMatch(CommonDimensions, frameSize).Some? ==>
              Detect(frameSize) == TableMatch(CommonDimensions, frameSize)
    ensures TableMatch(CommonDimensions, frameSize).None? ==>
              Detect(frameSize) == SearchFrom(frameSize / 2, FloorSqrt(frameSize / 2), SearchLower(FloorSqrt(frameSize / 2)))
  {
  }

  // ---------------------------------------------------------------------------
  // The detector as the source runs it: a table loop and a descending search loop
  // ---------------------------------------------------------------------------

  /**
   * detect_frame_dimensions. The out-parameters of the source are modelled as
   * inputs (the caller's current values) and outputs; they are written only on success.
   */
  method DetectFrameDimensions(frameSize: u32, width: u16, height: u16)
    returns (found: bool, newWidth: u16, newHeight: u16)
    ensures found <==> Detect(frameSize).Some?
    ensures found ==> Dims(newWidth, newHeight) == Detect(frameSize).value
    ensures !found ==> newWidth == width && newHeight == height
  {
    var t := CommonDimensions;
    var i := 0;
    while t[i].bytes > 0
      invariant 0 <= i < |t|
      invariant TableMatch(t, frameSize) == TableMatch(t[i..], frameSize)
      decreases |t| - i
    {
      TableMatchAt(t, frameSize, i);
      if t[i].bytes == frameSize {
        DetectPhases(frameSize);
        return true, t[i].width, t[i].height;
      }
      i := i + 1;
    }
    TableMatchAt(t, frameSize, i);
    DetectPhases(frameSize);

    var pixels: u32 := frameSize / BytesPerPixel;
    var sqrtPixels: u32 := FloorSqrt(pixels);
    var w: u32 := sqrtPixels;
    while w > 0 && w > SearchLower(sqrtPixels)
      invariant w <= sqrtPixels
      invariant SearchFrom(pixels, sqrtPixels, SearchLower(sqrtPixels)) == SearchFrom(pixels, w, SearchLower(sqrtPixels))
      decreases w
    {
      if pixels % w == 0 {
        var h := pixels / w;
        if h <= MaxSide && w <= MaxSide {
          return true, w, h;
        }
      }
      w := w - 1;
    }
    return false, width, height;
  }

  // ---------------------------------------------------------------------------
  // Properties
  // ---------------------------------------------------------------------------

  /** In any terminated table, the first row whose byte count matches decides the result. */
  lemma {:induction false} TableMatchFirst(t: seq<TableRow>, frameSize: int, i: nat)
    requires i < |t| && t[i].bytes == frameSize && frameSize != 0
    requires forall j :: 0 <= j <= i ==> t[j].bytes != 0
    requires forall j :: 0 <= j < i ==> t[j].bytes != frameSize
    ensures TableMatch(t, frameSize) == Some(Dims(t[i].width, t[i].height))
  {
    if i > 0 {
      TableMatchFirst(t[1..], frameSize, i - 1);
    }
  }

  /** A byte count that no row before the terminator carries misses the table. */
  lemma {:induction false} TableMatchMiss(t: seq<TableRow>, frameSize: int)
    requires forall j :: 0 <= j < |t| && t[j].bytes != 0 ==> t[j].bytes != frameSize
    ensures TableMatch(t, frameSize) == None
  {
    if |t| > 0 && t[0].bytes != 0 {
      TableMatchMiss(t[1..], frameSize);
    }
  }

  /** The byte counts of common_dimensions, terminator excluded. */
  const CommonByteCounts: set<int> := {115200, 153600, 307200, 614400, 960000, 1572864, 1843200}

  /** A byte count outside CommonByteCounts misses common_dimensions. */
  lemma CommonDimensionsMiss(frameSize: int)
    requires frameSize !in CommonByteCounts
    ensures TableMatch(CommonDimensions, frameSize) == None
  {
    forall j | 0 <= j < |CommonDimensions| && CommonDimensions[j].bytes != 0
      ensures CommonDimensions[j].bytes != frameSize
    {
      assert CommonDimensions[j].bytes in CommonByteCounts by {
        if j == 0 {} else if j == 1 {} else if j == 2 {} else if j == 3 {}
        else if j == 4 {} else if j == 5 {} else if j == 6 {}
      }
    }
    TableMatchMiss(CommonDimensions, frameSize);
  }

  /** Table hit: a byte count equal to some row's count yields the first such row's resolution. */
  lemma DetectTableHit(frameSize: u32, i: nat)
    requires i < |CommonDimensions| - 1 && CommonDimensions[i].bytes == frameSize
    requires forall j :: 0 <= j < i ==> CommonDimensions[j].bytes != frameSize
    ensures Detect(frameSize) == Some(Dims(CommonDimensions[i].width, CommonDimensions[i].height))
  {
    TableMatchFirst(CommonDimensions, frameSize, i);
  }

  /**
   * Geometric path: when the table misses and detection succeeds, the result is a
   * factor pair of the pixel count, at most 2048 on each side, width no larger than
   * height, width within (s - 100, s] for s = floor(sqrt(pixels)), and the largest
   * acceptable width of that window.
   */
  lemma DetectGeometric(frameSize: u32)
    requires TableMatch(CommonDimensions, frameSize).None?
    requires Detect(frameSize).Some?
    ensures var d := Detect(frameSize).value;
            var pixels := frameSize / 2;
            var s := FloorSqrt(pixels);
            && d.width * d.height == pixels
            && d.width <= d.height
            && d.width <= MaxSide && d.height <= MaxSide
            && s - SearchWindow < d.width <= s
            && forall v :: d.width < v <= s ==> !Acceptable(pixels, v)
  {
    var pixels := frameSize / 2;
    var s := FloorSqrt(pixels);
    var d := SearchFrom(pixels, s, SearchLower(s)).value;
    assert Detect(frameSize).value == d;
    CofactorAtLeastWidth(pixels, d.width, s);
  }

  /** Detection fails for byte count 0. */
  lemma DetectZero()
    ensures Detect(0) == None
  {
    assert FloorSqrt(0) == 0;
  }

  /**
   * A table miss with fewer than 10000 pixels always fails: the square root is
   * below 100, `sqrt_pixels - 100` wraps on uint32_t, and the search never runs.
   */
  lemma DetectSmallMiss(frameSize: u32)
    requires TableMatch(CommonDimensions, frameSize).None?
    requires frameSize / 2 < SearchWindow * SearchWindow
    ensures Detect(frameSize) == None
  {
    var pixels := frameSize / 2;
    var s := FloorSqrt(pixels);
    if s >= SearchWindow {
      SquareMonotone(SearchWindow, s);
    }
    assert SearchLower(s) >= s;
  }

  /** Every byte count below 20000 that misses the table is undetectable. */
  lemma DetectBelowTwentyThousand(frameSize: u32)
    requires frameSize < 20000
    ensures Detect(frameSize) == None
  {
    CommonDimensionsMiss(frameSize);
    DetectSmallMiss(frameSize);
  }

  /** 153600 bytes is the 320x240 table row. */
  lemma DetectQvga()
    ensures Detect(153600) == Some(Dims(320, 240))
  {
    DetectTableHit(153600, 1);
  }

  /**
   * 192000 bytes (400x240 in RGB565) misses the table; the search from
   * floor(sqrt(96000)) = 309 stops at the first divisor, 300, giving 300x320.
   */
  lemma Detect192000()
    ensures Detect(192000) == Some(Dims(300, 320))
  {
    CommonDimensionsMiss(192000);
    FloorSqrtUnique(96000, 309);
    assert SearchLower(309) == 209;
    assert SearchFrom(96000, 301, 209) == SearchFrom(96000, 300, 209);
    assert SearchFrom(96000, 309, 209) == SearchFrom(96000, 300, 209);
  }

  /**
   * 76800 bytes misses the table; the search from floor(sqrt(38400)) = 195
   * finds 192x200.
   */
  lemma Detect76800()
    ensures Detect(76800) == Some(Dims(192, 200))
  {
    CommonDimensionsMiss(76800);
    FloorSqrtUnique(38400, 195);
    assert SearchLower(195) == 95;
    assert SearchFrom(38400, 195, 95) == SearchFrom(38400, 192, 95);
  }

  /**
   * 24000 bytes (120x100 in RGB565) misses the table; the search from
   * floor(sqrt(12000)) = 109 stops at 100, giving 100x120.
   */
  lemma Detect24000()
    ensures Detect(24000) == Some(Dims(100, 120))
  {
    CommonDimensionsMiss(24000);
    FloorSqrtUnique(12000, 109);
    assert SearchLower(109) == 9;
    Search12000();
  }

  lemma Search12000()
    ensures SearchFrom(12000, 109, 9) == Some(Dims(100, 120))
  {
    assert SearchFrom(12000, 109, 9) == SearchFrom(12000, 105, 9);
    assert SearchFrom(12000, 105, 9) == SearchFrom(12000, 100, 9);
  }
}

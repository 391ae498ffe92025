/** The tone pipeline of prepareStoryBackground on a resized grey image: local contrast,
    percentiles from a histogram, and the row loop that maps levels into the e-ink range. */
module StoryBackground {
  import opened Common
  import opened LocalContrast

  const SCRIM_PEAK_PERCENT := 25
  const SHADOW_FLOOR := 16
  const HIGHLIGHT_CEILING := 132
  const LOCAL_CONTRAST_PERCENT := 40

  // ----- percentiles -----

  function RowCount(row: seq<int>, n: int, level: int): nat
    requires 0 <= n <= |row|
    decreases n
  {
    if n == 0 then 0 else RowCount(row, n - 1, level) + if row[n - 1] <= level then 1 else 0
  }

  /** The number of pixels in the first y rows that are no brighter than the level. */
  function Count(g: Gray, y: int, level: int): nat
    requires g.Valid() && 0 <= y <= g.height
    decreases y
  {
    if y == 0 then 0 else Count(g, y - 1, level) + RowCount(g.rows[y - 1], g.width, level)
  }

  function Target(g: Gray, percent: nat): nat {
    Max(1, g.width * g.height * percent / 100)
  }

  /** The least level with at least `target` pixels no brighter than it, or 255 if there is none. */
  ghost predicate IsPercentile(g: Gray, target: nat, v: int)
    requires g.Valid()
  {
    && 0 <= v <= 255
    && (forall u :: 0 <= u < v ==> Count(g, g.height, u) < target)
    && (Count(g, g.height, v) >= target || v == 255)
  }

  lemma {:induction false} RowCountMonotone(row: seq<int>, n: int, u: int, v: int)
    requires 0 <= n <= |row| && u <= v
    ensures RowCount(row, n, u) <= RowCount(row, n, v) <= n
    decreases n
  {
    if n > 0 {
      RowCountMonotone(row, n - 1, u, v);
    }
  }

  lemma {:induction false} CountMonotone(g: Gray, y: int, u: int, v: int)
    requires g.Valid() && 0 <= y <= g.height && u <= v
    ensures Count(g, y, u) <= Count(g, y, v)
    decreases y
  {
    if y > 0 {
      CountMonotone(g, y - 1, u, v);
      RowCountMonotone(g.rows[y - 1], g.width, u, v);
    }
  }

  lemma {:induction false} RowCountFull(row: seq<int>, n: int)
    requires 0 <= n <= |row| && forall x :: 0 <= x < |row| ==> row[x] <= 255
    ensures RowCount(row, n, 255) == n
    decreases n
  {
    if n > 0 {
      RowCountFull(row, n - 1);
    }
  }

  lemma {:induction false} CountFull(g: Gray, y: int)
    requires g.Valid() && 0 <= y <= g.height
    ensures Count(g, y, 255) == g.width * y
    decreases y
  {
    if y > 0 {
      CountFull(g, y - 1);
      RowCountFull(g.rows[y - 1], g.width);
      assert g.width * y == g.width * (y - 1) + g.width;
    }
  }

  lemma PercentileUnique(g: Gray, target: nat, u: int, v: int)
    requires g.Valid() && IsPercentile(g, target, u) && IsPercentile(g, target, v)
    ensures u == v
  {
  }

  /** A higher percentile is never darker, and in a nonempty image the level found for at most
      100 percent really has that share of the pixels below or at it. */
  lemma PercentilesOrdered(g: Gray, p: nat, q: nat, u: int, v: int)
    requires g.Valid() && p <= q <= 100
    requires IsPercentile(g, Target(g, p), u) && IsPercentile(g, Target(g, q), v)
    ensures u <= v
    ensures g.width > 0 && g.height > 0 ==> Count(g, g.height, v) >= Target(g, q)
  {
    var total := g.width * g.height;
    MulMonotone(p, q, total);
    assert p * total == total * p && q * total == total * q;
    CountFull(g, g.height);
    if g.width > 0 && g.height > 0 {
      MulMonotone(1, g.width, g.height);
      MulMonotone(q, 100, total);
    }
  }

  /** The histogram has, for each level, the pixels of exactly that level. */
  ghost predicate IsHistogram(g: Gray, y: int, histogram: array<int>)
    requires g.Valid() && 0 <= y <= g.height
    reads histogram
  {
    histogram.Length == 256
    && forall v :: 0 <= v < 256 ==> histogram[v] == Count(g, y, v) - Count(g, y, v - 1)
  }

  method Histogram(g: Gray) returns (histogram: array<int>)
    requires g.Valid()
    ensures IsHistogram(g, g.height, histogram) && fresh(histogram)
  {
    histogram := new int[256](_ => 0);
    for y := 0 to g.height
      invariant IsHistogram(g, y, histogram)
    {
      for x := 0 to g.width
        invariant forall v :: 0 <= v < 256 ==>
          histogram[v] == Count(g, y, v) - Count(g, y, v - 1)
                          + RowCount(g.rows[y], x, v) - RowCount(g.rows[y], x, v - 1)
      {
        var level := g.rows[y][x];
        histogram[level] := histogram[level] + 1;
      }
    }
  }

  method ValueAt(g: Gray, histogram: array<int>, percent: nat) returns (level: int)
    requires g.Valid() && IsHistogram(g, g.height, histogram)
    ensures IsPercentile(g, Target(g, percent), level)
  {
    var target := Max(1, g.width * g.height * percent / 100);
    var seen := 0;
    NothingBelowBlack(g, g.height);
    for value := 0 to 256
      invariant seen == Count(g, g.height, value - 1)
      invariant forall u :: 0 <= u < value ==> Count(g, g.height, u) < target
    {
      seen := seen + histogram[value];
      if seen >= target {
        return value;
      }
    }
    return 255;
  }

  lemma {:induction false} NothingBelowBlack(g: Gray, y: int)
    requires g.Valid() && 0 <= y <= g.height
    ensures Count(g, y, -1) == 0
    decreases y
  {
    if y > 0 {
      NothingBelowBlack(g, y - 1);
      RowNothingBelowBlack(g.rows[y - 1], g.width);
    }
  }

  lemma {:induction false} RowNothingBelowBlack(row: seq<int>, n: int)
    requires 0 <= n <= |row| && forall x :: 0 <= x < |row| ==> 0 <= row[x]
    ensures RowCount(row, n, -1) == 0
    decreases n
  {
    if n > 0 {
      RowNothingBelowBlack(row, n - 1);
    }
  }

  method GrayscalePercentiles(g: Gray, lowPercent: nat, highPercent: nat) returns (low: int, high: int)
    requires g.Valid()
    ensures IsPercentile(g, Target(g, lowPercent), low) && IsPercentile(g, Target(g, highPercent), high)
  {
    var histogram := Histogram(g);
    low := ValueAt(g, histogram, lowPercent);
    high := ValueAt(g, histogram, highPercent);
  }

  // ----- tone -----

  /** A monotone curve of the unit interval into itself, such as the power curve of the code. */
  ghost predicate ToneCurve(curve: real -> real) {
    && (forall r: real :: 0.0 <= r <= 1.0 ==> 0.0 <= curve(r) <= 1.0)
    && (forall r: real, t: real :: 0.0 <= r <= t <= 1.0 ==> curve(r) <= curve(t))
  }

  /** Rounding half away from zero, for the nonnegative values it is used on. */
  function Round(r: real): int {
    (r + 0.5).Floor
  }

  function EinkTone(luma: int, low: int, high: int, curve: real -> real): int {
    if luma <= low then SHADOW_FLOOR
    else if luma >= high then HIGHLIGHT_CEILING
    else
      var normalized := (luma - low) as real / (high - low) as real;
      SHADOW_FLOOR + Round(curve(normalized) * (HIGHLIGHT_CEILING - SHADOW_FLOOR) as real)
  }

  lemma Normalized(luma: int, low: int, high: int)
    requires low < luma < high
    ensures 0.0 <= (luma - low) as real / (high - low) as real <= 1.0
  {
    QuotientMonotone(0, luma - low, high - low);
    QuotientMonotone(luma - low, high - low, high - low);
  }

  lemma QuotientMonotone(a: int, b: int, c: int)
    requires a <= b && c > 0
    ensures a as real / c as real <= b as real / c as real
  {
  }

  lemma RoundMonotone(a: real, b: real)
    requires a <= b
    ensures Round(a) <= Round(b)
  {
  }

  /** Every level maps into the e-ink range, darker levels never map above brighter ones. */
  lemma ToneMonotone(a: int, b: int, low: int, high: int, curve: real -> real)
    requires ToneCurve(curve) && a <= b && low < high
    ensures SHADOW_FLOOR <= EinkTone(a, low, high, curve) <= EinkTone(b, low, high, curve) <= HIGHLIGHT_CEILING
  {
    if low < b < high {
      Normalized(b, low, high);
      var nb := (b - low) as real / (high - low) as real;
      RoundMonotone(0.0, curve(nb) * 116.0);
      RoundMonotone(curve(nb) * 116.0, 116.0);
      if low < a {
        Normalized(a, low, high);
        QuotientMonotone(a - low, b - low, high - low);
        var na := (a - low) as real / (high - low) as real;
        assert curve(na) <= curve(nb);
        RoundMonotone(curve(na) * 116.0, curve(nb) * 116.0);
        RoundMonotone(0.0, curve(na) * 116.0);
      }
    } else if low < a < high {
      Normalized(a, low, high);
      var na := (a - low) as real / (high - low) as real;
      RoundMonotone(0.0, curve(na) * 116.0);
      RoundMonotone(curve(na) * 116.0, 116.0);
    }
  }

  function ScrimPercent(yPct: int): int {
    if yPct < 8 then Quotient(yPct * SCRIM_PEAK_PERCENT, 8)
    else if yPct < 82 then SCRIM_PEAK_PERCENT
    else if yPct < 100 then Quotient(SCRIM_PEAK_PERCENT * (100 - yPct), 18)
    else 0
  }

  /** The level drawn in row y for a detail level. */
  function Drawn(height: int, y: int, detail: int, low: int, high: int, curve: real -> real): int
    requires height > 0
  {
    EinkTone(detail, low, high, curve) * (100 - ScrimPercent(y * 100 / height)) / 100
  }

  lemma RowPercent(height: int, y: int)
    requires 0 <= y < height
    ensures 0 <= y * 100 / height < 100
  {
    var q := y * 100 / height;
    assert y * 100 == q * height + y * 100 % height;
    if q >= 100 {
      MulMonotone(100, q, height);
    }
    if q < 0 {
      MulMonotone(q, -1, height);
    }
  }

  /** In every row the mapping is monotone, its values are in 12..132, and in the band of the
      copy they are at most 99. */
  lemma DrawnRange(height: int, y: int, a: int, b: int, low: int, high: int, curve: real -> real)
    requires ToneCurve(curve) && 0 <= y < height && low < high && a <= b
    ensures 12 <= Drawn(height, y, a, low, high, curve) <= Drawn(height, y, b, low, high, curve) <= 132
    ensures 8 <= y * 100 / height < 82 ==> Drawn(height, y, b, low, high, curve) <= 99
  {
    RowPercent(height, y);
    ToneMonotone(a, b, low, high, curve);
    var keep := 100 - ScrimPercent(y * 100 / height);
    assert 75 <= keep <= 100;
    var ta, tb := EinkTone(a, low, high, curve), EinkTone(b, low, high, curve);
    MulMonotone(16, ta, keep);
    MulMonotone(ta, tb, keep);
    MulMonotone(tb, 132, keep);
  }

  // ----- the whole pipeline -----

  /** The bounds of the tone mapping: the percentiles, unless the image is nearly flat. */
  ghost predicate Bounds(detail: Gray, low: int, high: int)
    requires detail.Valid()
  {
    exists p, q ::
      && IsPercentile(detail, Target(detail, 2), p)
      && IsPercentile(detail, Target(detail, 98), q)
      && (if q - p < 32 then low == 0 && high == 255 else low == p && high == q)
  }

  /** After the fallback for flat images the tone division is defined. */
  lemma BoundsApart(detail: Gray, low: int, high: int)
    requires detail.Valid() && Bounds(detail, low, high)
    ensures high - low >= 32 && 0 <= low && high <= 255
  {
  }

  /** Detail is the locally enhanced image, and the picture is its tone-mapped rows. */
  method Prepare(resized: Gray, curve: real -> real)
    returns (background: Option<Gray>, ghost detail: Gray, ghost low: int, ghost high: int)
    requires resized.Valid() && ToneCurve(curve)
    ensures background.None? <==> resized.width < 1 || resized.height < 1
    ensures background.Some? ==>
              && detail.Valid() && detail.width == resized.width && detail.height == resized.height
              && (forall x, y :: 0 <= x < resized.width && 0 <= y < resized.height ==>
                    detail.rows[y][x] == Enhanced(resized, Max(2, Min(resized.width, resized.height) / 80),
                                                  LOCAL_CONTRAST_PERCENT, x, y))
              && Bounds(detail, low, high)
    ensures background.Some? ==>
              var g := background.value;
              && g.Valid() && g.width == resized.width && g.height == resized.height
              && (forall x, y :: 0 <= x < g.width && 0 <= y < g.height ==>
                    g.rows[y][x] == Drawn(g.height, y, detail.rows[y][x], low, high, curve))
              && (forall x, y :: 0 <= x < g.width && 0 <= y < g.height ==>
                    12 <= g.rows[y][x] <= (if 8 <= y * 100 / g.height < 82 then 99 else 132))
  {
    detail, low, high := resized, 0, 255;
    if resized.width < 1 || resized.height < 1 {
      return None, detail, low, high;
    }
    var sharp := EnhanceLocalContrast(resized, Max(2, Min(resized.width, resized.height) / 80), LOCAL_CONTRAST_PERCENT);
    detail := sharp;
    var lo, hi := GrayscalePercentiles(sharp, 2, 98);
    if hi - lo < 32 {
      lo, hi := 0, 255;
    }
    low, high := lo, hi;
    BoundsApart(sharp, lo, hi);
    var rows := DrawRows(sharp, lo, hi, curve);
    var g := Gray(resized.width, resized.height, rows);
    forall x, y | 0 <= x < g.width && 0 <= y < g.height
      ensures 12 <= g.rows[y][x] <= (if 8 <= y * 100 / g.height < 82 then 99 else 132)
    {
      DrawnRange(g.height, y, detail.rows[y][x], detail.rows[y][x], low, high, curve);
    }
    background := Some(g);
  }

  method DrawRows(detail: Gray, low: int, high: int, curve: real -> real) returns (rows: seq<seq<int>>)
    requires detail.Valid() && detail.height > 0
    ensures |rows| == detail.height
    ensures forall y :: 0 <= y < detail.height ==> |rows[y]| == detail.width
    ensures forall x, y :: 0 <= x < detail.width && 0 <= y < detail.height ==>
              rows[y][x] == Drawn(detail.height, y, detail.rows[y][x], low, high, curve)
  {
    rows := [];
    for y := 0 to detail.height
      invariant |rows| == y
      invariant forall j :: 0 <= j < y ==> |rows[j]| == detail.width
      invariant forall x, j :: 0 <= x < detail.width && 0 <= j < y ==>
        rows[j][x] == Drawn(detail.height, j, detail.rows[j][x], low, high, curve)
    {
      var yPct := y * 100 / detail.height;
      var scrim := ScrimPercent(yPct);
      var row := [];
      for x := 0 to detail.width
        invariant |row| == x
        invariant forall i :: 0 <= i < x ==>
          row[i] == Drawn(detail.height, y, detail.rows[y][i], low, high, curve)
      {
        var luma := EinkTone(detail.rows[y][x], low, high, curve);
        luma := luma * (100 - scrim) / 100;
        row := row + [luma];
      }
      rows := rows + [row];
    }
  }
}

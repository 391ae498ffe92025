/** The unsharp mask of enhanceLocalContrast: a filter over an integral image, proved to
    compute what summing every window pixel by pixel would. */
module LocalContrast {

  /** A grey image, row by row. */
  datatype Gray = Gray(width: nat, height: nat, rows: seq<seq<int>>) {

    predicate Valid() {
      && |rows| == height
      && forall y :: 0 <= y < height ==> |rows[y]| == width && forall x :: 0 <= x < width ==> 0 <= rows[y][x] <= 255
    }

    function At(x: int, y: int): int
      requires Valid() && 0 <= x < width && 0 <= y < height
    {
      rows[y][x]
    }
  }

  function Max(a: int, b: int): int {
    if a < b then b else a
  }

  function Min(a: int, b: int): int {
    if a < b then a else b
  }

  /** Go's integer division: it truncates toward zero. */
  function Quotient(a: int, b: int): int
    requires b > 0
  {
    if a >= 0 then a / b else -(-a / b)
  }

  // ----- brute force -----

  function RowSum(row: seq<int>, x0: int, x1: int): int
    requires 0 <= x0 <= x1 <= |row|
    decreases x1
  {
    if x0 == x1 then 0 else RowSum(row, x0, x1 - 1) + row[x1 - 1]
  }

  /** The sum over x0 <= x < x1 and y0 <= y < y1, pixel by pixel. */
  function WindowSum(g: Gray, x0: int, y0: int, x1: int, y1: int): int
    requires g.Valid() && 0 <= x0 <= x1 <= g.width && 0 <= y0 <= y1 <= g.height
    decreases y1
  {
    if y0 == y1 then 0 else WindowSum(g, x0, y0, x1, y1 - 1) + RowSum(g.rows[y1 - 1], x0, x1)
  }

  /** The window of a pixel: its neighbourhood clipped to the image. */
  datatype Window = Window(x0: int, y0: int, x1: int, y1: int) {
    function Area(): int {
      (x1 - x0) * (y1 - y0)
    }
  }

  function WindowOf(g: Gray, radius: int, x: int, y: int): Window {
    Window(Max(0, x - radius), Max(0, y - radius), Min(g.width, x + radius + 1), Min(g.height, y + radius + 1))
  }

  /** A window inside the image with at least one pixel. */
  ghost predicate Proper(g: Gray, w: Window) {
    0 <= w.x0 < w.x1 <= g.width && 0 <= w.y0 < w.y1 <= g.height
  }

  lemma AreaPositive(g: Gray, w: Window)
    requires Proper(g, w)
    ensures w.Area() >= 1
  {
    MulMonotone(1, w.x1 - w.x0, w.y1 - w.y0);
  }

  lemma MulMonotone(a: int, b: int, c: int)
    requires a <= b && 0 <= c
    ensures a * c <= b * c
  {
    assert b * c - a * c == (b - a) * c;
  }

  function Mean(g: Gray, w: Window): int
    requires g.Valid() && Proper(g, w)
  {
    AreaPositive(g, w);
    WindowSum(g, w.x0, w.y0, w.x1, w.y1) / w.Area()
  }

  /** The enhanced grey level of one pixel. */
  function Enhanced(g: Gray, radius: int, amount: int, x: int, y: int): int
    requires g.Valid() && 0 <= x < g.width && 0 <= y < g.height && radius >= 1
  {
    var center := g.At(x, y);
    var mean := Mean(g, WindowOf(g, radius, x, y));
    Max(0, Min(255, center + Quotient((center - mean) * amount, 100)))
  }

  // ----- four corners -----

  function Prefix(g: Gray, x: int, y: int): int
    requires g.Valid() && 0 <= x <= g.width && 0 <= y <= g.height
  {
    WindowSum(g, 0, 0, x, y)
  }

  lemma {:induction false} RowSplits(row: seq<int>, x0: int, x1: int)
    requires 0 <= x0 <= x1 <= |row|
    ensures RowSum(row, 0, x1) == RowSum(row, 0, x0) + RowSum(row, x0, x1)
    decreases x1
  {
    if x0 < x1 {
      RowSplits(row, x0, x1 - 1);
    }
  }

  /** The four-corner lookup gives the sum over any window. */
  lemma {:induction false} FourCorners(g: Gray, x0: int, y0: int, x1: int, y1: int)
    requires g.Valid() && 0 <= x0 <= x1 <= g.width && 0 <= y0 <= y1 <= g.height
    ensures Prefix(g, x1, y1) - Prefix(g, x1, y0) - Prefix(g, x0, y1) + Prefix(g, x0, y0)
            == WindowSum(g, x0, y0, x1, y1)
    decreases y1
  {
    if y0 < y1 {
      FourCorners(g, x0, y0, x1, y1 - 1);
      RowSplits(g.rows[y1 - 1], x0, x1);
    }
  }

  // ----- what the filter does to a picture -----

  lemma {:induction false} RowBounds(row: seq<int>, x0: int, x1: int, lo: int, hi: int)
    requires 0 <= x0 <= x1 <= |row| && forall x :: x0 <= x < x1 ==> lo <= row[x] <= hi
    ensures lo * (x1 - x0) <= RowSum(row, x0, x1) <= hi * (x1 - x0)
    decreases x1
  {
    if x0 < x1 {
      RowBounds(row, x0, x1 - 1, lo, hi);
      assert lo * (x1 - x0) == lo * (x1 - 1 - x0) + lo;
      assert hi * (x1 - x0) == hi * (x1 - 1 - x0) + hi;
    }
  }

  /** Every pixel of the window lies between lo and hi. */
  ghost predicate Within(g: Gray, w: Window, lo: int, hi: int)
    requires g.Valid() && 0 <= w.x0 && w.x1 <= g.width && 0 <= w.y0 && w.y1 <= g.height
  {
    forall x, y :: w.x0 <= x < w.x1 && w.y0 <= y < w.y1 ==> lo <= g.rows[y][x] <= hi
  }

  lemma AddRow(c: int, n: int, m: int)
    ensures c * (n * m) == c * (n * (m - 1)) + c * n
  {
    assert n * m == n * (m - 1) + n;
    Distribute(c, n * (m - 1), n);
  }

  lemma Distribute(c: int, a: int, b: int)
    ensures c * (a + b) == c * a + c * b
  {
  }

  lemma {:induction false} SumBounds(g: Gray, w: Window, lo: int, hi: int)
    requires g.Valid() && 0 <= w.x0 <= w.x1 <= g.width && 0 <= w.y0 <= w.y1 <= g.height
    requires Within(g, w, lo, hi)
    ensures lo * w.Area() <= WindowSum(g, w.x0, w.y0, w.x1, w.y1) <= hi * w.Area()
    decreases w.y1
  {
    var n, m := w.x1 - w.x0, w.y1 - w.y0;
    assert w.Area() == n * m;
    if m > 0 {
      var above := w.(y1 := w.y1 - 1);
      SumBounds(g, above, lo, hi);
      assert above.Area() == n * (m - 1);
      RowBounds(g.rows[w.y1 - 1], w.x0, w.x1, lo, hi);
      AddRow(lo, n, m);
      AddRow(hi, n, m);
    }
  }

  lemma DivBetween(sum: int, n: int, lo: int, hi: int)
    requires n > 0 && lo * n <= sum <= hi * n
    ensures lo <= sum / n <= hi
  {
    var q := sum / n;
    assert sum == q * n + sum % n;
    assert (q + 1) * n == q * n + n;
    assert (hi + 1) * n == hi * n + n;
    if q < lo {
      MulMonotone(q + 1, lo, n);
    }
    if q > hi {
      MulMonotone(hi + 1, q, n);
    }
  }

  /** The local mean lies between any bounds of the window's pixels. */
  lemma MeanBetween(g: Gray, w: Window, lo: int, hi: int)
    requires g.Valid() && Proper(g, w) && Within(g, w, lo, hi)
    ensures lo <= Mean(g, w) <= hi
  {
    AreaPositive(g, w);
    SumBounds(g, w, lo, hi);
    DivBetween(WindowSum(g, w.x0, w.y0, w.x1, w.y1), w.Area(), lo, hi);
  }

  /** A pixel in a flat neighbourhood keeps its level; a pixel never moves toward the local
      mean, and the result is a grey level again. */
  lemma EnhancedAwayFromMean(g: Gray, radius: int, amount: int, x: int, y: int)
    requires g.Valid() && 0 <= x < g.width && 0 <= y < g.height && radius >= 1 && amount > 0
    ensures var center := g.At(x, y); var w := WindowOf(g, radius, x, y);
            var out := Enhanced(g, radius, amount, x, y);
            && 0 <= out <= 255
            && (center >= Mean(g, w) ==> out >= center)
            && (center <= Mean(g, w) ==> out <= center)
            && (Within(g, w, center, center) ==> out == center)
  {
    var center := g.At(x, y);
    var w := WindowOf(g, radius, x, y);
    var d := center - Mean(g, w);
    if d >= 0 {
      MulMonotone(0, d, amount);
    } else {
      MulMonotone(0, -d, amount);
      assert -(d * amount) == -d * amount;
    }
    if Within(g, w, center, center) {
      MeanBetween(g, w, center, center);
    }
  }

  lemma {:induction false} SumLocal(g: Gray, h: Gray, w: Window)
    requires g.Valid() && h.Valid() && g.width == h.width && g.height == h.height
    requires 0 <= w.x0 <= w.x1 <= g.width && 0 <= w.y0 <= w.y1 <= g.height
    requires forall x, y :: w.x0 <= x < w.x1 && w.y0 <= y < w.y1 ==> g.rows[y][x] == h.rows[y][x]
    ensures WindowSum(g, w.x0, w.y0, w.x1, w.y1) == WindowSum(h, w.x0, w.y0, w.x1, w.y1)
    decreases w.y1
  {
    if w.y0 < w.y1 {
      SumLocal(g, h, w.(y1 := w.y1 - 1));
      RowLocal(g.rows[w.y1 - 1], h.rows[w.y1 - 1], w.x0, w.x1);
    }
  }

  lemma {:induction false} RowLocal(a: seq<int>, b: seq<int>, x0: int, x1: int)
    requires |a| == |b| && 0 <= x0 <= x1 <= |a|
    requires forall x :: x0 <= x < x1 ==> a[x] == b[x]
    ensures RowSum(a, x0, x1) == RowSum(b, x0, x1)
    decreases x1
  {
    if x0 < x1 {
      RowLocal(a, b, x0, x1 - 1);
    }
  }

  /** A pixel's result depends on nothing outside its window. */
  lemma EnhancedIsLocal(g: Gray, h: Gray, radius: int, amount: int, x: int, y: int)
    requires g.Valid() && h.Valid() && g.width == h.width && g.height == h.height
    requires 0 <= x < g.width && 0 <= y < g.height && radius >= 1
    requires var w := WindowOf(g, radius, x, y);
             forall i, j :: w.x0 <= i < w.x1 && w.y0 <= j < w.y1 ==> g.rows[j][i] == h.rows[j][i]
    ensures Enhanced(g, radius, amount, x, y) == Enhanced(h, radius, amount, x, y)
  {
    SumLocal(g, h, WindowOf(g, radius, x, y));
  }

  /** No entry of the integral image exceeds 255 per pixel, so a 64-bit sum cannot wrap for any
      image of at most 2^55 pixels. */
  lemma PrefixBounded(g: Gray, x: int, y: int)
    requires g.Valid() && 0 <= x <= g.width && 0 <= y <= g.height
    ensures 0 <= Prefix(g, x, y) <= 255 * (g.width * g.height)
  {
    var w := Window(0, 0, x, y);
    SumBounds(g, w, 0, 255);
    MulMonotone(x, g.width, y);
    MulMonotone(y, g.height, g.width);
    assert w.Area() == x * y <= g.width * g.height;
  }

  // ----- the code -----

  /** The entry of the integral image stored at flat index k. */
  ghost function Entry(g: Gray, k: nat): int
    requires g.Valid() && k < (g.width + 1) * (g.height + 1)
  {
    RowAndColumn(g.width + 1, g.height + 1, k);
    Prefix(g, k % (g.width + 1), k / (g.width + 1))
  }

  lemma RowAndColumn(stride: nat, n: nat, k: nat)
    requires stride > 0 && k < stride * n
    ensures 0 <= k % stride < stride && 0 <= k / stride < n
  {
    var q := k / stride;
    assert k == q * stride + k % stride;
    assert n * stride == stride * n;
    if q >= n {
      MulMonotone(n, q, stride);
    }
  }

  lemma FlatIndex(stride: nat, n: nat, i: nat, j: nat)
    requires i < n && j < stride
    ensures i * stride + j < stride * n
    ensures (i * stride + j) / stride == i && (i * stride + j) % stride == j
  {
    MulMonotone(i + 1, n, stride);
    assert (i + 1) * stride == i * stride + stride;
    assert n * stride == stride * n;
    DivUnique(i * stride + j, stride, i, j);
  }

  lemma DivUnique(k: int, stride: int, i: int, j: int)
    requires 0 <= j < stride && k == i * stride + j
    ensures k / stride == i && k % stride == j
  {
    var q, r := k / stride, k % stride;
    assert k == q * stride + r;
    assert (q + 1) * stride == q * stride + stride;
    assert (i + 1) * stride == i * stride + stride;
    if q < i {
      MulMonotone(q + 1, i, stride);
    }
    if q > i {
      MulMonotone(i + 1, q, stride);
    }
  }

  /** Looking up row i, column j. */
  lemma EntryAt(g: Gray, i: nat, j: nat)
    requires g.Valid() && i <= g.height && j <= g.width
    ensures i * (g.width + 1) + j < (g.width + 1) * (g.height + 1)
    ensures Entry(g, i * (g.width + 1) + j) == Prefix(g, j, i)
  {
    FlatIndex(g.width + 1, g.height + 1, i, j);
  }

  ghost function Entries(g: Gray): (e: seq<int>)
    requires g.Valid()
    ensures |e| == (g.width + 1) * (g.height + 1)
  {
    seq((g.width + 1) * (g.height + 1), k requires 0 <= k < (g.width + 1) * (g.height + 1) => Entry(g, k))
  }

  /** The integral image is filled up to index k. */
  ghost predicate FilledTo(target: seq<int>, integral: array<int>, k: int)
    reads integral
  {
    && integral.Length == |target| && 0 <= k <= |target|
    && (forall i :: 0 <= i < k ==> integral[i] == target[i])
    && (forall i :: k <= i < |target| ==> integral[i] == 0)
  }

  /** From index `base` on, the target holds the prefix sums of the first y rows. */
  ghost predicate HoldsRow(g: Gray, target: seq<int>, base: nat, y: nat)
    requires g.Valid() && y <= g.height
  {
    base + g.width < |target| && forall j :: 0 <= j <= g.width ==> target[base + j] == Prefix(g, j, y)
  }

  lemma EntriesHoldRow(g: Gray, y: nat)
    requires g.Valid() && y <= g.height
    ensures HoldsRow(g, Entries(g), y * (g.width + 1), y)
  {
    EntryAt(g, y, g.width);
    forall j | 0 <= j <= g.width ensures Entries(g)[y * (g.width + 1) + j] == Prefix(g, j, y) {
      EntryAt(g, y, j);
    }
  }

  /** One row of the integral image: `base` is where row y begins. */
  method FillRow(g: Gray, integral: array<int>, y: nat, base: nat, ghost target: seq<int>)
    requires g.Valid() && y < g.height
    requires HoldsRow(g, target, base, y) && HoldsRow(g, target, base + (g.width + 1), y + 1)
    requires FilledTo(target, integral, base + (g.width + 1))
    modifies integral
    ensures FilledTo(target, integral, base + 2 * (g.width + 1))
  {
    var next := base + (g.width + 1);
    assert target[next + 0] == Prefix(g, 0, y + 1) == 0 by {
      EmptyPrefix(g, y + 1);
    }
    var rowSum := 0;
    for x := 0 to g.width
      invariant rowSum == RowSum(g.rows[y], 0, x)
      invariant FilledTo(target, integral, next + x + 1)
    {
      rowSum := rowSum + g.rows[y][x];
      assert integral[base + (x + 1)] == Prefix(g, x + 1, y);
      assert target[next + (x + 1)] == Prefix(g, x + 1, y + 1);
      integral[next + x + 1] := integral[base + x + 1] + rowSum;
    }
  }

  lemma {:induction false} EmptyPrefix(g: Gray, y: nat)
    requires g.Valid() && y <= g.height
    ensures Prefix(g, 0, y) == 0
    decreases y
  {
    if y > 0 {
      EmptyPrefix(g, y - 1);
    }
  }

  lemma FirstRowIsZero(g: Gray)
    requires g.Valid()
    ensures |Entries(g)| >= g.width + 1 && forall k :: 0 <= k < g.width + 1 ==> Entries(g)[k] == 0
  {
    EntriesHoldRow(g, 0);
    forall k | 0 <= k < g.width + 1 ensures k < |Entries(g)| && Entries(g)[k] == 0 {
      assert Entries(g)[0 + k] == Prefix(g, k, 0);
    }
  }

  method Integral(g: Gray) returns (integral: array<int>)
    requires g.Valid()
    ensures integral[..] == Entries(g)
  {
    var stride := g.width + 1;
    ghost var target := Entries(g);
    integral := new int[stride * (g.height + 1)](_ => 0);
    FirstRowIsZero(g);
    var base := 0;
    for y := 0 to g.height
      invariant base == y * stride
      invariant FilledTo(target, integral, base + stride)
    {
      EntriesHoldRow(g, y);
      EntriesHoldRow(g, y + 1);
      NextBase(y, stride);
      FillRow(g, integral, y, base, target);
      base := base + stride;
    }
    NextBase(g.height, stride);
  }

  lemma NextBase(y: nat, stride: nat)
    ensures (y + 1) * stride == y * stride + stride == stride * (y + 1)
  {
  }

  /** Every output pixel is the brute-force value; without a proper radius, amount or size the
      image is only copied. */
  method EnhanceLocalContrast(g: Gray, radius: int, amount: int) returns (result: Gray)
    requires g.Valid()
    ensures result.width == g.width && result.height == g.height && result.Valid()
    ensures g.width == 0 || g.height == 0 || radius < 1 || amount <= 0 ==> result == g
    ensures g.width > 0 && g.height > 0 && radius >= 1 && amount > 0 ==>
              forall x, y :: 0 <= x < g.width && 0 <= y < g.height ==>
                result.rows[y][x] == Enhanced(g, radius, amount, x, y)
  {
    if g.width == 0 || g.height == 0 || radius < 1 || amount <= 0 {
      return g;
    }
    var integral := Integral(g);
    var rows := [];
    for y := 0 to g.height
      invariant |rows| == y && integral[..] == Entries(g)
      invariant forall j :: 0 <= j < y ==> IsEnhancedRow(g, radius, amount, j, rows[j])
    {
      var row := EnhanceRow(g, integral, radius, amount, y);
      rows := rows + [row];
    }
    result := Gray(g.width, g.height, rows);
    forall x, y | 0 <= x < g.width && 0 <= y < g.height
      ensures rows[y][x] == Enhanced(g, radius, amount, x, y) && 0 <= rows[y][x] <= 255
    {
      assert IsEnhancedRow(g, radius, amount, y, rows[y]);
      EnhancedAwayFromMean(g, radius, amount, x, y);
    }
  }

  ghost predicate IsEnhancedRow(g: Gray, radius: int, amount: int, y: int, row: seq<int>)
    requires g.Valid() && 0 <= y < g.height && radius >= 1
  {
    |row| == g.width && forall x :: 0 <= x < g.width ==> row[x] == Enhanced(g, radius, amount, x, y)
  }

  method EnhanceRow(g: Gray, integral: array<int>, radius: int, amount: int, y: int) returns (row: seq<int>)
    requires g.Valid() && 0 <= y < g.height && radius >= 1
    requires integral[..] == Entries(g)
    ensures IsEnhancedRow(g, radius, amount, y, row)
  {
    row := [];
    for x := 0 to g.width
      invariant |row| == x
      invariant forall i :: 0 <= i < x ==> row[i] == Enhanced(g, radius, amount, i, y)
    {
      var level := Pixel(g, integral, radius, amount, x, y);
      row := row + [level];
    }
  }

  /** Where the code looks up corner (x, y). */
  lemma Corner(g: Gray, x: nat, y: nat)
    requires g.Valid() && x <= g.width && y <= g.height
    ensures 0 <= y * (g.width + 1) + x < |Entries(g)|
    ensures Entries(g)[y * (g.width + 1) + x] == Prefix(g, x, y)
  {
    EntryAt(g, y, x);
  }

  /** The four-corner lookup in a filled integral image. */
  method Lookup(g: Gray, integral: array<int>, w: Window) returns (sum: int)
    requires g.Valid() && Proper(g, w) && integral[..] == Entries(g)
    ensures sum == WindowSum(g, w.x0, w.y0, w.x1, w.y1)
  {
    var stride := g.width + 1;
    Corner(g, w.x1, w.y1);
    Corner(g, w.x1, w.y0);
    Corner(g, w.x0, w.y1);
    Corner(g, w.x0, w.y0);
    ghost var e := integral[..];
    sum := integral[w.y1 * stride + w.x1] - integral[w.y0 * stride + w.x1]
           - integral[w.y1 * stride + w.x0] + integral[w.y0 * stride + w.x0];
    assert sum == e[w.y1 * stride + w.x1] - e[w.y0 * stride + w.x1]
                  - e[w.y1 * stride + w.x0] + e[w.y0 * stride + w.x0];
    FourCorners(g, w.x0, w.y0, w.x1, w.y1);
  }

  method Pixel(g: Gray, integral: array<int>, radius: int, amount: int, x: int, y: int) returns (level: int)
    requires g.Valid() && 0 <= x < g.width && 0 <= y < g.height && radius >= 1
    requires integral[..] == Entries(g)
    ensures level == Enhanced(g, radius, amount, x, y)
  {
    var w := WindowOf(g, radius, x, y);
    var sum := Lookup(g, integral, w);
    AreaPositive(g, w);
    var mean := sum / w.Area();
    var center := g.At(x, y);
    var enhanced := center + Quotient((center - mean) * amount, 100);
    level := Max(0, Min(255, enhanced));
  }
}

// edge_aware_smooth_rgba: replace every opaque pixel by a rounded weighted mean of the
// similar pixels around it, a given number of times.
module Smooth {
  import opened Wrappers
  import opened Grid
  import opened Despeckle

  function RgbDistance(c: Color, n: Color): nat
  {
    var red, green, blue := c.r - n.r, c.g - n.g, c.b - n.b;
    assert red * red >= 0 && green * green >= 0 && blue * blue >= 0;
    red * red + green * green + blue * blue
  }

  // The neighbour is opaque and close enough to the centre in alpha and in colour.
  predicate Contributes(center: Color, neighbor: Color, limit: nat, threshold: byte)
  {
    && neighbor.a > threshold
    && AbsDiff(center.a, neighbor.a) <= limit
    && RgbDistance(center, neighbor) <= limit * limit
  }

  function Channel(c: Color, channel: nat): byte
  {
    if channel == 0 then c.r else if channel == 1 then c.g else if channel == 2 then c.b else c.a
  }

  // Weight of a contributing neighbour: at least one, at most sixteen.
  function Weight(center: Color, neighbor: Color, limit: nat, threshold: byte, sameX: bool, sameY: bool): (w: nat)
    requires limit > 0 && Contributes(center, neighbor, limit, threshold)
    ensures 1 <= w <= 16
  {
    var spatial := if sameX && sameY then 4 else if sameX || sameY then 2 else 1;
    var room := limit * limit - RgbDistance(center, neighbor);
    ColorWeightRange(room, limit * limit);
    spatial * (1 + room * 3 / (limit * limit))
  }

  lemma ColorWeightRange(room: nat, square: nat)
    requires room <= square && square > 0
    ensures 0 <= room * 3 / square <= 3
  {
    assert room * 3 <= 3 * square;
  }

  // ---- Specification of one pass ------------------------------------------------------------

  // A sampled value: one of the four channels, or the constant one for the total weight.
  function Value(c: Color, channel: nat): nat
  {
    if channel < 4 then Channel(c, channel) else 1
  }

  function Weighted(value: nat, weight: nat): nat
  {
    value * weight
  }

  datatype View = View(image: seq<Color>, width: nat, height: nat, limit: nat, threshold: byte)
  {
    ghost predicate Valid()
    {
      |image| == width * height && limit > 0
    }

    function At(x: nat, y: nat): Color
      requires Valid() && x < width && y < height
    {
      CellsFit(width, height);
      image[Cell(width, x, y)]
    }

    // What the neighbour (nx, ny) adds to a sum for the pixel (x, y).
    function Term(x: nat, y: nat, nx: nat, ny: nat, channel: nat): nat
      requires Valid() && x < width && y < height && nx < width && ny < height
    {
      var center, neighbor := At(x, y), At(nx, ny);
      if Contributes(center, neighbor, limit, threshold) then
        Weighted(Value(neighbor, channel), Weight(center, neighbor, limit, threshold, nx == x, ny == y))
      else 0
    }

    // Columns x0 .. x1-1 of one row.
    function RowSum(x: nat, y: nat, ny: nat, x0: nat, x1: nat, channel: nat): nat
      requires Valid() && x < width && y < height && ny < height && x0 <= x1 <= width
    {
      if x0 == x1 then 0 else RowSum(x, y, ny, x0, x1 - 1, channel) + Term(x, y, x1 - 1, ny, channel)
    }

    function RectSum(x: nat, y: nat, x0: nat, x1: nat, y0: nat, y1: nat, channel: nat): nat
      requires Valid() && x < width && y < height && x0 <= x1 <= width && y0 <= y1 <= height
    {
      if y0 == y1 then 0
      else RectSum(x, y, x0, x1, y0, y1 - 1, channel) + RowSum(x, y, y1 - 1, x0, x1, channel)
    }

    // Sum over the 3 x 3 window clipped to the image.
    function WindowSum(x: nat, y: nat, channel: nat): nat
      requires Valid() && x < width && y < height
    {
      RectSum(x, y, Low(x), High(x, width), Low(y), High(y, height), channel)
    }

    // In the window, and let through by the alpha and colour tests.
    ghost predicate Heard(x: nat, y: nat, nx: nat, ny: nat)
      requires Valid() && x < width && y < height
    {
      && nx < width && ny < height && AbsDiff(nx, x) <= 1 && AbsDiff(ny, y) <= 1
      && Contributes(At(x, y), At(nx, ny), limit, threshold)
    }
  }

  function Low(x: nat): nat
  {
    if x == 0 then 0 else x - 1
  }

  function High(x: nat, size: nat): nat
    requires x < size
  {
    if x + 1 < size then x + 2 else size
  }

  function RoundedMean(sum: nat, weight: nat): nat
    requires weight > 0
  {
    (sum + weight / 2) / weight
  }

  lemma MeanBounds(sum: nat, weight: nat, lo: nat, hi: nat)
    requires weight > 0 && lo * weight <= sum <= hi * weight
    ensures lo <= RoundedMean(sum, weight) <= hi
  {
    var n := sum + weight / 2;
    var q := n / weight;
    assert n == q * weight + n % weight;
    if q < lo { MulMonotone(q + 1, lo, weight); }
    if q > hi { MulMonotone(hi + 1, q, weight); }
  }

  // m is the integer nearest to sum / n, and the upper one half-way.
  predicate IsMean(m: nat, sum: nat, n: nat)
  {
    2 * (m * n) <= 2 * sum + n < 2 * (m * n) + 2 * n
  }

  lemma RoundedIsMean(sum: nat, weight: nat)
    requires weight > 0
    ensures IsMean(RoundedMean(sum, weight), sum, weight)
  {
    var n := sum + weight / 2;
    assert n == (n / weight) * weight + n % weight;
  }

  lemma AddBounds(lo: nat, hi: nat, w1: nat, s1: nat, w2: nat, s2: nat)
    requires lo * w1 <= s1 <= hi * w1 && lo * w2 <= s2 <= hi * w2
    ensures lo * (w1 + w2) <= s1 + s2 <= hi * (w1 + w2)
  {
  }

  // Every window sum lies between lo and hi times the total weight, when the heard values do.
  lemma {:induction false} RowBounds(v: View, x: nat, y: nat, ny: nat, x0: nat, x1: nat, channel: nat, lo: nat, hi: nat)
    requires v.Valid() && x < v.width && y < v.height && ny < v.height && x0 <= x1 <= v.width
    requires Low(x) <= x0 && x1 <= High(x, v.width) && AbsDiff(ny, y) <= 1
    requires forall nx: nat :: v.Heard(x, y, nx, ny) ==> lo <= Value(v.At(nx, ny), channel) <= hi
    ensures lo * v.RowSum(x, y, ny, x0, x1, 4) <= v.RowSum(x, y, ny, x0, x1, channel)
            <= hi * v.RowSum(x, y, ny, x0, x1, 4)
  {
    if x0 < x1 {
      RowBounds(v, x, y, ny, x0, x1 - 1, channel, lo, hi);
      TermBounds(v, x, y, x1 - 1, ny, channel, lo, hi);
      AddBounds(lo, hi, v.RowSum(x, y, ny, x0, x1 - 1, 4), v.RowSum(x, y, ny, x0, x1 - 1, channel),
                v.Term(x, y, x1 - 1, ny, 4), v.Term(x, y, x1 - 1, ny, channel));
    }
  }

  lemma TermBounds(v: View, x: nat, y: nat, nx: nat, ny: nat, channel: nat, lo: nat, hi: nat)
    requires v.Valid() && x < v.width && y < v.height && nx < v.width && ny < v.height
    requires AbsDiff(nx, x) <= 1 && AbsDiff(ny, y) <= 1
    requires v.Heard(x, y, nx, ny) ==> lo <= Value(v.At(nx, ny), channel) <= hi
    ensures lo * v.Term(x, y, nx, ny, 4) <= v.Term(x, y, nx, ny, channel) <= hi * v.Term(x, y, nx, ny, 4)
  {
    if v.Heard(x, y, nx, ny) {
      var w := v.Term(x, y, nx, ny, 4);
      MulMonotone(lo, Value(v.At(nx, ny), channel), w);
      MulMonotone(Value(v.At(nx, ny), channel), hi, w);
    }
  }

  lemma {:induction false} RectBounds(v: View, x: nat, y: nat, y0: nat, y1: nat, channel: nat, lo: nat, hi: nat)
    requires v.Valid() && x < v.width && y < v.height && y0 <= y1
    requires Low(y) <= y0 && y1 <= High(y, v.height)
    requires forall nx: nat, ny: nat :: v.Heard(x, y, nx, ny) ==> lo <= Value(v.At(nx, ny), channel) <= hi
    ensures var x0, x1 := Low(x), High(x, v.width);
            lo * v.RectSum(x, y, x0, x1, y0, y1, 4) <= v.RectSum(x, y, x0, x1, y0, y1, channel)
            <= hi * v.RectSum(x, y, x0, x1, y0, y1, 4)
  {
    if y0 < y1 {
      RectBounds(v, x, y, y0, y1 - 1, channel, lo, hi);
      var x0, x1 := Low(x), High(x, v.width);
      RowBounds(v, x, y, y1 - 1, x0, x1, channel, lo, hi);
      AddBounds(lo, hi, v.RectSum(x, y, x0, x1, y0, y1 - 1, 4), v.RectSum(x, y, x0, x1, y0, y1 - 1, channel),
                v.RowSum(x, y, y1 - 1, x0, x1, 4), v.RowSum(x, y, y1 - 1, x0, x1, channel));
    }
  }

  // The centre hears itself, so an opaque pixel always has something to average.
  lemma WeightPositive(v: View, x: nat, y: nat)
    requires v.Valid() && x < v.width && y < v.height && v.At(x, y).a > v.threshold
    ensures v.WindowSum(x, y, 4) > 0
  {
    assert v.Term(x, y, x, y, 4) > 0;
    RowHasTerm(v, x, y, Low(x), High(x, v.width));
    RectHasRow(v, x, y, Low(y), High(y, v.height));
  }

  lemma {:induction false} RowHasTerm(v: View, x: nat, y: nat, x0: nat, x1: nat)
    requires v.Valid() && x < v.width && y < v.height && x0 <= x < x1 <= v.width
    ensures v.RowSum(x, y, y, x0, x1, 4) >= v.Term(x, y, x, y, 4)
  {
    if x < x1 - 1 { RowHasTerm(v, x, y, x0, x1 - 1); }
  }

  lemma {:induction false} RectHasRow(v: View, x: nat, y: nat, y0: nat, y1: nat)
    requires v.Valid() && x < v.width && y < v.height && y0 <= y < y1 <= v.height
    ensures var x0, x1 := Low(x), High(x, v.width);
            v.RectSum(x, y, x0, x1, y0, y1, 4) >= v.RowSum(x, y, y, x0, x1, 4)
  {
    if y < y1 - 1 { RectHasRow(v, x, y, y0, y1 - 1); }
  }

  ghost function MeanAt(v: View, x: nat, y: nat, channel: nat): (m: nat)
    requires v.Valid() && x < v.width && y < v.height && v.At(x, y).a > v.threshold && channel < 4
    ensures m < 256
  {
    WeightPositive(v, x, y);
    RectBounds(v, x, y, Low(y), High(y, v.height), channel, 0, 255);
    MeanBounds(v.WindowSum(x, y, channel), v.WindowSum(x, y, 4), 0, 255);
    RoundedMean(v.WindowSum(x, y, channel), v.WindowSum(x, y, 4))
  }

  // The colour one pass gives the pixel (x, y).
  ghost function Smoothed(v: View, x: nat, y: nat): Color
    requires v.Valid() && x < v.width && y < v.height
  {
    if v.At(x, y).a <= v.threshold then v.At(x, y)
    else Color(MeanAt(v, x, y, 0), MeanAt(v, x, y, 1), MeanAt(v, x, y, 2), MeanAt(v, x, y, 3))
  }

  // Each channel of an opaque pixel ends between the extremes of what it heard.
  lemma SmoothedBetween(v: View, x: nat, y: nat, channel: nat, lo: nat, hi: nat)
    requires v.Valid() && x < v.width && y < v.height && v.At(x, y).a > v.threshold && channel < 4
    requires forall nx: nat, ny: nat :: v.Heard(x, y, nx, ny) ==> lo <= Channel(v.At(nx, ny), channel) <= hi
    ensures lo <= Channel(Smoothed(v, x, y), channel) <= hi
  {
    WeightPositive(v, x, y);
    RectBounds(v, x, y, Low(y), High(y, v.height), channel, lo, hi);
    MeanBounds(v.WindowSum(x, y, channel), v.WindowSum(x, y, 4), lo, hi);
  }

  // ---- The window written out ---------------------------------------------------------------

  // Four for the centre, two beside it, one at its corners.
  function Kernel(dx: int, dy: int): nat
    requires -1 <= dx <= 1 && -1 <= dy <= 1
  {
    (2 - AbsDiff(dx, 0)) * (2 - AbsDiff(dy, 0))
  }

  // Of four steps, as many as the colour distance leaves of the squared limit, rounded up past
  // each third.
  ghost predicate IsColorFactor(center: Color, neighbor: Color, limit: nat, f: nat)
  {
    var square := limit * limit;
    f * square <= 3 * (square - RgbDistance(center, neighbor)) + square < f * square + square
  }

  lemma ColorFactor(room: nat, square: nat)
    requires square > 0
    ensures var f := 1 + room * 3 / square; f * square <= 3 * room + square < f * square + square
  {
    var n := room * 3;
    assert n == (n / square) * square + n % square;
    assert (1 + n / square) * square == (n / square) * square + square;
  }

  ghost predicate Weighs(center: Color, neighbor: Color, limit: nat, kernel: nat, w: nat)
  {
    exists f: nat :: IsColorFactor(center, neighbor, limit, f) && w == Weighted(kernel, f)
  }

  // The weight is the place in the window times the likeness of the colours.
  lemma WeightIsProduct(center: Color, neighbor: Color, limit: nat, threshold: byte, dx: int, dy: int)
    requires limit > 0 && Contributes(center, neighbor, limit, threshold) && -1 <= dx <= 1 && -1 <= dy <= 1
    ensures Weighs(center, neighbor, limit, Kernel(dx, dy),
                   Weight(center, neighbor, limit, threshold, dx == 0, dy == 0))
  {
    var room: nat, square := limit * limit - RgbDistance(center, neighbor), limit * limit;
    ColorFactor(room, square);
    var f: nat := 1 + room * 3 / square;
    assert IsColorFactor(center, neighbor, limit, f);
    assert Kernel(dx, dy) == if dx == 0 && dy == 0 then 4 else if dx == 0 || dy == 0 then 2 else 1;
  }

  // The part of the pixel at this offset: none outside the image.
  ghost function Part(v: View, x: nat, y: nat, dx: int, dy: int, channel: nat): nat
    requires v.Valid() && x < v.width && y < v.height
  {
    if 0 <= x + dx < v.width && 0 <= y + dy < v.height then v.Term(x, y, x + dx, y + dy, channel) else 0
  }

  ghost predicate Counts(center: Color, neighbor: Color, limit: nat, kernel: nat, channel: nat, part: nat, w: nat)
  {
    Weighs(center, neighbor, limit, kernel, w) && part == Weighted(Value(neighbor, channel), w)
  }

  ghost predicate Counted(center: Color, neighbor: Color, limit: nat, kernel: nat, channel: nat, part: nat)
  {
    exists w: nat :: Counts(center, neighbor, limit, kernel, channel, part, w)
  }

  // A part counts the neighbour's value with its weight, or nothing when it is not heard.
  ghost predicate IsPart(v: View, x: nat, y: nat, dx: int, dy: int, channel: nat, part: nat)
    requires v.Valid() && x < v.width && y < v.height && -1 <= dx <= 1 && -1 <= dy <= 1
  {
    if 0 <= x + dx && 0 <= y + dy && v.Heard(x, y, x + dx, y + dy) then
      Counted(v.At(x, y), v.At(x + dx, y + dy), v.limit, Kernel(dx, dy), channel, part)
    else part == 0
  }

  lemma PartIs(v: View, x: nat, y: nat, dx: int, dy: int, channel: nat)
    requires v.Valid() && x < v.width && y < v.height && -1 <= dx <= 1 && -1 <= dy <= 1
    ensures IsPart(v, x, y, dx, dy, channel, Part(v, x, y, dx, dy, channel))
  {
    if 0 <= x + dx && 0 <= y + dy && v.Heard(x, y, x + dx, y + dy) {
      var center, neighbor := v.At(x, y), v.At(x + dx, y + dy);
      WeightIsProduct(center, neighbor, v.limit, v.threshold, dx, dy);
      assert Counts(center, neighbor, v.limit, Kernel(dx, dy), channel, Part(v, x, y, dx, dy, channel),
                    Weight(center, neighbor, v.limit, v.threshold, dx == 0, dy == 0));
    }
  }

  ghost function RowOfParts(v: View, x: nat, y: nat, dy: int, channel: nat): nat
    requires v.Valid() && x < v.width && y < v.height
  {
    Part(v, x, y, -1, dy, channel) + Part(v, x, y, 0, dy, channel) + Part(v, x, y, 1, dy, channel)
  }

  // All nine.
  ghost function Parts(v: View, x: nat, y: nat, channel: nat): nat
    requires v.Valid() && x < v.width && y < v.height
  {
    RowOfParts(v, x, y, -1, channel) + RowOfParts(v, x, y, 0, channel) + RowOfParts(v, x, y, 1, channel)
  }

  lemma RowIsParts(v: View, x: nat, y: nat, ny: nat, channel: nat)
    requires v.Valid() && x < v.width && y < v.height && ny < v.height
    ensures v.RowSum(x, y, ny, Low(x), High(x, v.width), channel) == RowOfParts(v, x, y, ny - y, channel)
  {
    var x0, x1 := Low(x), High(x, v.width);
    assert v.RowSum(x, y, ny, x0, x, channel) == Part(v, x, y, -1, ny - y, channel);
    assert v.RowSum(x, y, ny, x0, x + 1, channel)
        == Part(v, x, y, -1, ny - y, channel) + Part(v, x, y, 0, ny - y, channel);
  }

  lemma WindowIsParts(v: View, x: nat, y: nat, channel: nat)
    requires v.Valid() && x < v.width && y < v.height
    ensures v.WindowSum(x, y, channel) == Parts(v, x, y, channel)
  {
    var x0, x1, y0 := Low(x), High(x, v.width), Low(y);
    if y > 0 { RowIsParts(v, x, y, y - 1, channel); }
    assert v.RectSum(x, y, x0, x1, y0, y, channel) == RowOfParts(v, x, y, -1, channel);
    RowIsParts(v, x, y, y, channel);
    assert v.RectSum(x, y, x0, x1, y0, y + 1, channel)
        == RowOfParts(v, x, y, -1, channel) + RowOfParts(v, x, y, 0, channel);
    if y + 1 < v.height { RowIsParts(v, x, y, y + 1, channel); }
  }

  lemma MeanAtIsMean(v: View, x: nat, y: nat, channel: nat)
    requires v.Valid() && x < v.width && y < v.height && v.At(x, y).a > v.threshold && channel < 4
    ensures v.WindowSum(x, y, 4) > 0
    ensures IsMean(MeanAt(v, x, y, channel), v.WindowSum(x, y, channel), v.WindowSum(x, y, 4))
  {
    WeightPositive(v, x, y);
    RoundedIsMean(v.WindowSum(x, y, channel), v.WindowSum(x, y, 4));
  }

  // An opaque pixel takes, in every channel, the mean of the nine parts by their weights.
  lemma SmoothedIsWindowMean(v: View, x: nat, y: nat, channel: nat)
    requires v.Valid() && x < v.width && y < v.height && v.At(x, y).a > v.threshold && channel < 4
    ensures Parts(v, x, y, 4) > 0
    ensures IsMean(Channel(Smoothed(v, x, y), channel), Parts(v, x, y, channel), Parts(v, x, y, 4))
  {
    MeanAtIsMean(v, x, y, channel);
    WindowIsParts(v, x, y, channel);
    WindowIsParts(v, x, y, 4);
  }

  lemma SquareGrows(small: nat, large: nat)
    requires small < large
    ensures small * small < large * large
  {
  }

  lemma SquareBound(d: int, limit: nat, rest: nat)
    requires d * d + rest <= limit * limit
    ensures AbsDiff(d, 0) <= limit
  {
    if limit < AbsDiff(d, 0) { SquareGrows(limit, AbsDiff(d, 0)); }
  }

  lemma SquareNonNegative(d: int)
    ensures d * d >= 0
  {
  }

  lemma ThreeSquares(r: int, g: int, b: int, limit: nat)
    requires r * r + g * g + b * b <= limit * limit
    ensures AbsDiff(r, 0) <= limit && AbsDiff(g, 0) <= limit && AbsDiff(b, 0) <= limit
  {
    SquareNonNegative(r);
    SquareNonNegative(g);
    SquareNonNegative(b);
    SquareBound(r, limit, g * g + b * b);
    SquareBound(g, limit, r * r + b * b);
    SquareBound(b, limit, r * r + g * g);
  }

  // Whoever is heard differs from the centre by at most the limit in every channel.
  lemma HeardIsNear(center: Color, neighbor: Color, limit: nat, threshold: byte, channel: nat)
    requires Contributes(center, neighbor, limit, threshold) && channel < 4
    ensures AbsDiff(Channel(center, channel), Channel(neighbor, channel)) <= limit
  {
    ThreeSquares(center.r - neighbor.r, center.g - neighbor.g, center.b - neighbor.b, limit);
  }

  // One pass keeps a pixel transparent or opaque, leaves transparent ones alone, and moves no
  // channel of an opaque one by more than the colour limit.
  lemma PassMovesLittle(v: View, x: nat, y: nat, channel: nat)
    requires v.Valid() && x < v.width && y < v.height && channel < 4
    ensures v.At(x, y).a <= v.threshold ==> Smoothed(v, x, y) == v.At(x, y)
    ensures v.At(x, y).a > v.threshold ==> Smoothed(v, x, y).a > v.threshold
    ensures AbsDiff(Channel(Smoothed(v, x, y), channel), Channel(v.At(x, y), channel)) <= v.limit
  {
    if v.At(x, y).a > v.threshold {
      SmoothedBetween(v, x, y, 3, v.threshold as nat + 1, 255);
      var c: int := Channel(v.At(x, y), channel);
      var lo: nat, hi: nat := if c < v.limit then 0 else c - v.limit, c + v.limit;
      forall nx: nat, ny: nat | v.Heard(x, y, nx, ny) ensures lo <= Channel(v.At(nx, ny), channel) <= hi {
        HeardIsNear(v.At(x, y), v.At(nx, ny), v.limit, v.threshold, channel);
      }
      SmoothedBetween(v, x, y, channel, lo, hi);
    }
  }

  // ---- The loops ----------------------------------------------------------------------------

  method SmoothPixel(current: seq<Color>, width: nat, height: nat, limit: nat, threshold: byte, x: nat, y: nat)
    returns (color: Color)
    requires |current| == width * height && limit > 0 && x < width && y < height
    ensures color == Smoothed(View(current, width, height, limit, threshold), x, y)
  {
    CellsFit(width, height);
    ghost var v := View(current, width, height, limit, threshold);
    var center := current[Cell(width, x, y)];
    if center.a <= threshold {
      return center;
    }
    var sums := [0, 0, 0, 0];
    var totalWeight := 0;
    var minY, maxY := Low(y), High(y, height);
    var minX, maxX := Low(x), High(x, width);
    for neighborY := minY to maxY
      invariant |sums| == 4
      invariant forall c: nat :: c < 4 ==> sums[c] == v.RectSum(x, y, minX, maxX, minY, neighborY, c)
      invariant totalWeight == v.RectSum(x, y, minX, maxX, minY, neighborY, 4)
    {
      sums, totalWeight := AddRow(current, width, height, limit, threshold, x, y, neighborY, minX, maxX, sums,
                                  totalWeight);
    }
    WeightPositive(v, x, y);
    assert forall c: nat :: c < 4 ==> RoundedMean(sums[c], totalWeight) == MeanAt(v, x, y, c);
    color := Color(RoundedMean(sums[0], totalWeight), RoundedMean(sums[1], totalWeight),
                   RoundedMean(sums[2], totalWeight), RoundedMean(sums[3], totalWeight));
  }

  // One row of the window.
  method AddRow(current: seq<Color>, width: nat, height: nat, limit: nat, threshold: byte, x: nat, y: nat,
                neighborY: nat, minX: nat, maxX: nat, sums0: seq<nat>, weight0: nat)
    returns (sums: seq<nat>, totalWeight: nat)
    requires |current| == width * height && limit > 0 && x < width && y < height
    requires neighborY < height && minX <= maxX <= width && |sums0| == 4
    ensures |sums| == 4
    ensures var v := View(current, width, height, limit, threshold);
            && (forall c: nat :: c < 4 ==> sums[c] == sums0[c] + v.RowSum(x, y, neighborY, minX, maxX, c))
            && totalWeight == weight0 + v.RowSum(x, y, neighborY, minX, maxX, 4)
  {
    ghost var v := View(current, width, height, limit, threshold);
    sums, totalWeight := sums0, weight0;
    for neighborX := minX to maxX
      invariant |sums| == 4
      invariant forall c: nat :: c < 4 ==> sums[c] == sums0[c] + v.RowSum(x, y, neighborY, minX, neighborX, c)
      invariant totalWeight == weight0 + v.RowSum(x, y, neighborY, minX, neighborX, 4)
    {
      sums, totalWeight := AddNeighbor(current, width, height, limit, threshold, x, y, neighborX, neighborY, sums,
                                       totalWeight);
    }
  }

  // One neighbour of the window: skipped, or added to the four channel sums with its weight.
  method AddNeighbor(current: seq<Color>, width: nat, height: nat, limit: nat, threshold: byte, x: nat, y: nat,
                     neighborX: nat, neighborY: nat, sums0: seq<nat>, weight0: nat)
    returns (sums: seq<nat>, totalWeight: nat)
    requires |current| == width * height && limit > 0 && x < width && y < height
    requires neighborX < width && neighborY < height && |sums0| == 4
    ensures |sums| == 4
    ensures var v := View(current, width, height, limit, threshold);
            && (forall c: nat :: c < 4 ==> sums[c] == sums0[c] + v.Term(x, y, neighborX, neighborY, c))
            && totalWeight == weight0 + v.Term(x, y, neighborX, neighborY, 4)
  {
    CellsFit(width, height);
    sums, totalWeight := sums0, weight0;
    var center, neighbor := current[Cell(width, x, y)], current[Cell(width, neighborX, neighborY)];
    if !Contributes(center, neighbor, limit, threshold) {
      return;
    }
    var weight := Weight(center, neighbor, limit, threshold, neighborX == x, neighborY == y);
    sums := AddWeighted(sums0, neighbor, weight);
    totalWeight := totalWeight + weight;
  }

  method AddWeighted(sums0: seq<nat>, neighbor: Color, weight: nat) returns (sums: seq<nat>)
    requires |sums0| == 4
    ensures |sums| == 4 && forall c: nat :: c < 4 ==> sums[c] == sums0[c] + Channel(neighbor, c) * weight
  {
    sums := sums0;
    for channel := 0 to 4
      invariant |sums| == 4
      invariant forall c: nat :: c < channel ==> sums[c] == sums0[c] + Channel(neighbor, c) * weight
      invariant forall c: nat :: channel <= c < 4 ==> sums[c] == sums0[c]
    {
      sums := sums[channel := sums[channel] + Channel(neighbor, channel) * weight];
    }
  }

  ghost predicate IsPass(v: View, output: seq<Color>)
    requires v.Valid()
  {
    && |output| == |v.image|
    && forall x: nat, y: nat :: x < v.width && y < v.height ==>
         Cell(v.width, x, y) < |output| && output[Cell(v.width, x, y)] == Smoothed(v, x, y)
  }

  method SmoothPass(current: seq<Color>, width: nat, height: nat, limit: nat, threshold: byte)
      returns (output: seq<Color>)
    requires |current| == width * height && limit > 0
    ensures IsPass(View(current, width, height, limit, threshold), output)
  {
    ghost var v := View(current, width, height, limit, threshold);
    CellsFit(width, height);
    output := current;
    for y := 0 to height
      invariant |output| == |current|
      invariant forall x': nat, y': nat :: x' < width && y' < height ==>
                  output[Cell(width, x', y')] == if y' < y then Smoothed(v, x', y') else v.At(x', y')
    {
      for x := 0 to width
        invariant |output| == |current|
        invariant forall x': nat, y': nat :: x' < width && y' < height ==>
                    output[Cell(width, x', y')]
                    == if y' < y || (y' == y && x' < x) then Smoothed(v, x', y') else v.At(x', y')
      {
        var color := SmoothPixel(current, width, height, limit, threshold, x, y);
        ghost var output0 := output;
        output := output[Cell(width, x, y) := color];
        forall x': nat, y': nat | x' < width && y' < height
          ensures output[Cell(width, x', y')] == if x' == x && y' == y then color else output0[Cell(width, x', y')]
        {
          if Cell(width, x', y') == Cell(width, x, y) { CellInjective(width, x', y', x, y); }
        }
      }
    }
  }

  // Pixel by pixel: the same transparent pixels, untouched, and at most `drift` per channel.
  ghost predicate Close(a: seq<Color>, b: seq<Color>, threshold: byte, drift: nat)
  {
    && |a| == |b|
    && forall i :: 0 <= i < |a| ==>
         && (a[i].a <= threshold <==> b[i].a <= threshold)
         && (a[i].a <= threshold ==> b[i] == a[i])
         && forall channel: nat :: channel < 4 ==> AbsDiff(Channel(a[i], channel), Channel(b[i], channel)) <= drift
  }

  lemma PassIsClose(v: View, output: seq<Color>, source: seq<Color>, drift: nat)
    requires v.Valid() && IsPass(v, output) && Close(source, v.image, v.threshold, drift)
    ensures Close(source, output, v.threshold, drift + v.limit)
  {
    forall i: nat | i < |source|
      ensures output[i].a <= v.threshold <==> source[i].a <= v.threshold
      ensures source[i].a <= v.threshold ==> output[i] == source[i]
      ensures forall channel: nat :: channel < 4 ==>
                AbsDiff(Channel(source[i], channel), Channel(output[i], channel)) <= drift + v.limit
    {
      Coordinates(v.width, v.height, i);
      var x, y := i % v.width, i / v.width;
      assert Cell(v.width, x, y) == i;
      forall channel: nat | channel < 4
        ensures AbsDiff(Channel(source[i], channel), Channel(output[i], channel)) <= drift + v.limit
      {
        PassMovesLittle(v, x, y, channel);
        assert AbsDiff(Channel(source[i], channel), Channel(v.image[i], channel)) <= drift;
      }
      PassMovesLittle(v, x, y, 0);
    }
  }

  // n passes, one after the other, turn the source into the result.
  ghost predicate Passes(source: seq<Color>, width: nat, height: nat, limit: nat, threshold: byte, n: nat,
                         result: seq<Color>)
    requires |source| == width * height && limit > 0
  {
    if n == 0 then result == source
    else exists middle :: |middle| == width * height
                          && Passes(source, width, height, limit, threshold, n - 1, middle)
                          && IsPass(View(middle, width, height, limit, threshold), result)
  }

  // As many passes as the strength says.
  method EdgeAwareSmooth(source: seq<Color>, width: nat, height: nat, strength: nat, threshold: byte)
    returns (current: seq<Color>)
    requires |source| == width * height
    ensures Passes(source, width, height, 4 + strength * 4, threshold, strength, current)
    ensures Close(source, current, threshold, strength * (4 + strength * 4))
  {
    current := source;
    var limit := 4 + strength * 4;
    for pass := 0 to strength
      invariant Close(source, current, threshold, pass * limit)
      invariant Passes(source, width, height, limit, threshold, pass, current)
    {
      var output := SmoothPass(current, width, height, limit, threshold);
      PassIsClose(View(current, width, height, limit, threshold), output, source, pass * limit);
      assert (pass + 1) * limit == pass * limit + limit;
      current := output;
    }
  }
}

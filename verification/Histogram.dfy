// build_histogram: exact or reduced-precision colour bins with their pixel counts and sums.
module Histogram {
  import opened Wrappers
  import opened Despeckle
  import Compact

  const MAX_EXACT_HISTOGRAM_COLORS: nat := 8192

  datatype Precision = Exact | Reduced

  // Disjoint bit fields, so the source's shifts and ors are sums.
  function ColorKey(color: Color, precision: Precision): nat
  {
    match precision
    case Exact => Compact.ColorSortKey(color)
    case Reduced => (color.r / 8) * 16384 + (color.g / 8) * 512 + (color.b / 8) * 16 + color.a / 16
  }

  // The key function of one precision.
  function Keying(precision: Precision): Color -> nat
  {
    (color: Color) => ColorKey(color, precision)
  }

  // ---- Which colours share a key ------------------------------------------------------------

  // The coarse grid of colours: 32 steps of each channel and 16 of alpha.
  datatype Cell = Cell(r: nat, g: nat, b: nat, a: nat)

  function CellOf(color: Color): Cell
  {
    Cell(color.r / 8, color.g / 8, color.b / 8, color.a / 16)
  }

  // Reduced keys tell two colours apart exactly when they lie in different cells.
  lemma ReducedKeysAreCells(c: Color, d: Color)
    ensures ColorKey(c, Reduced) == ColorKey(d, Reduced)
            <==> c.r / 8 == d.r / 8 && c.g / 8 == d.g / 8 && c.b / 8 == d.b / 8 && c.a / 16 == d.a / 16
  {
    if ColorKey(c, Reduced) == ColorKey(d, Reduced) {
      CellFromKey(c.r / 8, c.g / 8, c.b / 8, c.a / 16, d.r / 8, d.g / 8, d.b / 8, d.a / 16);
    }
  }

  lemma CellFromKey(r: nat, g: nat, b: nat, a: nat, r': nat, g': nat, b': nat, a': nat)
    requires g < 32 && b < 32 && a < 16 && g' < 32 && b' < 32 && a' < 16
    requires r * 16384 + g * 512 + b * 16 + a == r' * 16384 + g' * 512 + b' * 16 + a'
    ensures r == r' && g == g' && b == b' && a == a'
  {
    LastDigit(r * 1024 + g * 32 + b, a, r' * 1024 + g' * 32 + b', a', 16);
    LastDigit(r * 32 + g, b, r' * 32 + g', b', 32);
    LastDigit(r, g, r', g', 32);
  }

  lemma LastDigit(x: nat, a: nat, y: nat, b: nat, base: nat)
    requires a < base && b < base && x * base + a == y * base + b
    ensures x == y && a == b
  {
    Multiples(x, y, base);
    Multiples(y, x, base);
  }

  lemma Multiples(x: nat, y: nat, base: nat)
    ensures x < y ==> x * base + base <= y * base
  {
    if x < y {
      var more: nat := y - x - 1;
      assert y * base == x * base + base + more * base;
    }
  }

  // Do two colours go into one bin?
  predicate SameBin(c: Color, d: Color, precision: Precision)
  {
    match precision
    case Exact => c == d
    case Reduced => c.r / 8 == d.r / 8 && c.g / 8 == d.g / 8 && c.b / 8 == d.b / 8 && c.a / 16 == d.a / 16
  }

  lemma KeysAreBins(c: Color, d: Color, precision: Precision)
    ensures ColorKey(c, precision) == ColorKey(d, precision) <==> SameBin(c, d, precision)
  {
    match precision
    case Exact => if ColorKey(c, Exact) == ColorKey(d, Exact) { ExactKeyInjective(c, d); }
    case Reduced => ReducedKeysAreCells(c, d);
  }

  // Exact keys tell all colours apart.
  lemma ExactKeyInjective(c: Color, d: Color)
    requires ColorKey(c, Exact) == ColorKey(d, Exact)
    ensures c == d
  {
    LastByte((c.r * 256 + c.g) * 256 + c.b, c.a, (d.r * 256 + d.g) * 256 + d.b, d.a);
    LastByte(c.r * 256 + c.g, c.b, d.r * 256 + d.g, d.b);
    LastByte(c.r, c.g, d.r, d.g);
  }

  lemma LastByte(x: nat, a: byte, y: nat, b: byte)
    requires x * 256 + a == y * 256 + b
    ensures x == y && a == b
  {
  }

  // Pixel count and channel sums of a group of pixels.
  datatype Tally = Tally(count: nat, r: nat, g: nat, b: nat, a: nat)
  {
    function Plus(other: Tally): Tally
    {
      Tally(count + other.count, r + other.r, g + other.g, b + other.b, a + other.a)
    }
  }

  function Empty(): Tally { Tally(0, 0, 0, 0, 0) }

  function One(c: Color): Tally
  {
    Tally(1, c.r, c.g, c.b, c.a)
  }

  // What one pixel adds to the tally of a set of keys.
  ghost function Share(pixel: Color, threshold: byte, keyOf: Color -> nat, keys: set<nat>): Tally
  {
    if pixel.a > threshold && keyOf(pixel) in keys then One(pixel) else Empty()
  }

  // Tally of the opaque pixels whose key is in a set.
  ghost function TallyOf(pixels: seq<Color>, threshold: byte, keyOf: Color -> nat, keys: set<nat>): Tally
  {
    if pixels == [] then Empty()
    else TallyOf(pixels[..|pixels| - 1], threshold, keyOf,
                 keys).Plus(Share(pixels[|pixels| - 1], threshold, keyOf, keys))
  }

  ghost function OpaqueKeys(pixels: seq<Color>, threshold: byte, keyOf: Color -> nat): set<nat>
  {
    set p | p in pixels && p.a > threshold :: keyOf(p)
  }

  ghost function OpaqueColors(pixels: seq<Color>, threshold: byte): set<Color>
  {
    set p | p in pixels && p.a > threshold
  }

  // One bin per opaque key, holding exactly the pixels of that key.
  ghost predicate IsHistogram(bins: map<nat, Tally>, pixels: seq<Color>, threshold: byte, keyOf: Color -> nat)
  {
    && bins.Keys == OpaqueKeys(pixels, threshold, keyOf)
    && forall k :: k in bins ==> bins[k] == TallyOf(pixels, threshold, keyOf, {k}) && bins[k].count > 0
  }

  method BuildHistogram(pixels: seq<Color>, threshold: byte, keyOf: Color -> nat, colorLimit: Option<nat>)
    returns (result: Option<map<nat, Tally>>)
    ensures result.None? <==> colorLimit.Some? && |OpaqueKeys(pixels, threshold, keyOf)| > colorLimit.value
    ensures result.Some? ==> IsHistogram(result.value, pixels, threshold, keyOf)
  {
    var bins: map<nat, Tally> := map[];
    for i := 0 to |pixels|
      invariant IsHistogram(bins, pixels[..i], threshold, keyOf)
      invariant colorLimit.Some? ==> |bins| <= colorLimit.value
    {
      var color := pixels[i];
      assert pixels[..i + 1] == pixels[..i] + [color];
      HistogramGrows(bins, pixels[..i], color, threshold, keyOf);
      if color.a <= threshold {
        continue;
      }
      var key := keyOf(color);
      if colorLimit.Some? && |bins| >= colorLimit.value && key !in bins {
        KeysGrow(pixels[..i + 1], pixels, threshold, keyOf);
        assert |bins.Keys + {key}| == |bins| + 1;
        return None;
      }
      var bin := if key in bins then bins[key] else Empty();
      bins := bins[key := bin.Plus(One(color))];
    }
    assert pixels[..|pixels|] == pixels;
    result := Some(bins);
  }

  // One more pixel: skipped when transparent, counted in its own bin otherwise.
  lemma HistogramGrows(bins: map<nat, Tally>, pixels: seq<Color>, color: Color, threshold: byte, keyOf: Color -> nat)
    requires IsHistogram(bins, pixels, threshold, keyOf)
    ensures color.a <= threshold ==> IsHistogram(bins, pixels + [color], threshold, keyOf)
    ensures color.a > threshold ==>
              var key := keyOf(color);
              var bin := if key in bins then bins[key] else Empty();
              && OpaqueKeys(pixels + [color], threshold, keyOf) == bins.Keys + {key}
              && IsHistogram(bins[key := bin.Plus(One(color))], pixels + [color], threshold, keyOf)
  {
    var more := pixels + [color];
    assert more[..|pixels|] == pixels && more[|pixels|] == color;
    forall p ensures p in more <==> p in pixels || p == color {
    }
    if color.a <= threshold {
      assert OpaqueKeys(more, threshold, keyOf) == OpaqueKeys(pixels, threshold, keyOf);
      forall k | k in bins ensures bins[k] == TallyOf(more, threshold, keyOf, {k}) {
        assert Share(color, threshold, keyOf, {k}) == Empty();
      }
    } else {
      var key := keyOf(color);
      var bin := if key in bins then bins[key] else Empty();
      if key !in bins { AbsentTally(pixels, threshold, keyOf, key); }
      assert OpaqueKeys(more, threshold, keyOf) == OpaqueKeys(pixels, threshold, keyOf) + {key};
      var bins' := bins[key := bin.Plus(One(color))];
      forall k | k in bins' ensures bins'[k] == TallyOf(more, threshold, keyOf, {k}) && bins'[k].count > 0 {
        assert Share(color, threshold, keyOf, {k}) == if k == key then One(color) else Empty();
      }
    }
  }

  lemma KeysGrow(part: seq<Color>, pixels: seq<Color>, threshold: byte, keyOf: Color -> nat)
    requires part <= pixels
    ensures |OpaqueKeys(part, threshold, keyOf)| <= |OpaqueKeys(pixels, threshold, keyOf)|
  {
    SubsetSize(OpaqueKeys(part, threshold, keyOf), OpaqueKeys(pixels, threshold, keyOf));
  }

  lemma {:induction false} AbsentTally(pixels: seq<Color>, threshold: byte, keyOf: Color -> nat, key: nat)
    requires key !in OpaqueKeys(pixels, threshold, keyOf)
    ensures TallyOf(pixels, threshold, keyOf, {key}) == Empty()
  {
    if pixels != [] {
      var n := |pixels| - 1;
      assert pixels[n] in pixels;
      AbsentTally(pixels[..n], threshold, keyOf, key);
    }
  }

  // Tallies of disjoint key sets add up.
  lemma {:induction false} TallyAdds(pixels: seq<Color>, threshold: byte, keyOf: Color -> nat, keys: set<nat>, key: nat)
    requires key !in keys
    ensures TallyOf(pixels, threshold, keyOf, keys + {key})
            == TallyOf(pixels, threshold, keyOf, keys).Plus(TallyOf(pixels, threshold, keyOf, {key}))
  {
    if pixels != [] {
      var init, last := pixels[..|pixels| - 1], pixels[|pixels| - 1];
      TallyAdds(init, threshold, keyOf, keys, key);
      var s, s1 := Share(last, threshold, keyOf, keys), Share(last, threshold, keyOf, {key});
      assert Share(last, threshold, keyOf, keys + {key}) == s.Plus(s1);
      PlusSwap(TallyOf(init, threshold, keyOf, keys), TallyOf(init, threshold, keyOf, {key}), s, s1);
    }
  }

  lemma PlusSwap(a: Tally, b: Tally, c: Tally, d: Tally)
    ensures a.Plus(b).Plus(c.Plus(d)) == a.Plus(c).Plus(b.Plus(d))
  {
  }

  lemma {:induction false} TallyNone(pixels: seq<Color>, threshold: byte, keyOf: Color -> nat)
    ensures TallyOf(pixels, threshold, keyOf, {}) == Empty()
  {
    if pixels != [] { TallyNone(pixels[..|pixels| - 1], threshold, keyOf); }
  }

  lemma ImageWith<T(!new)>(colors: set<Color>, c: Color, f: Color -> T)
    requires c in colors
    ensures (set d | d in colors :: f(d)) == (set d | d in colors - {c} :: f(d)) + {f(c)}
  {
  }

  // Two ways to name the same groups of colours use as many names.
  lemma {:induction false} SameGroups<T(!new)>(colors: set<Color>, f: Color -> nat, g: Color -> T)
    requires forall c, d :: c in colors && d in colors ==> (f(c) == f(d) <==> g(c) == g(d))
    ensures |set c | c in colors :: f(c)| == |set c | c in colors :: g(c)|
  {
    if colors != {} {
      var c :| c in colors;
      var rest := colors - {c};
      SameGroups(rest, f, g);
      ImageWith(colors, c, f);
      ImageWith(colors, c, g);
      var fs, gs := set d | d in rest :: f(d), set d | d in rest :: g(d);
      AsMany(fs, f(c), gs, g(c));
    }
  }

  lemma AsMany<S, T>(s: set<S>, x: S, t: set<T>, y: T)
    requires |s| == |t| && (x in s <==> y in t)
    ensures |s + {x}| == |t + {y}|
  {
    if x in s {
      assert s + {x} == s && t + {y} == t;
    }
  }

  // The occupied cells of the coarse grid.
  ghost function OpaqueCells(pixels: seq<Color>, threshold: byte): set<Cell>
  {
    set p | p in pixels && p.a > threshold :: CellOf(p)
  }

  // With exact keys there are as many bins as opaque colours.
  lemma ExactKeyCount(pixels: seq<Color>, threshold: byte)
    ensures |OpaqueKeys(pixels, threshold, Keying(Exact))| == |OpaqueColors(pixels, threshold)|
  {
    var colors := OpaqueColors(pixels, threshold);
    forall c, d | c in colors && d in colors ensures Keying(Exact)(c) == Keying(Exact)(d) <==> c == d {
      KeysAreBins(c, d, Exact);
    }
    var f, g := Keying(Exact), (c: Color) => c;
    SameGroups(colors, f, g);
    assert OpaqueKeys(pixels, threshold, f) == set c | c in colors :: f(c);
    assert colors == set c | c in colors :: g(c);
  }

  // With reduced keys there are as many bins as occupied cells.
  lemma ReducedKeyCount(pixels: seq<Color>, threshold: byte)
    ensures |OpaqueKeys(pixels, threshold, Keying(Reduced))| == |OpaqueCells(pixels, threshold)|
  {
    var colors := OpaqueColors(pixels, threshold);
    forall c, d | c in colors && d in colors
      ensures Keying(Reduced)(c) == Keying(Reduced)(d) <==> CellOf(c) == CellOf(d)
    {
      ReducedKeysAreCells(c, d);
    }
    var f, g := Keying(Reduced), (c: Color) => CellOf(c);
    SameGroups(colors, f, g);
    assert OpaqueKeys(pixels, threshold, f) == set c | c in colors :: f(c);
    assert OpaqueCells(pixels, threshold) == set c | c in colors :: g(c);
  }

  // ---- What a tally adds up -----------------------------------------------------------------

  // The pixels that satisfy a condition, each counted with its value.
  ghost function SumWhere(pixels: seq<Color>, wanted: Color -> bool, value: Color -> nat): nat
  {
    if pixels == [] then 0
    else
      var last := pixels[|pixels| - 1];
      SumWhere(pixels[..|pixels| - 1], wanted, value) + if wanted(last) then value(last) else 0
  }

  // Each part of the tally is the sum of its own channel over the wanted pixels.
  ghost predicate Sums(t: Tally, pixels: seq<Color>, wanted: Color -> bool)
  {
    && t.count == SumWhere(pixels, wanted, _ => 1)
    && t.r == SumWhere(pixels, wanted, (c: Color) => c.r) && t.g == SumWhere(pixels, wanted, (c: Color) => c.g)
    && t.b == SumWhere(pixels, wanted, (c: Color) => c.b) && t.a == SumWhere(pixels, wanted, (c: Color) => c.a)
  }

  lemma {:induction false} TallySums(pixels: seq<Color>, threshold: byte, keyOf: Color -> nat, keys: set<nat>,
                                     wanted: Color -> bool)
    requires forall p :: p in pixels ==> (wanted(p) <==> p.a > threshold && keyOf(p) in keys)
    ensures Sums(TallyOf(pixels, threshold, keyOf, keys), pixels, wanted)
  {
    if pixels != [] {
      var n := |pixels| - 1;
      assert pixels[n] in pixels;
      TallySums(pixels[..n], threshold, keyOf, keys, wanted);
    }
  }

  // The opaque pixels that share a bin with a colour.
  function InBinOf(color: Color, threshold: byte, precision: Precision): Color -> bool
  {
    (p: Color) => p.a > threshold && SameBin(p, color, precision)
  }

  // A colour's bin adds up exactly the opaque pixels of that colour, or of its cell.
  lemma BinHoldsItsCell(pixels: seq<Color>, threshold: byte, precision: Precision, color: Color)
    ensures Sums(TallyOf(pixels, threshold, Keying(precision), {ColorKey(color, precision)}), pixels,
                 InBinOf(color, threshold, precision))
  {
    forall p | p in pixels
      ensures InBinOf(color, threshold, precision)(p)
              <==> p.a > threshold && Keying(precision)(p) in {ColorKey(color, precision)}
    {
      KeysAreBins(p, color, precision);
    }
    TallySums(pixels, threshold, Keying(precision), {ColorKey(color, precision)},
              InBinOf(color, threshold, precision));
  }

  // A group's channel sums stay below 256 per pixel, so a rounded mean fits a byte.
  lemma {:induction false} TallyBound(pixels: seq<Color>, threshold: byte, keyOf: Color -> nat, keys: set<nat>)
    ensures var t := TallyOf(pixels, threshold, keyOf, keys);
            t.r <= 255 * t.count && t.g <= 255 * t.count && t.b <= 255 * t.count && t.a <= 255 * t.count
  {
    if pixels != [] { TallyBound(pixels[..|pixels| - 1], threshold, keyOf, keys); }
  }
}

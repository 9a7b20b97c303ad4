// quantize: histogram, clustering and a palette of source-space means, and the labels that
// labels_from_pixels reads off it.
module Quantize {
  import opened Wrappers
  import opened Grid
  import opened Despeckle
  import opened Histogram
  import opened Sorting
  import Smooth
  import Clustering
  import Seeding
  import Flood

  const MAX_COLOR_COUNT: nat := 512

  datatype Quantized = Quantized(palette: seq<Color>, labelsByKey: map<nat, nat>, precision: Precision)

  // The colour conversions and the square root, which this model leaves abstract.
  datatype Conversions = Conversions(
    toPerceptual: Color -> Clustering.Perceptual,
    toRgba: Clustering.Perceptual -> Color,
    root: nat -> real)
  {
    ghost predicate Valid()
    {
      forall n: nat :: root(n) >= 0.0
    }
  }

  ghost predicate ByteSums(t: Tally)
  {
    t.r <= 255 * t.count && t.g <= 255 * t.count && t.b <= 255 * t.count && t.a <= 255 * t.count
  }

  function MeanByte(sum: nat, count: nat): byte
    requires count > 0 && sum <= 255 * count
  {
    Smooth.MeanBounds(sum, count, 0, 255);
    Smooth.RoundedMean(sum, count)
  }

  // The rounded mean colour of a group of pixels.
  function MeanColor(t: Tally): Color
    requires t.count > 0 && ByteSums(t)
  {
    Color(MeanByte(t.r, t.count), MeanByte(t.g, t.count), MeanByte(t.b, t.count), MeanByte(t.a, t.count))
  }

  // ---- Bins in key order --------------------------------------------------------------------

  ghost predicate Ascending(keys: seq<nat>)
  {
    forall i, j :: 0 <= i < j < |keys| ==> keys[i] < keys[j]
  }

  method SortedKeys(keys: set<nat>) returns (sorted: seq<nat>)
    ensures Ascending(sorted) && forall k: nat :: k in keys <==> k in sorted
  {
    var rest := keys;
    var listed: seq<nat> := [];
    while rest != {}
      invariant rest <= keys && forall k: nat :: k in keys <==> k in rest || k in listed
      invariant forall k :: k in listed ==> k !in rest
      invariant forall i, j :: 0 <= i < j < |listed| ==> listed[i] != listed[j]
    {
      var k :| k in rest;
      rest, listed := rest - {k}, listed + [k];
    }
    var le := (a: nat, b: nat) => a <= b;
    sorted := StableSort(listed, le);
    StableSortCorrect(listed, le);
    SameElements(listed, sorted);
    PermutedDistinct(listed, sorted);
    assert forall i, j :: 0 <= i < j < |sorted| ==> le(sorted[i], sorted[j]);
  }

  // ---- Palette ------------------------------------------------------------------------------

  // The bins of one cluster added up.
  ghost function ClusterTally(bins: seq<Tally>, assignments: seq<nat>, k: nat): Tally
    requires |assignments| == |bins|
  {
    if bins == [] then Empty()
    else
      var n := |bins| - 1;
      var init := ClusterTally(bins[..n], assignments[..n], k);
      if assignments[n] == k then init.Plus(bins[n]) else init
  }

  lemma {:induction false} ClusterByteSums(bins: seq<Tally>, assignments: seq<nat>, k: nat)
    requires |assignments| == |bins| && forall i :: 0 <= i < |bins| ==> ByteSums(bins[i])
    ensures ByteSums(ClusterTally(bins, assignments, k))
  {
    if bins != [] {
      var n := |bins| - 1;
      ClusterByteSums(bins[..n], assignments[..n], k);
    }
  }

  method SourceSpacePalette(bins: seq<Tally>, assignments: seq<nat>, centroids: seq<Clustering.Perceptual>,
                            toRgba: Clustering.Perceptual -> Color)
    returns (palette: seq<Color>)
    requires |assignments| == |bins| && forall i :: 0 <= i < |bins| ==> ByteSums(bins[i])
    requires forall i :: 0 <= i < |bins| ==> assignments[i] < |centroids|
    ensures |palette| == |centroids|
    ensures forall k: nat :: k < |centroids| ==>
              var t := ClusterTally(bins, assignments, k);
              && ByteSums(t)
              && palette[k] == if t.count == 0 then toRgba(centroids[k]) else MeanColor(t)
  {
    var sums := new Tally[|centroids|](_ => Empty());
    for i := 0 to |bins|
      invariant forall k: nat :: k < |centroids| ==> sums[k] == ClusterTally(bins[..i], assignments[..i], k)
    {
      var k := assignments[i];
      assert bins[..i + 1][..i] == bins[..i] && assignments[..i + 1][..i] == assignments[..i];
      sums[k] := sums[k].Plus(bins[i]);
    }
    assert bins[..|bins|] == bins && assignments[..|bins|] == assignments;
    var totals := sums[..];
    palette := [];
    for k := 0 to |centroids|
      invariant |palette| == k
      invariant forall j: nat :: j < k ==>
                  var t := ClusterTally(bins, assignments, j);
                  && ByteSums(t)
                  && palette[j] == if t.count == 0 then toRgba(centroids[j]) else MeanColor(t)
    {
      ClusterByteSums(bins, assignments, k);
      var color := if totals[k].count == 0 then toRgba(centroids[k]) else MeanColor(totals[k]);
      palette := palette + [color];
    }
  }

  // The keys the clustering put in cluster k.
  ghost function ClusterKeys(keys: seq<nat>, assignments: seq<nat>, k: nat): set<nat>
    requires |assignments| == |keys|
  {
    set i | 0 <= i < |keys| && assignments[i] == k :: keys[i]
  }

  // A cluster's bins hold exactly the opaque pixels whose key is in the cluster.
  lemma {:induction false} ClusterHoldsItsPixels(pixels: seq<Color>, threshold: byte, keyOf: Color -> nat,
                                                 keys: seq<nat>, bins: seq<Tally>, assignments: seq<nat>, k: nat)
    requires |keys| == |bins| == |assignments| && Ascending(keys)
    requires forall i :: 0 <= i < |keys| ==> bins[i] == TallyOf(pixels, threshold, keyOf, {keys[i]})
    ensures ClusterTally(bins, assignments, k) == TallyOf(pixels, threshold, keyOf, ClusterKeys(keys, assignments, k))
  {
    if keys == [] {
      assert ClusterKeys(keys, assignments, k) == {};
      TallyNone(pixels, threshold, keyOf);
    } else {
      var n := |keys| - 1;
      ClusterHoldsItsPixels(pixels, threshold, keyOf, keys[..n], bins[..n], assignments[..n], k);
      var fewer := ClusterKeys(keys[..n], assignments[..n], k);
      if assignments[n] == k {
        assert ClusterKeys(keys, assignments, k) == fewer + {keys[n]};
        TallyAdds(pixels, threshold, keyOf, fewer, keys[n]);
      } else {
        assert ClusterKeys(keys, assignments, k) == fewer;
      }
    }
  }

  // ---- The result ---------------------------------------------------------------------------

  // The key of a colour in this quantization.
  function KeyOf(q: Quantized, color: Color): nat
  {
    ColorKey(color, q.precision)
  }

  ghost function KeysLabelled(labelsByKey: map<nat, nat>, k: nat): set<nat>
  {
    set key | key in labelsByKey && labelsByKey[key] == k
  }

  // Every opaque key has a label into the palette, and every used palette entry is the rounded
  // mean of exactly the opaque pixels that carry its label.
  ghost predicate Faithful(q: Quantized, pixels: seq<Color>, threshold: byte)
  {
    var keyOf := Keying(q.precision);
    && q.labelsByKey.Keys == OpaqueKeys(pixels, threshold, keyOf)
    && (forall key :: key in q.labelsByKey ==> q.labelsByKey[key] < |q.palette|)
    && (forall k: nat :: k < |q.palette| ==>
          var t := TallyOf(pixels, threshold, keyOf, KeysLabelled(q.labelsByKey, k));
          ByteSums(t) && (t.count > 0 ==> q.palette[k] == MeanColor(t)))
  }

  function AtMost(n: nat, limit: nat): nat
  {
    if n < limit then n else limit
  }

  function AtLeastOne(n: nat): nat
  {
    if n == 0 then 1 else n
  }

  method ChooseBins(pixels: seq<Color>, threshold: byte, preserveGradients: bool)
    returns (bins: map<nat, Tally>, precision: Precision)
    ensures precision == Exact <==> preserveGradients && |OpaqueColors(pixels, threshold)| <= MAX_EXACT_HISTOGRAM_COLORS
    ensures IsHistogram(bins, pixels, threshold, Keying(precision))
  {
    ExactKeyCount(pixels, threshold);
    if preserveGradients {
      var exact := BuildHistogram(pixels, threshold, Keying(Exact), Some(MAX_EXACT_HISTOGRAM_COLORS));
      if exact.Some? {
        return exact.value, Exact;
      }
    }
    var reduced := BuildHistogram(pixels, threshold, Keying(Reduced), None);
    return reduced.value, Reduced;
  }

  // What the clustering goes through: the keys in order, their bins and samples, the seeds with
  // the samples they were picked from, the passes, and the final assignment.
  datatype Course = Course(
    keys: seq<nat>, bins: seq<Tally>, samples: seq<Clustering.Sample>,
    seeds: seq<Clustering.Perceptual>, picks: seq<nat>,
    run: seq<Clustering.Clustered>, last: Clustering.Clustered)

  // The bins and samples of the opaque pixels.
  ghost predicate Sampled(c: Course, pixels: seq<Color>, threshold: byte, precision: Precision, conv: Conversions)
  {
    && Ascending(c.keys) && OpaqueKeys(pixels, threshold, Keying(precision)) == (set k | k in c.keys)
    && BinsOf(pixels, threshold, Keying(precision), c.keys, c.bins)
    && SamplesOf(c.bins, conv.toPerceptual, c.samples)
  }

  // Seeds by the picking rule, whole passes from them, and a last reassignment.
  ghost predicate Clusters(c: Course, colorCount: nat, conv: Conversions)
  {
    && |c.seeds| == AtLeastOne(AtMost(colorCount, |c.samples|))
    && Seeding.SeededBy(c.samples, Clustering.Distance, conv.root, c.seeds, c.picks)
    && Clustering.IsLloydRun(c.samples, c.seeds, c.run)
    && Clustering.Reassigned(c.samples, c.run[|c.run| - 1], c.last)
  }

  // The palette and the labels that are read off the clustering.
  ghost predicate ReadOff(c: Course, conv: Conversions, palette: seq<Color>, labelsByKey: map<nat, nat>)
  {
    && |c.last.assignments| == |c.keys| == |c.bins|
    && labelsByKey.Keys == (set k | k in c.keys)
    && (forall i :: 0 <= i < |c.keys| ==> labelsByKey[c.keys[i]] == c.last.assignments[i] < |palette|)
    && |palette| == |c.last.centroids|
    && forall k: nat :: k < |palette| ==>
         var t := ClusterTally(c.bins, c.last.assignments, k);
         ByteSums(t) && palette[k] == if t.count == 0 then conv.toRgba(c.last.centroids[k]) else MeanColor(t)
  }

  ghost predicate Derived(c: Course, q: Quantized, pixels: seq<Color>, threshold: byte, colorCount: nat,
                          conv: Conversions)
  {
    && Sampled(c, pixels, threshold, q.precision, conv) && Clusters(c, colorCount, conv)
    && ReadOff(c, conv, q.palette, q.labelsByKey)
  }

  // Exact keys if and only if gradients are kept and the opaque colours are few; a faithful
  // palette, empty only without opaque pixels, and else as large as asked and possible, read off
  // the clustering of the pixels.
  ghost predicate Quantizes(q: Quantized, pixels: seq<Color>, threshold: byte, colorCount: nat, preserveGradients: bool,
                            conv: Conversions)
  {
    && (q.precision == Exact <==> preserveGradients && |OpaqueColors(pixels, threshold)| <= MAX_EXACT_HISTOGRAM_COLORS)
    && Faithful(q, pixels, threshold)
    && (q.palette == [] <==> forall p :: p in pixels ==> p.a <= threshold)
    && (q.palette != [] ==> |q.palette| == AtLeastOne(AtMost(colorCount, |q.labelsByKey|)) <= MAX_COLOR_COUNT)
    && (q.palette != [] ==> exists c :: Derived(c, q, pixels, threshold, colorCount, conv))
  }

  // ---- The result, in pixels ----------------------------------------------------------------

  // The opaque pixels that carry a label.
  function Labelled(q: Quantized, threshold: byte, k: nat): Color -> bool
  {
    (p: Color) => p.a > threshold && KeyOf(q, p) in q.labelsByKey && q.labelsByKey[KeyOf(q, p)] == k
  }

  // Channel by channel the mean of a group of pixels.
  ghost predicate IsMeanColor(color: Color, t: Tally)
  {
    && Smooth.IsMean(color.r, t.r, t.count) && Smooth.IsMean(color.g, t.g, t.count)
    && Smooth.IsMean(color.b, t.b, t.count) && Smooth.IsMean(color.a, t.a, t.count)
  }

  // The colour of a label is the mean of the pixels that carry it, if any do.
  ghost predicate MeansPixels(q: Quantized, pixels: seq<Color>, threshold: byte, k: nat)
    requires k < |q.palette|
  {
    exists t :: Sums(t, pixels, Labelled(q, threshold, k)) && (t.count > 0 ==> IsMeanColor(q.palette[k], t))
  }

  // As many keys as colours, or as occupied cells of the coarse grid; two opaque pixels share a
  // key exactly when they share a colour, or a cell; and the palette holds means of pixels.
  ghost predicate Grouped(q: Quantized, pixels: seq<Color>, threshold: byte)
  {
    && |q.labelsByKey| == (if q.precision == Exact then |OpaqueColors(pixels, threshold)|
                           else |OpaqueCells(pixels, threshold)|)
    && (forall c, d :: KeyOf(q, c) == KeyOf(q, d) <==> SameBin(c, d, q.precision))
    && forall k: nat :: k < |q.palette| ==> MeansPixels(q, pixels, threshold, k)
  }

  lemma MeanColorIsMean(t: Tally)
    requires t.count > 0 && ByteSums(t)
    ensures IsMeanColor(MeanColor(t), t)
  {
    Smooth.RoundedIsMean(t.r, t.count);
    Smooth.RoundedIsMean(t.g, t.count);
    Smooth.RoundedIsMean(t.b, t.count);
    Smooth.RoundedIsMean(t.a, t.count);
  }

  lemma PaletteMeansPixels(q: Quantized, pixels: seq<Color>, threshold: byte, k: nat)
    requires Faithful(q, pixels, threshold) && k < |q.palette|
    ensures MeansPixels(q, pixels, threshold, k)
  {
    var keyOf, keys := Keying(q.precision), KeysLabelled(q.labelsByKey, k);
    var t := TallyOf(pixels, threshold, keyOf, keys);
    TallySums(pixels, threshold, keyOf, keys, Labelled(q, threshold, k));
    if t.count > 0 { MeanColorIsMean(t); }
  }

  lemma FaithfulGroups(q: Quantized, pixels: seq<Color>, threshold: byte)
    requires Faithful(q, pixels, threshold)
    ensures Grouped(q, pixels, threshold)
  {
    ExactKeyCount(pixels, threshold);
    ReducedKeyCount(pixels, threshold);
    forall c, d ensures KeyOf(q, c) == KeyOf(q, d) <==> SameBin(c, d, q.precision) {
      KeysAreBins(c, d, q.precision);
    }
    forall k: nat | k < |q.palette| ensures MeansPixels(q, pixels, threshold, k) {
      PaletteMeansPixels(q, pixels, threshold, k);
    }
  }

  // In the clustering each opaque pixel lies in exactly one bin, and that bin adds up exactly the
  // opaque pixels that share its colour, or its cell; its sample is their mean, seen perceptually.
  ghost predicate Binned(c: Course, pixels: seq<Color>, threshold: byte, precision: Precision, conv: Conversions,
                         p: Color, i: nat)
  {
    && i < |c.bins| && i < |c.samples| && Sums(c.bins[i], pixels, InBinOf(p, threshold, precision))
    && c.samples[i].count == c.bins[i].count
    && exists mean :: IsMeanColor(mean, c.bins[i]) && c.samples[i].color == conv.toPerceptual(mean)
  }

  lemma BinsHoldTheirCells(c: Course, pixels: seq<Color>, threshold: byte, precision: Precision, conv: Conversions,
                           p: Color)
    requires Sampled(c, pixels, threshold, precision, conv) && p in pixels && p.a > threshold
    ensures exists i: nat :: Binned(c, pixels, threshold, precision, conv, p, i)
  {
    var key := Keying(precision)(p);
    assert key in OpaqueKeys(pixels, threshold, Keying(precision));
    var i: nat :| i < |c.keys| && c.keys[i] == key;
    BinHoldsItsCell(pixels, threshold, precision, p);
    SampleMean(c.bins[i], conv.toPerceptual);
    assert Binned(c, pixels, threshold, precision, conv, p, i);
  }

  lemma SampleMean(bin: Tally, toPerceptual: Color -> Clustering.Perceptual)
    requires bin.count > 0 && ByteSums(bin)
    ensures SampleOf(bin, toPerceptual).count == bin.count
    ensures exists mean :: IsMeanColor(mean, bin) && SampleOf(bin, toPerceptual).color == toPerceptual(mean)
  {
    HalfUpIsMean(bin.r, bin.count);
    HalfUpIsMean(bin.g, bin.count);
    HalfUpIsMean(bin.b, bin.count);
    HalfUpIsMean(bin.a, bin.count);
    var mean := Color(HalfUp(bin.r, bin.count), HalfUp(bin.g, bin.count), HalfUp(bin.b, bin.count),
                      HalfUp(bin.a, bin.count));
    assert IsMeanColor(mean, bin);
  }

  method Quantize(pixels: seq<Color>, threshold: byte, colorCount: nat, preserveGradients: bool, conv: Conversions)
    returns (q: Quantized)
    requires colorCount <= MAX_COLOR_COUNT && conv.Valid()
    ensures Quantizes(q, pixels, threshold, colorCount, preserveGradients, conv) && Grouped(q, pixels, threshold)
  {
    var binMap, precision := ChooseBins(pixels, threshold, preserveGradients);
    var keys := SortedKeys(binMap.Keys);
    if keys == [] {
      q := Quantized([], map[], precision);
      NothingOpaque(pixels, threshold, Keying(precision));
      FaithfulGroups(q, pixels, threshold);
      return;
    }
    SomethingOpaque(pixels, threshold, Keying(precision), keys[0]);
    q := QuantizeBins(pixels, threshold, binMap, precision, keys, colorCount, conv);
    FaithfulGroups(q, pixels, threshold);
  }

  method QuantizeBins(ghost pixels: seq<Color>, ghost threshold: byte, binMap: map<nat, Tally>, precision: Precision,
                      keys: seq<nat>, colorCount: nat, conv: Conversions)
    returns (q: Quantized)
    requires IsHistogram(binMap, pixels, threshold, Keying(precision)) && conv.Valid()
    requires Ascending(keys) && keys != [] && binMap.Keys == set k | k in keys
    ensures Faithful(q, pixels, threshold) && q.precision == precision
    ensures exists c :: Derived(c, q, pixels, threshold, colorCount, conv)
    ensures |q.palette| == AtLeastOne(AtMost(colorCount, |q.labelsByKey|)) > 0
  {
    var bins, samples := MakeSamples(pixels, threshold, Keying(precision), binMap, keys, conv.toPerceptual);
    var target := AtLeastOne(AtMost(colorCount, |samples|));
    var palette, labelsByKey, course := Cluster(bins, samples, keys, target, conv);
    q := Quantized(palette, labelsByKey, precision);
    KeyCount(keys, labelsByKey.Keys);
    assert Derived(course, q, pixels, threshold, colorCount, conv);
    ResultFaithful(q, pixels, threshold, course, conv);
  }

  lemma SomethingOpaque(pixels: seq<Color>, threshold: byte, keyOf: Color -> nat, key: nat)
    requires key in OpaqueKeys(pixels, threshold, keyOf)
    ensures exists p :: p in pixels && p.a > threshold
  {
  }

  // One sample per bin, in key order.
  method MakeSamples(ghost pixels: seq<Color>, ghost threshold: byte, ghost keyOf: Color -> nat,
                     binMap: map<nat, Tally>, keys: seq<nat>, toPerceptual: Color -> Clustering.Perceptual)
    returns (bins: seq<Tally>, samples: seq<Clustering.Sample>)
    requires IsHistogram(binMap, pixels, threshold, keyOf) && forall i :: 0 <= i < |keys| ==> keys[i] in binMap
    ensures BinsOf(pixels, threshold, keyOf, keys, bins) && SamplesOf(bins, toPerceptual, samples)
  {
    bins, samples := [], [];
    for i := 0 to |keys|
      invariant |bins| == |samples| == i
      invariant forall j :: 0 <= j < i ==> bins[j] == TallyOf(pixels, threshold, keyOf, {keys[j]}) && ByteSums(bins[j])
      invariant SamplesOf(bins, toPerceptual, samples)
    {
      var bin := binMap[keys[i]];
      TallyBound(pixels, threshold, keyOf, {keys[i]});
      bins, samples := bins + [bin], samples + [SampleOf(bin, toPerceptual)];
    }
  }

  // The rounded mean colour of a bin, seen perceptually; f64::round takes halves up.
  function SampleOf(bin: Tally, toPerceptual: Color -> Clustering.Perceptual): Clustering.Sample
    requires bin.count > 0 && ByteSums(bin)
  {
    var color := Color(HalfUp(bin.r, bin.count), HalfUp(bin.g, bin.count), HalfUp(bin.b, bin.count),
                       HalfUp(bin.a, bin.count));
    Clustering.Sample(bin.count, toPerceptual(color))
  }

  ghost predicate SamplesOf(bins: seq<Tally>, toPerceptual: Color -> Clustering.Perceptual,
                            samples: seq<Clustering.Sample>)
  {
    && |samples| == |bins|
    && forall i :: 0 <= i < |bins| ==>
         bins[i].count > 0 && ByteSums(bins[i]) && samples[i] == SampleOf(bins[i], toPerceptual)
  }

  ghost predicate BinsOf(pixels: seq<Color>, threshold: byte, keyOf: Color -> nat, keys: seq<nat>, bins: seq<Tally>)
  {
    && |bins| == |keys|
    && forall i :: 0 <= i < |keys| ==> bins[i] == TallyOf(pixels, threshold, keyOf, {keys[i]}) && ByteSums(bins[i])
  }

  // Seed, cluster, and read off the palette and the label of every key.
  method Cluster(bins: seq<Tally>, samples: seq<Clustering.Sample>, keys: seq<nat>, target: nat, conv: Conversions)
    returns (palette: seq<Color>, labelsByKey: map<nat, nat>, ghost course: Course)
    requires |bins| == |samples| == |keys| && Ascending(keys) && conv.Valid()
    requires 1 <= target <= |samples|
    requires forall i :: 0 <= i < |bins| ==> ByteSums(bins[i])
    ensures |palette| == target && labelsByKey.Keys == (set k | k in keys)
    ensures course.keys == keys && course.bins == bins && course.samples == samples && |course.seeds| == target
    ensures Clusters(course, target, conv) && ReadOff(course, conv, palette, labelsByKey)
  {
    var seeds := Seeding.InitialCentroids(samples, target, Clustering.Distance, conv.root);
    ghost var picks :| Seeding.SeededBy(samples, Clustering.Distance, conv.root, seeds, picks);
    var assignments, centroids, run := Clustering.Lloyd(samples, seeds);
    palette := SourceSpacePalette(bins, assignments, centroids, conv.toRgba);
    labelsByKey := LabelMap(keys, assignments);
    course := Course(keys, bins, samples, seeds, picks, run, Clustering.Clustered(assignments, centroids));
  }

  lemma ResultFaithful(q: Quantized, pixels: seq<Color>, threshold: byte, c: Course, conv: Conversions)
    requires Sampled(c, pixels, threshold, q.precision, conv) && ReadOff(c, conv, q.palette, q.labelsByKey)
    ensures Faithful(q, pixels, threshold)
  {
    var keyOf, assignments := Keying(q.precision), c.last.assignments;
    forall k: nat | k < |q.palette|
      ensures ClusterTally(c.bins, assignments, k) == TallyOf(pixels, threshold, keyOf, KeysLabelled(q.labelsByKey, k))
    {
      ClusterHoldsItsPixels(pixels, threshold, keyOf, c.keys, c.bins, assignments, k);
      LabelMapClusters(c.keys, assignments, q.labelsByKey, k);
    }
  }

  // ---- The pixels determine the quantization ------------------------------------------------

  lemma {:induction false} AscendingOnce(keys: seq<nat>, keys': seq<nat>)
    requires Ascending(keys) && Ascending(keys') && forall k :: k in keys <==> k in keys'
    ensures keys == keys'
  {
    SomeMember(keys, keys');
    SomeMember(keys', keys);
    if keys != [] {
      assert keys[|keys| - 1] in keys';
      var n, n' := |keys| - 1, |keys'| - 1;
      LastIsLargest(keys);
      LastIsLargest(keys');
      assert keys'[n'] in keys;
      assert keys[n] == keys'[n'];
      forall k ensures k in keys[..n] <==> k in keys'[..n'] {
        ButTheLast(keys, k);
        ButTheLast(keys', k);
      }
      AscendingOnce(keys[..n], keys'[..n']);
      assert keys == keys[..n] + [keys[n]] && keys' == keys'[..n'] + [keys'[n']];
    }
  }

  lemma SomeMember(keys: seq<nat>, keys': seq<nat>)
    requires forall k :: k in keys <==> k in keys'
    ensures keys != [] ==> keys' != []
  {
    if keys != [] { assert keys[0] in keys'; }
  }

  lemma LastIsLargest(keys: seq<nat>)
    requires Ascending(keys) && keys != []
    ensures forall k :: k in keys ==> k <= keys[|keys| - 1]
  {
  }

  lemma ButTheLast(keys: seq<nat>, k: nat)
    requires Ascending(keys) && keys != []
    ensures k in keys[..|keys| - 1] <==> k in keys && k != keys[|keys| - 1]
  {
    var n := |keys| - 1;
    assert keys == keys[..n] + [keys[n]];
  }

  lemma SampledOnce(c: Course, c': Course, pixels: seq<Color>, threshold: byte, precision: Precision, conv: Conversions)
    requires Sampled(c, pixels, threshold, precision, conv) && Sampled(c', pixels, threshold, precision, conv)
    ensures c.keys == c'.keys && c.bins == c'.bins && c.samples == c'.samples
  {
    SameMembers(c.keys, c'.keys, OpaqueKeys(pixels, threshold, Keying(precision)));
    AscendingOnce(c.keys, c'.keys);
    BinsOnce(pixels, threshold, Keying(precision), c.keys, c.bins, c'.bins);
    SamplesOnce(c.bins, conv.toPerceptual, c.samples, c'.samples);
  }

  lemma SameMembers(keys: seq<nat>, keys': seq<nat>, all: set<nat>)
    requires all == (set k | k in keys) && all == (set k | k in keys')
    ensures forall k :: k in keys <==> k in keys'
  {
    forall k ensures k in keys <==> k in keys' {
      assert k in keys <==> k in all;
    }
  }

  lemma BinsOnce(pixels: seq<Color>, threshold: byte, keyOf: Color -> nat, keys: seq<nat>, bins: seq<Tally>,
                 bins': seq<Tally>)
    requires BinsOf(pixels, threshold, keyOf, keys, bins) && BinsOf(pixels, threshold, keyOf, keys, bins')
    ensures bins == bins'
  {
  }

  lemma SamplesOnce(bins: seq<Tally>, toPerceptual: Color -> Clustering.Perceptual,
                    samples: seq<Clustering.Sample>, samples': seq<Clustering.Sample>)
    requires SamplesOf(bins, toPerceptual, samples) && SamplesOf(bins, toPerceptual, samples')
    ensures samples == samples'
  {
  }

  lemma ClusteredOnce(c: Course, c': Course, colorCount: nat, conv: Conversions)
    requires c.samples == c'.samples && Clusters(c, colorCount, conv) && Clusters(c', colorCount, conv)
    ensures c.seeds == c'.seeds && c.run == c'.run && c.last == c'.last
  {
    Seeding.SeedsDetermined(c.samples, Clustering.Distance, conv.root, c.seeds, c.picks, c'.seeds, c'.picks);
    Clustering.RunDetermined(c.samples, c.seeds, c.run, c'.run);
    Clustering.ReassignedOnce(c.samples, c.run[|c.run| - 1], c.last, c'.last);
  }

  lemma ReadOffOnce(c: Course, c': Course, conv: Conversions, palette: seq<Color>, labelsByKey: map<nat, nat>,
                    palette': seq<Color>, labelsByKey': map<nat, nat>)
    requires c.keys == c'.keys && c.bins == c'.bins && c.last == c'.last
    requires ReadOff(c, conv, palette, labelsByKey) && ReadOff(c', conv, palette', labelsByKey')
    ensures palette == palette' && labelsByKey == labelsByKey'
  {
    assert palette == palette';
    forall key | key in labelsByKey ensures labelsByKey[key] == labelsByKey'[key] {
      var i :| 0 <= i < |c.keys| && c.keys[i] == key;
    }
  }

  // The same pixels, asked for the same, are quantized in one way only.
  lemma QuantizedOnce(q: Quantized, q': Quantized, pixels: seq<Color>, threshold: byte, colorCount: nat,
                      preserveGradients: bool, conv: Conversions)
    requires Quantizes(q, pixels, threshold, colorCount, preserveGradients, conv)
    requires Quantizes(q', pixels, threshold, colorCount, preserveGradients, conv)
    ensures q == q'
  {
    assert q.precision == q'.precision;
    if q.palette == [] {
      NoKeys(q, pixels, threshold);
      NoKeys(q', pixels, threshold);
    } else {
      var c :| Derived(c, q, pixels, threshold, colorCount, conv);
      var c' :| Derived(c', q', pixels, threshold, colorCount, conv);
      DerivedOnce(c, c', q, q', pixels, threshold, colorCount, conv);
    }
  }

  lemma DerivedOnce(c: Course, c': Course, q: Quantized, q': Quantized, pixels: seq<Color>, threshold: byte,
                    colorCount: nat, conv: Conversions)
    requires q.precision == q'.precision
    requires Derived(c, q, pixels, threshold, colorCount, conv) && Derived(c', q', pixels, threshold, colorCount, conv)
    ensures q == q'
  {
    SampledOnce(c, c', pixels, threshold, q.precision, conv);
    ClusteredOnce(c, c', colorCount, conv);
    ReadOffOnce(c, c', conv, q.palette, q.labelsByKey, q'.palette, q'.labelsByKey);
  }

  lemma NoKeys(q: Quantized, pixels: seq<Color>, threshold: byte)
    requires Faithful(q, pixels, threshold) && forall p :: p in pixels ==> p.a <= threshold
    ensures q.labelsByKey == map[]
  {
    assert OpaqueKeys(pixels, threshold, Keying(q.precision)) == {};
  }

  lemma KeyCount(keys: seq<nat>, all: set<nat>)
    requires Ascending(keys) && all == set k | k in keys
    ensures |all| == |keys|
  {
    Flood.DistinctSize(keys);
    assert all == Flood.Members(keys);
  }

  function HalfUp(sum: nat, count: nat): byte
    requires count > 0 && sum <= 255 * count
  {
    HalfUpBound(sum, count);
    (2 * sum + count) / (2 * count)
  }

  lemma HalfUpBound(sum: nat, count: nat)
    requires count > 0 && sum <= 255 * count
    ensures 0 <= (2 * sum + count) / (2 * count) < 256
  {
    Smooth.MeanBounds(2 * sum, 2 * count, 0, 255);
  }

  lemma HalfUpIsMean(sum: nat, count: nat)
    requires count > 0 && sum <= 255 * count
    ensures Smooth.IsMean(HalfUp(sum, count), sum, count)
  {
    HalfUpBound(sum, count);
    var n, q := 2 * sum + count, (2 * sum + count) / (2 * count);
    assert n == q * (2 * count) + n % (2 * count);
    assert q * (2 * count) == 2 * (q * count);
  }

  lemma NothingOpaque(pixels: seq<Color>, threshold: byte, keyOf: Color -> nat)
    requires OpaqueKeys(pixels, threshold, keyOf) == {}
    ensures forall p :: p in pixels ==> p.a <= threshold
  {
    forall p | p in pixels ensures p.a <= threshold {
      assert p.a > threshold ==> keyOf(p) in OpaqueKeys(pixels, threshold, keyOf);
    }
  }

  method LabelMap(keys: seq<nat>, assignments: seq<nat>) returns (labelsByKey: map<nat, nat>)
    requires |keys| == |assignments| && Ascending(keys)
    ensures labelsByKey.Keys == (set k | k in keys)
    ensures forall i :: 0 <= i < |keys| ==> labelsByKey[keys[i]] == assignments[i]
  {
    labelsByKey := map[];
    for i := 0 to |keys|
      invariant labelsByKey.Keys == set k | k in keys[..i]
      invariant forall j :: 0 <= j < i ==> keys[j] in labelsByKey && labelsByKey[keys[j]] == assignments[j]
    {
      assert keys[..i + 1] == keys[..i] + [keys[i]];
      labelsByKey := labelsByKey[keys[i] := assignments[i]];
    }
    assert keys[..|keys|] == keys;
  }

  lemma LabelMapClusters(keys: seq<nat>, assignments: seq<nat>, labelsByKey: map<nat, nat>, k: nat)
    requires |keys| == |assignments|
    requires labelsByKey.Keys == (set k | k in keys)
    requires forall i :: 0 <= i < |keys| ==> labelsByKey[keys[i]] == assignments[i]
    ensures KeysLabelled(labelsByKey, k) == ClusterKeys(keys, assignments, k)
  {
    forall key | key in KeysLabelled(labelsByKey, k) ensures key in ClusterKeys(keys, assignments, k) {
      var i :| 0 <= i < |keys| && keys[i] == key;
    }
  }

  // labels_from_pixels: transparent exactly where the alpha is at or below the threshold.
  method LabelsFromPixels(pixels: seq<Color>, threshold: byte, q: Quantized) returns (labels: array<nat>)
    requires Faithful(q, pixels, threshold) && |q.palette| <= TRANSPARENT
    ensures fresh(labels) && labels.Length == |pixels| && ValidLabels(labels[..], |q.palette|)
    ensures forall i :: 0 <= i < |pixels| ==> (labels[i] == TRANSPARENT <==> pixels[i].a <= threshold)
    ensures forall i :: 0 <= i < |pixels| && pixels[i].a > threshold ==>
              var key := ColorKey(pixels[i], q.precision);
              key in q.labelsByKey && labels[i] == q.labelsByKey[key]
  {
    labels := new nat[|pixels|](_ => TRANSPARENT);
    for i := 0 to |pixels|
      invariant forall j :: 0 <= j < i ==>
                  if pixels[j].a <= threshold then labels[j] == TRANSPARENT
                  else var key := ColorKey(pixels[j], q.precision);
                       key in q.labelsByKey && labels[j] == q.labelsByKey[key] < |q.palette|
      invariant forall j :: i <= j < |pixels| ==> labels[j] == TRANSPARENT
    {
      if pixels[i].a > threshold {
        assert Keying(q.precision)(pixels[i]) in OpaqueKeys(pixels, threshold, Keying(q.precision));
        var key := ColorKey(pixels[i], q.precision);
        labels[i] := q.labelsByKey[key];
      }
    }
  }
}

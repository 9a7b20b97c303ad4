// trace_rgba from the sampled pixels to the regions handed to the path tracer.
module Pipeline {
  import opened Grid
  import opened Despeckle
  import Flood
  import Smooth
  import Quantize
  import Compact
  import Contour

  ghost predicate InSomeRegion(layers: seq<seq<Contour.Region>>, i: nat)
  {
    exists k, a :: 0 <= k < |layers| && 0 <= a < |layers[k]| && i in Flood.Members(layers[k][a].pixels)
  }

  // The labels of a quantized image, before any cleaning.
  ghost predicate RawLabels(pixels: seq<Color>, threshold: byte, q: Quantize.Quantized, raw: seq<nat>)
  {
    && |raw| == |pixels|
    && (forall i :: 0 <= i < |pixels| ==> (raw[i] == TRANSPARENT <==> pixels[i].a <= threshold))
    && (forall i :: 0 <= i < |pixels| && pixels[i].a > threshold ==>
          var key := Quantize.KeyOf(q, pixels[i]);
          key in q.labelsByKey && raw[i] == q.labelsByKey[key])
  }

  // The label grid of an image: the labels of its quantization q, despeckled, then compacted.
  ghost predicate GridOf(pixels: seq<Color>, width: nat, height: nat, threshold: byte, minArea: nat,
                         q: Quantize.Quantized,
                         raw: seq<nat>, cleaned: seq<nat>, labels: seq<nat>, palette: seq<Color>, counts: seq<nat>)
  {
    && Quantize.Faithful(q, pixels, threshold) && RawLabels(pixels, threshold, q, raw)
    && Despeckled(raw, GridEdges(width, height), minArea, q.palette, cleaned)
    && Compact.Compacted(cleaned, q.palette, labels, palette, counts)
  }

  // The pixels determine the grid: every pixel gets the same colour, or stays transparent, and the
  // same pixels share a label. Only labels of one colour and one count could trade places.
  lemma GridDetermined(pixels: seq<Color>, width: nat, height: nat, threshold: byte, colorCount: nat,
                       preserveGradients: bool, minArea: nat, conv: Quantize.Conversions,
                       q: Quantize.Quantized, raw: seq<nat>, cleaned: seq<nat>, labels: seq<nat>,
                       palette: seq<Color>, counts: seq<nat>,
                       q': Quantize.Quantized, raw': seq<nat>, cleaned': seq<nat>, labels': seq<nat>,
                       palette': seq<Color>, counts': seq<nat>)
    requires Quantize.Quantizes(q, pixels, threshold, colorCount, preserveGradients, conv)
    requires Quantize.Quantizes(q', pixels, threshold, colorCount, preserveGradients, conv)
    requires GridOf(pixels, width, height, threshold, minArea, q, raw, cleaned, labels, palette, counts)
    requires GridOf(pixels, width, height, threshold, minArea, q', raw', cleaned', labels', palette', counts')
    ensures q == q' && raw == raw' && cleaned == cleaned' && SamePicture(labels, palette, labels', palette')
  {
    Quantize.QuantizedOnce(q, q', pixels, threshold, colorCount, preserveGradients, conv);
    RawOnce(pixels, threshold, q, raw, raw');
    ResultDetermined(raw, GridEdges(width, height), minArea, q.palette, cleaned, cleaned');
    CompactedAlike(cleaned, q.palette, labels, palette, counts, labels', palette', counts');
  }

  // The same pixels are transparent, share a label and have a colour.
  ghost predicate SamePicture(labels: seq<nat>, palette: seq<Color>, labels': seq<nat>, palette': seq<Color>)
  {
    && |labels| == |labels'| && ValidLabels(labels, |palette|) && ValidLabels(labels', |palette'|)
    && (forall i :: 0 <= i < |labels| ==> (labels[i] == TRANSPARENT <==> labels'[i] == TRANSPARENT))
    && (forall i :: 0 <= i < |labels| && labels[i] != TRANSPARENT ==> palette[labels[i]] == palette'[labels'[i]])
    && (forall i, j :: 0 <= i < j < |labels| ==> (labels[i] == labels[j] <==> labels'[i] == labels'[j]))
  }

  lemma RawOnce(pixels: seq<Color>, threshold: byte, q: Quantize.Quantized, raw: seq<nat>, raw': seq<nat>)
    requires RawLabels(pixels, threshold, q, raw) && RawLabels(pixels, threshold, q, raw')
    ensures raw == raw'
  {
    forall i | 0 <= i < |pixels| ensures raw[i] == raw'[i] {
    }
  }

  lemma CompactedAlike(cleaned: seq<nat>, before: seq<Color>, labels: seq<nat>, palette: seq<Color>, counts: seq<nat>,
                       labels': seq<nat>, palette': seq<Color>, counts': seq<nat>)
    requires Compact.Compacted(cleaned, before, labels, palette, counts)
    requires Compact.Compacted(cleaned, before, labels', palette', counts')
    ensures SamePicture(labels, palette, labels', palette')
  {
  }

  // Every opaque pixel of a grid is in a region of its layer, and only such pixels are: layer k
  // holds counts[k] pixels in disjoint connected components.
  ghost predicate TracedGrid(labels: seq<nat>, width: nat, height: nat, counts: seq<nat>,
                             layers: seq<seq<Contour.Region>>)
  {
    && |layers| == |counts|
    && (forall k: nat :: k < |layers| ==>
          && Contour.AllTraced(labels, GridEdges(width, height), width, layers[k], k)
          && Contour.Disjoint(layers[k]) && Contour.Traced(layers[k]) == counts[k])
    && (forall i: nat :: i < |labels| ==> (labels[i] != TRANSPARENT <==> InSomeRegion(layers, i)))
  }

  // What is traced are the regions of the image's label grid, which the ghost results name.
  method TraceRgba(source: seq<Color>, width: nat, height: nat, threshold: byte, strength: nat, colorCount: nat,
                   preserveGradients: bool, minArea: nat, conv: Quantize.Conversions)
    returns (palette: seq<Color>, counts: seq<nat>, layers: seq<seq<Contour.Region>>,
             ghost smoothed: seq<Color>, ghost q: Quantize.Quantized, ghost raw: seq<nat>, ghost cleaned: seq<nat>,
             ghost labels: seq<nat>)
    requires |source| == width * height && colorCount <= Quantize.MAX_COLOR_COUNT && conv.Valid()
    ensures Smooth.Passes(source, width, height, 4 + strength * 4, threshold, strength, smoothed)
    ensures Quantize.Quantizes(q, smoothed, threshold, colorCount, preserveGradients, conv)
    ensures GridOf(smoothed, width, height, threshold, minArea, q, raw, cleaned, labels, palette, counts)
    ensures palette == [] <==> forall i :: 0 <= i < |cleaned| ==> cleaned[i] == TRANSPARENT
    ensures TracedGrid(labels, width, height, counts, layers)
    ensures forall i: nat :: i < |source| && source[i].a <= threshold ==> !InSomeRegion(layers, i)
  {
    var pixels := SmoothOnDemand(source, width, height, strength, threshold);
    smoothed := pixels;
    var grid;
    grid, palette, counts, q, raw, cleaned, labels
      := LabelGrid(pixels, width, height, threshold, colorCount, preserveGradients, minArea, conv);
    GridCounts(pixels, width, height, threshold, minArea, q, raw, cleaned, labels, palette, counts);
    layers := TraceGrid(grid, width, height, palette, counts, labels);
    ClearUntraced(source, pixels, width, height, threshold, minArea, q, raw, cleaned, labels, palette, counts, layers);
  }

  method SmoothOnDemand(source: seq<Color>, width: nat, height: nat, strength: nat, threshold: byte)
    returns (pixels: seq<Color>)
    requires |source| == width * height
    ensures Smooth.Passes(source, width, height, 4 + strength * 4, threshold, strength, pixels)
    ensures |pixels| == |source| && Transparent(source, threshold) == Transparent(pixels, threshold)
  {
    pixels := source;
    if strength > 0 {
      pixels := Smooth.EdgeAwareSmooth(source, width, height, strength, threshold);
    }
  }

  lemma GridCounts(pixels: seq<Color>, width: nat, height: nat, threshold: byte, minArea: nat, q: Quantize.Quantized,
                   raw: seq<nat>, cleaned: seq<nat>, labels: seq<nat>, palette: seq<Color>, counts: seq<nat>)
    requires GridOf(pixels, width, height, threshold, minArea, q, raw, cleaned, labels, palette, counts)
    ensures ValidLabels(labels, |palette|) && |palette| == |counts|
    ensures forall k: nat :: k < |counts| ==> counts[k] == multiset(labels)[k]
    ensures palette == [] <==> forall i :: 0 <= i < |cleaned| ==> cleaned[i] == TRANSPARENT
  {
    CompactedCounts(cleaned, q.palette, labels, palette, counts);
  }

  // The regions of a label grid; an empty palette means there is nothing to trace.
  method TraceGrid(grid: array<nat>, width: nat, height: nat, palette: seq<Color>, counts: seq<nat>,
                   ghost labels: seq<nat>)
    returns (layers: seq<seq<Contour.Region>>)
    requires |labels| == width * height && ValidLabels(labels, |palette|) && |palette| == |counts|
    requires palette != [] ==> labels == grid[..]
    requires forall k: nat :: k < |counts| ==> counts[k] == multiset(labels)[k]
    ensures TracedGrid(labels, width, height, counts, layers)
  {
    if palette == [] {
      layers := [];
    } else {
      layers := Contour.RegionsForLabels(grid[..], width, height, |palette|);
    }
    GridTraced(labels, width, height, palette, counts, layers);
  }

  lemma ClearUntraced(source: seq<Color>, pixels: seq<Color>, width: nat, height: nat, threshold: byte, minArea: nat,
                      q: Quantize.Quantized, raw: seq<nat>, cleaned: seq<nat>, labels: seq<nat>, palette: seq<Color>,
                      counts: seq<nat>, layers: seq<seq<Contour.Region>>)
    requires Transparent(source, threshold) == Transparent(pixels, threshold)
    requires GridOf(pixels, width, height, threshold, minArea, q, raw, cleaned, labels, palette, counts)
    requires TracedGrid(labels, width, height, counts, layers)
    ensures forall i: nat :: i < |source| && source[i].a <= threshold ==> !InSomeRegion(layers, i)
  {
    forall i: nat | i < |source| && source[i].a <= threshold ensures !InSomeRegion(layers, i) {
      assert i in Transparent(source, threshold);
      StaysTransparent(pixels, width, height, threshold, minArea, q, raw, cleaned, labels, palette, counts, i);
    }
  }

  // Labels are below the palette, counts are exact, and an empty palette means an empty grid.
  lemma CompactedCounts(cleaned: seq<nat>, before: seq<Color>, labels: seq<nat>, palette: seq<Color>, counts: seq<nat>)
    requires Compact.Compacted(cleaned, before, labels, palette, counts)
    ensures ValidLabels(labels, |palette|) && |palette| == |counts| && |labels| == |cleaned|
    ensures forall k: nat :: k < |counts| ==> counts[k] == multiset(labels)[k] > 0
    ensures palette == [] <==> forall i :: 0 <= i < |cleaned| ==> cleaned[i] == TRANSPARENT
  {
    if palette == [] {
      forall i | 0 <= i < |cleaned| ensures cleaned[i] == TRANSPARENT {
        assert labels[i] == TRANSPARENT;
      }
    } else {
      assert multiset(labels)[0] > 0;
      assert 0 in labels;
      var i :| 0 <= i < |labels| && labels[i] == 0;
      assert cleaned[i] != TRANSPARENT;
    }
  }

  lemma GridTraced(labels: seq<nat>, width: nat, height: nat, palette: seq<Color>, counts: seq<nat>,
                   layers: seq<seq<Contour.Region>>)
    requires ValidLabels(labels, |palette|) && |layers| == |palette| == |counts| <= TRANSPARENT
    requires forall k: nat :: k < |counts| ==> counts[k] == multiset(labels)[k]
    requires forall k: nat :: k < |layers| ==>
               && Contour.AllTraced(labels, GridEdges(width, height), width, layers[k], k)
               && Contour.Disjoint(layers[k]) && Contour.Traced(layers[k]) == multiset(labels)[k]
    requires forall i: nat :: i < |labels| && labels[i] != TRANSPARENT ==>
               exists a :: 0 <= a < |layers[labels[i]]| && i in Flood.Members(layers[labels[i]][a].pixels)
    ensures TracedGrid(labels, width, height, counts, layers)
  {
    forall i: nat | i < |labels| ensures labels[i] != TRANSPARENT <==> InSomeRegion(layers, i) {
      if labels[i] == TRANSPARENT {
        NotTraced(labels, GridEdges(width, height), width, layers, i);
      } else {
        assert 0 <= labels[i] < |layers|;
      }
    }
  }

  // A pixel that is transparent in the image is so in the grid.
  lemma StaysTransparent(pixels: seq<Color>, width: nat, height: nat, threshold: byte, minArea: nat,
                         q: Quantize.Quantized,
                         raw: seq<nat>, cleaned: seq<nat>, labels: seq<nat>, palette: seq<Color>, counts: seq<nat>,
                             i: nat)
    requires GridOf(pixels, width, height, threshold, minArea, q, raw, cleaned, labels, palette, counts)
    requires i in Transparent(pixels, threshold)
    ensures i < |labels| && labels[i] == TRANSPARENT
  {
    assert PixelSpec(raw, GridEdges(width, height), minArea, q.palette, i, cleaned[i]);
  }

  // Quantize, label, despeckle and renumber; without opaque pixels there is nothing to label.
  method LabelGrid(pixels: seq<Color>, width: nat, height: nat, threshold: byte, colorCount: nat,
                   preserveGradients: bool, minArea: nat, conv: Quantize.Conversions)
    returns (grid: array<nat>, palette: seq<Color>, counts: seq<nat>,
             ghost q: Quantize.Quantized, ghost raw: seq<nat>, ghost cleaned: seq<nat>, ghost labels: seq<nat>)
    requires |pixels| == width * height && colorCount <= Quantize.MAX_COLOR_COUNT && conv.Valid()
    ensures Quantize.Quantizes(q, pixels, threshold, colorCount, preserveGradients, conv)
    ensures GridOf(pixels, width, height, threshold, minArea, q, raw, cleaned, labels, palette, counts)
    ensures (palette != [] ==> labels == grid[..]) && |palette| <= TRANSPARENT && |labels| == |pixels|
  {
    var quantized := Quantize.Quantize(pixels, threshold, colorCount, preserveGradients, conv);
    q := quantized;
    if quantized.palette == [] {
      grid := new nat[0];
      palette, counts := [], [];
      raw := seq(|pixels|, _ => TRANSPARENT);
      cleaned, labels := raw, raw;
      NothingToLabel(pixels, width, height, threshold, minArea, q, raw);
      return;
    }
    grid, palette, counts, raw, cleaned := PaintGrid(pixels, width, height, threshold, minArea, quantized);
    labels := grid[..];
    CompactedCounts(cleaned, q.palette, labels, palette, counts);
  }

  method PaintGrid(pixels: seq<Color>, width: nat, height: nat, threshold: byte, minArea: nat, q: Quantize.Quantized)
    returns (grid: array<nat>, palette: seq<Color>, counts: seq<nat>, ghost raw: seq<nat>, ghost cleaned: seq<nat>)
    requires |pixels| == width * height && Quantize.Faithful(q, pixels, threshold) && |q.palette| <= TRANSPARENT
    ensures GridOf(pixels, width, height, threshold, minArea, q, raw, cleaned, grid[..], palette, counts)
  {
    grid := Quantize.LabelsFromPixels(pixels, threshold, q);
    raw := grid[..];
    assert RawLabels(pixels, threshold, q, raw);
    Despeckle.Run(grid, width, height, minArea, q.palette);
    cleaned := grid[..];
    DespeckledGrid(raw, width, height, minArea, q.palette, cleaned);
    palette, counts := Compact.CompactLabels(grid, q.palette);
  }

  lemma DespeckledGrid(raw: seq<nat>, width: nat, height: nat, minArea: nat, palette: seq<Color>, cleaned: seq<nat>)
    requires |raw| == width * height && |cleaned| == |raw| && ValidLabels(raw, |palette|)
    requires forall i: nat :: i < |raw| ==> PixelSpec(raw, GridEdges(width, height), minArea, palette, i, cleaned[i])
    ensures Despeckled(raw, GridEdges(width, height), minArea, palette, cleaned) && ValidLabels(cleaned, |palette|)
  {
    GridEdgesAreGrid(width, height);
    ResultDetermined(raw, GridEdges(width, height), minArea, palette, cleaned, cleaned);
  }

  lemma NothingToLabel(pixels: seq<Color>, width: nat, height: nat, threshold: byte, minArea: nat,
                       q: Quantize.Quantized,
                       raw: seq<nat>)
    requires |pixels| == width * height == |raw| && Quantize.Faithful(q, pixels, threshold) && q.palette == []
    requires (forall p :: p in pixels ==> p.a <= threshold) && forall i :: 0 <= i < |raw| ==> raw[i] == TRANSPARENT
    ensures GridOf(pixels, width, height, threshold, minArea, q, raw, raw, raw, [], [])
  {
    GridEdgesAreGrid(width, height);
    assert Compact.Opaque(raw) == {};
  }

  ghost function Transparent(pixels: seq<Color>, threshold: byte): set<nat>
  {
    set i: nat | i < |pixels| && pixels[i].a <= threshold
  }

  lemma NotTraced(labels: seq<nat>, edges: set<(nat, nat)>, width: nat, layers: seq<seq<Contour.Region>>, i: nat)
    requires i < |labels| && labels[i] == TRANSPARENT && |layers| <= TRANSPARENT
    requires forall k: nat :: k < |layers| ==> Contour.AllTraced(labels, edges, width, layers[k], k)
    ensures !InSomeRegion(layers, i)
  {
    forall k: nat, a | k < |layers| && 0 <= a < |layers[k]| ensures i !in Flood.Members(layers[k][a].pixels) {
      assert Contour.TracedFor(labels, edges, width, layers[k][a], k);
      if i in Flood.Members(layers[k][a].pixels) {
        ConnectedSameLabel(labels, edges, layers[k][a].start, i);
      }
    }
  }
}

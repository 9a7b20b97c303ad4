// paths_for_labels up to the call of trace_component: cut the label grid into connected
// regions, each with a tight bounding box and a mask of exactly its pixels.
module Contour {
  import opened Wrappers
  import opened Grid
  import opened Flood

  datatype Box = Box(minX: nat, minY: nat, maxX: nat, maxY: nat)

  // What trace_component is handed for one region. The mask is row-major over the box.
  datatype Region = Region(start: nat, pixels: seq<nat>, box: Box, mask: seq<bool>)

  ghost predicate Within(box: Box, x: nat, y: nat)
  {
    box.minX <= x <= box.maxX && box.minY <= y <= box.maxY
  }

  // The smallest box around the pixels: it contains them all and each side touches one.
  ghost predicate Tight(box: Box, width: nat, pixels: seq<nat>)
    requires width > 0
  {
    TightBy(box, pixels, ColumnOf(width), RowOf(width))
  }

  function ColumnOf(width: nat): nat -> nat
    requires width > 0
  {
    (p: nat) => p % width
  }

  function RowOf(width: nat): nat -> nat
    requires width > 0
  {
    (p: nat) => p / width
  }

  // The same for any two coordinates.
  ghost predicate TightBy(box: Box, pixels: seq<nat>, xOf: nat -> nat, yOf: nat -> nat)
  {
    && (forall k :: 0 <= k < |pixels| ==> Within(box, xOf(pixels[k]), yOf(pixels[k])))
    && (exists k :: 0 <= k < |pixels| && xOf(pixels[k]) == box.minX)
    && (exists k :: 0 <= k < |pixels| && xOf(pixels[k]) == box.maxX)
    && (exists k :: 0 <= k < |pixels| && yOf(pixels[k]) == box.minY)
    && (exists k :: 0 <= k < |pixels| && yOf(pixels[k]) == box.maxY)
  }

  ghost predicate RegionOf(labels: seq<nat>, edges: set<(nat, nat)>, width: nat, r: Region)
  {
    && width > 0
    && r.start < |labels|
    && Members(r.pixels) == Component(labels, edges, r.start)
    && |r.pixels| == |Component(labels, edges, r.start)|
    && Tight(r.box, width, r.pixels)
    && MaskBits(r.mask, r.box, width, r.pixels)
  }

  // Row-major mask of the box, set exactly at the given pixels.
  ghost predicate MaskBits(mask: seq<bool>, box: Box, width: nat, pixels: seq<nat>)
  {
    && box.minX <= box.maxX && box.minY <= box.maxY
    && var w, h := box.maxX - box.minX + 1, box.maxY - box.minY + 1;
       && |mask| == w * h
       && forall x: nat, y: nat :: x < w && y < h ==>
            Cell(w, x, y) < |mask| && (mask[Cell(w, x, y)] <==> Cell(width, x + box.minX, y + box.minY) in pixels)
  }

  // ---- Bounding box -------------------------------------------------------------------------

  // The running minima and maxima of the flood loop; the box is meaningless before the first pixel.
  function Include(box: Box, x: nat, y: nat): Box
  {
    Box(if x < box.minX then x else box.minX, if y < box.minY then y else box.minY,
        if x > box.maxX then x else box.maxX, if y > box.maxY then y else box.maxY)
  }

  // box is the starting box (width, height, 0, 0) or tight around the pixels seen so far.
  ghost predicate Running(box: Box, width: nat, height: nat, pixels: seq<nat>)
    requires width > 0
  {
    if pixels == [] then box == Box(width, height, 0, 0) else Tight(box, width, pixels)
  }

  lemma IncludeTight(box: Box, width: nat, height: nat, pixels: seq<nat>, p: nat)
    requires p < width * height && width > 0 && Running(box, width, height, pixels)
    ensures Running(Include(box, p % width, p / width), width, height, pixels + [p])
  {
    if pixels == [] {
      FirstIncluded(box, width, height, p);
      assert [] + [p] == [p];
    } else {
      IncludeTightBy(box, pixels, p, ColumnOf(width), RowOf(width));
    }
  }

  lemma FirstIncluded(box: Box, width: nat, height: nat, p: nat)
    requires p < width * height && width > 0 && box == Box(width, height, 0, 0)
    ensures Tight(Include(box, p % width, p / width), width, [p])
  {
    Coordinates(width, height, p);
    FirstTight(box, p, ColumnOf(width), RowOf(width));
  }

  lemma FirstTight(box: Box, p: nat, xOf: nat -> nat, yOf: nat -> nat)
    requires xOf(p) <= box.minX && yOf(p) <= box.minY && box.maxX == 0 && box.maxY == 0
    ensures TightBy(Include(box, xOf(p), yOf(p)), [p], xOf, yOf)
  {
    assert [p][0] == p;
  }

  lemma IncludeTightBy(box: Box, pixels: seq<nat>, p: nat, xOf: nat -> nat, yOf: nat -> nat)
    requires TightBy(box, pixels, xOf, yOf)
    ensures TightBy(Include(box, xOf(p), yOf(p)), pixels + [p], xOf, yOf)
  {
    var more := pixels + [p];
    assert more[|pixels|] == p;
    assert forall k :: 0 <= k < |pixels| ==> more[k] == pixels[k];
    var a :| 0 <= a < |pixels| && xOf(pixels[a]) == box.minX;
    var b :| 0 <= b < |pixels| && xOf(pixels[b]) == box.maxX;
    var c :| 0 <= c < |pixels| && yOf(pixels[c]) == box.minY;
    var d :| 0 <= d < |pixels| && yOf(pixels[d]) == box.maxY;
    assert more[a] == pixels[a] && more[b] == pixels[b] && more[c] == pixels[c] && more[d] == pixels[d];
  }

  method IncludePixel(box: Box, width: nat, ghost height: nat, ghost seen: seq<nat>, p: nat) returns (box': Box)
    requires p < width * height && width > 0 && Running(box, width, height, seen)
    ensures Running(box', width, height, seen + [p])
  {
    IncludeTight(box, width, height, seen, p);
    box' := Include(box, p % width, p / width);
  }

  // ---- Mask ---------------------------------------------------------------------------------

  method FillMask(width: nat, height: nat, pixels: seq<nat>, box: Box) returns (mask: seq<bool>)
    requires width > 0 && Tight(box, width, pixels)
    requires forall k :: 0 <= k < |pixels| ==> pixels[k] < width * height
    ensures MaskBits(mask, box, width, pixels)
  {
    BoxFits(width, height, pixels, box);
    var w, h := box.maxX - box.minX + 1, box.maxY - box.minY + 1;
    var bits := new bool[w * h](_ => false);
    CellsFit(w, h);
    for i := 0 to |pixels|
      invariant MaskBits(bits[..], box, width, pixels[..i])
    {
      var p := pixels[i];
      InBox(width, height, box, p);
      var x, y := p % width - box.minX, p / width - box.minY;
      ghost var before := bits[..];
      bits[y * w + x] := true;
      MaskGrows(before, box, width, pixels[..i], p, x, y);
      assert bits[..] == before[Cell(w, x, y) := true];
      assert pixels[..i + 1] == pixels[..i] + [p];
    }
    assert pixels[..|pixels|] == pixels;
    mask := bits[..];
  }

  // Where a pixel of the box falls in the mask.
  lemma InBox(width: nat, height: nat, box: Box, p: nat)
    requires width > 0 && p < width * height && Within(box, p % width, p / width)
    ensures var x, y, w := p % width - box.minX, p / width - box.minY, box.maxX - box.minX + 1;
            && x >= 0 && y >= 0 && box.minX + x <= box.maxX && box.minY + y <= box.maxY
            && p == Cell(width, box.minX + x, box.minY + y)
            && Cell(w, x, y) == y * w + x < w * (box.maxY - box.minY + 1)
  {
    Coordinates(width, height, p);
    CellsFit(box.maxX - box.minX + 1, box.maxY - box.minY + 1);
  }

  lemma BoxFits(width: nat, height: nat, pixels: seq<nat>, box: Box)
    requires width > 0 && Tight(box, width, pixels)
    requires forall k :: 0 <= k < |pixels| ==> pixels[k] < width * height
    ensures box.minX <= box.maxX < width && box.minY <= box.maxY < height
  {
    var b :| 0 <= b < |pixels| && pixels[b] % width == box.maxX;
    var d :| 0 <= d < |pixels| && pixels[d] / width == box.maxY;
    Coordinates(width, height, pixels[b]);
    Coordinates(width, height, pixels[d]);
  }

  lemma MaskGrows(mask: seq<bool>, box: Box, width: nat, pixels: seq<nat>, p: nat, x: nat, y: nat)
    requires box.maxX < width && MaskBits(mask, box, width, pixels)
    requires box.minX + x <= box.maxX && box.minY + y <= box.maxY
    requires p == Cell(width, box.minX + x, box.minY + y)
    ensures var w := box.maxX - box.minX + 1;
            Cell(w, x, y) < |mask| && MaskBits(mask[Cell(w, x, y) := true], box, width, pixels + [p])
  {
    var w, h := box.maxX - box.minX + 1, box.maxY - box.minY + 1;
    var mask' := mask[Cell(w, x, y) := true];
    forall x': nat, y': nat | x' < w && y' < h
      ensures Cell(w, x', y') < |mask'|
      ensures mask'[Cell(w, x', y')] <==> Cell(width, x' + box.minX, y' + box.minY) in pixels + [p]
    {
      if Cell(w, x', y') == Cell(w, x, y) {
        CellInjective(w, x', y', x, y);
      } else if Cell(width, x' + box.minX, y' + box.minY) == p {
        CellInjective(width, x' + box.minX, y' + box.minY, x + box.minX, y + box.minY);
      }
    }
  }

  // ---- One region ---------------------------------------------------------------------------

  method FloodBox(labels: seq<nat>, width: nat, height: nat, ghost edges: set<(nat, nat)>, start: nat,
                  visited: array<bool>)
    returns (queue: seq<nat>, box: Box)
    requires |labels| == width * height == visited.Length && start < |labels|
    requires IsGrid(edges, width, height)
    requires Settled(labels, edges, visited[..]) && !visited[start]
    modifies visited
    ensures Members(queue) == Component(labels, edges, start)
    ensures |queue| == |Component(labels, edges, start)|
    ensures width > 0 && Tight(box, width, queue)
    ensures Settled(labels, edges, visited[..])
    ensures forall i :: 0 <= i < |labels| ==> visited[i] == (old(visited[i]) || i in Component(labels, edges, start))
  {
    ghost var before := visited[..];
    Coordinates(width, height, start);
    queue := [start];
    visited[start] := true;
    var cursor := 0;
    box := Box(width, height, 0, 0);
    FloodStart(labels, edges, start, before);
    assert visited[..] == before[start := true];
    while cursor < |queue|
      invariant Flooding(labels, edges, start, before, visited[..], queue)
      invariant Expanded(labels, edges, queue, cursor)
      invariant Running(box, width, height, queue[..cursor])
      decreases |labels| - cursor
    {
      QueueFits(labels, edges, start, before, visited[..], queue);
      queue, box := BoxPixel(labels, width, height, edges, start, before, cursor, queue, box, visited);
      cursor := cursor + 1;
    }
    assert queue[..cursor] == queue;
    FloodComplete(labels, edges, start, before, visited[..], queue);
  }

  // One dequeued pixel: the box takes it in, and its neighbours join the queue.
  method BoxPixel(labels: seq<nat>, width: nat, height: nat, ghost edges: set<(nat, nat)>, start: nat,
                  ghost before: seq<bool>, cursor: nat, queue0: seq<nat>, box0: Box, visited: array<bool>)
    returns (queue: seq<nat>, box: Box)
    requires |labels| == width * height == visited.Length && start < |labels| && width > 0
    requires IsGrid(edges, width, height) && cursor < |queue0| && Settled(labels, edges, before)
    requires Flooding(labels, edges, start, before, visited[..], queue0)
    requires Expanded(labels, edges, queue0, cursor) && Running(box0, width, height, queue0[..cursor])
    modifies visited
    ensures Flooding(labels, edges, start, before, visited[..], queue)
    ensures cursor < |queue| && Expanded(labels, edges, queue, cursor + 1)
    ensures Running(box, width, height, queue[..cursor + 1])
  {
    var index := queue0[cursor];
    ghost var seen := queue0[..cursor];
    box := IncludePixel(box0, width, height, seen, index);
    var nbs := NeighborsOf(width, height, index, edges);
    EdgesWithin(edges, width, height, index);
    queue := ExpandRegion(labels, edges, start, before, index, nbs, cursor, queue0, visited);
    PrefixGrows(queue0, queue, cursor);
  }

  lemma EdgesWithin(edges: set<(nat, nat)>, width: nat, height: nat, index: nat)
    requires IsGrid(edges, width, height)
    ensures forall q: nat :: (index, q) in edges ==> q < width * height
  {
  }

  lemma PrefixGrows(queue0: seq<nat>, queue: seq<nat>, cursor: nat)
    requires cursor < |queue0| && queue0 <= queue
    ensures queue[..cursor + 1] == queue0[..cursor] + [queue0[cursor]]
  {
  }

  // The inner loop over the four neighbours of one dequeued pixel.
  method ExpandRegion(labels: seq<nat>, ghost edges: set<(nat, nat)>, start: nat, ghost before: seq<bool>, index: nat,
                      nbs: seq<Option<nat>>, ghost cursor: nat, queue0: seq<nat>, visited: array<bool>)
    returns (queue: seq<nat>)
    requires visited.Length == |labels| && start < |labels|
    requires Flooding(labels, edges, start, before, visited[..], queue0) && Settled(labels, edges, before)
    requires cursor < |queue0| && queue0[cursor] == index && Expanded(labels, edges, queue0, cursor)
    requires TableOf(edges, index, nbs) && forall q: nat :: (index, q) in edges ==> q < |labels|
    modifies visited
    ensures Flooding(labels, edges, start, before, visited[..], queue)
    ensures queue0 <= queue && Expanded(labels, edges, queue, cursor + 1)
  {
    queue := queue0;
    ConnectedSameLabel(labels, edges, start, index);
    NeighborsAdjacent(labels, edges, index, nbs);
    for k := 0 to |nbs|
      invariant Flooding(labels, edges, start, before, visited[..], queue)
      invariant queue0 <= queue
      invariant forall m :: 0 <= m < k && nbs[m].Some? && labels[nbs[m].value] == labels[start] ==>
                    nbs[m].value in queue
    {
      if nbs[k].Some? {
        var neighbor := nbs[k].value;
        if !visited[neighbor] && labels[neighbor] == labels[start] {
          FloodDiscover(labels, edges, start, before, visited[..], queue, index, neighbor);
          ghost var marked := visited[..][neighbor := true];
          visited[neighbor] := true;
          assert visited[..] == marked;
          queue := queue + [neighbor];
        } else if labels[neighbor] == labels[start] {
          assert Step(labels, edges, index, neighbor);
        }
      }
    }
    ExpandedNext(labels, edges, queue0, queue, cursor, nbs);
  }

  // ---- All regions --------------------------------------------------------------------------

  // Pixels handed on for one layer.
  function Traced(regions: seq<Region>): nat
  {
    if regions == [] then 0 else Traced(regions[..|regions| - 1]) + |regions[|regions| - 1].pixels|
  }

  ghost function WithLabel(labels: seq<nat>, visited: seq<bool>, k: nat): set<nat>
    requires |visited| == |labels|
  {
    set i: nat | i < |labels| && labels[i] == k && visited[i]
  }

  ghost function Covered(regions: seq<Region>): set<nat>
  {
    if regions == [] then {} else Covered(regions[..|regions| - 1]) + Members(regions[|regions| - 1].pixels)
  }

  lemma {:induction false} CoveredMember(regions: seq<Region>, i: nat)
    ensures i in Covered(regions) <==> exists a :: 0 <= a < |regions| && i in Members(regions[a].pixels)
  {
    if regions != [] {
      var init, n := regions[..|regions| - 1], |regions| - 1;
      CoveredMember(init, i);
      assert forall a :: 0 <= a < n ==> init[a] == regions[a];
    }
  }

  // The regions of layer k are disjoint and together hold exactly the visited pixels labelled k.
  ghost predicate LayerOf(labels: seq<nat>, visited: seq<bool>, layer: seq<Region>, k: nat)
    requires |visited| == |labels|
  {
    && Disjoint(layer)
    && Covered(layer) == WithLabel(labels, visited, k)
    && Traced(layer) == |Covered(layer)|
  }

  ghost predicate Disjoint(layer: seq<Region>)
  {
    forall a, b :: 0 <= a < b < |layer| ==> Members(layer[a].pixels) !! Members(layer[b].pixels)
  }

  lemma DisjointGrows(layer: seq<Region>, r: Region)
    requires Disjoint(layer) && Covered(layer) !! Members(r.pixels)
    ensures Disjoint(layer + [r])
  {
    forall a | 0 <= a < |layer| ensures Members(layer[a].pixels) !! Members(r.pixels) {
      forall i | i in Members(layer[a].pixels) ensures i in Covered(layer) {
        CoveredMember(layer, i);
      }
    }
  }

  lemma LayerGrows(labels: seq<nat>, visited: seq<bool>, layer: seq<Region>, k: nat, r: Region, region: set<nat>,
                   visited': seq<bool>)
    requires |visited| == |visited'| == |labels| && LayerOf(labels, visited, layer, k)
    requires Members(r.pixels) == region && |r.pixels| == |region|
    requires forall i :: i in region ==> i < |labels| && !visited[i] && labels[i] == k
    requires forall i: nat :: i < |labels| ==> visited'[i] == (visited[i] || i in region)
    ensures LayerOf(labels, visited', layer + [r], k)
  {
    var layer' := layer + [r];
    assert layer'[..|layer|] == layer && layer'[|layer|] == r;
    assert WithLabel(labels, visited', k) == WithLabel(labels, visited, k) + region;
    assert Covered(layer) !! region;
    DisjointGrows(layer, r);
  }

  lemma LayerKept(labels: seq<nat>, visited: seq<bool>, layer: seq<Region>, k: nat, visited': seq<bool>)
    requires |visited| == |visited'| == |labels| && LayerOf(labels, visited, layer, k)
    requires forall i :: 0 <= i < |labels| && labels[i] == k ==> visited'[i] == visited[i]
    ensures LayerOf(labels, visited', layer, k)
  {
    assert WithLabel(labels, visited', k) == WithLabel(labels, visited, k);
  }

  ghost predicate AllLayers(labels: seq<nat>, edges: set<(nat, nat)>, width: nat, visited: seq<bool>,
                            layers: seq<seq<Region>>)
  {
    && |visited| == |labels|
    && forall k: nat :: k < |layers| ==>
         AllTraced(labels, edges, width, layers[k], k) && LayerOf(labels, visited, layers[k], k)
  }

  // One region more in the layer of its label.
  lemma LayersGrow(labels: seq<nat>, edges: set<(nat, nat)>, width: nat, visited: seq<bool>, layers: seq<seq<Region>>,
                   tag: nat, r: Region, region: set<nat>, visited': seq<bool>)
    requires AllLayers(labels, edges, width, visited, layers) && |visited'| == |labels| && tag < |layers|
    requires TracedFor(labels, edges, width, r, tag) && Members(r.pixels) == region && |r.pixels| == |region|
    requires forall i :: i in region ==> i < |labels| && !visited[i] && labels[i] == tag
    requires forall i: nat :: i < |labels| ==> visited'[i] == (visited[i] || i in region)
    ensures AllLayers(labels, edges, width, visited', layers[tag := layers[tag] + [r]])
  {
    var layers' := layers[tag := layers[tag] + [r]];
    forall k: nat | k < |layers|
      ensures AllTraced(labels, edges, width, layers'[k], k) && LayerOf(labels, visited', layers'[k], k)
    {
      if k == tag {
        AllTracedGrows(labels, edges, width, layers[k], r, k);
        LayerGrows(labels, visited, layers[k], k, r, region, visited');
      } else {
        LayerKept(labels, visited, layers[k], k, visited');
      }
    }
  }

  // Every opaque pixel is in exactly one region of the layer of its label; regions are whole
  // connected components; the pixels traced into layer k are all the pixels labelled k.
  method RegionsForLabels(labels: seq<nat>, width: nat, height: nat, layerCount: nat)
    returns (layers: seq<seq<Region>>)
    requires |labels| == width * height && layerCount <= TRANSPARENT
    requires forall i :: 0 <= i < |labels| ==> labels[i] == TRANSPARENT || labels[i] < layerCount
    ensures |layers| == layerCount
    ensures forall k: nat :: k < layerCount ==> AllTraced(labels, GridEdges(width, height), width, layers[k], k)
    ensures forall k: nat :: k < layerCount ==> Disjoint(layers[k])
    ensures forall i: nat :: i < |labels| && labels[i] != TRANSPARENT ==>
              exists a :: 0 <= a < |layers[labels[i]]| && i in Members(layers[labels[i]][a].pixels)
    ensures forall k: nat :: k < layerCount ==> Traced(layers[k]) == multiset(labels)[k]
  {
    ghost var edges := GridEdges(width, height);
    GridEdgesAreGrid(width, height);
    layers := seq(layerCount, _ => []);
    var visited := new bool[|labels|](_ => false);
    assert forall k: nat :: k < layerCount ==> WithLabel(labels, visited[..], k) == {};
    for start := 0 to |labels|
      invariant |layers| == layerCount && Settled(labels, edges, visited[..])
      invariant AllLayers(labels, edges, width, visited[..], layers)
      invariant forall i: nat :: i < start && labels[i] != TRANSPARENT ==> visited[i]
    {
      var tag := labels[start];
      if tag == TRANSPARENT || visited[start] {
        continue;
      }
      ghost var before := visited[..];
      var region := TraceRegion(labels, width, height, edges, start, visited);
      LayersGrow(labels, edges, width, before, layers, tag, region, Component(labels, edges, start), visited[..]);
      layers := layers[tag := layers[tag] + [region]];
    }
    LayersDone(labels, edges, width, visited[..], layers);
  }

  // With every opaque pixel visited, the layers hold all of them.
  lemma LayersDone(labels: seq<nat>, edges: set<(nat, nat)>, width: nat, visited: seq<bool>, layers: seq<seq<Region>>)
    requires AllLayers(labels, edges, width, visited, layers) && |layers| <= TRANSPARENT
    requires forall i :: 0 <= i < |labels| ==> labels[i] == TRANSPARENT || (labels[i] < |layers| && visited[i])
    ensures forall k: nat :: k < |layers| ==> Disjoint(layers[k]) && Traced(layers[k]) == multiset(labels)[k]
    ensures forall i: nat :: i < |labels| && labels[i] != TRANSPARENT ==>
              exists a :: 0 <= a < |layers[labels[i]]| && i in Members(layers[labels[i]][a].pixels)
  {
    forall k: nat | k < |layers| ensures Disjoint(layers[k]) && Traced(layers[k]) == multiset(labels)[k] {
      AllWithLabel(labels, visited, k);
    }
    forall i: nat | i < |labels| && labels[i] != TRANSPARENT
      ensures exists a :: 0 <= a < |layers[labels[i]]| && i in Members(layers[labels[i]][a].pixels)
    {
      assert LayerOf(labels, visited, layers[labels[i]], labels[i]);
      CoveredMember(layers[labels[i]], i);
    }
  }

  // Flood, box and mask of the region around one unvisited pixel.
  method TraceRegion(labels: seq<nat>, width: nat, height: nat, ghost edges: set<(nat, nat)>, start: nat,
                     visited: array<bool>)
    returns (region: Region)
    requires |labels| == width * height == visited.Length && start < |labels|
    requires IsGrid(edges, width, height)
    requires Settled(labels, edges, visited[..]) && !visited[start]
    modifies visited
    ensures TracedFor(labels, edges, width, region, labels[start]) && region.start == start
    ensures Settled(labels, edges, visited[..])
    ensures forall i: nat :: i < |labels| ==> visited[i] == (old(visited[i]) || i in Component(labels, edges, start))
    ensures start in Component(labels, edges, start)
    ensures forall i :: i in Component(labels, edges, start) ==>
              i < |labels| && !old(visited[i]) && labels[i] == labels[start]
    ensures Members(region.pixels) == Component(labels, edges, start)
    ensures |region.pixels| == |Component(labels, edges, start)|
  {
    ghost var before := visited[..];
    var queue, box := FloodBox(labels, width, height, edges, start, visited);
    PixelsOfRegion(labels, edges, before, start, queue);
    var mask := FillMask(width, height, queue, box);
    region := Region(start, queue, box, mask);
  }

  // Every region of a layer is a whole connected component of pixels with the layer's label.
  ghost predicate AllTraced(labels: seq<nat>, edges: set<(nat, nat)>, width: nat, layer: seq<Region>, k: nat)
  {
    forall a :: 0 <= a < |layer| ==> TracedFor(labels, edges, width, layer[a], k)
  }

  lemma AllTracedGrows(labels: seq<nat>, edges: set<(nat, nat)>, width: nat, layer: seq<Region>, r: Region, k: nat)
    requires AllTraced(labels, edges, width, layer, k) && TracedFor(labels, edges, width, r, k)
    ensures AllTraced(labels, edges, width, layer + [r], k)
  {
  }

  ghost predicate TracedFor(labels: seq<nat>, edges: set<(nat, nat)>, width: nat, r: Region, k: nat)
  {
    RegionOf(labels, edges, width, r) && labels[r.start] == k
  }

  lemma PixelsOfRegion(labels: seq<nat>, edges: set<(nat, nat)>, before: seq<bool>, start: nat, queue: seq<nat>)
    requires start < |labels| && Settled(labels, edges, before) && !before[start]
    requires Symmetric(edges, |labels|) && Members(queue) == Component(labels, edges, start)
    ensures start in Component(labels, edges, start)
    ensures forall i :: i in Component(labels, edges, start) ==> !before[i] && labels[i] == labels[start]
    ensures forall k :: 0 <= k < |queue| ==> queue[k] < |labels|
  {
    ConnectedSelf(labels, edges, start);
    forall i | i in Component(labels, edges, start) ensures !before[i] && labels[i] == labels[start] {
      ConnectedSameLabel(labels, edges, start, i);
      UnmarkedRegion(labels, edges, before, start, i);
    }
    forall k | 0 <= k < |queue| ensures queue[k] < |labels| {
      assert queue[k] in Members(queue);
    }
  }

  lemma {:induction false} AllWithLabel(labels: seq<nat>, visited: seq<bool>, k: nat)
    requires |visited| == |labels|
    requires forall i :: 0 <= i < |labels| && labels[i] == k ==> visited[i]
    ensures |WithLabel(labels, visited, k)| == multiset(labels)[k]
  {
    if labels != [] {
      var n := |labels| - 1;
      AllWithLabel(labels[..n], visited[..n], k);
      assert labels == labels[..n] + [labels[n]];
      var fewer := WithLabel(labels[..n], visited[..n], k);
      if labels[n] == k {
        assert WithLabel(labels, visited, k) == fewer + {n};
      } else {
        assert WithLabel(labels, visited, k) == fewer;
      }
    }
  }
}

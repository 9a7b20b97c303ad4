// despeckle: every region below the minimum area takes the label of the neighbour it shares
// most border with.
module Despeckle {
  import opened Wrappers
  import opened Grid
  import opened Flood

  type byte = x: int | 0 <= x < 256

  datatype Color = Color(r: byte, g: byte, b: byte, a: byte)

  // Four times the source's f32 value (alpha is halved there before squaring); all its
  // intermediate values are exact, so comparisons agree.
  function ColorDistance(left: Color, right: Color): nat
  {
    var dr, dg, db, da := left.r - right.r, left.g - right.g, left.b - right.b, left.a - right.a;
    assert dr * dr >= 0 && dg * dg >= 0 && db * db >= 0 && da * da >= 0;
    4 * (dr * dr + dg * dg + db * db) + da * da
  }

  function SquareOf(x: real): real
  {
    x * x
  }

  // The source's distance, with its halved difference in alpha.
  function HalvedAlphaDistance(left: Color, right: Color): real
  {
    SquareOf((left.r - right.r) as real) + SquareOf((left.g - right.g) as real)
    + SquareOf((left.b - right.b) as real) + SquareOf((left.a - right.a) as real * 0.5)
  }

  // Four times the source's distance, so both order any two pairs of colours alike.
  lemma FourTimesDistance(left: Color, right: Color)
    ensures ColorDistance(left, right) as real == 4.0 * HalvedAlphaDistance(left, right)
  {
    var dr, dg, db, da := left.r - right.r, left.g - right.g, left.b - right.b, left.a - right.a;
    SquareAsReal(dr);
    SquareAsReal(dg);
    SquareAsReal(db);
    SquareAsReal(da);
    HalfSquare(da as real);
    var r, g, b, a := dr * dr, dg * dg, db * db, da * da;
    assert ColorDistance(left, right) == 4 * (r + g + b) + a;
  }

  lemma SquareAsReal(x: int)
    ensures (x * x) as real == SquareOf(x as real)
  {
  }

  lemma HalfSquare(x: real)
    ensures 4.0 * SquareOf(x * 0.5) == SquareOf(x)
  {
  }

  ghost predicate ValidLabels(labels: seq<nat>, count: nat)
  {
    && count <= TRANSPARENT
    && forall i :: 0 <= i < |labels| ==> labels[i] == TRANSPARENT || labels[i] < count
  }

  // ---- Declarative specification ------------------------------------------------------------

  // Border edges from a set of pixels to pixels of one label, as (inside, outside) pairs.
  ghost function BorderEdges(labels: seq<nat>, edges: set<(nat, nat)>, region: set<nat>, tag: nat): set<(nat, nat)>
  {
    set p, q | p in region && q in Outside(labels, edges, p, tag) :: (p, q)
  }

  // The neighbours of one pixel that carry a given label.
  ghost function Outside(labels: seq<nat>, edges: set<(nat, nat)>, p: nat, tag: nat): set<nat>
  {
    set q: nat | q < |labels| && (p, q) in edges && labels[q] == tag
  }

  ghost function SharedBorder(labels: seq<nat>, edges: set<(nat, nat)>, region: set<nat>, tag: nat): nat
  {
    |BorderEdges(labels, edges, region, tag)|
  }

  // Candidate l beats candidate m: longer shared border, then nearer colour, then lower index.
  predicate Beats(palette: seq<Color>, tag: nat, l: nat, lEdges: nat, m: nat, mEdges: nat)
    requires tag < |palette| && l < |palette| && m < |palette|
  {
    var dl, dm := ColorDistance(palette[tag], palette[l]), ColorDistance(palette[tag], palette[m]);
    || lEdges > mEdges
    || (lEdges == mEdges && dl < dm)
    || (lEdges == mEdges && dl == dm && l < m)
  }

  // r is the label the region around pixel i is given when it is too small.
  ghost predicate IsReplacement(labels: seq<nat>, edges: set<(nat, nat)>, palette: seq<Color>, i: nat, r: nat)
    requires i < |labels| && labels[i] < |palette|
  {
    var tag, region := labels[i], Component(labels, edges, i);
    if r == TRANSPARENT then
      forall l :: 0 <= l < |palette| && l != tag ==> SharedBorder(labels, edges, region, l) == 0
    else
      && r < |palette| && r != tag
      && SharedBorder(labels, edges, region, r) > 0
      && forall l :: 0 <= l < |palette| && l != tag && l != r ==>
           Beats(palette, tag, r, SharedBorder(labels, edges, region, r), l, SharedBorder(labels, edges, region, l))
  }

  // The replacement depends on the original grid only: there is at most one.
  lemma ReplacementUnique(labels: seq<nat>, edges: set<(nat, nat)>, palette: seq<Color>, i: nat, r: nat, r': nat)
    requires i < |labels| && labels[i] < |palette| <= TRANSPARENT
    requires IsReplacement(labels, edges, palette, i, r) && IsReplacement(labels, edges, palette, i, r')
    ensures r == r'
  {
  }

  // What despeckle must produce at pixel i, in terms of the original grid alone.
  ghost predicate PixelSpec(labels: seq<nat>, edges: set<(nat, nat)>, minArea: nat, palette: seq<Color>, i: nat, r: nat)
    requires i < |labels| && ValidLabels(labels, |palette|)
  {
    if labels[i] == TRANSPARENT || |Component(labels, edges, i)| >= minArea then r == labels[i]
    else IsReplacement(labels, edges, palette, i, r)
  }

  // ---- Choosing the replacement -------------------------------------------------------------

  method ChooseReplacement(palette: seq<Color>, tag: nat, neighbors: array<nat>,
                           ghost labels: seq<nat>, ghost edges: set<(nat, nat)>, ghost i: nat) returns (best: nat)
    requires tag < |palette| == neighbors.Length <= TRANSPARENT
    requires i < |labels| && labels[i] == tag
    requires forall l :: 0 <= l < |palette| && l != tag ==>
               neighbors[l] == SharedBorder(labels, edges, Component(labels, edges, i), l)
    ensures IsReplacement(labels, edges, palette, i, best)
  {
    best := TRANSPARENT;
    for index := 0 to neighbors.Length
      invariant best == TRANSPARENT ==> forall l :: 0 <= l < index && l != tag ==> neighbors[l] == 0
      invariant best != TRANSPARENT ==>
                  && best < index && best != tag && neighbors[best] > 0
                  && forall l :: 0 <= l < index && l != tag && l != best ==>
                       Beats(palette, tag, best, neighbors[best], l, neighbors[l])
    {
      if neighbors[index] > 0 && index != tag {
        if best == TRANSPARENT || !Beats(palette, tag, best, neighbors[best], index, neighbors[index]) {
          best := index;
        }
      }
    }
  }

  // ---- One region ---------------------------------------------------------------------------

  // Occurrences of a label among the present entries of a neighbour table.
  ghost function CountLabel(labels: seq<nat>, nbs: seq<Option<nat>>, tag: nat): nat
    requires forall k :: 0 <= k < |nbs| && nbs[k].Some? ==> nbs[k].value < |labels|
  {
    if nbs == [] then 0
    else
      var last := nbs[|nbs| - 1];
      CountLabel(labels, nbs[..|nbs| - 1], tag) + if last.Some? && labels[last.value] == tag then 1 else 0
  }

  lemma {:induction false} CountLabelIsSize(labels: seq<nat>, nbs: seq<Option<nat>>, tag: nat)
    requires forall k :: 0 <= k < |nbs| && nbs[k].Some? ==> nbs[k].value < |labels|
    requires forall a, b :: 0 <= a < b < |nbs| && nbs[a].Some? ==> nbs[a] != nbs[b]
    ensures CountLabel(labels, nbs, tag) == |Bearing(labels, nbs, tag)|
  {
    if nbs != [] {
      var init, last := nbs[..|nbs| - 1], nbs[|nbs| - 1];
      CountLabelIsSize(labels, init, tag);
      assert nbs == init + [last];
      if last.Some? && labels[last.value] == tag {
        assert Bearing(labels, nbs, tag) == Bearing(labels, init, tag) + {last.value};
      } else {
        assert Bearing(labels, nbs, tag) == Bearing(labels, init, tag);
      }
    }
  }

  // The listed neighbours that bear the label.
  ghost function Bearing(labels: seq<nat>, nbs: seq<Option<nat>>, tag: nat): set<nat>
  {
    set q: nat | q < |labels| && Some(q) in nbs && labels[q] == tag
  }

  ghost function Pairs(p: nat, outside: set<nat>): set<(nat, nat)>
  {
    set q | q in outside :: (p, q)
  }

  lemma {:induction false} PairsSize(p: nat, outside: set<nat>)
    ensures |Pairs(p, outside)| == |outside|
  {
    if outside != {} {
      var q0 :| q0 in outside;
      var rest := outside - {q0};
      PairsSize(p, rest);
      assert Pairs(p, outside) == Pairs(p, rest) + {(p, q0)};
    }
  }

  lemma NeighborCount(labels: seq<nat>, edges: set<(nat, nat)>, nbs: seq<Option<nat>>, p: nat, tag: nat)
    requires TableOf(edges, p, nbs) && forall q: nat :: (p, q) in edges ==> q < |labels|
    ensures forall k :: 0 <= k < |nbs| && nbs[k].Some? ==> nbs[k].value < |labels|
    ensures |Outside(labels, edges, p, tag)| == CountLabel(labels, nbs, tag)
  {
    forall k | 0 <= k < |nbs| && nbs[k].Some? ensures nbs[k].value < |labels| {
      assert Some(nbs[k].value) in nbs;
    }
    CountLabelIsSize(labels, nbs, tag);
    assert Outside(labels, edges, p, tag) == set q: nat | q < |labels| && Some(q) in nbs && labels[q] == tag;
  }

  // Adding one pixel to a region adds exactly its own neighbour count to the shared border.
  lemma BorderGrows(labels: seq<nat>, edges: set<(nat, nat)>, region: set<nat>, p: nat, tag: nat)
    requires p !in region
    ensures SharedBorder(labels, edges, region + {p}, tag)
            == SharedBorder(labels, edges, region, tag) + |Outside(labels, edges, p, tag)|
  {
    var outside := Outside(labels, edges, p, tag);
    PairsSize(p, outside);
    var were := BorderEdges(labels, edges, region, tag);
    assert BorderEdges(labels, edges, region + {p}, tag) == were + Pairs(p, outside);
    assert were !! Pairs(p, outside);
  }

  // Flood one region, counting the edges it shares with every other opaque label.
  method FloodCounting(labels: seq<nat>, width: nat, height: nat, ghost edges: set<(nat, nat)>, start: nat,
                       visited: array<bool>, neighbors: array<nat>)
    returns (component: seq<nat>)
    requires |labels| == width * height == visited.Length && start < |labels|
    requires IsGrid(edges, width, height)
    requires ValidLabels(labels, neighbors.Length) && labels[start] != TRANSPARENT
    requires Settled(labels, edges, visited[..]) && !visited[start]
    modifies visited, neighbors
    ensures Members(component) == Component(labels, edges, start)
    ensures |component| == |Component(labels, edges, start)|
    ensures Settled(labels, edges, visited[..])
    ensures forall i :: 0 <= i < |labels| ==> visited[i] == (old(visited[i]) || i in Component(labels, edges, start))
    ensures forall l :: 0 <= l < neighbors.Length && l != labels[start] ==>
              neighbors[l] == SharedBorder(labels, edges, Component(labels, edges, start), l)
  {
    ghost var before := visited[..];
    var tag := labels[start];
    for l := 0 to neighbors.Length
      invariant forall m :: 0 <= m < l ==> neighbors[m] == 0
      invariant visited[..] == before
    {
      neighbors[l] := 0;
    }
    visited[start] := true;
    var queue := [start];
    component := [];
    var cursor := 0;
    FloodStart(labels, edges, start, before);
    assert visited[..] == before[start := true];
    while cursor < |queue|
      invariant Flooding(labels, edges, start, before, visited[..], queue)
      invariant Expanded(labels, edges, queue, cursor)
      invariant component == queue[..cursor]
      invariant forall l :: 0 <= l < neighbors.Length && l != tag ==>
                  neighbors[l] == SharedBorder(labels, edges, Members(queue[..cursor]), l)
      decreases |labels| - cursor
    {
      QueueFits(labels, edges, start, before, visited[..], queue);
      var index := queue[cursor];
      ghost var region := Members(queue[..cursor]);
      component := component + [index];
      var nbs := NeighborsOf(width, height, index, edges);
      forall l | 0 <= l < neighbors.Length
        ensures SharedBorder(labels, edges, region + {index}, l)
                == SharedBorder(labels, edges, region, l) + CountLabel(labels, nbs, l)
      {
        BorderGrows(labels, edges, region, index, l);
        NeighborCount(labels, edges, nbs, index, l);
      }
      queue := ExpandPixel(labels, edges, start, before, index, nbs, cursor, queue, visited, neighbors);
      assert queue[..cursor + 1] == component;
      assert Members(component) == region + {index};
      cursor := cursor + 1;
    }
    assert queue[..cursor] == queue;
    FloodComplete(labels, edges, start, before, visited[..], queue);
  }

  lemma CountNext(labels: seq<nat>, nbs: seq<Option<nat>>, k: nat)
    requires k < |nbs| && forall m :: 0 <= m < |nbs| && nbs[m].Some? ==> nbs[m].value < |labels|
    ensures forall l :: CountLabel(labels, nbs[..k + 1], l) == CountLabel(labels, nbs[..k], l)
              + if nbs[k].Some? && labels[nbs[k].value] == l then 1 else 0
  {
    assert nbs[..k + 1][..k] == nbs[..k];
  }

  // A neighbour of the region's label joins it; the border with another opaque label grows by one.
  method VisitNeighbor(labels: seq<nat>, ghost edges: set<(nat, nat)>, start: nat, ghost before: seq<bool>,
                       ghost index: nat, neighbor: nat, queue0: seq<nat>, visited: array<bool>, neighbors: array<nat>)
    returns (queue: seq<nat>)
    requires visited.Length == |labels| && start < |labels| && labels[start] != TRANSPARENT
    requires ValidLabels(labels, neighbors.Length) && Settled(labels, edges, before)
    requires Flooding(labels, edges, start, before, visited[..], queue0) && index in queue0
    requires index < |labels| && neighbor < |labels| && (index, neighbor) in edges && labels[index] == labels[start]
    modifies visited, neighbors
    ensures Flooding(labels, edges, start, before, visited[..], queue) && queue0 <= queue
    ensures labels[neighbor] == labels[start] ==> neighbor in queue
    ensures forall l :: 0 <= l < neighbors.Length && l != labels[start] ==>
              neighbors[l] == old(neighbors[l]) + if labels[neighbor] == l then 1 else 0
  {
    queue := queue0;
    if labels[neighbor] == labels[start] {
      assert Step(labels, edges, index, neighbor);
      if !visited[neighbor] {
        FloodDiscover(labels, edges, start, before, visited[..], queue, index, neighbor);
        ghost var marked := visited[..][neighbor := true];
        visited[neighbor] := true;
        assert visited[..] == marked;
        queue := queue + [neighbor];
      }
    } else if labels[neighbor] != TRANSPARENT {
      neighbors[labels[neighbor]] := neighbors[labels[neighbor]] + 1;
    }
  }

  // The inner loop over the four neighbours of one dequeued pixel.
  method ExpandPixel(labels: seq<nat>, ghost edges: set<(nat, nat)>, start: nat, ghost before: seq<bool>, index: nat,
                     nbs: seq<Option<nat>>, ghost cursor: nat, queue0: seq<nat>,
                     visited: array<bool>, neighbors: array<nat>)
    returns (queue: seq<nat>)
    requires visited.Length == |labels| && start < |labels|
    requires labels[start] != TRANSPARENT && ValidLabels(labels, neighbors.Length)
    requires Flooding(labels, edges, start, before, visited[..], queue0)
    requires Settled(labels, edges, before)
    requires cursor < |queue0| && queue0[cursor] == index && Expanded(labels, edges, queue0, cursor)
    requires TableOf(edges, index, nbs) && forall q: nat :: (index, q) in edges ==> q < |labels|
    modifies visited, neighbors
    ensures Flooding(labels, edges, start, before, visited[..], queue)
    ensures queue0 <= queue && Expanded(labels, edges, queue, cursor + 1)
    ensures forall k :: 0 <= k < |nbs| && nbs[k].Some? ==> nbs[k].value < |labels|
    ensures forall l :: 0 <= l < neighbors.Length && l != labels[start] ==>
              neighbors[l] == old(neighbors[l]) + CountLabel(labels, nbs, l)
  {
    queue := queue0;
    var tag := labels[start];
    ConnectedSameLabel(labels, edges, start, index);
    NeighborsAdjacent(labels, edges, index, nbs);
    for k := 0 to |nbs|
      invariant Flooding(labels, edges, start, before, visited[..], queue)
      invariant queue0 <= queue
      invariant forall m :: 0 <= m < k && nbs[m].Some? && labels[nbs[m].value] == tag ==> nbs[m].value in queue
      invariant forall l :: 0 <= l < neighbors.Length && l != tag ==>
                  neighbors[l] == old(neighbors[l]) + CountLabel(labels, nbs[..k], l)
    {
      CountNext(labels, nbs, k);
      if nbs[k].Some? {
        queue := VisitNeighbor(labels, edges, start, before, index, nbs[k].value, queue, visited, neighbors);
      }
    }
    assert nbs[..|nbs|] == nbs;
    ExpandedNext(labels, edges, queue0, queue, cursor, nbs);
  }

  // ---- The whole pass -----------------------------------------------------------------------

  // Visited pixels are finished, the others are as in the original image.
  ghost predicate Progress(original: seq<nat>, edges: set<(nat, nat)>, minArea: nat, palette: seq<Color>,
                           visited: seq<bool>, labels: seq<nat>)
  {
    && ValidLabels(original, |palette|)
    && |labels| == |original|
    && Settled(original, edges, visited)
    && forall i: nat :: i < |original| ==>
         if visited[i] then original[i] != TRANSPARENT && PixelSpec(original, edges, minArea, palette, i, labels[i])
         else labels[i] == original[i]
  }

  lemma RegionFinished(original: seq<nat>, edges: set<(nat, nat)>, minArea: nat, palette: seq<Color>,
                       visited: seq<bool>, labels: seq<nat>, start: nat, r: nat, visited': seq<bool>, labels': seq<nat>)
    requires Symmetric(edges, |original|) && Progress(original, edges, minArea, palette, visited, labels)
    requires start < |original| && original[start] != TRANSPARENT && !visited[start]
    requires PixelSpec(original, edges, minArea, palette, start, r)
    requires Settled(original, edges, visited') && |labels'| == |original|
    requires forall i: nat :: i < |original| ==>
               if i in Component(original, edges, start) then visited'[i] && labels'[i] == r
               else visited'[i] == visited[i] && labels'[i] == labels[i]
    ensures Progress(original, edges, minArea, palette, visited', labels')
  {
    RegionSpec(original, edges, minArea, palette, start, r);
  }

  method Relabel(labels: array<nat>, component: seq<nat>, replacement: nat)
    requires forall k :: 0 <= k < |component| ==> component[k] < labels.Length
    modifies labels
    ensures forall i: nat :: i < labels.Length ==>
              labels[i] == if i in Members(component) then replacement else old(labels[i])
  {
    for k := 0 to |component|
      invariant forall i: nat :: i < labels.Length ==>
                  labels[i] == if i in component[..k] then replacement else old(labels[i])
    {
      labels[component[k]] := replacement;
    }
    assert component[..|component|] == component;
  }

  method Run(labels: array<nat>, width: nat, height: nat, minArea: nat, palette: seq<Color>)
    requires labels.Length == width * height && ValidLabels(labels[..], |palette|)
    modifies labels
    ensures forall i: nat :: i < labels.Length ==>
              PixelSpec(old(labels[..]), GridEdges(width, height), minArea, palette, i, labels[i])
  {
    ghost var edges := GridEdges(width, height);
    GridEdgesAreGrid(width, height);
    var original := labels[..];
    if minArea <= 1 || labels.Length == 0 {
      UnitAreaSpec(original, edges, minArea, palette);
      return;
    }
    var visited := new bool[labels.Length](_ => false);
    var neighbors := new nat[|palette|](_ => 0);
    for start := 0 to |original|
      invariant Progress(original, edges, minArea, palette, visited[..], labels[..])
      invariant forall i: nat :: i < start && original[i] != TRANSPARENT ==> visited[i]
    {
      var tag := original[start];
      if tag == TRANSPARENT || visited[start] {
        continue;
      }
      ghost var marked, current := visited[..], labels[..];
      var component := FloodCounting(original, width, height, edges, start, visited, neighbors);
      ghost var region := Component(original, edges, start);
      assert start in region by { ComponentsPartition(original, edges, start, start); }
      if |component| >= minArea {
        RegionUnchanged(original, edges, minArea, palette, marked, current, start, visited[..]);
        continue;
      }
      var replacement := ChooseReplacement(palette, tag, neighbors, original, edges, start);
      assert forall k :: 0 <= k < |component| ==> component[k] in Members(component);
      Relabel(labels, component, replacement);
      RegionFinished(original, edges, minArea, palette, marked, current, start, replacement, visited[..], labels[..]);
    }
  }

  lemma RegionUnchanged(original: seq<nat>, edges: set<(nat, nat)>, minArea: nat, palette: seq<Color>,
                        visited: seq<bool>, labels: seq<nat>, start: nat, visited': seq<bool>)
    requires Symmetric(edges, |original|) && Progress(original, edges, minArea, palette, visited, labels)
    requires start < |original| && original[start] != TRANSPARENT && !visited[start]
    requires |Component(original, edges, start)| >= minArea
    requires Settled(original, edges, visited')
    requires forall i: nat :: i < |original| ==>
               visited'[i] == (visited[i] || i in Component(original, edges, start))
    ensures Progress(original, edges, minArea, palette, visited', labels)
  {
    forall i | i in Component(original, edges, start) ensures labels[i] == original[start] {
      UnmarkedRegion(original, edges, visited, start, i);
      ConnectedSameLabel(original, edges, start, i);
    }
    RegionFinished(original, edges, minArea, palette, visited, labels, start, original[start], visited', labels);
  }

  // With a minimum area of at most one there is nothing to do.
  lemma UnitAreaSpec(labels: seq<nat>, edges: set<(nat, nat)>, minArea: nat, palette: seq<Color>)
    requires ValidLabels(labels, |palette|) && Symmetric(edges, |labels|) && (minArea <= 1 || labels == [])
    ensures forall i: nat :: i < |labels| ==> PixelSpec(labels, edges, minArea, palette, i, labels[i])
  {
    forall i: nat | i < |labels| ensures |Component(labels, edges, i)| >= 1 {
      ComponentsPartition(labels, edges, i, i);
      SubsetSize({i}, Component(labels, edges, i));
    }
  }

  // All pixels of one region share one specification.
  lemma RegionSpec(labels: seq<nat>, edges: set<(nat, nat)>, minArea: nat, palette: seq<Color>, start: nat, r: nat)
    requires Symmetric(edges, |labels|)
    requires start < |labels| && ValidLabels(labels, |palette|) && labels[start] != TRANSPARENT
    requires PixelSpec(labels, edges, minArea, palette, start, r)
    ensures forall i: nat :: i in Component(labels, edges, start) ==>
              labels[i] != TRANSPARENT && PixelSpec(labels, edges, minArea, palette, i, r)
  {
    forall i: nat | i in Component(labels, edges, start)
      ensures labels[i] != TRANSPARENT && PixelSpec(labels, edges, minArea, palette, i, r)
    {
      ConnectedSameLabel(labels, edges, start, i);
      ComponentsPartition(labels, edges, start, i);
    }
  }

  // ---- Consequences -------------------------------------------------------------------------

  // The result depends on the original grid alone, not on the order of the scan.
  lemma ResultDetermined(labels: seq<nat>, edges: set<(nat, nat)>, minArea: nat, palette: seq<Color>, out: seq<nat>,
                         out': seq<nat>)
    requires ValidLabels(labels, |palette|) && |out| == |out'| == |labels|
    requires forall i: nat :: i < |labels| ==> PixelSpec(labels, edges, minArea, palette, i, out[i])
    requires forall i: nat :: i < |labels| ==> PixelSpec(labels, edges, minArea, palette, i, out'[i])
    ensures out == out' && ValidLabels(out, |palette|)
    ensures forall i :: 0 <= i < |labels| && labels[i] == TRANSPARENT ==> out[i] == TRANSPARENT
  {
    forall i: nat | i < |labels|
      ensures out[i] == out'[i] && (out[i] == TRANSPARENT || out[i] < |palette|)
    {
      assert PixelSpec(labels, edges, minArea, palette, i, out[i])
             && PixelSpec(labels, edges, minArea, palette, i, out'[i]);
      if labels[i] != TRANSPARENT && |Component(labels, edges, i)| < minArea {
        ReplacementUnique(labels, edges, palette, i, out[i], out'[i]);
      }
    }
  }

  ghost predicate Small(labels: seq<nat>, edges: set<(nat, nat)>, minArea: nat, i: nat)
  {
    i < |labels| && labels[i] != TRANSPARENT && |Component(labels, edges, i)| < minArea
  }

  // The grid the original prescribes.
  ghost predicate Despeckled(labels: seq<nat>, edges: set<(nat, nat)>, minArea: nat, palette: seq<Color>, out: seq<nat>)
  {
    && Symmetric(edges, |labels|) && ValidLabels(labels, |palette|) && |out| == |labels|
    && forall j: nat :: j < |labels| ==> PixelSpec(labels, edges, minArea, palette, j, out[j])
  }

  ghost predicate BordersLarge(labels: seq<nat>, edges: set<(nat, nat)>, minArea: nat, r: nat, p: nat, q: nat)
  {
    q < |labels| && (p, q) in edges && labels[q] == r && !Small(labels, edges, minArea, q)
  }

  // The region around i borders a large one of label r.
  ghost predicate LeansOnLarge(labels: seq<nat>, edges: set<(nat, nat)>, minArea: nat, i: nat, r: nat)
  {
    exists p: nat, q: nat :: p in Component(labels, edges, i) && BordersLarge(labels, edges, minArea, r, p, q)
  }

  // A speck that gets the label of a large region it borders is a speck no more.
  lemma LeaningVanishes(labels: seq<nat>, edges: set<(nat, nat)>, minArea: nat, palette: seq<Color>, out: seq<nat>,
                        i: nat)
    requires Despeckled(labels, edges, minArea, palette, out) && Small(labels, edges, minArea, i)
    requires out[i] != TRANSPARENT && LeansOnLarge(labels, edges, minArea, i, out[i])
    ensures !Small(out, edges, minArea, i)
  {
    var p: nat, q: nat :| p in Component(labels, edges, i) && BordersLarge(labels, edges, minArea, out[i], p, q);
    LargeSurvives(labels, edges, minArea, palette, out, q);
    RegionMerges(labels, edges, minArea, palette, out, i, p);
    ConnectedStep(out, edges, i, p, q);
    ComponentsPartition(out, edges, i, q);
  }

  // The label a speck gets is borne across some edge.
  lemma ChosenBorders(labels: seq<nat>, edges: set<(nat, nat)>, minArea: nat, palette: seq<Color>, i: nat, r: nat)
    returns (p: nat, q: nat)
    requires ValidLabels(labels, |palette|) && Small(labels, edges, minArea, i) && r != TRANSPARENT
    requires PixelSpec(labels, edges, minArea, palette, i, r)
    ensures p in Component(labels, edges, i) && q < |labels| && (p, q) in edges && labels[q] == r != labels[p]
  {
    var region := Component(labels, edges, i);
    assert SharedBorder(labels, edges, region, r) > 0;
    var edge :| edge in BorderEdges(labels, edges, region, r);
    p, q := edge.0, edge.1;
    ConnectedSameLabel(labels, edges, i, p);
  }

  // No speck is left where a region touches no small region of another label.
  lemma NoSpecksLeft(labels: seq<nat>, edges: set<(nat, nat)>, minArea: nat, palette: seq<Color>, out: seq<nat>, i: nat)
    requires Despeckled(labels, edges, minArea, palette, out)
    requires forall p: nat, q: nat ::
                 (p, q) in edges && p in Component(labels, edges, i) && Small(labels, edges, minArea, q) ==>
               labels[p] == labels[q]
    ensures !Small(out, edges, minArea, i)
  {
    if i < |labels| && out[i] != TRANSPARENT {
      assert PixelSpec(labels, edges, minArea, palette, i, out[i]);
      if Small(labels, edges, minArea, i) {
        var p, q := ChosenBorders(labels, edges, minArea, palette, i, out[i]);
        assert BordersLarge(labels, edges, minArea, out[i], p, q);
        LeaningVanishes(labels, edges, minArea, palette, out, i);
      } else {
        LargeSurvives(labels, edges, minArea, palette, out, i);
      }
    }
  }

  // ---- Exactly which specks are left --------------------------------------------------------

  // Two pixels that touch or lie in one region of the original, and are prescribed one opaque label.
  ghost predicate Meet(labels: seq<nat>, edges: set<(nat, nat)>, minArea: nat, palette: seq<Color>, p: nat, q: nat)
    requires ValidLabels(labels, |palette|) && p < |labels| && q < |labels|
  {
    && ((p, q) in edges || q in Component(labels, edges, p))
    && exists r: nat ::
         && r != TRANSPARENT && PixelSpec(labels, edges, minArea, palette, p, r)
         && PixelSpec(labels, edges, minArea, palette, q, r)
  }

  ghost function Meetings(labels: seq<nat>, edges: set<(nat, nat)>, minArea: nat, palette: seq<Color>): set<(nat, nat)>
    requires ValidLabels(labels, |palette|)
  {
    set p: nat, q: nat | p < |labels| && q < |labels| && Meet(labels, edges, minArea, palette, p, q) :: (p, q)
  }

  // All pixels that a chain of such pairs joins to i.
  ghost function Pool(labels: seq<nat>, edges: set<(nat, nat)>, minArea: nat, palette: seq<Color>, i: nat): set<nat>
    requires ValidLabels(labels, |palette|)
  {
    Component(seq(|labels|, _ => 0), Meetings(labels, edges, minArea, palette), i)
  }

  // Each pixel is prescribed one label.
  lemma PrescribedOnce(labels: seq<nat>, edges: set<(nat, nat)>, minArea: nat, palette: seq<Color>, i: nat, r: nat,
                       r': nat)
    requires i < |labels| && ValidLabels(labels, |palette|)
    requires PixelSpec(labels, edges, minArea, palette, i, r) && PixelSpec(labels, edges, minArea, palette, i, r')
    ensures r == r'
  {
    if labels[i] != TRANSPARENT && |Component(labels, edges, i)| < minArea {
      ReplacementUnique(labels, edges, palette, i, r, r');
    }
  }

  lemma MeetingConnects(labels: seq<nat>, edges: set<(nat, nat)>, minArea: nat, palette: seq<Color>, out: seq<nat>,
                        i: nat, a: nat, b: nat)
    requires Despeckled(labels, edges, minArea, palette, out) && i < |labels| && a in Component(out, edges, i)
    requires a < |labels| && b < |labels| && Meet(labels, edges, minArea, palette, a, b)
    ensures b in Component(out, edges, i)
  {
    var r: nat :| && r != TRANSPARENT && PixelSpec(labels, edges, minArea, palette, a, r)
                  && PixelSpec(labels, edges, minArea, palette, b, r);
    PrescribedOnce(labels, edges, minArea, palette, a, r, out[a]);
    PrescribedOnce(labels, edges, minArea, palette, b, r, out[b]);
    if (a, b) in edges {
      ConnectedStep(out, edges, i, a, b);
    } else {
      RegionMerges(labels, edges, minArea, palette, out, a, b);
      ConnectedTransitive(out, edges, i, a, b);
    }
  }

  lemma MeetingAcross(labels: seq<nat>, edges: set<(nat, nat)>, minArea: nat, palette: seq<Color>, out: seq<nat>,
                      a: nat, b: nat)
    requires Despeckled(labels, edges, minArea, palette, out) && Step(out, edges, a, b) && out[a] != TRANSPARENT
    ensures (a, b) in Meetings(labels, edges, minArea, palette)
  {
    assert PixelSpec(labels, edges, minArea, palette, a, out[a])
           && PixelSpec(labels, edges, minArea, palette, b, out[a]);
    assert Meet(labels, edges, minArea, palette, a, b);
  }

  // The pool of a pixel is its region in the result.
  lemma PoolWithin(labels: seq<nat>, edges: set<(nat, nat)>, minArea: nat, palette: seq<Color>, out: seq<nat>, i: nat)
    requires Despeckled(labels, edges, minArea, palette, out) && i < |labels|
    ensures Pool(labels, edges, minArea, palette, i) <= Component(out, edges, i)
  {
    var zeros, meetings, region := seq(|labels|, _ => 0), Meetings(labels, edges, minArea, palette),
        Component(out, edges, i);
    ConnectedSelf(out, edges, i);
    forall a: nat, b: nat | a in region && Step(zeros, meetings, a, b) ensures b in region {
      MeetingConnects(labels, edges, minArea, palette, out, i, a, b);
    }
    forall j | j in Pool(labels, edges, minArea, palette, i) ensures j in region {
      ConnectedReach(zeros, meetings, region, i, j);
    }
  }

  lemma PoolCovers(labels: seq<nat>, edges: set<(nat, nat)>, minArea: nat, palette: seq<Color>, out: seq<nat>, i: nat)
    requires Despeckled(labels, edges, minArea, palette, out) && i < |labels| && out[i] != TRANSPARENT
    ensures Component(out, edges, i) <= Pool(labels, edges, minArea, palette, i)
  {
    var zeros, meetings := seq(|labels|, _ => 0), Meetings(labels, edges, minArea, palette);
    var same := set k | k in Pool(labels, edges, minArea, palette, i) && k < |out| && out[k] == out[i];
    ConnectedSelf(zeros, meetings, i);
    forall a: nat, b: nat | a in same && Step(out, edges, a, b) ensures b in same {
      MeetingAcross(labels, edges, minArea, palette, out, a, b);
      ConnectedStep(zeros, meetings, i, a, b);
    }
    forall j | j in Component(out, edges, i) ensures j in Pool(labels, edges, minArea, palette, i) {
      ConnectedReach(out, edges, same, i, j);
    }
  }

  // A speck is left exactly where some opaque label is prescribed and the pixels that meet under
  // it are too few. They are whole regions of the original, and none of them is large.
  lemma SpeckLeftExactly(labels: seq<nat>, edges: set<(nat, nat)>, minArea: nat, palette: seq<Color>, out: seq<nat>,
                         i: nat)
    requires Despeckled(labels, edges, minArea, palette, out) && i < |labels|
    ensures Small(out, edges, minArea, i) <==>
              && !PixelSpec(labels, edges, minArea, palette, i, TRANSPARENT)
              && |Pool(labels, edges, minArea, palette, i)| < minArea
    ensures Small(out, edges, minArea, i) ==>
              forall j :: j in Pool(labels, edges, minArea, palette, i) ==>
                && j < |labels| && Small(labels, edges, minArea, j)
                && Component(labels, edges, j) <= Pool(labels, edges, minArea, palette, i)
  {
    assert PixelSpec(labels, edges, minArea, palette, i, out[i]);
    if out[i] == TRANSPARENT {
    } else {
      if PixelSpec(labels, edges, minArea, palette, i, TRANSPARENT) {
        PrescribedOnce(labels, edges, minArea, palette, i, TRANSPARENT, out[i]);
      }
      PoolWithin(labels, edges, minArea, palette, out, i);
      PoolCovers(labels, edges, minArea, palette, out, i);
      var pool := Pool(labels, edges, minArea, palette, i);
      assert pool == Component(out, edges, i);
      forall j | j in pool
        ensures j < |labels| && labels[j] != TRANSPARENT && Component(labels, edges, j) <= pool
                && |Component(labels, edges, j)| <= |pool|
      {
        PoolWhole(labels, edges, minArea, palette, out, i, j);
      }
    }
  }

  // An opaque region of the result takes in the original regions of its pixels whole.
  lemma PoolWhole(labels: seq<nat>, edges: set<(nat, nat)>, minArea: nat, palette: seq<Color>, out: seq<nat>,
                  i: nat, j: nat)
    requires Despeckled(labels, edges, minArea, palette, out) && i < |labels| && out[i] != TRANSPARENT
    requires j in Component(out, edges, i)
    ensures j < |labels| && labels[j] != TRANSPARENT
    ensures Component(labels, edges, j) <= Component(out, edges, i)
    ensures |Component(labels, edges, j)| <= |Component(out, edges, i)|
  {
    ConnectedSameLabel(out, edges, i, j);
    assert PixelSpec(labels, edges, minArea, palette, j, out[j]);
    forall k | k in Component(labels, edges, j) ensures k in Component(out, edges, i) {
      RegionMerges(labels, edges, minArea, palette, out, j, k);
      ConnectedTransitive(out, edges, i, j, k);
    }
    SubsetSize(Component(labels, edges, j), Component(out, edges, i));
  }

  // Pixels of one original region stay connected in the result.
  lemma RegionMerges(labels: seq<nat>, edges: set<(nat, nat)>, minArea: nat, palette: seq<Color>, out: seq<nat>,
                     i: nat, p: nat)
    requires Symmetric(edges, |labels|) && ValidLabels(labels, |palette|) && |out| == |labels|
    requires forall j: nat :: j < |labels| ==> PixelSpec(labels, edges, minArea, palette, j, out[j])
    requires i < |labels| && labels[i] != TRANSPARENT && p in Component(labels, edges, i)
    ensures Connected(out, edges, i, p) && out[p] == out[i]
  {
    RegionSpec(labels, edges, minArea, palette, i, out[i]);
    forall a | a in Component(labels, edges, i) ensures out[a] == out[i] {
      ConnectedSameLabel(labels, edges, i, a);
      assert PixelSpec(labels, edges, minArea, palette, a, out[a])
             && PixelSpec(labels, edges, minArea, palette, a, out[i]);
      if |Component(labels, edges, a)| < minArea {
        ReplacementUnique(labels, edges, palette, a, out[a], out[i]);
      }
    }
    var merged := set k: nat | k in Component(labels, edges, i) && Connected(out, edges, i, k);
    ConnectedSelf(labels, edges, i);
    ConnectedSelf(out, edges, i);
    forall a: nat, b: nat | a in merged && Step(labels, edges, a, b) ensures b in merged {
      ConnectedStep(labels, edges, i, a, b);
      assert b in Component(labels, edges, i);
      assert Step(out, edges, a, b);
      ConnectedStep(out, edges, i, a, b);
    }
    ConnectedReach(labels, edges, merged, i, p);
  }

  lemma LargeSurvives(labels: seq<nat>, edges: set<(nat, nat)>, minArea: nat, palette: seq<Color>, out: seq<nat>,
                      i: nat)
    requires Symmetric(edges, |labels|) && ValidLabels(labels, |palette|) && |out| == |labels|
    requires forall j: nat :: j < |labels| ==> PixelSpec(labels, edges, minArea, palette, j, out[j])
    requires i < |labels| && labels[i] != TRANSPARENT && |Component(labels, edges, i)| >= minArea
    ensures out[i] == labels[i] && |Component(out, edges, i)| >= minArea
  {
    assert PixelSpec(labels, edges, minArea, palette, i, out[i]);
    forall p | p in Component(labels, edges, i) ensures p in Component(out, edges, i) {
      RegionMerges(labels, edges, minArea, palette, out, i, p);
    }
    SubsetSize(Component(labels, edges, i), Component(out, edges, i));
  }

  // The condition matters: two touching one-pixel regions swap their labels, and both remain.
  lemma TouchingSpecksSwap(c: Color, d: Color)
    ensures var labels, edges := [0, 1], GridEdges(2, 1);
            && PixelSpec(labels, edges, 2, [c, d], 0, 1)
            && PixelSpec(labels, edges, 2, [c, d], 1, 0)
            && Small([1, 0], edges, 2, 0)
  {
    var edges := GridEdges(2, 1);
    TwoPixelEdges();
    SoloRegion([0, 1], edges);
    SoloRegion([1, 0], edges);
    assert Outside([0, 1], edges, 0, 1) == {1} && Outside([0, 1], edges, 1, 0) == {0};
    assert (0, 1) in BorderEdges([0, 1], edges, {0}, 1);
    assert (1, 0) in BorderEdges([0, 1], edges, {1}, 0);
  }

  lemma TwoPixelEdges()
    ensures GridEdges(2, 1) == {(0, 1), (1, 0)}
  {
    assert 0 % 2 == 0 && 1 % 2 == 1 && 0 / 2 == 0 && 1 / 2 == 0;
  }

  lemma SoloRegion(labels: seq<nat>, edges: set<(nat, nat)>)
    requires edges == {(0, 1), (1, 0)} && |labels| == 2 && labels[0] != labels[1]
    ensures Component(labels, edges, 0) == {0} && Component(labels, edges, 1) == {1}
  {
    forall i: nat, j: nat | i < 2 && Connected(labels, edges, i, j) ensures j == i {
      ConnectedSameLabel(labels, edges, i, j);
    }
    ConnectedSelf(labels, edges, 0);
    ConnectedSelf(labels, edges, 1);
  }
}

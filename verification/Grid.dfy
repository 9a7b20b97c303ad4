// The pixel grid of kagami-trace: row-major indices, the four-neighbour table, and
// connectivity of equally labelled pixels as existence of a path.
module Grid {
  import opened Wrappers

  // Label of a pixel that belongs to no palette colour (u16::MAX in the source).
  const TRANSPARENT: nat := 65535

  // Left, right, up, down; None where the image ends.
  function PixelNeighbors(x: nat, y: nat, width: nat, height: nat): seq<Option<nat>>
  {
    [ if x > 0 then Some(y * width + x - 1) else None,
      if x + 1 < width then Some(y * width + x + 1) else None,
      if y > 0 then Some((y - 1) * width + x) else None,
      if y + 1 < height then Some((y + 1) * width + x) else None ]
  }

  // Geometric adjacency of two row-major indices: same row and neighbouring columns, or the
  // same column and neighbouring rows.
  ghost predicate Adjacent(width: nat, size: nat, i: nat, j: nat)
  {
    && width > 0 && i < size && j < size
    && var xi, yi, xj, yj := i % width, i / width, j % width, j / width;
       || (yi == yj && (xi == xj + 1 || xj == xi + 1))
       || (xi == xj && (yi == yj + 1 || yj == yi + 1))
  }

  lemma IndexOf(width: nat, height: nat, x: nat, y: nat)
    requires x < width && y < height
    ensures y * width + x < width * height
    ensures (y * width + x) % width == x && (y * width + x) / width == y
  {
    MulMonotone(y + 1, height, width);
    DivModUnique(y * width + x, width, y, x);
  }

  lemma MulMonotone(a: int, b: int, w: nat)
    requires a <= b
    ensures a * w <= b * w
  {
  }

  lemma DivModUnique(n: nat, d: nat, q: nat, r: nat)
    requires d > 0 && r < d && n == q * d + r
    ensures n / d == q && n % d == r
  {
    var q', r' := n / d, n % d;
    assert n == d * q' + r';
    if q' < q { MulMonotone(q' + 1, q, d); }
    if q < q' { MulMonotone(q + 1, q', d); }
  }

  lemma Coordinates(width: nat, height: nat, i: nat)
    requires i < width * height
    ensures width > 0 && height > 0
    ensures i % width < width && i / width < height
    ensures i == (i / width) * width + i % width
  {
    if height <= i / width { MulMonotone(height, i / width, width); }
  }

  // Row-major index of a position.
  function Cell(width: nat, x: nat, y: nat): nat
  {
    y * width + x
  }

  lemma CellInjective(width: nat, x: nat, y: nat, x': nat, y': nat)
    requires x < width && x' < width && Cell(width, x, y) == Cell(width, x', y')
    ensures x == x' && y == y'
  {
    DivModUnique(Cell(width, x, y), width, y, x);
    DivModUnique(Cell(width, x', y'), width, y', x');
  }

  lemma CellsFit(width: nat, height: nat)
    ensures forall x: nat, y: nat :: x < width && y < height ==> Cell(width, x, y) < width * height
  {
    forall x: nat, y: nat | x < width && y < height ensures Cell(width, x, y) < width * height {
      IndexOf(width, height, x, y);
    }
  }

  // The adjacency relation of a width x height grid.
  ghost function GridEdges(width: nat, height: nat): set<(nat, nat)>
  {
    set i: nat, j: nat | i < width * height && j < width * height && Adjacent(width, width * height, i, j) :: (i, j)
  }

  // The four entries of pixel i name exactly its neighbours in edges, each of them once.
  ghost predicate TableAt(edges: set<(nat, nat)>, width: nat, height: nat, i: nat)
  {
    && width > 0
    && TableOf(edges, i, PixelNeighbors(i % width, i / width, width, height))
  }

  // The present entries of nbs are exactly the neighbours of pixel i, without repetition.
  ghost predicate TableOf(edges: set<(nat, nat)>, i: nat, nbs: seq<Option<nat>>)
  {
    && (forall j: nat :: Some(j) in nbs <==> (i, j) in edges)
    && (forall a: nat, b: nat :: a < b < |nbs| && nbs[a].Some? ==> nbs[a] != nbs[b])
  }

  lemma AdjacentInTable(width: nat, height: nat, i: nat, j: nat)
    requires i < width * height && j < width * height
    requires Adjacent(width, width * height, i, j)
    ensures Some(j) in PixelNeighbors(i % width, i / width, width, height)
  {
    Coordinates(width, height, i);
    Coordinates(width, height, j);
    NeighborListed(width, height, i % width, i / width, j % width, j / width);
  }

  lemma NeighborListed(width: nat, height: nat, x: nat, y: nat, x': nat, y': nat)
    requires x < width && y < height && x' < width && y' < height
    requires (y == y' && (x == x' + 1 || x' == x + 1)) || (x == x' && (y == y' + 1 || y' == y + 1))
    ensures Some(y' * width + x') in PixelNeighbors(x, y, width, height)
  {
    var nbs := PixelNeighbors(x, y, width, height);
    if y' == y {
      if x' + 1 == x { assert nbs[0] == Some(y' * width + x'); } else { assert nbs[1] == Some(y' * width + x'); }
    } else {
      if y' + 1 == y { assert nbs[2] == Some(y' * width + x'); } else { assert nbs[3] == Some(y' * width + x'); }
    }
  }

  lemma AdjacentAt(width: nat, height: nat, x: nat, y: nat, x': nat, y': nat)
    requires x < width && y < height && x' < width && y' < height
    requires (y == y' && (x == x' + 1 || x' == x + 1)) || (x == x' && (y == y' + 1 || y' == y + 1))
    ensures Adjacent(width, width * height, y * width + x, y' * width + x')
  {
    IndexOf(width, height, x, y);
    IndexOf(width, height, x', y');
  }

  lemma TableIsAdjacent(width: nat, height: nat, x: nat, y: nat, j: nat)
    requires x < width && y < height
    requires Some(j) in PixelNeighbors(x, y, width, height)
    ensures Adjacent(width, width * height, y * width + x, j)
  {
    var nbs := PixelNeighbors(x, y, width, height);
    var k :| 0 <= k < 4 && nbs[k] == Some(j);
    var x' := if k == 0 then x - 1 else if k == 1 then x + 1 else x;
    var y' := if k == 2 then y - 1 else if k == 3 then y + 1 else y;
    AdjacentAt(width, height, x, y, x', y');
  }

  lemma TableDistinct(width: nat, height: nat, x: nat, y: nat)
    requires x < width && y < height
    ensures var nbs := PixelNeighbors(x, y, width, height);
            forall a: nat, b: nat :: a < b < 4 && nbs[a].Some? ==> nbs[a] != nbs[b]
  {
    assert (y + 1) * width == y * width + width && (y - 1) * width == y * width - width;
  }

  lemma TableExact(width: nat, height: nat, i: nat)
    requires i < width * height
    ensures TableAt(GridEdges(width, height), width, height, i)
  {
    Coordinates(width, height, i);
    var nbs := PixelNeighbors(i % width, i / width, width, height);
    TableDistinct(width, height, i % width, i / width);
    forall j: nat ensures Some(j) in nbs <==> (i, j) in GridEdges(width, height) {
      if Some(j) in nbs { TableIsAdjacent(width, height, i % width, i / width, j); }
      if (i, j) in GridEdges(width, height) { AdjacentInTable(width, height, i, j); }
    }
  }

  // edges is a symmetric relation on the pixels, given pointwise by the neighbour table.
  ghost predicate IsGrid(edges: set<(nat, nat)>, width: nat, height: nat)
  {
    && (forall i: nat :: i < width * height ==> TableAt(edges, width, height, i))
    && Symmetric(edges, width * height)
  }

  ghost predicate Symmetric(edges: set<(nat, nat)>, size: nat)
  {
    forall i: nat, j: nat :: (i, j) in edges ==> i < size && j < size && (j, i) in edges
  }

  lemma GridEdgesAreGrid(width: nat, height: nat)
    ensures IsGrid(GridEdges(width, height), width, height)
  {
    forall i: nat | i < width * height ensures TableAt(GridEdges(width, height), width, height, i) {
      TableExact(width, height, i);
    }
  }

  // The neighbours of the pixel at a row-major index.
  method NeighborsOf(width: nat, height: nat, index: nat, ghost edges: set<(nat, nat)>) returns (nbs: seq<Option<nat>>)
    requires index < width * height && IsGrid(edges, width, height)
    ensures TableOf(edges, index, nbs)
  {
    assert TableAt(edges, width, height, index);
    var x, y := index % width, index / width;
    nbs := PixelNeighbors(x, y, width, height);
  }

  // ---- Connectivity -------------------------------------------------------------------------

  // One move between equally labelled adjacent pixels.
  ghost predicate Step(labels: seq<nat>, edges: set<(nat, nat)>, i: nat, j: nat)
  {
    i < |labels| && j < |labels| && (i, j) in edges && labels[i] == labels[j]
  }

  ghost predicate IsPath(labels: seq<nat>, edges: set<(nat, nat)>, path: seq<nat>)
  {
    && path != []
    && path[0] < |labels|
    && forall k :: 0 <= k < |path| - 1 ==> Step(labels, edges, path[k], path[k + 1])
  }

  ghost predicate Connected(labels: seq<nat>, edges: set<(nat, nat)>, i: nat, j: nat)
  {
    exists path :: IsPath(labels, edges, path) && path[0] == i && path[|path| - 1] == j
  }

  // The 4-connected region of equally labelled pixels around i.
  ghost function Component(labels: seq<nat>, edges: set<(nat, nat)>, i: nat): set<nat>
  {
    set j: nat | j < |labels| && Connected(labels, edges, i, j)
  }

  lemma ConnectedSelf(labels: seq<nat>, edges: set<(nat, nat)>, i: nat)
    requires i < |labels|
    ensures Connected(labels, edges, i, i)
  {
    assert IsPath(labels, edges, [i]);
  }

  lemma ConnectedStep(labels: seq<nat>, edges: set<(nat, nat)>, i: nat, j: nat, k: nat)
    requires Connected(labels, edges, i, j) && Step(labels, edges, j, k)
    ensures Connected(labels, edges, i, k)
  {
    var path :| IsPath(labels, edges, path) && path[0] == i && path[|path| - 1] == j;
    var longer := path + [k];
    assert IsPath(labels, edges, longer);
    assert longer[0] == i && longer[|longer| - 1] == k;
  }

  // A set closed under moves contains everything connected to any of its members.
  lemma {:induction false} ClosedContains(labels: seq<nat>, edges: set<(nat, nat)>, closed: set<nat>, path: seq<nat>)
    requires IsPath(labels, edges, path) && path[0] in closed
    requires forall i: nat, j: nat :: i in closed && Step(labels, edges, i, j) ==> j in closed
    ensures forall k :: 0 <= k < |path| ==> path[k] in closed
  {
    if |path| > 1 {
      assert Step(labels, edges, path[0], path[1]);
      var rest := path[1..];
      forall k | 0 <= k < |rest| - 1 ensures Step(labels, edges, rest[k], rest[k + 1]) {
        assert Step(labels, edges, path[k + 1], path[k + 2]);
      }
      ClosedContains(labels, edges, closed, rest);
      assert forall k :: 1 <= k < |path| ==> path[k] == rest[k - 1];
    }
  }

  // Anything constant along moves is constant along connectivity; in particular the label is.
  lemma ConnectedSameLabel(labels: seq<nat>, edges: set<(nat, nat)>, i: nat, j: nat)
    requires Connected(labels, edges, i, j)
    ensures i < |labels| && j < |labels| && labels[i] == labels[j]
  {
    var path :| IsPath(labels, edges, path) && path[0] == i && path[|path| - 1] == j;
    var same := set k: nat | k < |labels| && labels[k] == labels[i];
    ClosedContains(labels, edges, same, path);
    assert path[|path| - 1] in same;
  }

  lemma ConnectedReach(labels: seq<nat>, edges: set<(nat, nat)>, closed: set<nat>, i: nat, j: nat)
    requires Connected(labels, edges, i, j) && i in closed
    requires forall a: nat, b: nat :: a in closed && Step(labels, edges, a, b) ==> b in closed
    ensures j in closed
  {
    var path :| IsPath(labels, edges, path) && path[0] == i && path[|path| - 1] == j;
    ClosedContains(labels, edges, closed, path);
    assert path[|path| - 1] in closed;
  }

  lemma ConnectedTransitive(labels: seq<nat>, edges: set<(nat, nat)>, i: nat, j: nat, k: nat)
    requires Connected(labels, edges, i, j) && Connected(labels, edges, j, k)
    ensures Connected(labels, edges, i, k)
  {
    ConnectedSameLabel(labels, edges, i, j);
    ConnectedSameLabel(labels, edges, j, k);
    var reach := Component(labels, edges, i);
    forall a: nat, b: nat | a in reach && Step(labels, edges, a, b) ensures b in reach {
      ConnectedStep(labels, edges, i, a, b);
    }
    ConnectedReach(labels, edges, reach, j, k);
  }

  lemma ConnectedSymmetric(labels: seq<nat>, edges: set<(nat, nat)>, i: nat, j: nat)
    requires Symmetric(edges, |labels|)
    requires Connected(labels, edges, i, j)
    ensures Connected(labels, edges, j, i)
  {
    ConnectedSameLabel(labels, edges, i, j);
    var back := set k: nat | k < |labels| && Connected(labels, edges, k, i);
    ConnectedSelf(labels, edges, i);
    forall a: nat, b: nat | a in back && Step(labels, edges, a, b) ensures b in back {
      ConnectedSelf(labels, edges, b);
      assert Step(labels, edges, b, a);
      ConnectedStep(labels, edges, b, b, a);
      ConnectedTransitive(labels, edges, b, a, i);
    }
    ConnectedReach(labels, edges, back, i, j);
  }

  // Components are equivalence classes: two of them are equal or disjoint.
  lemma ComponentsPartition(labels: seq<nat>, edges: set<(nat, nat)>, i: nat, j: nat)
    requires Symmetric(edges, |labels|)
    requires i < |labels| && j < |labels|
    ensures i in Component(labels, edges, i)
    ensures j in Component(labels, edges, i) ==> Component(labels, edges, i) == Component(labels, edges, j)
    ensures j !in Component(labels, edges, i) ==> Component(labels, edges, i) !! Component(labels, edges, j)
  {
    ConnectedSelf(labels, edges, i);
    var ci, cj := Component(labels, edges, i), Component(labels, edges, j);
    if j in ci {
      ConnectedSymmetric(labels, edges, i, j);
      forall k: nat | k < |labels| ensures k in ci <==> k in cj {
        if k in ci { ConnectedTransitive(labels, edges, j, i, k); }
        if k in cj { ConnectedTransitive(labels, edges, i, j, k); }
      }
    } else {
      forall k | k in ci ensures k !in cj {
        if k in cj {
          ConnectedSymmetric(labels, edges, j, k);
          ConnectedTransitive(labels, edges, i, k, j);
        }
      }
    }
  }
}

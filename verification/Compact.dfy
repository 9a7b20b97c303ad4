// compact_labels: drop unused palette entries and renumber the rest by falling pixel count.
module Compact {
  import Wrappers
  import opened Grid
  import Flood
  import opened Despeckle
  import opened Sorting

  function ColorSortKey(color: Color): nat
  {
    ((color.r * 256 + color.g) * 256 + color.b) * 256 + color.a
  }

  // Red decides, then green, then blue, then alpha.
  predicate NotAfter(c: Color, d: Color)
  {
    || c.r < d.r || (c.r == d.r && c.g < d.g) || (c.r == d.r && c.g == d.g && c.b < d.b)
    || (c.r == d.r && c.g == d.g && c.b == d.b && c.a <= d.a)
  }

  lemma SortKeyOrder(c: Color, d: Color)
    ensures ColorSortKey(c) <= ColorSortKey(d) <==> NotAfter(c, d)
  {
  }

  function CountOf(counts: seq<nat>, index: nat): nat
  {
    if index < |counts| then counts[index] else 0
  }

  function KeyOf(palette: seq<Color>, index: nat): nat
  {
    if index < |palette| then ColorSortKey(palette[index]) else 0
  }

  // More pixels first; equal counts by colour.
  predicate Before(counts: seq<nat>, palette: seq<Color>, left: nat, right: nat)
  {
    || CountOf(counts, left) > CountOf(counts, right)
    || (CountOf(counts, left) == CountOf(counts, right) && KeyOf(palette, left) <= KeyOf(palette, right))
  }

  function Order(counts: seq<nat>, palette: seq<Color>): (nat, nat) -> bool
  {
    (left: nat, right: nat) => Before(counts, palette, left, right)
  }

  function Sum(s: seq<nat>): nat
  {
    if s == [] then 0 else Sum(s[..|s| - 1]) + s[|s| - 1]
  }

  ghost function Opaque(labels: seq<nat>): set<nat>
  {
    set i: nat | i < |labels| && labels[i] != TRANSPARENT
  }

  // How the result relates to the labels it was made from.
  ghost predicate Compacted(before: seq<nat>, palette: seq<Color>, after: seq<nat>, newPalette: seq<Color>,
                            newCounts: seq<nat>)
  {
    && |after| == |before| && |newPalette| == |newCounts|
    && ValidLabels(before, |palette|) && ValidLabels(after, |newPalette|)
    && (forall i :: 0 <= i < |before| ==> (after[i] == TRANSPARENT <==> before[i] == TRANSPARENT))
    && (forall i :: 0 <= i < |before| && before[i] != TRANSPARENT ==> newPalette[after[i]] == palette[before[i]])
    && (forall i, j :: 0 <= i < j < |before| ==> (after[i] == after[j] <==> before[i] == before[j]))
    && (forall k :: 0 <= k < |newCounts| ==> newCounts[k] == multiset(after)[k] > 0)
    && (forall k, l :: 0 <= k < l < |newCounts| ==>
          || newCounts[k] > newCounts[l]
          || (newCounts[k] == newCounts[l] && NotAfter(newPalette[k], newPalette[l])))
    && Sum(newCounts) == |Opaque(before)|
  }

  method CompactLabels(labels: array<nat>, palette: seq<Color>) returns (newPalette: seq<Color>, newCounts: seq<nat>)
    requires ValidLabels(labels[..], |palette|)
    modifies labels
    ensures Compacted(old(labels[..]), palette, labels[..], newPalette, newCounts)
  {
    ghost var before := labels[..];
    var counts := CountLabels(labels, |palette|);
    var active := ActiveInOrder(counts, palette);
    DistinctBound(active, |palette|);
    var remap;
    remap, newPalette, newCounts := Renumber(active, counts, palette);
    forall i | 0 <= i < |before| && before[i] != TRANSPARENT ensures before[i] in active {
      assert before[i] in multiset(before);
    }
    ApplyRemap(labels, remap, active);
    Renumbered(before, palette, counts, active, labels[..], newPalette, newCounts);
  }

  method Renumber(active: seq<nat>, counts: seq<nat>, palette: seq<Color>)
    returns (remap: seq<nat>, newPalette: seq<Color>, newCounts: seq<nat>)
    requires |counts| == |palette|
    requires forall k :: 0 <= k < |active| ==> active[k] < |palette|
    requires forall j, k :: 0 <= j < k < |active| ==> active[j] != active[k]
    ensures |remap| == |palette| && |newPalette| == |newCounts| == |active|
    ensures forall k :: 0 <= k < |active| ==> remap[active[k]] == k
    ensures forall k :: 0 <= k < |active| ==> newPalette[k] == palette[active[k]] && newCounts[k] == counts[active[k]]
  {
    var table := new nat[|palette|](_ => TRANSPARENT);
    newPalette, newCounts := [], [];
    for newIndex := 0 to |active|
      invariant |newPalette| == |newCounts| == newIndex
      invariant forall k :: 0 <= k < newIndex ==> table[active[k]] == k
      invariant forall k :: 0 <= k < newIndex ==>
                    newPalette[k] == palette[active[k]] && newCounts[k] == counts[active[k]]
    {
      var oldIndex := active[newIndex];
      table[oldIndex] := newIndex;
      newPalette := newPalette + [palette[oldIndex]];
      newCounts := newCounts + [counts[oldIndex]];
    }
    remap := table[..];
  }

  method ApplyRemap(labels: array<nat>, remap: seq<nat>, ghost active: seq<nat>)
    requires forall i :: 0 <= i < labels.Length && labels[i] != TRANSPARENT ==> labels[i] in active
    requires forall k :: 0 <= k < |active| ==> active[k] < |remap| && remap[active[k]] == k
    modifies labels
    ensures forall i :: 0 <= i < labels.Length ==>
              if old(labels[i]) == TRANSPARENT then labels[i] == TRANSPARENT
              else labels[i] < |active| && active[labels[i]] == old(labels[i])
  {
    for i := 0 to labels.Length
      invariant forall j :: i <= j < labels.Length ==> labels[j] == old(labels[j])
      invariant forall j :: 0 <= j < i ==>
                  if old(labels[j]) == TRANSPARENT then labels[j] == TRANSPARENT
                  else labels[j] < |active| && active[labels[j]] == old(labels[j])
    {
      if labels[i] != TRANSPARENT {
        labels[i] := remap[labels[i]];
      }
    }
  }

  // The used palette indices, most used first.
  method ActiveInOrder(counts: seq<nat>, palette: seq<Color>) returns (active: seq<nat>)
    requires |counts| == |palette|
    ensures forall k :: 0 <= k < |active| ==> active[k] < |counts| && counts[active[k]] > 0
    ensures forall i: nat :: i < |counts| && counts[i] > 0 ==> i in active
    ensures forall j, k :: 0 <= j < k < |active| ==> active[j] != active[k]
    ensures Sorted(active, Order(counts, palette))
  {
    var found: seq<nat> := [];
    for index := 0 to |palette|
      invariant forall k :: 0 <= k < |found| ==> found[k] < index && counts[found[k]] > 0
      invariant forall i: nat :: i < index && counts[i] > 0 ==> i in found
      invariant forall j, k :: 0 <= j < k < |found| ==> found[j] != found[k]
    {
      if counts[index] > 0 { found := found + [index]; }
    }
    active := StableSort(found, Order(counts, palette));
    OrderTotal(counts, palette);
    SortKeeps(found, Order(counts, palette));
  }

  lemma OrderTotal(counts: seq<nat>, palette: seq<Color>)
    ensures TotalPreorder(Order(counts, palette))
  {
  }

  lemma SortKeeps(found: seq<nat>, le: (nat, nat) -> bool)
    requires TotalPreorder(le)
    requires forall j, k :: 0 <= j < k < |found| ==> found[j] != found[k]
    ensures var active := StableSort(found, le);
            && Sorted(active, le)
            && (forall x: nat :: x in found <==> x in active)
            && (forall k :: 0 <= k < |active| ==> active[k] in found)
            && forall j, k :: 0 <= j < k < |active| ==> active[j] != active[k]
  {
    var active := StableSort(found, le);
    StableSortCorrect(found, le);
    SameElements(found, active);
    PermutedDistinct(found, active);
  }

  method CountLabels(labels: array<nat>, size: nat) returns (counts: seq<nat>)
    requires ValidLabels(labels[..], size)
    ensures |counts| == size && forall k: nat :: k < size ==> counts[k] == multiset(labels[..])[k]
  {
    var tally := new nat[size](_ => 0);
    for i := 0 to labels.Length
      invariant forall k: nat :: k < size ==> tally[k] == multiset(labels[..i])[k]
    {
      assert labels[..i + 1] == labels[..i] + [labels[i]];
      assert labels[..][i] == labels[i];
      if labels[i] != TRANSPARENT {
        tally[labels[i]] := tally[labels[i]] + 1;
      }
    }
    assert labels[..labels.Length] == labels[..];
    counts := tally[..];
  }

  lemma DistinctBound(s: seq<nat>, n: nat)
    requires forall j, k :: 0 <= j < k < |s| ==> s[j] != s[k]
    requires forall k :: 0 <= k < |s| ==> s[k] < n
    ensures |s| <= n
  {
    Flood.DistinctSize(s);
    Wrappers.SubsetSize(Flood.Members(s), Wrappers.Range(n));
  }

  // Renumbering along the sorted active indices has every promised property.
  lemma Renumbered(before: seq<nat>, palette: seq<Color>, counts: seq<nat>, active: seq<nat>,
                   after: seq<nat>, newPalette: seq<Color>, newCounts: seq<nat>)
    requires ValidLabels(before, |palette|) && |counts| == |palette| && |after| == |before|
    requires forall k: nat :: k < |counts| ==> counts[k] == multiset(before)[k]
    requires |active| <= |palette| && |newPalette| == |newCounts| == |active|
    requires forall k :: 0 <= k < |active| ==>
               active[k] < |palette| && newPalette[k] == palette[active[k]] && newCounts[k] == counts[active[k]] > 0
    requires forall j, k :: 0 <= j < k < |active| ==> active[j] != active[k]
    requires Sorted(active, Order(counts, palette))
    requires forall i :: 0 <= i < |before| ==>
               if before[i] == TRANSPARENT then after[i] == TRANSPARENT
               else after[i] < |active| && active[after[i]] == before[i]
    ensures Compacted(before, palette, after, newPalette, newCounts)
  {
    forall k | 0 <= k < |newCounts| ensures newCounts[k] == multiset(after)[k] {
      SameOccurrences(before, active[k], after, k);
    }
    forall k, l | 0 <= k < l < |newCounts|
      ensures newCounts[k] > newCounts[l]
              || (newCounts[k] == newCounts[l] && NotAfter(newPalette[k], newPalette[l]))
    {
      assert Before(counts, palette, active[k], active[l]);
      SortKeyOrder(newPalette[k], newPalette[l]);
    }
    assert newCounts == Histogram(after, |newCounts|);
    HistogramSum(after, |newCounts|);
    assert Opaque(before) == Opaque(after);
  }

  lemma {:induction false} SameOccurrences(s: seq<nat>, a: nat, t: seq<nat>, b: nat)
    requires |s| == |t| && forall i :: 0 <= i < |s| ==> (s[i] == a <==> t[i] == b)
    ensures multiset(s)[a] == multiset(t)[b]
  {
    if s != [] {
      SameOccurrences(s[1..], a, t[1..], b);
      assert s == [s[0]] + s[1..] && t == [t[0]] + t[1..];
    }
  }

  ghost function Histogram(labels: seq<nat>, size: nat): seq<nat>
  {
    seq(size, k requires 0 <= k => multiset(labels)[k])
  }

  lemma {:induction false} HistogramSum(labels: seq<nat>, size: nat)
    requires ValidLabels(labels, size)
    ensures Sum(Histogram(labels, size)) == |Opaque(labels)|
  {
    if labels == [] {
      SumZero(Histogram(labels, size));
    } else {
      var n := |labels| - 1;
      HistogramSum(labels[..n], size);
      assert labels == labels[..n] + [labels[n]];
      if labels[n] == TRANSPARENT {
        assert Histogram(labels, size) == Histogram(labels[..n], size);
        assert Opaque(labels) == Opaque(labels[..n]);
      } else {
        SumIncrement(Histogram(labels[..n], size), labels[n]);
        assert Histogram(labels, size)
            == Histogram(labels[..n], size)[labels[n] := Histogram(labels[..n], size)[labels[n]] + 1];
        assert Opaque(labels) == Opaque(labels[..n]) + {n};
      }
    }
  }

  lemma SumZero(s: seq<nat>)
    requires forall k :: 0 <= k < |s| ==> s[k] == 0
    ensures Sum(s) == 0
  {
  }

  lemma {:induction false} SumIncrement(s: seq<nat>, k: nat)
    requires k < |s|
    ensures Sum(s[k := s[k] + 1]) == Sum(s) + 1
  {
    var n := |s| - 1;
    if k < n {
      SumIncrement(s[..n], k);
      assert s[k := s[k] + 1][..n] == s[..n][k := s[k] + 1];
    } else {
      assert s[k := s[k] + 1][..n] == s[..n];
    }
  }
}

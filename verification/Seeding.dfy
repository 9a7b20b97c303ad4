// initial_centroids: the most frequent sample first, then always the sample with the best
// score, its distance to the chosen ones times the root of its count.
module Seeding {
  import opened Wrappers
  import opened Clustering
  import Flood

  type Metric = (Perceptual, Perceptual) -> real

  function Min(x: real, y: real): real
  {
    if x < y then x else y
  }

  // Distance from sample i to the nearest chosen sample.
  ghost function ToChosen(samples: seq<Sample>, d: Metric, chosen: seq<nat>, i: nat): real
    requires i < |samples| && chosen != [] && forall k :: 0 <= k < |chosen| ==> chosen[k] < |samples|
  {
    var n := |chosen| - 1;
    var last := d(samples[i].color, samples[chosen[n]].color);
    if n == 0 then last else Min(ToChosen(samples, d, chosen[..n], i), last)
  }

  // It really is the minimum over the chosen set.
  lemma {:induction false} ToChosenIsMinimum(samples: seq<Sample>, d: Metric, chosen: seq<nat>, i: nat)
    requires i < |samples| && chosen != [] && forall k :: 0 <= k < |chosen| ==> chosen[k] < |samples|
    ensures forall k :: 0 <= k < |chosen| ==>
                ToChosen(samples, d, chosen, i) <= d(samples[i].color, samples[chosen[k]].color)
    ensures exists k ::
              0 <= k < |chosen| && ToChosen(samples, d, chosen, i) == d(samples[i].color, samples[chosen[k]].color)
  {
    var n := |chosen| - 1;
    if n > 0 {
      ToChosenIsMinimum(samples, d, chosen[..n], i);
      var k :| 0 <= k < n && ToChosen(samples, d, chosen[..n], i) == d(samples[i].color, samples[chosen[..n][k]].color);
      assert chosen[..n][k] == chosen[k];
      forall j | 0 <= j < n
        ensures ToChosen(samples, d, chosen, i) <= d(samples[i].color, samples[chosen[j]].color)
      {
        assert chosen[..n][j] == chosen[j];
      }
    }
  }

  ghost function Score(samples: seq<Sample>, d: Metric, root: nat -> real, chosen: seq<nat>, i: nat): real
    requires i < |samples| && chosen != [] && forall k :: 0 <= k < |chosen| ==> chosen[k] < |samples|
  {
    ToChosen(samples, d, chosen, i) * root(samples[i].count)
  }

  // Most frequent; the last one among equals.
  ghost predicate IsFirstPick(samples: seq<Sample>, first: nat)
  {
    && first < |samples|
    && (forall i :: 0 <= i < |samples| ==> samples[i].count <= samples[first].count)
    && (forall i :: first < i < |samples| ==> samples[i].count < samples[first].count)
  }

  // Best score among the samples not chosen so far; the first one among equals.
  ghost predicate IsNextPick(samples: seq<Sample>, d: Metric, root: nat -> real, chosen: seq<nat>, next: nat)
    requires chosen != [] && forall k :: 0 <= k < |chosen| ==> chosen[k] < |samples|
  {
    && next < |samples| && next !in chosen
    && (forall i: nat :: i < |samples| && i !in chosen ==>
          Score(samples, d, root, chosen, i) <= Score(samples, d, root, chosen, next))
    && (forall i: nat :: i < next && i !in chosen ==>
          Score(samples, d, root, chosen, i) < Score(samples, d, root, chosen, next))
  }

  ghost predicate IsSeeding(samples: seq<Sample>, d: Metric, root: nat -> real, picks: seq<nat>)
  {
    && (forall k :: 0 <= k < |picks| ==> picks[k] < |samples|)
    && (picks != [] ==> IsFirstPick(samples, picks[0]))
    && (forall k :: 0 < k < |picks| ==> IsNextPick(samples, d, root, picks[..k], picks[k]))
  }

  lemma PicksDistinct(samples: seq<Sample>, d: Metric, root: nat -> real, picks: seq<nat>)
    requires IsSeeding(samples, d, root, picks)
    ensures forall j, k :: 0 <= j < k < |picks| ==> picks[j] != picks[k]
  {
    forall j, k | 0 <= j < k < |picks| ensures picks[j] != picks[k] {
      assert IsNextPick(samples, d, root, picks[..k], picks[k]);
      assert picks[..k][j] == picks[j];
    }
  }

  method MostFrequent(samples: seq<Sample>) returns (first: nat)
    requires samples != []
    ensures IsFirstPick(samples, first)
  {
    first := 0;
    for i := 1 to |samples|
      invariant first < i
      invariant forall j :: 0 <= j < i ==> samples[j].count <= samples[first].count
      invariant forall j :: first < j < i ==> samples[j].count < samples[first].count
    {
      if samples[i].count >= samples[first].count { first := i; }
    }
  }

  method BestUnchosen(samples: seq<Sample>, d: Metric, root: nat -> real, chosen: seq<bool>, distances: seq<real>,
                      ghost picks: seq<nat>)
    returns (best: Option<nat>)
    requires |chosen| == |distances| == |samples|
    requires picks != [] && forall k :: 0 <= k < |picks| ==> picks[k] < |samples|
    requires forall i: nat :: i < |samples| ==> (chosen[i] <==> i in picks)
    requires forall i: nat :: i < |samples| ==> distances[i] == ToChosen(samples, d, picks, i) >= 0.0
    requires forall n: nat :: root(n) >= 0.0
    ensures best.None? ==> forall i: nat :: i < |samples| ==> i in picks
    ensures best.Some? ==> IsNextPick(samples, d, root, picks, best.value)
  {
    best := None;
    var bestScore := -1.0;
    for index := 0 to |samples|
      invariant best.None? ==> bestScore == -1.0 && forall i: nat :: i < index ==> i in picks
      invariant best.Some? ==>
                  && best.value < index && best.value !in picks
                  && bestScore == Score(samples, d, root, picks, best.value)
                  && (forall i: nat :: i < index && i !in picks ==> Score(samples, d, root, picks, i) <= bestScore)
                  && (forall i: nat :: i < best.value && i !in picks ==> Score(samples, d, root, picks, i) < bestScore)
    {
      if chosen[index] {
        continue;
      }
      ScoreNonNegative(distances[index], root(samples[index].count));
      var score := distances[index] * root(samples[index].count);
      if score > bestScore {
        bestScore := score;
        best := Some(index);
      }
    }
  }

  lemma ScoreNonNegative(x: real, y: real)
    requires x >= 0.0 && y >= 0.0
    ensures x * y >= 0.0
  {
  }

  // The centroids are the colours of distinct samples, picked by the rule.
  ghost predicate SeededBy(samples: seq<Sample>, d: Metric, root: nat -> real, out: seq<Perceptual>, picks: seq<nat>)
  {
    && |out| == |picks| && IsSeeding(samples, d, root, picks)
    && (forall k :: 0 <= k < |picks| ==> out[k] == samples[picks[k]].color)
    && (forall j, k :: 0 <= j < k < |picks| ==> picks[j] != picks[k])
  }

  lemma FirstPickOnce(samples: seq<Sample>, p: nat, q: nat)
    requires IsFirstPick(samples, p) && IsFirstPick(samples, q)
    ensures p == q
  {
    assert samples[p].count == samples[q].count;
  }

  lemma NextPickOnce(samples: seq<Sample>, d: Metric, root: nat -> real, chosen: seq<nat>, p: nat, q: nat)
    requires chosen != [] && forall k :: 0 <= k < |chosen| ==> chosen[k] < |samples|
    requires IsNextPick(samples, d, root, chosen, p) && IsNextPick(samples, d, root, chosen, q)
    ensures p == q
  {
    assert Score(samples, d, root, chosen, p) == Score(samples, d, root, chosen, q);
  }

  lemma {:induction false} PicksOnce(samples: seq<Sample>, d: Metric, root: nat -> real, picks: seq<nat>,
                                     picks': seq<nat>, n: nat)
    requires IsSeeding(samples, d, root, picks) && IsSeeding(samples, d, root, picks')
    requires n <= |picks| && n <= |picks'|
    ensures picks[..n] == picks'[..n]
  {
    if n == 1 {
      FirstPickOnce(samples, picks[0], picks'[0]);
    } else if n > 1 {
      PicksOnce(samples, d, root, picks, picks', n - 1);
      NextPickOnce(samples, d, root, picks[..n - 1], picks[n - 1], picks'[n - 1]);
      assert picks[..n] == picks[..n - 1] + [picks[n - 1]] && picks'[..n] == picks'[..n - 1] + [picks'[n - 1]];
    }
  }

  // The samples determine the seeds of each number.
  lemma SeedsDetermined(samples: seq<Sample>, d: Metric, root: nat -> real, out: seq<Perceptual>, picks: seq<nat>,
                        out': seq<Perceptual>, picks': seq<nat>)
    requires SeededBy(samples, d, root, out, picks) && SeededBy(samples, d, root, out', picks') && |out| == |out'|
    ensures picks == picks' && out == out'
  {
    PicksOnce(samples, d, root, picks, picks', |picks|);
    assert picks[..|picks|] == picks && picks'[..|picks|] == picks';
  }

  method InitialCentroids(samples: seq<Sample>, count: nat, d: Metric, root: nat -> real)
    returns (out: seq<Perceptual>)
    requires 1 <= count <= |samples|
    requires (forall p, q :: d(p, q) >= 0.0) && (forall n: nat :: root(n) >= 0.0)
    ensures |out| == count && exists picks :: SeededBy(samples, d, root, out, picks)
  {
    var first := MostFrequent(samples);
    var chosen := seq(|samples|, i => false);
    chosen := chosen[first := true];
    out := [samples[first].color];
    ghost var picks: seq<nat> := [first];
    var distances := seq(|samples|, i requires 0 <= i < |samples| => d(samples[i].color, samples[first].color));
    while |out| < count
      invariant |out| == |picks| <= count && |chosen| == |distances| == |samples|
      invariant picks != [] && IsSeeding(samples, d, root, picks)
      invariant forall k :: 0 <= k < |picks| ==> out[k] == samples[picks[k]].color
      invariant forall i: nat :: i < |samples| ==> (chosen[i] <==> i in picks)
      invariant forall i: nat :: i < |samples| ==> distances[i] == ToChosen(samples, d, picks, i) >= 0.0
    {
      var best := BestUnchosen(samples, d, root, chosen, distances, picks);
      if best.None? {
        TooFewPicks(samples, picks);
        break;
      }
      var index := best.value;
      chosen := chosen[index := true];
      var centroid := samples[index].color;
      out := out + [centroid];
      ghost var picks0 := picks;
      picks := picks + [index];
      distances := seq(|samples|, i requires 0 <= i < |samples| => Min(distances[i], d(samples[i].color, centroid)));
      PicksGrow(samples, d, root, picks0, index);
    }
    PicksDistinct(samples, d, root, picks);
    assert SeededBy(samples, d, root, out, picks);
  }

  lemma PicksGrow(samples: seq<Sample>, d: Metric, root: nat -> real, picks: seq<nat>, index: nat)
    requires picks != [] && IsSeeding(samples, d, root, picks) && IsNextPick(samples, d, root, picks, index)
    ensures IsSeeding(samples, d, root, picks + [index])
    ensures forall i: nat :: i < |samples| ==>
              ToChosen(samples, d, picks + [index], i)
              == Min(ToChosen(samples, d, picks, i), d(samples[i].color, samples[index].color))
  {
    var more := picks + [index];
    assert more[..|picks|] == picks;
    forall k | 0 < k < |more| ensures IsNextPick(samples, d, root, more[..k], more[k]) {
      if k < |picks| { assert more[..k] == picks[..k]; }
    }
  }

  // As long as fewer samples are chosen than there are, some sample is left.
  lemma TooFewPicks(samples: seq<Sample>, picks: seq<nat>)
    requires forall i: nat :: i < |samples| ==> i in picks
    ensures |picks| >= |samples|
  {
    SubsetSize(Range(|samples|), Flood.Members(picks));
    MembersAtMost(picks);
  }

  lemma {:induction false} MembersAtMost(picks: seq<nat>)
    ensures |Flood.Members(picks)| <= |picks|
  {
    if picks != [] {
      var n := |picks| - 1;
      MembersAtMost(picks[..n]);
      assert picks == picks[..n] + [picks[n]];
      assert Flood.Members(picks) == Flood.Members(picks[..n]) + {picks[n]};
    }
  }
}

// typeset_clusters: group timed typesetting events that overlap or nearly touch, and place
// one shot in each group.
module Clusters {
  import opened Wrappers
  import opened Grid
  import opened Sorting

  const TYPESET_JOIN_GAP_CS: nat := 100

  // What the selection reads off an ASS event; times in centiseconds.
  datatype Event = Event(start: nat, end: nat, hasFn: bool, hasDrawing: bool, tagCount: nat)

  datatype Cluster = Cluster(
    start: nat, end: nat, lines: nat, fnLines: nat, drawingLines: nat, maxTags: nat,
    heavyMid: Option<nat>, members: seq<Event>)

  function Max(a: nat, b: nat): nat
  {
    if a < b then b else a
  }

  function Bit(b: bool): nat
  {
    if b then 1 else 0
  }

  function Midpoint(e: Event): nat
    requires e.start < e.end
  {
    e.start + (e.end - e.start) / 2
  }

  ghost predicate Timed(e: Event)
  {
    e.start < e.end
  }

  // ---- Candidates in time order -------------------------------------------------------------

  predicate Earlier(a: Event, b: Event)
  {
    a.start < b.start || (a.start == b.start && a.end <= b.end)
  }

  function TimedOnly(events: seq<Event>): (timed: seq<Event>)
    ensures forall e :: e in timed <==> e in events && e.start < e.end
  {
    if events == [] then []
    else
      var last := events[|events| - 1];
      TimedOnly(events[..|events| - 1]) + if last.end > last.start then [last] else []
  }

  function Candidates(events: seq<Event>): seq<Event>
  {
    StableSort(TimedOnly(events), Earlier)
  }

  lemma CandidatesOrdered(events: seq<Event>)
    ensures multiset(Candidates(events)) == multiset(TimedOnly(events))
    ensures forall i :: 0 <= i < |Candidates(events)| ==> Timed(Candidates(events)[i])
    ensures forall i, j :: 0 <= i < j < |Candidates(events)| ==>
                Candidates(events)[i].start <= Candidates(events)[j].start
  {
    var timed := TimedOnly(events);
    StableSortCorrect(timed, Earlier);
    SameElements(timed, Candidates(events));
    var c := Candidates(events);
    forall i, j | 0 <= i < j < |c| ensures c[i].start <= c[j].start {
      assert Earlier(c[i], c[j]);
    }
    forall i | 0 <= i < |c| ensures Timed(c[i]) {
      assert c[i] in c;
    }
  }

  // ---- Grouping -----------------------------------------------------------------------------

  // Two events overlap, or the pause between them is at most the join gap.
  ghost predicate Near(a: Event, b: Event, gap: nat)
  {
    a.start <= b.end + gap && b.start <= a.end + gap
  }

  ghost function NearPairs(timed: seq<Event>, gap: nat): set<(nat, nat)>
  {
    set i: nat, j: nat | i < |timed| && j < |timed| && Near(timed[i], timed[j], gap) :: (i, j)
  }

  // A chain of near events leads from event i to event j.
  ghost predicate Linked(timed: seq<Event>, gap: nat, i: nat, j: nat)
  {
    Connected(seq(|timed|, _ => 0), NearPairs(timed, gap), i, j)
  }

  function MaxEnd(members: seq<Event>): nat
  {
    if members == [] then 0 else Max(MaxEnd(members[..|members| - 1]), members[|members| - 1].end)
  }

  function MaxTags(members: seq<Event>): nat
  {
    if members == [] then 0 else Max(MaxTags(members[..|members| - 1]), members[|members| - 1].tagCount)
  }

  function FnLines(members: seq<Event>): nat
  {
    if members == [] then 0 else FnLines(members[..|members| - 1]) + Bit(members[|members| - 1].hasFn)
  }

  function DrawingLines(members: seq<Event>): nat
  {
    if members == [] then 0 else DrawingLines(members[..|members| - 1]) + Bit(members[|members| - 1].hasDrawing)
  }

  // The fields summarise the members: earliest start, latest end, counts and maximum.
  ghost predicate Summary(c: Cluster)
  {
    && c.members != []
    && (forall k :: 0 <= k < |c.members| ==> Timed(c.members[k]))
    && c.start == c.members[0].start
    && (forall k :: 0 <= k < |c.members| ==> c.start <= c.members[k].start)
    && c.end == MaxEnd(c.members)
    && c.lines == |c.members|
    && c.fnLines == FnLines(c.members)
    && c.drawingLines == DrawingLines(c.members)
    && c.maxTags == MaxTags(c.members)
  }

  lemma {:induction false} MaxEndBounds(members: seq<Event>)
    requires members != []
    ensures forall k :: 0 <= k < |members| ==> members[k].end <= MaxEnd(members)
    ensures exists k :: 0 <= k < |members| && members[k].end == MaxEnd(members)
  {
    var n := |members| - 1;
    assert members[n].end <= MaxEnd(members);
    if n > 0 {
      MaxEndBounds(members[..n]);
      var k :| 0 <= k < n && members[..n][k].end == MaxEnd(members[..n]);
      assert members[k].end == members[..n][k].end == MaxEnd(members[..n]);
      assert MaxEnd(members) == members[k].end || MaxEnd(members) == members[n].end;
      forall j | 0 <= j < n ensures members[j].end <= MaxEnd(members) {
        assert members[..n][j] == members[j];
      }
    }
  }

  // Cluster c is made of the candidates lo .. hi-1, each but the first within the gap of what
  // came before it.
  ghost predicate Group(timed: seq<Event>, gap: nat, c: Cluster, lo: nat, hi: nat)
  {
    && lo < hi <= |timed|
    && Summary(c) && c.heavyMid.None? && c.members == timed[lo..hi]
    && forall k: nat :: lo < k < hi ==> timed[k].start <= MaxEnd(timed[lo..k]) + gap
  }

  // The clusters cut the candidates at `cuts`, and lie more than the gap apart.
  ghost predicate Grouping(timed: seq<Event>, gap: nat, clusters: seq<Cluster>, cuts: seq<nat>)
  {
    && |cuts| == |clusters| + 1 && cuts[0] == 0
    && (forall c :: 0 <= c < |clusters| ==> Group(timed, gap, clusters[c], cuts[c], cuts[c + 1]))
    && (forall c, d :: 0 <= c < d < |clusters| ==> clusters[d].start > clusters[c].end + gap)
  }

  // Sole member of a new cluster.
  function Alone(e: Event): Cluster
  {
    Cluster(e.start, e.end, 1, Bit(e.hasFn), Bit(e.hasDrawing), e.tagCount, None, [e])
  }

  function Joined(c: Cluster, e: Event): Cluster
  {
    Cluster(c.start, Max(c.end, e.end), c.lines + 1, c.fnLines + Bit(e.hasFn), c.drawingLines + Bit(e.hasDrawing),
            Max(c.maxTags, e.tagCount), c.heavyMid, c.members + [e])
  }

  lemma JoinedSummary(c: Cluster, e: Event)
    requires Summary(c) && Timed(e) && c.start <= e.start
    ensures Summary(Joined(c, e))
  {
    var members := c.members + [e];
    assert members[..|c.members|] == c.members && members[|c.members|] == e;
  }

  lemma AloneSummary(e: Event)
    requires Timed(e)
    ensures Summary(Alone(e))
  {
    var members, none := [e], [e][..0];
    assert none == [] && members[..|members| - 1] == none;
    assert FnLines(none) == 0 && DrawingLines(none) == 0 && MaxEnd(none) == 0 && MaxTags(none) == 0;
    assert FnLines(members) == FnLines(none) + Bit(e.hasFn);
    assert DrawingLines(members) == DrawingLines(none) + Bit(e.hasDrawing);
    assert MaxEnd(members) == Max(MaxEnd(none), e.end) && MaxTags(members) == Max(MaxTags(none), e.tagCount);
  }

  // A grouping of all the candidates.
  ghost predicate GroupsAll(timed: seq<Event>, gap: nat, clusters: seq<Cluster>, cuts: seq<nat>)
  {
    Grouping(timed, gap, clusters, cuts) && cuts[|clusters|] == |timed|
  }

  method GroupEvents(events: seq<Event>, joinGap: nat) returns (clusters: seq<Cluster>)
    ensures exists cuts :: GroupsAll(Candidates(events), joinGap, clusters, cuts)
  {
    var timed := Candidates(events);
    CandidatesOrdered(events);
    clusters := [];
    ghost var cuts: seq<nat> := [0];
    for i := 0 to |timed|
      invariant Grouping(timed, joinGap, clusters, cuts)
      invariant cuts[|clusters|] == i
    {
      var event := timed[i];
      // The source saturates this sum; the largest ASS time is far below the limit.
      if clusters != [] && event.start <= clusters[|clusters| - 1].end + joinGap {
        GroupJoins(timed, joinGap, clusters, cuts, i);
        var last := |clusters| - 1;
        clusters := clusters[last := Joined(clusters[last], event)];
        cuts := cuts[|cuts| - 1 := i + 1];
      } else {
        GroupOpens(timed, joinGap, clusters, cuts, i);
        clusters := clusters + [Alone(event)];
        cuts := cuts + [i + 1];
      }
    }
    assert GroupsAll(timed, joinGap, clusters, cuts);
  }

  lemma GroupJoins(timed: seq<Event>, gap: nat, clusters: seq<Cluster>, cuts: seq<nat>, i: nat)
    requires Grouping(timed, gap, clusters, cuts) && clusters != [] && i < |timed| && cuts[|clusters|] == i
    requires forall a, b :: 0 <= a < b < |timed| ==> timed[a].start <= timed[b].start
    requires Timed(timed[i]) && timed[i].start <= clusters[|clusters| - 1].end + gap
    ensures var last := |clusters| - 1;
            Grouping(timed, gap, clusters[last := Joined(clusters[last], timed[i])], cuts[|clusters| := i + 1])
  {
    var last := |clusters| - 1;
    assert Group(timed, gap, clusters[last], cuts[last], i);
    GroupExtends(timed, gap, clusters[last], cuts[last], i);
  }

  lemma GroupExtends(timed: seq<Event>, gap: nat, c: Cluster, lo: nat, i: nat)
    requires Group(timed, gap, c, lo, i) && i < |timed| && Timed(timed[i]) && timed[i].start <= c.end + gap
    requires timed[lo].start <= timed[i].start
    ensures Group(timed, gap, Joined(c, timed[i]), lo, i + 1) && Joined(c, timed[i]).start == c.start
  {
    assert timed[lo..i][0] == timed[lo];
    JoinedSummary(c, timed[i]);
    assert timed[lo..i + 1] == timed[lo..i] + [timed[i]];
  }

  lemma GroupOpens(timed: seq<Event>, gap: nat, clusters: seq<Cluster>, cuts: seq<nat>, i: nat)
    requires Grouping(timed, gap, clusters, cuts) && i < |timed| && cuts[|clusters|] == i
    requires Timed(timed[i])
    requires clusters != [] ==> timed[i].start > clusters[|clusters| - 1].end + gap
    ensures Grouping(timed, gap, clusters + [Alone(timed[i])], cuts + [i + 1])
  {
    var more, cuts' := clusters + [Alone(timed[i])], cuts + [i + 1];
    assert timed[i..i + 1] == [timed[i]];
    AloneSummary(timed[i]);
    forall c | 0 <= c < |more| ensures Group(timed, gap, more[c], cuts'[c], cuts'[c + 1]) {
      if c < |clusters| { assert Group(timed, gap, clusters[c], cuts[c], cuts[c + 1]); }
    }
    forall c | 0 <= c < |clusters| ensures timed[i].start > clusters[c].end + gap {
      var last := |clusters| - 1;
      if c < last {
        assert Group(timed, gap, clusters[last], cuts[last], i);
        MaxEndBounds(clusters[last].members);
      }
    }
  }

  // ---- The clusters are the connected components --------------------------------------------

  // Candidate i belongs to cluster c.
  ghost predicate Holds(cuts: seq<nat>, c: nat, i: nat)
  {
    c + 1 < |cuts| && cuts[c] <= i < cuts[c + 1]
  }

  lemma {:induction false} EveryCandidateHeld(timed: seq<Event>, gap: nat, clusters: seq<Cluster>, cuts: seq<nat>,
                                              n: nat, i: nat)
    requires Grouping(timed, gap, clusters, cuts) && n <= |clusters| && i < cuts[n]
    ensures exists c: nat :: c < n && Holds(cuts, c, i)
  {
    if i < cuts[n - 1] {
      EveryCandidateHeld(timed, gap, clusters, cuts, n - 1, i);
    } else {
      assert Holds(cuts, n - 1, i);
    }
  }

  lemma {:induction false} CutsAscend(timed: seq<Event>, gap: nat, clusters: seq<Cluster>, cuts: seq<nat>, c: nat,
                                      d: nat)
    requires Grouping(timed, gap, clusters, cuts) && c <= d <= |clusters|
    ensures cuts[c] <= cuts[d]
  {
    if c < d {
      CutsAscend(timed, gap, clusters, cuts, c, d - 1);
      assert Group(timed, gap, clusters[d - 1], cuts[d - 1], cuts[d]);
    }
  }

  lemma AllHeldOnce(timed: seq<Event>, gap: nat, clusters: seq<Cluster>, cuts: seq<nat>, i: nat)
    requires Grouping(timed, gap, clusters, cuts) && cuts[|clusters|] == |timed| && i < |timed|
    ensures HeldOnce(cuts, i)
  {
    EveryCandidateHeld(timed, gap, clusters, cuts, |clusters|, i);
    forall c: nat, d: nat | Holds(cuts, c, i) && Holds(cuts, d, i) ensures c == d {
      if c < d { CutsAscend(timed, gap, clusters, cuts, c + 1, d); }
      if d < c { CutsAscend(timed, gap, clusters, cuts, d + 1, c); }
    }
  }

  lemma MemberWithin(timed: seq<Event>, gap: nat, clusters: seq<Cluster>, cuts: seq<nat>, c: nat, i: nat)
    requires Grouping(timed, gap, clusters, cuts) && Holds(cuts, c, i)
    ensures i < |timed| && clusters[c].start <= timed[i].start && timed[i].end <= clusters[c].end
  {
    assert Group(timed, gap, clusters[c], cuts[c], cuts[c + 1]);
    assert clusters[c].members[i - cuts[c]] == timed[i];
    MaxEndBounds(clusters[c].members);
  }

  lemma NearPairsSymmetric(timed: seq<Event>, gap: nat)
    ensures Symmetric(NearPairs(timed, gap), |timed|)
  {
  }

  lemma NearSameCluster(timed: seq<Event>, gap: nat, clusters: seq<Cluster>, cuts: seq<nat>, c: nat, d: nat, i: nat,
                        j: nat)
    requires Grouping(timed, gap, clusters, cuts) && Holds(cuts, c, i) && Holds(cuts, d, j)
    requires i < |timed| && j < |timed| && Near(timed[i], timed[j], gap)
    ensures c == d
  {
    MemberWithin(timed, gap, clusters, cuts, c, i);
    MemberWithin(timed, gap, clusters, cuts, d, j);
  }

  // Nothing is linked across clusters.
  lemma LinkedSameCluster(timed: seq<Event>, gap: nat, clusters: seq<Cluster>, cuts: seq<nat>, c: nat, i: nat, j: nat)
    requires Grouping(timed, gap, clusters, cuts) && cuts[|clusters|] == |timed|
    requires Holds(cuts, c, i) && Linked(timed, gap, i, j)
    ensures Holds(cuts, c, j)
  {
    var zeros, edges := seq(|timed|, _ => 0), NearPairs(timed, gap);
    var held := set k: nat | k < |timed| && Holds(cuts, c, k);
    MemberWithin(timed, gap, clusters, cuts, c, i);
    forall a: nat, b: nat | a in held && Step(zeros, edges, a, b) ensures b in held {
      EveryCandidateHeld(timed, gap, clusters, cuts, |clusters|, b);
      var d: nat :| d < |clusters| && Holds(cuts, d, b);
      NearSameCluster(timed, gap, clusters, cuts, c, d, a, b);
    }
    ConnectedReach(zeros, edges, held, i, j);
  }

  // Every later member is near one before it.
  lemma NearOneBefore(timed: seq<Event>, gap: nat, c: Cluster, lo: nat, hi: nat, k: nat) returns (j: nat)
    requires Group(timed, gap, c, lo, hi) && lo < k < hi
    requires forall a, b :: 0 <= a < b < |timed| ==> timed[a].start <= timed[b].start
    ensures lo <= j < k && Near(timed[j], timed[k], gap)
  {
    var before := timed[lo..k];
    MaxEndBounds(before);
    var p :| 0 <= p < |before| && before[p].end == MaxEnd(before);
    j := lo + p;
    assert before[p] == timed[j];
    assert c.members[k - lo] == timed[k];
  }

  lemma NearExtends(timed: seq<Event>, gap: nat, i: nat, j: nat, k: nat)
    requires j < |timed| && k < |timed| && Near(timed[j], timed[k], gap) && Linked(timed, gap, i, j)
    ensures Linked(timed, gap, i, k)
  {
    var zeros, edges := seq(|timed|, _ => 0), NearPairs(timed, gap);
    assert Step(zeros, edges, j, k);
    ConnectedStep(zeros, edges, i, j, k);
  }

  // Every member is linked to the first one of its cluster.
  lemma {:induction false} LinkedToFirst(timed: seq<Event>, gap: nat, c: Cluster, lo: nat, hi: nat, k: nat)
    requires Group(timed, gap, c, lo, hi) && lo <= k < hi
    requires forall a, b :: 0 <= a < b < |timed| ==> timed[a].start <= timed[b].start
    ensures Linked(timed, gap, lo, k)
    decreases k
  {
    if k == lo {
      ConnectedSelf(seq(|timed|, _ => 0), NearPairs(timed, gap), lo);
    } else {
      var j := NearOneBefore(timed, gap, c, lo, hi, k);
      LinkedToFirst(timed, gap, c, lo, hi, j);
      NearExtends(timed, gap, lo, j, k);
    }
  }

  // Two candidates share a cluster exactly when a chain of near events links them.
  lemma ClustersAreComponents(timed: seq<Event>, gap: nat, clusters: seq<Cluster>, cuts: seq<nat>, i: nat, j: nat)
    requires Grouping(timed, gap, clusters, cuts) && cuts[|clusters|] == |timed|
    requires forall a, b :: 0 <= a < b < |timed| ==> timed[a].start <= timed[b].start
    requires i < |timed| && j < |timed|
    ensures (exists c: nat :: Holds(cuts, c, i) && Holds(cuts, c, j)) <==> Linked(timed, gap, i, j)
  {
    EveryCandidateHeld(timed, gap, clusters, cuts, |clusters|, i);
    var c: nat :| Holds(cuts, c, i);
    if Linked(timed, gap, i, j) {
      LinkedSameCluster(timed, gap, clusters, cuts, c, i, j);
    }
    if d: nat :| Holds(cuts, d, i) && Holds(cuts, d, j) {
      var lo, hi := cuts[d], cuts[d + 1];
      assert Group(timed, gap, clusters[d], lo, hi);
      LinkedToFirst(timed, gap, clusters[d], lo, hi, i);
      LinkedToFirst(timed, gap, clusters[d], lo, hi, j);
      var zeros, edges := seq(|timed|, _ => 0), NearPairs(timed, gap);
      NearPairsSymmetric(timed, gap);
      ConnectedSymmetric(zeros, edges, lo, i);
      ConnectedTransitive(zeros, edges, i, lo, j);
    }
  }

  // ---- Placing the shot ---------------------------------------------------------------------

  function Center(c: Cluster): nat
    requires c.start <= c.end
  {
    c.start + (c.end - c.start) / 2
  }

  // a is at least as good a heavy member as b: drawings, then tags, then nearer to the centre,
  // then earlier.
  predicate Heavier(a: Event, b: Event, center: nat)
    requires a.start < a.end && b.start < b.end
  {
    var da, db := AbsDiff(Midpoint(a), center), AbsDiff(Midpoint(b), center);
    if a.hasDrawing != b.hasDrawing then a.hasDrawing
    else if a.tagCount != b.tagCount then a.tagCount > b.tagCount
    else if da != db then da < db
    else Midpoint(a) <= Midpoint(b)
  }

  // The last of the heaviest members.
  function Heaviest(members: seq<Event>, center: nat): (best: Event)
    requires members != [] && forall k :: 0 <= k < |members| ==> members[k].start < members[k].end
    ensures best in members
  {
    var n := |members| - 1;
    if n == 0 then members[0]
    else
      var best := Heaviest(members[..n], center);
      if Heavier(members[n], best, center) then members[n] else best
  }

  predicate CloserMid(a: Event, b: Event, center: nat)
    requires a.start < a.end && b.start < b.end
  {
    var da, db := AbsDiff(Midpoint(a), center), AbsDiff(Midpoint(b), center);
    da < db || (da == db && Midpoint(a) <= Midpoint(b))
  }

  // The first member whose midpoint is closest to the centre.
  function Closest(members: seq<Event>, center: nat): (best: Event)
    requires members != [] && forall k :: 0 <= k < |members| ==> members[k].start < members[k].end
    ensures best in members
  {
    var n := |members| - 1;
    if n == 0 then members[0]
    else
      var best := Closest(members[..n], center);
      if CloserMid(best, members[n], center) then best else members[n]
  }

  lemma HeavierTransitive(a: Event, b: Event, c: Event, center: nat)
    requires a.start < a.end && b.start < b.end && c.start < c.end
    ensures Heavier(a, b, center) && Heavier(b, c, center) ==> Heavier(a, c, center)
    ensures !Heavier(a, b, center) ==> Heavier(b, a, center)
    ensures Heavier(a, a, center)
  {
  }

  lemma CloserTransitive(a: Event, b: Event, c: Event, center: nat)
    requires a.start < a.end && b.start < b.end && c.start < c.end
    ensures CloserMid(a, b, center) && CloserMid(b, c, center) ==> CloserMid(a, c, center)
    ensures !CloserMid(a, b, center) ==> CloserMid(b, a, center)
    ensures CloserMid(a, a, center)
  {
  }

  // The better of the two is at least as good as either, and as what the old one beat.
  lemma BetterHeavier(next: Event, best: Event, other: Event, center: nat)
    requires next.start < next.end && best.start < best.end && other.start < other.end
    ensures var better := if Heavier(next, best, center) then next else best;
            Heavier(better, next, center) && (Heavier(best, other, center) ==> Heavier(better, other, center))
  {
    HeavierTransitive(next, best, other, center);
    HeavierTransitive(best, next, next, center);
    HeavierTransitive(next, next, next, center);
  }

  lemma HeavierSelf(e: Event, center: nat)
    requires e.start < e.end
    ensures Heavier(e, e, center)
  {
  }

  // No member is heavier than the heaviest.
  lemma {:induction false} HeaviestIsBest(members: seq<Event>, center: nat, k: nat)
    requires k < |members| && forall k :: 0 <= k < |members| ==> members[k].start < members[k].end
    ensures Heavier(Heaviest(members, center), members[k], center)
  {
    var n := |members| - 1;
    if n == 0 {
      HeavierSelf(members[0], center);
    } else {
      BetterHeavier(members[n], Heaviest(members[..n], center), members[k], center);
      if k < n {
        HeaviestIsBest(members[..n], center, k);
        assert members[..n][k] == members[k];
      }
    }
  }

  lemma BetterCloser(best: Event, next: Event, other: Event, center: nat)
    requires next.start < next.end && best.start < best.end && other.start < other.end
    ensures var better := if CloserMid(best, next, center) then best else next;
            CloserMid(better, next, center) && (CloserMid(best, other, center) ==> CloserMid(better, other, center))
  {
    CloserTransitive(next, best, other, center);
    CloserTransitive(best, next, next, center);
    CloserTransitive(next, next, next, center);
  }

  // No member's midpoint is closer than the closest one's.
  lemma {:induction false} ClosestIsBest(members: seq<Event>, center: nat, k: nat)
    requires k < |members| && forall k :: 0 <= k < |members| ==> members[k].start < members[k].end
    ensures CloserMid(Closest(members, center), members[k], center)
  {
    var n := |members| - 1;
    if n == 0 {
      CloserTransitive(members[0], members[0], members[0], center);
    } else {
      BetterCloser(Closest(members[..n], center), members[n], members[k], center);
      if k < n {
        ClosestIsBest(members[..n], center, k);
        assert members[..n][k] == members[k];
      }
    }
  }

  function FinishPlacement(c: Cluster): Cluster
    requires c.start <= c.end && c.members != []
    requires forall k :: 0 <= k < |c.members| ==> c.members[k].start < c.members[k].end
  {
    if c.drawingLines == 0 && c.maxTags == 0 then c
    else c.(heavyMid := Some(Midpoint(Heaviest(c.members, Center(c)))))
  }

  ghost predicate Placed(c: Cluster)
  {
    && Summary(c) && c.start < c.end
    && c.heavyMid == if c.drawingLines == 0 && c.maxTags == 0 then None
                     else Some(Midpoint(Heaviest(c.members, Center(c))))
  }

  function ShotCs(c: Cluster): nat
    requires c.start <= c.end && c.members != []
    requires forall k :: 0 <= k < |c.members| ==> c.members[k].start < c.members[k].end
  {
    if c.heavyMid.Some? then c.heavyMid.value
    else if exists k :: 0 <= k < |c.members| && c.members[k].start < Center(c) < c.members[k].end then Center(c)
    else Midpoint(Closest(c.members, Center(c)))
  }

  // The shot shows something: it falls inside some member's time on screen. With drawings or
  // tags it is the middle of a heaviest member.
  lemma ShotOnScreen(c: Cluster)
    requires Placed(c)
    ensures exists k :: 0 <= k < |c.members| && c.members[k].start <= ShotCs(c) < c.members[k].end
    ensures c.start <= ShotCs(c) < c.end
  {
    MaxEndBounds(c.members);
    if c.heavyMid.Some? {
      var e := Heaviest(c.members, Center(c));
      var k :| 0 <= k < |c.members| && c.members[k] == e;
    } else if k :| 0 <= k < |c.members| && c.members[k].start < Center(c) < c.members[k].end {
    } else {
      var e := Closest(c.members, Center(c));
      var k :| 0 <= k < |c.members| && c.members[k] == e;
    }
  }

  // The clusters cut the candidates at `cuts`; each is placed, distinct ones are more than the
  // join gap apart, and they are exactly the connected components of near events.
  ghost predicate Typesetting(events: seq<Event>, joinGap: nat, clusters: seq<Cluster>, cuts: seq<nat>)
  {
    && |cuts| == |clusters| + 1 && cuts[0] == 0 && cuts[|clusters|] == |Candidates(events)|
    && (forall c :: 0 <= c < |clusters| ==>
          Placed(clusters[c]) && clusters[c].members == Slice(Candidates(events), cuts[c], cuts[c + 1]))
    && (forall c, d :: 0 <= c < d < |clusters| ==> clusters[d].start > clusters[c].end + joinGap)
    && (forall i: nat, j: nat :: i < |Candidates(events)| && j < |Candidates(events)| ==>
          ((exists c: nat :: Holds(cuts, c, i) && Holds(cuts, c, j)) <==> Linked(Candidates(events), joinGap, i, j)))
    && (forall i: nat :: i < |Candidates(events)| ==> HeldOnce(cuts, i))
  }

  // Candidate i is in exactly one cluster.
  ghost predicate HeldOnce(cuts: seq<nat>, i: nat)
  {
    (exists c: nat :: Holds(cuts, c, i)) && forall c: nat, d: nat :: Holds(cuts, c, i) && Holds(cuts, d, i) ==> c == d
  }

  method TypesetClusters(events: seq<Event>, joinGap: nat) returns (clusters: seq<Cluster>)
    ensures exists cuts :: Typesetting(events, joinGap, clusters, cuts)
  {
    ghost var timed := Candidates(events);
    CandidatesOrdered(events);
    var groups := GroupEvents(events, joinGap);
    ghost var cuts :| GroupsAll(timed, joinGap, groups, cuts);
    GroupsSummarised(timed, joinGap, groups, cuts);
    clusters := PlaceAll(groups);
    GroupsTypeset(events, joinGap, groups, clusters, cuts);
  }

  lemma GroupsSummarised(timed: seq<Event>, gap: nat, groups: seq<Cluster>, cuts: seq<nat>)
    requires GroupsAll(timed, gap, groups, cuts)
    ensures forall c :: 0 <= c < |groups| ==>
              && Summary(groups[c]) && groups[c].heavyMid.None?
              && groups[c].members == Slice(timed, cuts[c], cuts[c + 1])
  {
    forall c | 0 <= c < |groups|
      ensures Summary(groups[c]) && groups[c].heavyMid.None? && groups[c].members == Slice(timed, cuts[c], cuts[c + 1])
    {
      assert Group(timed, gap, groups[c], cuts[c], cuts[c + 1]);
    }
  }

  // The groups of all candidates, their shots placed, are the typesetting clusters.
  lemma GroupsTypeset(events: seq<Event>, gap: nat, groups: seq<Cluster>, clusters: seq<Cluster>, cuts: seq<nat>)
    requires GroupsAll(Candidates(events), gap, groups, cuts) && |clusters| == |groups|
    requires forall c :: 0 <= c < |groups| ==> PlacedFrom(groups[c], clusters[c])
    ensures Typesetting(events, gap, clusters, cuts)
  {
    var timed := Candidates(events);
    CandidatesOrdered(events);
    GroupsSummarised(timed, gap, groups, cuts);
    forall i: nat, j: nat | i < |timed| && j < |timed|
      ensures (exists c: nat :: Holds(cuts, c, i) && Holds(cuts, c, j)) <==> Linked(timed, gap, i, j)
    {
      ClustersAreComponents(timed, gap, groups, cuts, i, j);
    }
    forall i: nat | i < |timed| ensures HeldOnce(cuts, i) {
      AllHeldOnce(timed, gap, groups, cuts, i);
    }
  }

  // Events in order, each more than the gap after the one before, are clusters of their own.
  lemma {:induction false} LonelyGroups(timed: seq<Event>, gap: nat, n: nat)
    requires n <= |timed| && forall i :: 0 <= i < |timed| ==> Timed(timed[i])
    requires forall i :: 0 < i < |timed| ==> timed[i].start > timed[i - 1].end + gap
    ensures Grouping(timed, gap, AllAlone(timed[..n]), Upto(n + 1))
  {
    if n > 0 {
      LonelyGroups(timed, gap, n - 1);
      assert AllAlone(timed[..n]) == AllAlone(timed[..n - 1]) + [Alone(timed[n - 1])];
      GroupOpens(timed, gap, AllAlone(timed[..n - 1]), Upto(n), n - 1);
      assert Upto(n) + [n] == Upto(n + 1);
    }
  }

  function Upto(n: nat): (cuts: seq<nat>)
    ensures |cuts| == n && forall i :: 0 <= i < n ==> cuts[i] == i
  {
    seq(n, i requires 0 <= i < n => i)
  }

  lemma LonelyCandidates(events: seq<Event>, gap: nat)
    requires Sorted(events, Earlier) && forall i :: 0 <= i < |events| ==> Timed(events[i])
    requires forall i :: 0 < i < |events| ==> events[i].start > events[i - 1].end + gap
    ensures GroupsAll(Candidates(events), gap, AllAlone(events), Upto(|events| + 1))
  {
    OrderedCandidates(events);
    LonelyAll(events, gap);
  }

  lemma LonelyAll(timed: seq<Event>, gap: nat)
    requires forall i :: 0 <= i < |timed| ==> Timed(timed[i])
    requires forall i :: 0 < i < |timed| ==> timed[i].start > timed[i - 1].end + gap
    ensures GroupsAll(timed, gap, AllAlone(timed), Upto(|timed| + 1))
  {
    LonelyGroups(timed, gap, |timed|);
    assert timed[..|timed|] == timed;
  }

  // Timed events in order are their own candidates.
  lemma OrderedCandidates(events: seq<Event>)
    requires Sorted(events, Earlier) && forall i :: 0 <= i < |events| ==> Timed(events[i])
    ensures Candidates(events) == events
  {
    AllTimed(events);
    StableSortCorrect(events, Earlier);
  }

  lemma {:induction false} AllTimed(events: seq<Event>)
    requires forall i :: 0 <= i < |events| ==> Timed(events[i])
    ensures TimedOnly(events) == events
  {
    if events != [] {
      var n := |events| - 1;
      AllTimed(events[..n]);
      assert events[n].start < events[n].end;
      assert TimedOnly(events) == events[..n] + [events[n]];
    }
  }

  function AllAlone(timed: seq<Event>): (clusters: seq<Cluster>)
    ensures |clusters| == |timed| && forall i :: 0 <= i < |timed| ==> clusters[i] == Alone(timed[i])
  {
    seq(|timed|, i requires 0 <= i < |timed| => Alone(timed[i]))
  }

  // c is the group g with its shot placed.
  ghost predicate PlacedFrom(g: Cluster, c: Cluster)
  {
    Placed(c) && c.members == g.members && c.start == g.start && c.end == g.end
  }

  lemma SummaryAnyShot(g: Cluster, mid: Option<nat>)
    requires Summary(g)
    ensures Summary(g.(heavyMid := mid)) && Center(g.(heavyMid := mid)) == Center(g)
  {
  }

  lemma FinishPlaces(g: Cluster)
    requires Summary(g) && g.heavyMid.None?
    ensures g.start < g.end && PlacedFrom(g, FinishPlacement(g))
  {
    GroupProper(g);
    var mid := FinishPlacement(g).heavyMid;
    assert FinishPlacement(g) == g.(heavyMid := mid);
    SummaryAnyShot(g, mid);
  }

  method PlaceAll(groups: seq<Cluster>) returns (clusters: seq<Cluster>)
    requires forall c :: 0 <= c < |groups| ==> Summary(groups[c]) && groups[c].heavyMid.None?
    ensures |clusters| == |groups|
    ensures forall c :: 0 <= c < |groups| ==> PlacedFrom(groups[c], clusters[c])
  {
    clusters := [];
    for c := 0 to |groups|
      invariant |clusters| == c
      invariant forall k :: 0 <= k < c ==> PlacedFrom(groups[k], clusters[k])
    {
      ghost var placed := clusters;
      FinishPlaces(groups[c]);
      var cluster := FinishPlacement(groups[c]);
      clusters := clusters + [cluster];
      assert forall k :: 0 <= k < c ==> clusters[k] == placed[k];
    }
  }

  function Slice(timed: seq<Event>, lo: nat, hi: nat): seq<Event>
  {
    if lo <= hi <= |timed| then timed[lo..hi] else []
  }

  lemma GroupProper(c: Cluster)
    requires Summary(c)
    ensures c.start < c.end
  {
    MaxEndBounds(c.members);
  }
}

// What a cluster's numbers and its shot are, without the loops that find them.
module Placement {
  import opened Wrappers
  import opened Grid
  import opened Sorting
  import opened Clusters

  // ---- Candidates ---------------------------------------------------------------------------

  lemma CountNext(before: seq<Event>, kept: seq<Event>, e: Event)
    ensures multiset(before + kept)[e] == multiset(before)[e] + multiset(kept)[e]
  {
  }

  lemma {:induction false} TimedOnlyCounts(events: seq<Event>, e: Event)
    ensures multiset(TimedOnly(events))[e] == if e.start < e.end then multiset(events)[e] else 0
  {
    if events != [] {
      var n := |events| - 1;
      var last := [events[n]];
      TimedOnlyCounts(events[..n], e);
      assert events == events[..n] + last;
      CountNext(events[..n], last, e);
      CountNext(TimedOnly(events[..n]), last, e);
    }
  }

  // Exactly the events with a duration are candidates, each as often as it occurs.
  lemma CandidatesAreTimed(events: seq<Event>, e: Event)
    ensures multiset(Candidates(events))[e] == if e.start < e.end then multiset(events)[e] else 0
  {
    CandidatesOrdered(events);
    TimedOnlyCounts(events, e);
  }

  // ---- A cluster's numbers ------------------------------------------------------------------

  ghost function FnMembers(members: seq<Event>): set<nat>
  {
    set k: nat | k < |members| && members[k].hasFn
  }

  ghost function DrawingMembers(members: seq<Event>): set<nat>
  {
    set k: nat | k < |members| && members[k].hasDrawing
  }

  // Earliest start, latest end, most tags of one member, and how many have fonts or drawings.
  ghost predicate Counted(c: Cluster)
  {
    && (forall k :: 0 <= k < |c.members| ==>
          c.start <= c.members[k].start && c.members[k].end <= c.end && c.members[k].tagCount <= c.maxTags)
    && (exists k :: 0 <= k < |c.members| && c.members[k].start == c.start)
    && (exists k :: 0 <= k < |c.members| && c.members[k].end == c.end)
    && (exists k :: 0 <= k < |c.members| && c.members[k].tagCount == c.maxTags)
    && c.lines == |c.members|
    && c.fnLines == |FnMembers(c.members)| && c.drawingLines == |DrawingMembers(c.members)|
  }

  lemma {:induction false} FnLinesCount(members: seq<Event>)
    ensures FnLines(members) == |FnMembers(members)|
  {
    if members != [] {
      var n := |members| - 1;
      FnLinesCount(members[..n]);
      assert FnMembers(members) == FnMembers(members[..n]) + if members[n].hasFn then {n} else {};
    }
  }

  lemma {:induction false} DrawingLinesCount(members: seq<Event>)
    ensures DrawingLines(members) == |DrawingMembers(members)|
  {
    if members != [] {
      var n := |members| - 1;
      DrawingLinesCount(members[..n]);
      assert DrawingMembers(members) == DrawingMembers(members[..n]) + if members[n].hasDrawing then {n} else {};
    }
  }

  lemma {:induction false} MaxTagsBounds(members: seq<Event>)
    requires members != []
    ensures forall k :: 0 <= k < |members| ==> members[k].tagCount <= MaxTags(members)
    ensures exists k :: 0 <= k < |members| && members[k].tagCount == MaxTags(members)
  {
    var n := |members| - 1;
    assert members[n].tagCount <= MaxTags(members);
    if n > 0 {
      MaxTagsBounds(members[..n]);
      var k :| 0 <= k < n && members[..n][k].tagCount == MaxTags(members[..n]);
      assert members[k].tagCount == MaxTags(members) || members[n].tagCount == MaxTags(members);
      forall j | 0 <= j < n ensures members[j].tagCount <= MaxTags(members) {
        assert members[..n][j] == members[j];
      }
    }
  }

  lemma SummaryCounts(c: Cluster)
    requires Summary(c)
    ensures Counted(c)
  {
    MaxEndBounds(c.members);
    MaxTagsBounds(c.members);
    FnLinesCount(c.members);
    DrawingLinesCount(c.members);
  }

  // Something in the cluster is drawn or tagged.
  ghost predicate Heavy(c: Cluster)
  {
    exists k :: 0 <= k < |c.members| && (c.members[k].hasDrawing || c.members[k].tagCount > 0)
  }

  lemma HeavyExactly(c: Cluster)
    requires Summary(c)
    ensures Heavy(c) <==> c.drawingLines > 0 || c.maxTags > 0
  {
    SummaryCounts(c);
    if c.drawingLines > 0 {
      var k: nat :| k in DrawingMembers(c.members);
    }
    if k: nat :| k < |c.members| && c.members[k].hasDrawing {
      assert k in DrawingMembers(c.members);
    }
  }

  // ---- The shot -----------------------------------------------------------------------------

  // As far from the start as from the end, or one closer to the start.
  predicate Middle(m: nat, start: nat, end: nat)
  {
    start <= m <= end && (m - start == end - m || m - start + 1 == end - m)
  }

  lemma Middles(e: Event, c: Cluster)
    requires Timed(e) && c.start <= c.end
    ensures Middle(Midpoint(e), e.start, e.end) && Middle(Center(c), c.start, c.end)
  {
  }

  // A drawing comes before none, then more tags, then the middle nearer to the centre, then the
  // earlier middle.
  ghost predicate NoHeavier(e: Event, m: Event, center: nat)
    requires Timed(e) && Timed(m)
  {
    var de, dm := AbsDiff(Midpoint(e), center), AbsDiff(Midpoint(m), center);
    && (m.hasDrawing ==> e.hasDrawing)
    && (m.hasDrawing == e.hasDrawing ==> m.tagCount <= e.tagCount)
    && (m.hasDrawing == e.hasDrawing && m.tagCount == e.tagCount ==> de <= dm)
    && (m.hasDrawing == e.hasDrawing && m.tagCount == e.tagCount && dm == de ==> Midpoint(e) <= Midpoint(m))
  }

  ghost predicate NoCloser(e: Event, m: Event, center: nat)
    requires Timed(e) && Timed(m)
  {
    var de, dm := AbsDiff(Midpoint(e), center), AbsDiff(Midpoint(m), center);
    de <= dm && (de == dm ==> Midpoint(e) <= Midpoint(m))
  }

  ghost predicate AllTimed(c: Cluster)
  {
    forall k :: 0 <= k < |c.members| ==> Timed(c.members[k])
  }

  ghost predicate AtHeaviest(c: Cluster, center: nat, shot: nat, k: nat)
    requires AllTimed(c) && k < |c.members|
  {
    && shot == Midpoint(c.members[k])
    && forall m :: 0 <= m < |c.members| ==> NoHeavier(c.members[k], c.members[m], center)
  }

  ghost predicate AtClosest(c: Cluster, center: nat, shot: nat, k: nat)
    requires AllTimed(c) && k < |c.members|
  {
    && shot == Midpoint(c.members[k])
    && forall m :: 0 <= m < |c.members| ==> NoCloser(c.members[k], c.members[m], center)
  }

  // In the middle of a heaviest member, if any has weight; else at the centre, if that is strictly
  // within some member; else in the middle of the member closest to the centre.
  ghost predicate ShotRule(c: Cluster, shot: nat)
  {
    && AllTimed(c) && c.start <= c.end
    && exists center: nat :: Middle(center, c.start, c.end) && ShotBy(c, center, shot)
  }

  ghost predicate ShotBy(c: Cluster, center: nat, shot: nat)
    requires AllTimed(c)
  {
    if Heavy(c) then exists k: nat :: k < |c.members| && AtHeaviest(c, center, shot, k)
    else if exists k :: 0 <= k < |c.members| && c.members[k].start < center < c.members[k].end then shot == center
    else exists k: nat :: k < |c.members| && AtClosest(c, center, shot, k)
  }

  lemma HeaviestShot(c: Cluster, center: nat)
    requires AllTimed(c) && c.members != []
    ensures exists k: nat :: k < |c.members| && AtHeaviest(c, center, Midpoint(Heaviest(c.members, center)), k)
  {
    var e := Heaviest(c.members, center);
    var k: nat :| k < |c.members| && c.members[k] == e;
    forall m | 0 <= m < |c.members| ensures NoHeavier(e, c.members[m], center) {
      HeaviestIsBest(c.members, center, m);
    }
    assert AtHeaviest(c, center, Midpoint(e), k);
  }

  lemma ClosestShot(c: Cluster, center: nat)
    requires AllTimed(c) && c.members != []
    ensures exists k: nat :: k < |c.members| && AtClosest(c, center, Midpoint(Closest(c.members, center)), k)
  {
    var e := Closest(c.members, center);
    var k: nat :| k < |c.members| && c.members[k] == e;
    forall m | 0 <= m < |c.members| ensures NoCloser(e, c.members[m], center) {
      ClosestIsBest(c.members, center, m);
    }
    assert AtClosest(c, center, Midpoint(e), k);
  }

  lemma ShotByRule(c: Cluster)
    requires Placed(c)
    ensures ShotRule(c, ShotCs(c))
  {
    HeavyExactly(c);
    HeaviestShot(c, Center(c));
    ClosestShot(c, Center(c));
    Middles(c.members[0], c);
    assert ShotBy(c, Center(c), ShotCs(c));
  }
}

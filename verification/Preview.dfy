// select_clusters: rank the clusters and choose shots greedily under a hard gap and a soft
// cooldown, falling back on cooled-down clusters when the quota is not met.
module Preview {
  import opened Wrappers
  import opened Sorting
  import opened Clusters
  import Placement
  import Flood

  datatype Verdict = Selected | DeferredCooldown | BackfilledCooldown | SkippedGap | OverQuota

  function Duration(c: Cluster): nat
  {
    if c.end < c.start then 0 else c.end - c.start
  }

  // Font lines, drawings, lines, tags, duration, each larger first; then the earlier start.
  predicate Ahead(l: Cluster, r: Cluster)
  {
    var lf, rf := l.fnLines > 0, r.fnLines > 0;
    if lf != rf then lf
    else if l.drawingLines != r.drawingLines then l.drawingLines > r.drawingLines
    else if l.lines != r.lines then l.lines > r.lines
    else if l.maxTags != r.maxTags then l.maxTags > r.maxTags
    else if Duration(l) != Duration(r) then Duration(l) > Duration(r)
    else l.start <= r.start
  }

  predicate SameRank(l: Cluster, r: Cluster)
  {
    && (l.fnLines > 0) == (r.fnLines > 0)
    && l.drawingLines == r.drawingLines
    && l.lines == r.lines
    && l.maxTags == r.maxTags
    && Duration(l) == Duration(r)
  }

  lemma AheadTotal()
    ensures TotalPreorder(Ahead)
  {
  }

  // ---- Dense ranks --------------------------------------------------------------------------

  // Ranks from 1 on, rising by at most one, equal exactly for clusters of the same rank.
  ghost predicate Ranked(clusters: seq<Cluster>, ranks: seq<nat>)
  {
    && |ranks| <= |clusters| && (ranks != [] ==> ranks[0] == 1)
    && (forall i :: 0 < i < |ranks| ==> ranks[i - 1] <= ranks[i] <= ranks[i - 1] + 1)
    && forall i, j :: 0 <= i < j < |ranks| ==>
         ranks[i] <= ranks[j] && (ranks[i] == ranks[j] <==> SameRank(clusters[i], clusters[j]))
  }

  lemma NextRank(clusters: seq<Cluster>, ranks: seq<nat>, rank: nat)
    requires Sorted(clusters, Ahead) && Ranked(clusters, ranks) && 0 < |ranks| < |clusters|
    requires var n := |ranks|;
             rank == if SameRank(clusters[n - 1], clusters[n]) then ranks[n - 1] else ranks[n - 1] + 1
    ensures Ranked(clusters, ranks + [rank])
  {
    var n := |ranks|;
    forall i | 0 <= i < n ensures ranks[i] <= rank && (rank == ranks[i] <==> SameRank(clusters[i], clusters[n])) {
      assert Ahead(clusters[i], clusters[n - 1]) || i == n - 1;
      assert Ahead(clusters[n - 1], clusters[n]);
      SameRankBetween(clusters[i], clusters[n - 1], clusters[n]);
    }
  }

  method DenseRanks(clusters: seq<Cluster>) returns (ranks: seq<nat>)
    requires Sorted(clusters, Ahead)
    ensures |ranks| == |clusters| && Ranked(clusters, ranks)
  {
    ranks := [];
    var rank := 0;
    for idx := 0 to |clusters|
      invariant |ranks| == idx && Ranked(clusters, ranks) && rank == if idx == 0 then 0 else ranks[idx - 1]
    {
      if idx == 0 || !SameRank(clusters[idx - 1], clusters[idx]) {
        rank := rank + 1;
      }
      if idx > 0 { NextRank(clusters, ranks, rank); }
      ranks := ranks + [rank];
    }
  }

  // Equal ranks are contiguous.
  lemma SameRankBetween(a: Cluster, b: Cluster, c: Cluster)
    requires (Ahead(a, b) || a == b) && Ahead(b, c)
    ensures SameRank(a, c) <==> SameRank(a, b) && SameRank(b, c)
  {
  }

  // ---- Choosing -----------------------------------------------------------------------------

  // All that the choice reads off a ranked cluster.
  datatype Candidate = Candidate(shot: nat, end: nat)

  predicate TooClose(a: Candidate, b: Candidate, minGap: nat)
  {
    AbsDiff(a.shot, b.shot) < minGap
  }

  // The shot of b falls into the cooldown after a. The source saturates the sum at the largest
  // u64, which no shot exceeds.
  predicate Cooling(a: Candidate, b: Candidate, cooldown: nat)
  {
    a.end < b.shot <= a.end + cooldown
  }

  ghost predicate Accepted(v: Verdict)
  {
    v == Selected || v == BackfilledCooldown
  }

  // The outcome of the greedy choice, best-ranked candidate first.
  ghost predicate Greedy(ranked: seq<Candidate>, max: nat, minGap: nat, cooldown: nat, outcomes: seq<Verdict>,
                         accepted: seq<nat>)
  {
    && Settled(ranked, max, minGap, cooldown, outcomes, accepted)
    && Quota(outcomes, |ranked|)
    && (|accepted| < max ==>
          forall i: nat :: i < |ranked| ==> outcomes[i] == SkippedGap || Accepted(outcomes[i]))
  }

  // What holds of the verdicts throughout both passes.
  ghost predicate Settled(ranked: seq<Candidate>, max: nat, minGap: nat, cooldown: nat, outcomes: seq<Verdict>,
                          accepted: seq<nat>)
  {
    && |outcomes| == |ranked|
    && |accepted| <= max
    && Chosen(ranked, outcomes, accepted)
    && Apart(ranked, minGap, accepted)
    && Reasons(ranked, minGap, cooldown, outcomes)
  }

  // accepted lists exactly the selected and backfilled candidates, each once.
  ghost predicate Chosen(ranked: seq<Candidate>, outcomes: seq<Verdict>, accepted: seq<nat>)
    requires |outcomes| == |ranked|
  {
    && (forall k :: 0 <= k < |accepted| ==> accepted[k] < |ranked|)
    && (forall j, k :: 0 <= j < k < |accepted| ==> accepted[j] != accepted[k])
    && (forall i: nat :: i < |ranked| ==> (i in accepted <==> Accepted(outcomes[i])))
  }

  ghost predicate Apart(ranked: seq<Candidate>, minGap: nat, accepted: seq<nat>)
  {
    forall i, j :: i in accepted && j in accepted && i != j && i < |ranked| && j < |ranked| ==>
      !TooClose(ranked[i], ranked[j], minGap)
  }

  // Every verdict but OverQuota has its reason.
  ghost predicate Reasons(ranked: seq<Candidate>, minGap: nat, cooldown: nat, outcomes: seq<Verdict>)
    requires |outcomes| == |ranked|
  {
    && (forall i: nat :: i < |ranked| && outcomes[i] == SkippedGap ==> Displaced(ranked, minGap, cooldown, outcomes, i))
    && (forall i: nat :: i < |ranked| && (outcomes[i] == DeferredCooldown || outcomes[i] == BackfilledCooldown) ==>
          Cooled(ranked, cooldown, outcomes, i))
    && (forall i: nat :: i < |ranked| && outcomes[i] == Selected ==> !Cooled(ranked, cooldown, outcomes, i))
  }

  // Some accepted shot is too close.
  ghost predicate Crowded(ranked: seq<Candidate>, minGap: nat, outcomes: seq<Verdict>, i: nat)
    requires |outcomes| == |ranked| && i < |ranked|
  {
    exists a: nat :: a < |ranked| && Accepted(outcomes[a]) && TooClose(ranked[a], ranked[i], minGap)
  }

  // Some accepted shot is too close, and it is better ranked unless i itself was cooling down.
  ghost predicate Displaced(ranked: seq<Candidate>, minGap: nat, cooldown: nat, outcomes: seq<Verdict>, i: nat)
    requires |outcomes| == |ranked| && i < |ranked|
  {
    exists a: nat :: a < |ranked| && Accepted(outcomes[a]) && TooClose(ranked[a], ranked[i], minGap)
                     && ((a < i && outcomes[a] == Selected) || Cooled(ranked, cooldown, outcomes, i))
  }

  // Whoever is over quota faces only better-ranked selected clusters.
  ghost predicate Quota(outcomes: seq<Verdict>, n: nat)
  {
    forall i: nat, a: nat ::
        i < |outcomes| && i < n && a < |outcomes| && outcomes[i] == OverQuota && Accepted(outcomes[a]) ==>
      a < i && outcomes[a] == Selected
  }

  // Some better-ranked selected cluster is still cooling down.
  ghost predicate Cooled(ranked: seq<Candidate>, cooldown: nat, outcomes: seq<Verdict>, i: nat)
    requires |outcomes| == |ranked| && i < |ranked|
  {
    exists a: nat :: a < i && outcomes[a] == Selected && Cooling(ranked[a], ranked[i], cooldown)
  }

  // ---- The verdicts, as the ranking alone determines them -----------------------------------

  // The positions of one verdict, best rank first.
  ghost function Places(verdicts: seq<Verdict>, v: Verdict): seq<nat>
  {
    if verdicts == [] then []
    else
      var n := |verdicts| - 1;
      Places(verdicts[..n], v) + if verdicts[n] == v then [n] else []
  }

  lemma {:induction false} PlacesExact(verdicts: seq<Verdict>, v: Verdict)
    ensures forall a: nat :: a in Places(verdicts, v) <==> a < |verdicts| && verdicts[a] == v
    ensures forall j, k :: 0 <= j < k < |Places(verdicts, v)| ==> Places(verdicts, v)[j] < Places(verdicts, v)[k]
  {
    if verdicts != [] {
      var n := |verdicts| - 1;
      PlacesExact(verdicts[..n], v);
      var places := Places(verdicts[..n], v);
      forall a: nat ensures a in Places(verdicts, v) <==> a < |verdicts| && verdicts[a] == v {
        assert a in Places(verdicts, v) <==> a in places || (verdicts[n] == v && a == n);
      }
      forall k | 0 <= k < |places| ensures places[k] < n {
        assert places[k] in places;
      }
    }
  }

  // Some cluster of that verdict is too close to cluster i.
  ghost predicate CloseTo(ranked: seq<Candidate>, minGap: nat, verdicts: seq<Verdict>, v: Verdict, i: nat)
    requires i < |ranked|
  {
    exists a: nat :: a < |verdicts| && a < |ranked| && verdicts[a] == v && TooClose(ranked[a], ranked[i], minGap)
  }

  // Some selected cluster is still cooling down at cluster i.
  ghost predicate CooledBy(ranked: seq<Candidate>, cooldown: nat, verdicts: seq<Verdict>, i: nat)
    requires i < |ranked|
  {
    exists a: nat ::
      a < |verdicts| && a < |ranked| && verdicts[a] == Selected && Cooling(ranked[a], ranked[i], cooldown)
  }

  // The verdict of the first pass on the cluster after those already judged.
  ghost function NextVerdict(ranked: seq<Candidate>, max: nat, minGap: nat, cooldown: nat,
                             before: seq<Verdict>): Verdict
    requires |before| < |ranked|
  {
    if |Places(before, Selected)| >= max then OverQuota
    else if CloseTo(ranked, minGap, before, Selected, |before|) then SkippedGap
    else if CooledBy(ranked, cooldown, before, |before|) then DeferredCooldown
    else Selected
  }

  // The verdicts of the first pass on the n best clusters.
  ghost function First(ranked: seq<Candidate>, max: nat, minGap: nat, cooldown: nat, n: nat): (first: seq<Verdict>)
    requires n <= |ranked|
    ensures |first| == n
  {
    if n == 0 then []
    else
      var before := First(ranked, max, minGap, cooldown, n - 1);
      before + [NextVerdict(ranked, max, minGap, cooldown, before)]
  }

  // The final verdict on the cluster after those already settled: a postponed one comes back if
  // a place is left and it is close to no selected and no better backfilled cluster.
  ghost function LastVerdict(ranked: seq<Candidate>, max: nat, minGap: nat, first: seq<Verdict>,
                             before: seq<Verdict>): Verdict
    requires |before| < |ranked| == |first|
  {
    var i := |before|;
    if first[i] != DeferredCooldown then first[i]
    else if |Places(first, Selected)| + |Places(before, BackfilledCooldown)| >= max then DeferredCooldown
    else if CloseTo(ranked, minGap, first, Selected, i)
        || CloseTo(ranked, minGap, before, BackfilledCooldown, i) then SkippedGap
    else BackfilledCooldown
  }

  ghost predicate Final(ranked: seq<Candidate>, max: nat, minGap: nat, cooldown: nat, outcomes: seq<Verdict>)
  {
    FinalAfter(ranked, max, minGap, First(ranked, max, minGap, cooldown, |ranked|), outcomes)
  }

  ghost predicate FinalAfter(ranked: seq<Candidate>, max: nat, minGap: nat, first: seq<Verdict>, outcomes: seq<Verdict>)
    requires |first| == |ranked|
  {
    && |outcomes| == |ranked|
    && forall i :: 0 <= i < |ranked| ==> outcomes[i] == LastVerdict(ranked, max, minGap, first, outcomes[..i])
  }

  // The final verdicts on the n best clusters, each from those before it.
  ghost function Settle(ranked: seq<Candidate>, max: nat, minGap: nat, first: seq<Verdict>,
                        n: nat): (last: seq<Verdict>)
    requires n <= |ranked| == |first|
    ensures |last| == n
  {
    if n == 0 then []
    else
      var before := Settle(ranked, max, minGap, first, n - 1);
      before + [LastVerdict(ranked, max, minGap, first, before)]
  }

  lemma {:induction false} FinalIsSettled(ranked: seq<Candidate>, max: nat, minGap: nat, first: seq<Verdict>,
                                          outcomes: seq<Verdict>, n: nat)
    requires |first| == |ranked| && FinalAfter(ranked, max, minGap, first, outcomes) && n <= |ranked|
    ensures outcomes[..n] == Settle(ranked, max, minGap, first, n)
  {
    if n > 0 {
      FinalIsSettled(ranked, max, minGap, first, outcomes, n - 1);
      LastOfPrefix(outcomes, n);
    }
  }

  // The verdicts and the accepted clusters, selected ones first, each in order of rank.
  ghost predicate ByRanking(ranked: seq<Candidate>, max: nat, minGap: nat, cooldown: nat,
                            outcomes: seq<Verdict>, accepted: seq<nat>)
  {
    && Final(ranked, max, minGap, cooldown, outcomes)
    && accepted == Places(outcomes, Selected) + Places(outcomes, BackfilledCooldown)
  }

  // The ranking determines the verdicts.
  lemma FinalDetermined(ranked: seq<Candidate>, max: nat, minGap: nat, cooldown: nat,
                        outcomes: seq<Verdict>, outcomes': seq<Verdict>)
    requires Final(ranked, max, minGap, cooldown, outcomes) && Final(ranked, max, minGap, cooldown, outcomes')
    ensures outcomes == outcomes'
  {
    var first := First(ranked, max, minGap, cooldown, |ranked|);
    FinalIsSettled(ranked, max, minGap, first, outcomes, |ranked|);
    FinalIsSettled(ranked, max, minGap, first, outcomes', |ranked|);
    assert outcomes[..|ranked|] == outcomes && outcomes'[..|ranked|] == outcomes';
  }

  lemma LastOfPrefix(outcomes: seq<Verdict>, n: nat)
    requires 0 < n <= |outcomes|
    ensures outcomes[..n] == outcomes[..n - 1] + [outcomes[n - 1]]
  {
  }

  lemma {:induction false} FirstPrefix(ranked: seq<Candidate>, max: nat, minGap: nat, cooldown: nat, n: nat, i: nat)
    requires i < n <= |ranked|
    ensures var first := First(ranked, max, minGap, cooldown, n);
            first[..i] == First(ranked, max, minGap, cooldown, i)
            && first[i] == NextVerdict(ranked, max, minGap, cooldown, first[..i])
  {
    var first, before := First(ranked, max, minGap, cooldown, n), First(ranked, max, minGap, cooldown, n - 1);
    assert first[..n - 1] == before;
    if i < n - 1 {
      FirstPrefix(ranked, max, minGap, cooldown, n - 1, i);
      assert first[..i] == before[..i];
    }
  }

  // ---- One verdict --------------------------------------------------------------------------

  lemma ChosenStep(ranked: seq<Candidate>, outcomes: seq<Verdict>, accepted: seq<nat>, n: nat, v: Verdict)
    requires |outcomes| == |ranked| && n < |ranked| && Chosen(ranked, outcomes, accepted) && !Accepted(outcomes[n])
    ensures Chosen(ranked, outcomes[n := v], if Accepted(v) then accepted + [n] else accepted)
  {
    var accepted' := if Accepted(v) then accepted + [n] else accepted;
    forall i: nat | i < |ranked| ensures i in accepted' <==> Accepted(outcomes[n := v][i]) {
      assert i in accepted' <==> i in accepted || (Accepted(v) && i == n);
    }
  }

  lemma ApartStep(ranked: seq<Candidate>, minGap: nat, outcomes: seq<Verdict>, accepted: seq<nat>, n: nat)
    requires |outcomes| == |ranked| && n < |ranked| && Chosen(ranked, outcomes, accepted)
    requires Apart(ranked, minGap, accepted) && !Crowded(ranked, minGap, outcomes, n)
    ensures Apart(ranked, minGap, accepted + [n])
  {
    var accepted' := accepted + [n];
    forall i, j | i in accepted' && j in accepted' && i != j && i < |ranked| && j < |ranked|
      ensures !TooClose(ranked[i], ranked[j], minGap)
    {
      assert i in accepted || i == n;
      assert j in accepted || j == n;
    }
  }

  lemma ReasonsStep(ranked: seq<Candidate>, minGap: nat, cooldown: nat, outcomes: seq<Verdict>, n: nat, v: Verdict)
    requires |outcomes| == |ranked| && n < |ranked| && Reasons(ranked, minGap, cooldown, outcomes)
    requires !Accepted(outcomes[n])
    requires v == SkippedGap ==> Displaced(ranked, minGap, cooldown, outcomes, n)
    requires v == DeferredCooldown || v == BackfilledCooldown ==> Cooled(ranked, cooldown, outcomes, n)
    requires v == Selected ==> !Cooled(ranked, cooldown, outcomes, n) && forall i: nat :: n < i < |ranked| ==>
                 outcomes[i] == OverQuota
    ensures Reasons(ranked, minGap, cooldown, outcomes[n := v])
  {
    var outcomes' := outcomes[n := v];
    forall i: nat | i < |ranked| && (i <= n || v != Selected)
      ensures Cooled(ranked, cooldown, outcomes', i) <==> Cooled(ranked, cooldown, outcomes, i)
    {
      assert forall a: nat :: a < i ==> (outcomes'[a] == Selected <==> outcomes[a] == Selected);
    }
    forall i: nat | i < |ranked| && Cooled(ranked, cooldown, outcomes, i)
      ensures Cooled(ranked, cooldown, outcomes', i)
    {
      var a: nat :| a < i && outcomes[a] == Selected && Cooling(ranked[a], ranked[i], cooldown);
      assert outcomes'[a] == outcomes[a];
    }
    forall i: nat | i < |ranked| && outcomes'[i] == SkippedGap
      ensures Displaced(ranked, minGap, cooldown, outcomes', i)
    {
      assert Displaced(ranked, minGap, cooldown, outcomes, i);
      var a: nat :| a < |ranked| && Accepted(outcomes[a]) && TooClose(ranked[a], ranked[i], minGap)
                    && ((a < i && outcomes[a] == Selected) || Cooled(ranked, cooldown, outcomes, i));
      assert outcomes'[a] == outcomes[a];
    }
  }

  lemma CrowdedDisplaces(ranked: seq<Candidate>, minGap: nat, cooldown: nat, outcomes: seq<Verdict>, n: nat)
    requires |outcomes| == |ranked| && n < |ranked| && Crowded(ranked, minGap, outcomes, n)
    requires Cooled(ranked, cooldown, outcomes, n)
             || forall a: nat :: a < |ranked| && Accepted(outcomes[a]) ==> a < n && outcomes[a] == Selected
    ensures Displaced(ranked, minGap, cooldown, outcomes, n)
  {
    var a: nat :| a < |ranked| && Accepted(outcomes[a]) && TooClose(ranked[a], ranked[n], minGap);
    assert (a < n && outcomes[a] == Selected) || Cooled(ranked, cooldown, outcomes, n);
  }

  lemma SettledStep(ranked: seq<Candidate>, max: nat, minGap: nat, cooldown: nat, outcomes: seq<Verdict>,
                    accepted: seq<nat>,
                    n: nat, v: Verdict)
    requires n < |ranked| && Settled(ranked, max, minGap, cooldown, outcomes, accepted) && !Accepted(outcomes[n])
    requires v == SkippedGap ==> Displaced(ranked, minGap, cooldown, outcomes, n)
    requires v == DeferredCooldown || v == BackfilledCooldown ==> Cooled(ranked, cooldown, outcomes, n)
    requires v == Selected ==> !Cooled(ranked, cooldown, outcomes, n) && forall i: nat :: n < i < |ranked| ==>
                 outcomes[i] == OverQuota
    requires Accepted(v) ==> |accepted| < max && !Crowded(ranked, minGap, outcomes, n)
    ensures Settled(ranked, max, minGap, cooldown, outcomes[n := v], if Accepted(v) then accepted + [n] else accepted)
  {
    ChosenStep(ranked, outcomes, accepted, n, v);
    ReasonsStep(ranked, minGap, cooldown, outcomes, n, v);
    if Accepted(v) { ApartStep(ranked, minGap, outcomes, accepted, n); }
  }

  // waiting lists exactly the deferred candidates, each once.
  ghost predicate Waiting(outcomes: seq<Verdict>, waiting: seq<nat>)
  {
    && (forall k :: 0 <= k < |waiting| ==> waiting[k] < |outcomes|)
    && (forall j, k :: 0 <= j < k < |waiting| ==> waiting[j] != waiting[k])
    && (forall i: nat :: i < |outcomes| ==> (i in waiting <==> outcomes[i] == DeferredCooldown))
  }

  lemma QuotaStep(ranked: seq<Candidate>, outcomes: seq<Verdict>, n: nat, v: Verdict)
    requires |outcomes| == |ranked| && n < |ranked| && Quota(outcomes, n)
    requires forall a: nat :: a < |ranked| && Accepted(outcomes[a]) ==> a < n && outcomes[a] == Selected
    requires v == BackfilledCooldown || v == Selected ==> forall i: nat :: i < n ==> outcomes[i] != OverQuota
    ensures Quota(outcomes[n := v], n + 1)
  {
  }

  lemma WaitingJoins(outcomes: seq<Verdict>, waiting: seq<nat>, n: nat, v: Verdict)
    requires n < |outcomes| && Waiting(outcomes, waiting) && outcomes[n] != DeferredCooldown
    ensures Waiting(outcomes[n := v], if v == DeferredCooldown then waiting + [n] else waiting)
  {
    var waiting' := if v == DeferredCooldown then waiting + [n] else waiting;
    forall i: nat | i < |outcomes| ensures i in waiting' <==> outcomes[n := v][i] == DeferredCooldown {
      assert i in waiting' <==> i in waiting || (v == DeferredCooldown && i == n);
    }
  }

  lemma WaitingLeaves(outcomes: seq<Verdict>, waiting: seq<nat>, v: Verdict)
    requires waiting != [] && Waiting(outcomes, waiting) && v != DeferredCooldown
    ensures Waiting(outcomes[waiting[0] := v], waiting[1..])
  {
    var n, rest := waiting[0], waiting[1..];
    assert waiting == [n] + rest;
    forall i: nat | i < |outcomes| ensures i in rest <==> outcomes[n := v][i] == DeferredCooldown {
      assert i in waiting <==> i == n || i in rest;
    }
  }

  // ---- First pass ---------------------------------------------------------------------------

  // After the first n candidates.
  ghost predicate FirstPass(ranked: seq<Candidate>, max: nat, minGap: nat, cooldown: nat, n: nat,
                            outcomes: seq<Verdict>, accepted: seq<nat>, deferred: seq<nat>)
  {
    && n <= |ranked|
    && Settled(ranked, max, minGap, cooldown, outcomes, accepted)
    && (forall i: nat :: i < |ranked| ==> outcomes[i] != BackfilledCooldown && (i >= n ==> outcomes[i] == OverQuota))
    && Quota(outcomes, n)
    && (|accepted| < max ==> forall i: nat :: i < n ==> outcomes[i] != OverQuota)
    && Waiting(outcomes, deferred)
  }

  // The verdict a candidate gets in its turn.
  ghost predicate Deserves(ranked: seq<Candidate>, max: nat, minGap: nat, cooldown: nat, n: nat,
                           outcomes: seq<Verdict>, accepted: seq<nat>, v: Verdict)
    requires |outcomes| == |ranked| && n < |ranked|
  {
    && v != BackfilledCooldown && (v == OverQuota ==> |accepted| >= max)
    && (v == SkippedGap ==> Crowded(ranked, minGap, outcomes, n))
    && (v == DeferredCooldown ==> Cooled(ranked, cooldown, outcomes, n))
    && (v == Selected ==>
        |accepted| < max && !Crowded(ranked, minGap, outcomes, n) && !Cooled(ranked, cooldown, outcomes, n))
  }

  lemma FirstPassSettles(ranked: seq<Candidate>, max: nat, minGap: nat, cooldown: nat, n: nat,
                         outcomes: seq<Verdict>, accepted: seq<nat>, deferred: seq<nat>, v: Verdict)
    requires FirstPass(ranked, max, minGap, cooldown, n, outcomes, accepted, deferred) && n < |ranked|
    requires Deserves(ranked, max, minGap, cooldown, n, outcomes, accepted, v)
    ensures Settled(ranked, max, minGap, cooldown, outcomes[n := v], if v == Selected then accepted + [n] else accepted)
  {
    if v == SkippedGap { CrowdedDisplaces(ranked, minGap, cooldown, outcomes, n); }
    SettledStep(ranked, max, minGap, cooldown, outcomes, accepted, n, v);
  }

  lemma FirstPassStep(ranked: seq<Candidate>, max: nat, minGap: nat, cooldown: nat, n: nat,
                      outcomes: seq<Verdict>, accepted: seq<nat>, deferred: seq<nat>, v: Verdict)
    requires FirstPass(ranked, max, minGap, cooldown, n, outcomes, accepted, deferred) && n < |ranked|
    requires Deserves(ranked, max, minGap, cooldown, n, outcomes, accepted, v)
    ensures FirstPass(ranked, max, minGap, cooldown, n + 1, outcomes[n := v],
                      if v == Selected then accepted + [n] else accepted,
                      if v == DeferredCooldown then deferred + [n] else deferred)
  {
    FirstPassSettles(ranked, max, minGap, cooldown, n, outcomes, accepted, deferred, v);
    QuotaStep(ranked, outcomes, n, v);
    WaitingJoins(outcomes, deferred, n, v);
  }

  lemma AnyClose(ranked: seq<Candidate>, minGap: nat, outcomes: seq<Verdict>, accepted: seq<nat>, i: nat)
    requires |outcomes| == |ranked| && i < |ranked| && Chosen(ranked, outcomes, accepted)
    ensures Crowded(ranked, minGap, outcomes, i) <==>
            exists k :: 0 <= k < |accepted| && TooClose(ranked[accepted[k]], ranked[i], minGap)
  {
    if Crowded(ranked, minGap, outcomes, i) {
      var a: nat :| a < |ranked| && Accepted(outcomes[a]) && TooClose(ranked[a], ranked[i], minGap);
      assert a in accepted;
    }
  }

  // What the list of selected clusters says, the verdicts say.
  lemma PlacesClose(ranked: seq<Candidate>, minGap: nat, cooldown: nat, before: seq<Verdict>, accepted: seq<nat>,
                    i: nat)
    requires |before| <= i < |ranked| && accepted == Places(before, Selected)
    ensures forall k :: 0 <= k < |accepted| ==> accepted[k] < |ranked|
    ensures CloseTo(ranked, minGap, before, Selected, i) <==>
            exists k :: 0 <= k < |accepted| && TooClose(ranked[accepted[k]], ranked[i], minGap)
    ensures CooledBy(ranked, cooldown, before, i) <==>
            exists k :: 0 <= k < |accepted| && Cooling(ranked[accepted[k]], ranked[i], cooldown)
  {
    PlacesExact(before, Selected);
    forall k | 0 <= k < |accepted| ensures accepted[k] < |before| && before[accepted[k]] == Selected {
      assert accepted[k] in accepted;
    }
    if CloseTo(ranked, minGap, before, Selected, i) {
      var a: nat :| a < |before| && before[a] == Selected && TooClose(ranked[a], ranked[i], minGap);
      assert a in accepted;
    }
    if CooledBy(ranked, cooldown, before, i) {
      var a: nat :| a < |before| && before[a] == Selected && Cooling(ranked[a], ranked[i], cooldown);
      assert a in accepted;
    }
  }

  // Before candidate n: the first pass as its rule and its reasons have it.
  ghost predicate Judged(ranked: seq<Candidate>, max: nat, minGap: nat, cooldown: nat, n: nat,
                         outcomes: seq<Verdict>, accepted: seq<nat>, deferred: seq<nat>)
  {
    && FirstPass(ranked, max, minGap, cooldown, n, outcomes, accepted, deferred)
    && Listed(ranked, max, minGap, cooldown, outcomes[..n], accepted, deferred)
  }

  lemma JudgedStarts(ranked: seq<Candidate>, max: nat, minGap: nat, cooldown: nat)
    ensures Judged(ranked, max, minGap, cooldown, 0, seq(|ranked|, _ => OverQuota), [], [])
  {
  }

  // The rule's part of it.
  ghost predicate Listed(ranked: seq<Candidate>, max: nat, minGap: nat, cooldown: nat,
                         before: seq<Verdict>, accepted: seq<nat>, deferred: seq<nat>)
  {
    && |before| <= |ranked| && before == First(ranked, max, minGap, cooldown, |before|)
    && accepted == Places(before, Selected) && deferred == Places(before, DeferredCooldown)
  }

  lemma ListedNext(ranked: seq<Candidate>, max: nat, minGap: nat, cooldown: nat,
                   before: seq<Verdict>, accepted: seq<nat>, deferred: seq<nat>, v: Verdict)
    requires Listed(ranked, max, minGap, cooldown, before, accepted, deferred) && |before| < |ranked|
    requires v == NextVerdict(ranked, max, minGap, cooldown, before)
    ensures Listed(ranked, max, minGap, cooldown, before + [v],
                   if v == Selected then accepted + [|before|] else accepted,
                   if v == DeferredCooldown then deferred + [|before|] else deferred)
  {
    assert (before + [v])[..|before|] == before;
  }

  lemma JudgedNext(ranked: seq<Candidate>, max: nat, minGap: nat, cooldown: nat, n: nat,
                   outcomes: seq<Verdict>, accepted: seq<nat>, deferred: seq<nat>, v: Verdict)
    requires Judged(ranked, max, minGap, cooldown, n, outcomes, accepted, deferred) && n < |ranked|
    requires v == NextVerdict(ranked, max, minGap, cooldown, outcomes[..n])
    ensures Judged(ranked, max, minGap, cooldown, n + 1, outcomes[n := v],
                   if v == Selected then accepted + [n] else accepted,
                   if v == DeferredCooldown then deferred + [n] else deferred)
  {
    PassedNext(ranked, max, minGap, cooldown, n, outcomes, accepted, deferred, v);
    ListedNext(ranked, max, minGap, cooldown, outcomes[..n], accepted, deferred, v);
    OneMore(outcomes, n, v);
  }

  lemma OneMore(outcomes: seq<Verdict>, n: nat, v: Verdict)
    requires n < |outcomes|
    ensures outcomes[n := v][..n + 1] == outcomes[..n] + [v]
  {
  }

  lemma PassedNext(ranked: seq<Candidate>, max: nat, minGap: nat, cooldown: nat, n: nat,
                   outcomes: seq<Verdict>, accepted: seq<nat>, deferred: seq<nat>, v: Verdict)
    requires Judged(ranked, max, minGap, cooldown, n, outcomes, accepted, deferred) && n < |ranked|
    requires v == NextVerdict(ranked, max, minGap, cooldown, outcomes[..n])
    ensures FirstPass(ranked, max, minGap, cooldown, n + 1, outcomes[n := v],
                      if v == Selected then accepted + [n] else accepted,
                      if v == DeferredCooldown then deferred + [n] else deferred)
  {
    DeservesNext(ranked, max, minGap, cooldown, n, outcomes, accepted, deferred, v);
    FirstPassStep(ranked, max, minGap, cooldown, n, outcomes, accepted, deferred, v);
  }

  lemma DeservesNext(ranked: seq<Candidate>, max: nat, minGap: nat, cooldown: nat, n: nat,
                     outcomes: seq<Verdict>, accepted: seq<nat>, deferred: seq<nat>, v: Verdict)
    requires Judged(ranked, max, minGap, cooldown, n, outcomes, accepted, deferred) && n < |ranked|
    requires v == NextVerdict(ranked, max, minGap, cooldown, outcomes[..n])
    ensures Deserves(ranked, max, minGap, cooldown, n, outcomes, accepted, v)
  {
    PlacesClose(ranked, minGap, cooldown, outcomes[..n], accepted, n);
    AnyClose(ranked, minGap, outcomes, accepted, n);
    AnyCooling(ranked, max, minGap, cooldown, n, outcomes, accepted, deferred);
  }

  // The verdict of the first pass on candidate idx.
  method Judge(ranked: seq<Candidate>, max: nat, minGap: nat, cooldown: nat, idx: nat,
               ghost before: seq<Verdict>, accepted: seq<nat>) returns (v: Verdict)
    requires |before| == idx < |ranked| && accepted == Places(before, Selected)
    ensures v == NextVerdict(ranked, max, minGap, cooldown, before)
  {
    PlacesClose(ranked, minGap, cooldown, before, accepted, idx);
    if |accepted| >= max {
      v := OverQuota;
    } else if exists k :: 0 <= k < |accepted| && TooClose(ranked[accepted[k]], ranked[idx], minGap) {
      v := SkippedGap;
    } else if exists k :: 0 <= k < |accepted| && Cooling(ranked[accepted[k]], ranked[idx], cooldown) {
      v := DeferredCooldown;
    } else {
      v := Selected;
    }
  }

  method Choose(ranked: seq<Candidate>, max: nat, minGap: nat, cooldown: nat)
    returns (outcomes: seq<Verdict>, accepted: seq<nat>)
    ensures Greedy(ranked, max, minGap, cooldown, outcomes, accepted)
    ensures ByRanking(ranked, max, minGap, cooldown, outcomes, accepted)
  {
    var deferred: seq<nat> := [];
    outcomes := seq(|ranked|, _ => OverQuota);
    accepted := [];
    JudgedStarts(ranked, max, minGap, cooldown);
    for idx := 0 to |ranked|
      invariant Judged(ranked, max, minGap, cooldown, idx, outcomes, accepted, deferred)
    {
      var v := Judge(ranked, max, minGap, cooldown, idx, outcomes[..idx], accepted);
      JudgedNext(ranked, max, minGap, cooldown, idx, outcomes, accepted, deferred, v);
      outcomes := outcomes[idx := v];
      if v == Selected { accepted := accepted + [idx]; }
      if v == DeferredCooldown { deferred := deferred + [idx]; }
    }
    outcomes, accepted := Backfill(ranked, max, minGap, cooldown, outcomes, accepted, deferred);
  }

  lemma AnyCooling(ranked: seq<Candidate>, max: nat, minGap: nat, cooldown: nat, n: nat,
                   outcomes: seq<Verdict>, accepted: seq<nat>, deferred: seq<nat>)
    requires FirstPass(ranked, max, minGap, cooldown, n, outcomes, accepted, deferred) && n < |ranked|
    ensures Cooled(ranked, cooldown, outcomes, n) <==>
            exists k :: 0 <= k < |accepted| && Cooling(ranked[accepted[k]], ranked[n], cooldown)
  {
    if Cooled(ranked, cooldown, outcomes, n) {
      var a: nat :| a < n && outcomes[a] == Selected && Cooling(ranked[a], ranked[n], cooldown);
      assert a in accepted;
    }
    if k :| 0 <= k < |accepted| && Cooling(ranked[accepted[k]], ranked[n], cooldown) {
      assert accepted[k] in accepted;
    }
  }

  // ---- Second pass --------------------------------------------------------------------------

  ghost predicate SecondPass(ranked: seq<Candidate>, max: nat, minGap: nat, cooldown: nat, todo: seq<nat>,
                             outcomes: seq<Verdict>, accepted: seq<nat>)
  {
    && Settled(ranked, max, minGap, cooldown, outcomes, accepted)
    && Quota(outcomes, |ranked|)
    && (|accepted| < max ==> forall i: nat :: i < |ranked| ==> outcomes[i] != OverQuota)
    && Waiting(outcomes, todo)
  }

  lemma SecondPassStep(ranked: seq<Candidate>, max: nat, minGap: nat, cooldown: nat, todo: seq<nat>,
                       outcomes: seq<Verdict>, accepted: seq<nat>, v: Verdict)
    requires todo != [] && SecondPass(ranked, max, minGap, cooldown, todo, outcomes, accepted) && |accepted| < max
    requires v == SkippedGap || v == BackfilledCooldown
    requires v == SkippedGap <==> Crowded(ranked, minGap, outcomes, todo[0])
    ensures SecondPass(ranked, max, minGap, cooldown, todo[1..], outcomes[todo[0] := v],
                       if Accepted(v) then accepted + [todo[0]] else accepted)
  {
    var n := todo[0];
    assert outcomes[n] == DeferredCooldown by { assert n in todo; }
    if v == SkippedGap { CrowdedDisplaces(ranked, minGap, cooldown, outcomes, n); }
    SettledStep(ranked, max, minGap, cooldown, outcomes, accepted, n, v);
    WaitingLeaves(outcomes, todo, v);
    NoneOverQuota(outcomes, n, v);
  }

  lemma NoneOverQuota(outcomes: seq<Verdict>, n: nat, v: Verdict)
    requires n < |outcomes| && v != OverQuota && forall i: nat :: i < |outcomes| ==> outcomes[i] != OverQuota
    ensures var outcomes' := outcomes[n := v];
            Quota(outcomes', |outcomes|) && forall i: nat :: i < |outcomes| ==> outcomes'[i] != OverQuota
  {
  }

  ghost predicate NeverBackfilled(first: seq<Verdict>)
  {
    forall j :: 0 <= j < |first| ==> first[j] != BackfilledCooldown
  }

  // Before the postponed clusters of todo: all others have their final verdict.
  ghost predicate Refilling(ranked: seq<Candidate>, max: nat, minGap: nat, first: seq<Verdict>, todo: seq<nat>,
                            outcomes: seq<Verdict>)
  {
    && |outcomes| == |first| == |ranked|
    && (forall i: nat :: i < |ranked| && i !in todo ==>
        outcomes[i] == LastVerdict(ranked, max, minGap, first, outcomes[..i]))
    && (forall i: nat :: i < |ranked| && i in todo ==> outcomes[i] == first[i] == DeferredCooldown)
    && NoneSkipped(first, todo)
  }

  // The waiting clusters are in order of rank, and none after the next one is missing.
  ghost predicate NoneSkipped(first: seq<Verdict>, todo: seq<nat>)
  {
    && (forall j, k :: 0 <= j < k < |todo| ==> todo[j] < todo[k])
    && (forall i: nat :: todo != [] && todo[0] < i < |first| && i !in todo ==> first[i] != DeferredCooldown)
  }

  lemma NoneSkippedNext(first: seq<Verdict>, todo: seq<nat>)
    requires todo != [] && NoneSkipped(first, todo)
    ensures NoneSkipped(first, todo[1..])
  {
    var rest := todo[1..];
    assert todo == [todo[0]] + rest;
    forall i: nat | rest != [] && rest[0] < i < |first| && i !in rest ensures first[i] != DeferredCooldown {
      assert todo[0] < todo[1] == rest[0];
    }
  }

  // The clusters a postponed one is measured against.
  ghost predicate Against(first: seq<Verdict>, outcomes: seq<Verdict>, i: nat, accepted: seq<nat>)
    requires i <= |outcomes|
  {
    accepted == Places(first, Selected) + Places(outcomes[..i], BackfilledCooldown)
  }

  lemma {:induction false} NoPlaces(verdicts: seq<Verdict>, v: Verdict)
    requires forall i :: 0 <= i < |verdicts| ==> verdicts[i] != v
    ensures Places(verdicts, v) == []
  {
    if verdicts != [] { NoPlaces(verdicts[..|verdicts| - 1], v); }
  }

  lemma RefillStarts(ranked: seq<Candidate>, max: nat, minGap: nat, first: seq<Verdict>)
    requires |first| == |ranked| && NeverBackfilled(first)
    ensures Refilling(ranked, max, minGap, first, Places(first, DeferredCooldown), first)
  {
    var todo := Places(first, DeferredCooldown);
    PlacesExact(first, DeferredCooldown);
    forall i: nat | i < |ranked| && i !in todo ensures first[i] == LastVerdict(ranked, max, minGap, first, first[..i]) {
    }
  }

  lemma RefillKeeps(ranked: seq<Candidate>, max: nat, minGap: nat, first: seq<Verdict>, todo: seq<nat>,
                    outcomes: seq<Verdict>, v: Verdict, i: nat)
    requires todo != [] && todo[0] < |ranked| && Refilling(ranked, max, minGap, first, todo, outcomes)
    requires i < |ranked| && i !in todo
    ensures outcomes[i] == LastVerdict(ranked, max, minGap, first, outcomes[todo[0] := v][..i])
  {
    if i < todo[0] {
      assert outcomes[todo[0] := v][..i] == outcomes[..i];
    } else {
      assert first[i] != DeferredCooldown;
    }
  }

  lemma RefillStep(ranked: seq<Candidate>, max: nat, minGap: nat, first: seq<Verdict>, todo: seq<nat>,
                   outcomes: seq<Verdict>, v: Verdict)
    requires todo != [] && todo[0] < |ranked| && Refilling(ranked, max, minGap, first, todo, outcomes)
    requires v == LastVerdict(ranked, max, minGap, first, outcomes[..todo[0]])
    ensures Refilling(ranked, max, minGap, first, todo[1..], outcomes[todo[0] := v])
  {
    var n, rest, outcomes' := todo[0], todo[1..], outcomes[todo[0] := v];
    assert todo == [n] + rest;
    forall i: nat | i < |ranked| && i !in rest
      ensures outcomes'[i] == LastVerdict(ranked, max, minGap, first, outcomes'[..i])
    {
      if i == n {
        assert outcomes'[..i] == outcomes[..i];
      } else {
        RefillKeeps(ranked, max, minGap, first, todo, outcomes, v, i);
      }
    }
    NoneSkippedNext(first, todo);
  }

  // Nothing is backfilled between one postponed cluster and the next.
  lemma AgainstNext(first: seq<Verdict>, outcomes: seq<Verdict>, i: nat, j: nat, accepted: seq<nat>)
    requires i <= j <= |outcomes| && Against(first, outcomes, i, accepted)
    requires forall k :: i <= k < j ==> outcomes[k] != BackfilledCooldown
    ensures Against(first, outcomes, j, accepted)
    decreases j
  {
    if i < j {
      AgainstNext(first, outcomes, i, j - 1, accepted);
      assert outcomes[..j][..j - 1] == outcomes[..j - 1];
    }
  }

  lemma AgainstClose(ranked: seq<Candidate>, minGap: nat, first: seq<Verdict>, outcomes: seq<Verdict>, i: nat,
                     accepted: seq<nat>)
    requires i < |ranked| == |first| == |outcomes| && Against(first, outcomes, i, accepted)
    ensures forall k :: 0 <= k < |accepted| ==> accepted[k] < |ranked|
    ensures (exists k :: 0 <= k < |accepted| && TooClose(ranked[accepted[k]], ranked[i], minGap)) <==>
            CloseTo(ranked, minGap, first, Selected, i) || CloseTo(ranked, minGap, outcomes[..i], BackfilledCooldown, i)
  {
    var before := outcomes[..i];
    PlacesExact(first, Selected);
    PlacesExact(before, BackfilledCooldown);
    forall a: nat ensures a in accepted <==>
        (a < |first| && first[a] == Selected) || (a < i && before[a] == BackfilledCooldown) {
      assert a in accepted <==> a in Places(first, Selected) || a in Places(before, BackfilledCooldown);
    }
    forall k | 0 <= k < |accepted| ensures accepted[k] < |ranked| {
      assert accepted[k] in accepted;
    }
    if k :| 0 <= k < |accepted| && TooClose(ranked[accepted[k]], ranked[i], minGap) {
      assert accepted[k] in accepted;
    }
    if CloseTo(ranked, minGap, first, Selected, i) {
      var a: nat :| a < |first| && first[a] == Selected && TooClose(ranked[a], ranked[i], minGap);
      assert a in accepted;
    }
    if CloseTo(ranked, minGap, before, BackfilledCooldown, i) {
      var a: nat :| a < i && before[a] == BackfilledCooldown && TooClose(ranked[a], ranked[i], minGap);
      assert a in accepted;
    }
  }

  // Clusters between two postponed ones are not backfilled.
  lemma NoneBetween(ranked: seq<Candidate>, max: nat, minGap: nat, first: seq<Verdict>, todo: seq<nat>,
                    outcomes: seq<Verdict>, i: nat)
    requires Refilling(ranked, max, minGap, first, todo, outcomes) && NeverBackfilled(first)
    requires todo != [] && todo[0] <= i < |ranked|
    ensures outcomes[i] != BackfilledCooldown
  {
    assert todo[0] in todo;
  }

  lemma AgainstOne(first: seq<Verdict>, outcomes: seq<Verdict>, n: nat, accepted: seq<nat>, v: Verdict)
    requires n < |outcomes| && Against(first, outcomes, n, accepted)
    ensures Against(first, outcomes[n := v], n + 1, if v == BackfilledCooldown then accepted + [n] else accepted)
  {
    assert outcomes[n := v][..n + 1][..n] == outcomes[..n];
  }

  // One postponed cluster has had its second chance.
  lemma AgainstStep(ranked: seq<Candidate>, max: nat, minGap: nat, first: seq<Verdict>, todo: seq<nat>,
                    outcomes: seq<Verdict>, accepted: seq<nat>, v: Verdict)
    requires Refilling(ranked, max, minGap, first, todo, outcomes) && NeverBackfilled(first)
    requires todo != [] && todo[0] < |ranked| && Against(first, outcomes, todo[0], accepted)
    ensures Against(first, outcomes[todo[0] := v], |ranked|,
                    if v == BackfilledCooldown then accepted + [todo[0]] else accepted)
  {
    var n, outcomes' := todo[0], outcomes[todo[0] := v];
    var accepted' := if v == BackfilledCooldown then accepted + [n] else accepted;
    AgainstOne(first, outcomes, n, accepted, v);
    forall k | n + 1 <= k < |ranked| ensures outcomes'[k] != BackfilledCooldown {
      NoneBetween(ranked, max, minGap, first, todo, outcomes, k);
    }
    AgainstNext(first, outcomes', n + 1, |ranked|, accepted');
  }

  // Nothing is backfilled from the next postponed cluster on.
  lemma AgainstBack(ranked: seq<Candidate>, max: nat, minGap: nat, first: seq<Verdict>, todo: seq<nat>,
                    outcomes: seq<Verdict>, accepted: seq<nat>, i: nat)
    requires Refilling(ranked, max, minGap, first, todo, outcomes) && NeverBackfilled(first)
    requires todo != [] && todo[0] <= i <= |ranked| && Against(first, outcomes, |ranked|, accepted)
    ensures Against(first, outcomes, i, accepted)
    decreases |ranked| - i
  {
    forall k | i <= k < |ranked| ensures outcomes[k] != BackfilledCooldown {
      NoneBetween(ranked, max, minGap, first, todo, outcomes, k);
    }
    AgainstNext(first, outcomes, i, |ranked|, Places(first, Selected) + Places(outcomes[..i], BackfilledCooldown));
  }

  lemma {:induction false} PlacesAgree(a: seq<Verdict>, b: seq<Verdict>, v: Verdict)
    requires |a| == |b| && forall i :: 0 <= i < |a| ==> (a[i] == v <==> b[i] == v)
    ensures Places(a, v) == Places(b, v)
  {
    if a != [] { PlacesAgree(a[..|a| - 1], b[..|b| - 1], v); }
  }

  // Before the postponed clusters of todo: the second pass as its rule and its reasons have it.
  ghost predicate Refilled(ranked: seq<Candidate>, max: nat, minGap: nat, cooldown: nat, first: seq<Verdict>,
                           todo: seq<nat>, outcomes: seq<Verdict>, accepted: seq<nat>)
  {
    && SecondPass(ranked, max, minGap, cooldown, todo, outcomes, accepted)
    && Refilling(ranked, max, minGap, first, todo, outcomes)
    && NeverBackfilled(first) && Against(first, outcomes, |ranked|, accepted)
  }

  lemma RefilledNext(ranked: seq<Candidate>, max: nat, minGap: nat, cooldown: nat, first: seq<Verdict>,
                     todo: seq<nat>, outcomes: seq<Verdict>, accepted: seq<nat>, v: Verdict)
    requires Refilled(ranked, max, minGap, cooldown, first, todo, outcomes, accepted) && |accepted| < max
    requires todo != [] && v == (if Crowded(ranked, minGap, outcomes, todo[0]) then SkippedGap else BackfilledCooldown)
    ensures Refilled(ranked, max, minGap, cooldown, first, todo[1..], outcomes[todo[0] := v],
                     if v == BackfilledCooldown then accepted + [todo[0]] else accepted)
  {
    var idx := todo[0];
    assert idx in todo;
    AgainstBack(ranked, max, minGap, first, todo, outcomes, accepted, idx);
    LastByCrowd(ranked, max, minGap, cooldown, first, outcomes, accepted, idx, v);
    SecondPassStep(ranked, max, minGap, cooldown, todo, outcomes, accepted, v);
    RefillStep(ranked, max, minGap, first, todo, outcomes, v);
    AgainstStep(ranked, max, minGap, first, todo, outcomes, accepted, v);
  }

  lemma LastByCrowd(ranked: seq<Candidate>, max: nat, minGap: nat, cooldown: nat, first: seq<Verdict>,
                    outcomes: seq<Verdict>, accepted: seq<nat>, i: nat, v: Verdict)
    requires i < |ranked| == |first| == |outcomes| && first[i] == DeferredCooldown && |accepted| < max
    requires Against(first, outcomes, i, accepted) && Chosen(ranked, outcomes, accepted)
    requires v == if Crowded(ranked, minGap, outcomes, i) then SkippedGap else BackfilledCooldown
    ensures v == LastVerdict(ranked, max, minGap, first, outcomes[..i])
  {
    AgainstClose(ranked, minGap, first, outcomes, i, accepted);
    AnyClose(ranked, minGap, outcomes, accepted, i);
  }

  lemma RefillEnds(ranked: seq<Candidate>, max: nat, minGap: nat, cooldown: nat, first: seq<Verdict>, todo: seq<nat>,
                   outcomes: seq<Verdict>, accepted: seq<nat>)
    requires first == First(ranked, max, minGap, cooldown, |ranked|) && (todo != [] ==> |accepted| >= max)
    requires Refilled(ranked, max, minGap, cooldown, first, todo, outcomes, accepted)
    ensures ByRanking(ranked, max, minGap, cooldown, outcomes, accepted)
  {
    forall i: nat | i < |ranked| ensures outcomes[i] == LastVerdict(ranked, max, minGap, first, outcomes[..i]) {
      if i in todo { StillWaiting(ranked, max, minGap, cooldown, first, todo, outcomes, accepted, i); }
    }
    AgainstAll(first, outcomes, accepted);
    PlacesAgree(first, outcomes, Selected);
  }

  lemma StillWaiting(ranked: seq<Candidate>, max: nat, minGap: nat, cooldown: nat, first: seq<Verdict>, todo: seq<nat>,
                     outcomes: seq<Verdict>, accepted: seq<nat>, i: nat)
    requires Refilled(ranked, max, minGap, cooldown, first, todo, outcomes, accepted) && |accepted| >= max
    requires i < |ranked| && i in todo
    ensures outcomes[i] == LastVerdict(ranked, max, minGap, first, outcomes[..i])
  {
    AgainstBack(ranked, max, minGap, first, todo, outcomes, accepted, i);
  }

  lemma AgainstAll(first: seq<Verdict>, outcomes: seq<Verdict>, accepted: seq<nat>)
    requires Against(first, outcomes, |outcomes|, accepted)
    ensures accepted == Places(first, Selected) + Places(outcomes, BackfilledCooldown)
  {
    assert outcomes[..|outcomes|] == outcomes;
  }

  lemma RefilledStarts(ranked: seq<Candidate>, max: nat, minGap: nat, cooldown: nat,
                       first: seq<Verdict>, accepted: seq<nat>, deferred: seq<nat>)
    requires Judged(ranked, max, minGap, cooldown, |ranked|, first, accepted, deferred)
    ensures Refilled(ranked, max, minGap, cooldown, first, deferred, first, accepted)
    ensures first == First(ranked, max, minGap, cooldown, |ranked|)
  {
    assert first[..|ranked|] == first;
    RefillStarts(ranked, max, minGap, first);
    NoPlaces(first, BackfilledCooldown);
  }

  method Backfill(ranked: seq<Candidate>, max: nat, minGap: nat, cooldown: nat,
                  outcomes0: seq<Verdict>, accepted0: seq<nat>, deferred: seq<nat>)
    returns (outcomes: seq<Verdict>, accepted: seq<nat>)
    requires Judged(ranked, max, minGap, cooldown, |ranked|, outcomes0, accepted0, deferred)
    ensures Greedy(ranked, max, minGap, cooldown, outcomes, accepted)
    ensures ByRanking(ranked, max, minGap, cooldown, outcomes, accepted)
  {
    outcomes, accepted := outcomes0, accepted0;
    ghost var todo := deferred;
    RefilledStarts(ranked, max, minGap, cooldown, outcomes0, accepted0, deferred);
    for k := 0 to |deferred|
      invariant todo == deferred[k..]
      invariant Refilled(ranked, max, minGap, cooldown, outcomes0, todo, outcomes, accepted)
    {
      if |accepted| >= max {
        break;
      }
      var idx := deferred[k];
      assert todo[0] == idx && todo[1..] == deferred[k + 1..];
      CrowdedAt(ranked, max, minGap, cooldown, outcomes0, todo, outcomes, accepted);
      if exists j :: 0 <= j < |accepted| && TooClose(ranked[accepted[j]], ranked[idx], minGap) {
        RefilledNext(ranked, max, minGap, cooldown, outcomes0, todo, outcomes, accepted, SkippedGap);
        outcomes := outcomes[idx := SkippedGap];
        todo := todo[1..];
        continue;
      }
      RefilledNext(ranked, max, minGap, cooldown, outcomes0, todo, outcomes, accepted, BackfilledCooldown);
      outcomes := outcomes[idx := BackfilledCooldown];
      accepted := accepted + [idx];
      todo := todo[1..];
    }
    RefillEnds(ranked, max, minGap, cooldown, outcomes0, todo, outcomes, accepted);
    EndsGreedy(ranked, max, minGap, cooldown, todo, outcomes, accepted);
  }

  lemma CrowdedAt(ranked: seq<Candidate>, max: nat, minGap: nat, cooldown: nat, first: seq<Verdict>,
                  todo: seq<nat>, outcomes: seq<Verdict>, accepted: seq<nat>)
    requires Refilled(ranked, max, minGap, cooldown, first, todo, outcomes, accepted) && todo != []
    ensures todo[0] < |ranked| == |outcomes| && forall k :: 0 <= k < |accepted| ==> accepted[k] < |ranked|
    ensures Crowded(ranked, minGap, outcomes, todo[0]) <==>
            exists k :: 0 <= k < |accepted| && TooClose(ranked[accepted[k]], ranked[todo[0]], minGap)
  {
    AnyClose(ranked, minGap, outcomes, accepted, todo[0]);
  }

  lemma EndsGreedy(ranked: seq<Candidate>, max: nat, minGap: nat, cooldown: nat, todo: seq<nat>,
                   outcomes: seq<Verdict>, accepted: seq<nat>)
    requires SecondPass(ranked, max, minGap, cooldown, todo, outcomes, accepted) && (todo != [] ==> |accepted| >= max)
    ensures Greedy(ranked, max, minGap, cooldown, outcomes, accepted)
  {
  }

  // ---- The selection ------------------------------------------------------------------------

  ghost predicate AllPlaced(clusters: seq<Cluster>)
  {
    forall c :: 0 <= c < |clusters| ==> Placed(clusters[c])
  }

  function CandidateOf(c: Cluster): Candidate
    requires c.start <= c.end && c.members != []
    requires forall k :: 0 <= k < |c.members| ==> c.members[k].start < c.members[k].end
  {
    Candidate(ShotCs(c), c.end)
  }

  // What the choice reads off the clusters.
  ghost predicate ReadOff(clusters: seq<Cluster>, candidates: seq<Candidate>)
  {
    && |candidates| == |clusters|
    && forall c :: 0 <= c < |clusters| ==> Placed(clusters[c]) && candidates[c] == CandidateOf(clusters[c])
  }

  method CandidatesOf(clusters: seq<Cluster>) returns (candidates: seq<Candidate>)
    requires AllPlaced(clusters)
    ensures ReadOff(clusters, candidates)
  {
    candidates := [];
    for i := 0 to |clusters|
      invariant |candidates| == i
      invariant forall j :: 0 <= j < i ==> Placed(clusters[j]) && candidates[j] == CandidateOf(clusters[j])
    {
      assert Placed(clusters[i]);
      candidates := candidates + [CandidateOf(clusters[i])];
    }
  }

  lemma SortedPlaced(clusters: seq<Cluster>)
    requires AllPlaced(clusters)
    ensures var ranked := StableSort(clusters, Ahead);
            AllPlaced(ranked) && Sorted(ranked, Ahead) && multiset(ranked) == multiset(clusters)
  {
    AheadTotal();
    StableSortCorrect(clusters, Ahead);
    var ranked := StableSort(clusters, Ahead);
    SameElements(clusters, ranked);
    forall c | 0 <= c < |ranked| ensures Placed(ranked[c]) {
      assert ranked[c] in ranked;
    }
  }

  method RankedClusters(events: seq<Event>)
      returns (ranked: seq<Cluster>, ghost clusters: seq<Cluster>, ghost cuts: seq<nat>)
    ensures Typesetting(events, TYPESET_JOIN_GAP_CS, clusters, cuts) && multiset(ranked) == multiset(clusters)
    ensures AllPlaced(ranked) && Sorted(ranked, Ahead)
  {
    var found := TypesetClusters(events, TYPESET_JOIN_GAP_CS);
    cuts :| Typesetting(events, TYPESET_JOIN_GAP_CS, found, cuts);
    clusters := found;
    SortedPlaced(found);
    ranked := StableSort(found, Ahead);
  }

  function ShotsOf(ranked: seq<Candidate>, accepted: seq<nat>): seq<nat>
    requires forall k :: 0 <= k < |accepted| ==> accepted[k] < |ranked|
  {
    seq(|accepted|, k requires 0 <= k < |accepted| => ranked[accepted[k]].shot)
  }

  // The shots are those of the selected and backfilled clusters, in time order.
  ghost predicate Shot(candidates: seq<Candidate>, accepted: seq<nat>, shots: seq<nat>)
  {
    && (forall k :: 0 <= k < |accepted| ==> accepted[k] < |candidates|)
    && |shots| == |accepted| && multiset(shots) == multiset(ShotsOf(candidates, accepted))
    && (forall i, j :: 0 <= i < j < |shots| ==> shots[i] <= shots[j])
  }

  method SelectShots(candidates: seq<Candidate>, max: nat, minGap: nat, cooldown: nat)
    returns (shots: seq<nat>, outcomes: seq<Verdict>, ghost accepted: seq<nat>)
    ensures Greedy(candidates, max, minGap, cooldown, outcomes, accepted)
    ensures ByRanking(candidates, max, minGap, cooldown, outcomes, accepted)
    ensures Shot(candidates, accepted, shots) && |shots| <= max
  {
    var chosen;
    outcomes, chosen := Choose(candidates, max, minGap, cooldown);
    accepted := chosen;
    shots := InTimeOrder(ShotsOf(candidates, chosen));
  }

  // l may stand before r: no font lines behind font lines; when they agree in that, drawings do not
  // rise, then lines, then tags, then the time from start to end, and then starts do not fall.
  ghost predicate MayPrecede(l: Cluster, r: Cluster)
  {
    && (r.fnLines > 0 ==> l.fnLines > 0)
    && ((l.fnLines > 0 <==> r.fnLines > 0) ==>
          && r.drawingLines <= l.drawingLines
          && (r.drawingLines == l.drawingLines ==>
                && r.lines <= l.lines
                && (r.lines == l.lines ==>
                      && r.maxTags <= l.maxTags
                      && (r.maxTags == l.maxTags ==>
                            && r.end - r.start <= l.end - l.start
                            && (r.end - r.start == l.end - l.start ==> l.start <= r.start)))))
  }

  // Agree in all of this but the start.
  ghost predicate Tie(l: Cluster, r: Cluster)
  {
    && (l.fnLines > 0 <==> r.fnLines > 0) && l.drawingLines == r.drawingLines && l.lines == r.lines
    && l.maxTags == r.maxTags && l.end - l.start == r.end - r.start
  }

  // The order of the ranking, ranks that are equal exactly for ties, and candidates that carry the
  // end of their cluster and a shot placed by the rule.
  ghost predicate RankedByRule(ranked: seq<Cluster>, ranks: seq<nat>, candidates: seq<Candidate>)
  {
    && |ranks| == |candidates| == |ranked|
    && (forall i, j :: 0 <= i < j < |ranked| ==> MayPrecede(ranked[i], ranked[j]))
    && (forall i, j :: 0 <= i < j < |ranked| ==> (ranks[i] == ranks[j] <==> Tie(ranked[i], ranked[j])))
    && forall k :: 0 <= k < |ranked| ==>
         && Placement.Counted(ranked[k]) && Placement.ShotRule(ranked[k], candidates[k].shot)
         && candidates[k].end == ranked[k].end
  }

  lemma AheadPrecedes(l: Cluster, r: Cluster)
    requires l.start <= l.end && r.start <= r.end
    ensures Ahead(l, r) <==> MayPrecede(l, r)
    ensures SameRank(l, r) <==> Tie(l, r)
  {
  }

  lemma RankingRules(ranked: seq<Cluster>, ranks: seq<nat>, candidates: seq<Candidate>)
    requires AllPlaced(ranked) && Sorted(ranked, Ahead) && |ranks| == |ranked| && Ranked(ranked, ranks)
    requires ReadOff(ranked, candidates)
    ensures RankedByRule(ranked, ranks, candidates)
  {
    forall i, j | 0 <= i < j < |ranked|
      ensures MayPrecede(ranked[i], ranked[j]) && (ranks[i] == ranks[j] <==> Tie(ranked[i], ranked[j]))
    {
      assert Placed(ranked[i]) && Placed(ranked[j]);
      AheadPrecedes(ranked[i], ranked[j]);
    }
    forall k | 0 <= k < |ranked|
      ensures Placement.Counted(ranked[k]) && Placement.ShotRule(ranked[k], candidates[k].shot)
      ensures candidates[k].end == ranked[k].end
    {
      Placement.SummaryCounts(ranked[k]);
      Placement.ShotByRule(ranked[k]);
    }
  }

  // Any two shots are at least the gap apart.
  ghost predicate Spaced(shots: seq<nat>, minGap: nat)
  {
    forall i, j :: 0 <= i < j < |shots| ==> shots[j] - shots[i] >= minGap
  }

  lemma ShotsSpaced(ranked: seq<Candidate>, minGap: nat, accepted: seq<nat>, shots: seq<nat>)
    requires Shot(ranked, accepted, shots) && Apart(ranked, minGap, accepted)
    requires forall j, k :: 0 <= j < k < |accepted| ==> accepted[j] != accepted[k]
    ensures Spaced(shots, minGap)
  {
    var taken := ShotsOf(ranked, accepted);
    if minGap > 0 {
      forall j, k | 0 <= j < k < |taken| ensures taken[j] != taken[k] {
        assert accepted[j] in accepted && accepted[k] in accepted;
        assert !TooClose(ranked[accepted[j]], ranked[accepted[k]], minGap);
      }
      PermutedDistinct(taken, shots);
      SameElements(taken, shots);
      forall i, j | 0 <= i < j < |shots| ensures shots[j] - shots[i] >= minGap {
        assert shots[i] in shots && shots[j] in shots;
        ApartOf(ranked, minGap, accepted, shots[i], shots[j]);
      }
    }
  }

  lemma ApartOf(ranked: seq<Candidate>, minGap: nat, accepted: seq<nat>, x: nat, y: nat)
    requires forall k :: 0 <= k < |accepted| ==> accepted[k] < |ranked|
    requires Apart(ranked, minGap, accepted) && x < y
    requires x in ShotsOf(ranked, accepted) && y in ShotsOf(ranked, accepted)
    ensures y - x >= minGap
  {
    var a :| 0 <= a < |accepted| && ranked[accepted[a]].shot == x;
    var b :| 0 <= b < |accepted| && ranked[accepted[b]].shot == y;
    assert accepted[a] in accepted && accepted[b] in accepted;
    assert !TooClose(ranked[accepted[a]], ranked[accepted[b]], minGap);
  }

  method SelectClusters(events: seq<Event>, max: nat, minGap: nat, cooldown: nat)
    returns (shots: seq<nat>, ranked: seq<Cluster>, ranks: seq<nat>, outcomes: seq<Verdict>,
             ghost clusters: seq<Cluster>, ghost cuts: seq<nat>, ghost candidates: seq<Candidate>,
                 ghost accepted: seq<nat>)
    ensures Typesetting(events, TYPESET_JOIN_GAP_CS, clusters, cuts) && multiset(ranked) == multiset(clusters)
    ensures |candidates| == |ranked| == |ranks| && AllPlaced(ranked) && Sorted(ranked, Ahead) && Ranked(ranked, ranks)
    ensures ReadOff(ranked, candidates)
    ensures Greedy(candidates, max, minGap, cooldown, outcomes, accepted)
    ensures ByRanking(candidates, max, minGap, cooldown, outcomes, accepted)
    ensures RankedByRule(ranked, ranks, candidates)
    ensures Shot(candidates, accepted, shots) && |shots| <= max && Spaced(shots, minGap)
  {
    ranked, clusters, cuts := RankedClusters(events);
    ranks := DenseRanks(ranked);
    var cands := CandidatesOf(ranked);
    candidates := cands;
    RankingRules(ranked, ranks, cands);
    shots, outcomes, accepted := SelectShots(cands, max, minGap, cooldown);
    ShotsSpaced(cands, minGap, accepted, shots);
  }

  method InTimeOrder(shots: seq<nat>) returns (sorted: seq<nat>)
    ensures multiset(sorted) == multiset(shots) && |sorted| == |shots|
    ensures forall i, j :: 0 <= i < j < |sorted| ==> sorted[i] <= sorted[j]
  {
    var le := (a: nat, b: nat) => a <= b;
    sorted := StableSort(shots, le);
    StableSortCorrect(shots, le);
    forall i, j | 0 <= i < j < |sorted| ensures sorted[i] <= sorted[j] {
      assert le(sorted[i], sorted[j]);
    }
  }

  // ---- What a greedy choice is worth --------------------------------------------------------

  // When the quota is not met, every rejected cluster is within the gap of an accepted one.
  lemma Maximal(ranked: seq<Candidate>, max: nat, minGap: nat, cooldown: nat, outcomes: seq<Verdict>,
                accepted: seq<nat>, i: nat)
    requires Greedy(ranked, max, minGap, cooldown, outcomes, accepted) && |accepted| < max
    requires i < |ranked| && i !in accepted
    ensures outcomes[i] == SkippedGap
    ensures exists a: nat :: a in accepted && a < |ranked| && TooClose(ranked[a], ranked[i], minGap)
  {
    assert Displaced(ranked, minGap, cooldown, outcomes, i);
    var a: nat :| a < |ranked| && Accepted(outcomes[a]) && TooClose(ranked[a], ranked[i], minGap);
    assert a in accepted;
  }

  // A selected shot is never inside the cooldown of a better-ranked selected cluster.
  lemma SelectedIsCool(ranked: seq<Candidate>, max: nat, minGap: nat, cooldown: nat, outcomes: seq<Verdict>,
                       accepted: seq<nat>, a: nat, b: nat)
    requires Greedy(ranked, max, minGap, cooldown, outcomes, accepted)
    requires a < b < |ranked| && outcomes[a] == outcomes[b] == Selected
    ensures ranked[b].shot <= ranked[a].end || ranked[a].end + cooldown < ranked[b].shot
  {
    assert !Cooled(ranked, cooldown, outcomes, b);
  }

  // The best-ranked cluster is selected as soon as one shot is wanted.
  lemma BestIsSelected(ranked: seq<Candidate>, max: nat, minGap: nat, cooldown: nat, outcomes: seq<Verdict>,
                       accepted: seq<nat>)
    requires Greedy(ranked, max, minGap, cooldown, outcomes, accepted) && ranked != [] && max > 0
    ensures outcomes[0] == Selected
  {
    if outcomes[0] == OverQuota {
      assert |accepted| == max;
      assert Accepted(outcomes[accepted[0]]) by { assert accepted[0] in accepted; }
    }
  }

  // A cluster in the cooldown of no better one loses its place to better-ranked selected ones
  // only: to one too close, or to as many as there are places.
  lemma NotCooledLosesToBetter(ranked: seq<Candidate>, max: nat, minGap: nat, cooldown: nat,
                               outcomes: seq<Verdict>, accepted: seq<nat>, i: nat)
    requires Greedy(ranked, max, minGap, cooldown, outcomes, accepted) && i < |ranked| && i !in accepted
    requires forall a: nat :: a < i ==> !Cooling(ranked[a], ranked[i], cooldown)
    ensures || (exists a: nat :: a < i && outcomes[a] == Selected && TooClose(ranked[a], ranked[i], minGap))
            || (|accepted| == max && forall a :: a in accepted ==> a < i)
  {
    if outcomes[i] == SkippedGap {
      assert Displaced(ranked, minGap, cooldown, outcomes, i);
    } else {
      assert outcomes[i] == OverQuota;
      forall a | a in accepted ensures a < i {
        assert Accepted(outcomes[a]);
      }
    }
  }

  // Rejected for closeness, though no better-ranked accepted cluster is too close.
  ghost predicate LosesToWorse(ranked: seq<Candidate>, minGap: nat, outcomes: seq<Verdict>, i: nat)
    requires i < |ranked| == |outcomes|
  {
    outcomes[i] == SkippedGap && forall a: nat :: a < i && Accepted(outcomes[a]) ==>
        !TooClose(ranked[a], ranked[i], minGap)
  }

  // What the better clusters leave to cluster i: a place, and a postponement. It is free of
  // the gap of every better selected cluster and in the cooldown of one.
  ghost predicate Postponed(ranked: seq<Candidate>, max: nat, minGap: nat, cooldown: nat, i: nat)
    requires i < |ranked|
  {
    var before := First(ranked, max, minGap, cooldown, i);
    && |Places(before, Selected)| < max
    && !CloseTo(ranked, minGap, before, Selected, i) && CooledBy(ranked, cooldown, before, i)
  }

  // A cluster loses its place to worse ones only if and only if it was postponed, a worse
  // cluster of the first pass is too close, and its second chance comes while a place is left
  // and no better backfilled cluster is too close.
  lemma LosesToWorseExactly(ranked: seq<Candidate>, max: nat, minGap: nat, cooldown: nat, outcomes: seq<Verdict>,
                            i: nat)
    requires Final(ranked, max, minGap, cooldown, outcomes) && i < |ranked|
    ensures var first := First(ranked, max, minGap, cooldown, |ranked|);
            var better := Settle(ranked, max, minGap, first, i);
            LosesToWorse(ranked, minGap, outcomes, i) <==>
              && Postponed(ranked, max, minGap, cooldown, i)
              && CloseTo(ranked, minGap, first, Selected, i)
              && |Places(first, Selected)| + |Places(better, BackfilledCooldown)| < max
              && !CloseTo(ranked, minGap, better, BackfilledCooldown, i)
  {
    var n := |ranked|;
    var first := First(ranked, max, minGap, cooldown, n);
    FirstPrefix(ranked, max, minGap, cooldown, n, i);
    FirstNeverBackfills(ranked, max, minGap, cooldown, n);
    FinalIsSettled(ranked, max, minGap, first, outcomes, i);
    assert outcomes[i] == LastVerdict(ranked, max, minGap, first, outcomes[..i]);
    BetterAccepted(ranked, max, minGap, cooldown, outcomes, first, i);
  }

  lemma {:induction false} FirstNeverBackfills(ranked: seq<Candidate>, max: nat, minGap: nat, cooldown: nat, n: nat)
    requires n <= |ranked|
    ensures NeverBackfilled(First(ranked, max, minGap, cooldown, n))
  {
    if n > 0 { FirstNeverBackfills(ranked, max, minGap, cooldown, n - 1); }
  }

  // The better accepted clusters are those selected or backfilled before i.
  lemma BetterAccepted(ranked: seq<Candidate>, max: nat, minGap: nat, cooldown: nat, outcomes: seq<Verdict>,
                       first: seq<Verdict>, i: nat)
    requires Final(ranked, max, minGap, cooldown, outcomes) && i < |ranked|
    requires first == First(ranked, max, minGap, cooldown, |ranked|) && NeverBackfilled(first)
    ensures (exists a: nat :: a < i && Accepted(outcomes[a]) && TooClose(ranked[a], ranked[i], minGap)) <==>
            || CloseTo(ranked, minGap, first[..i], Selected, i)
            || CloseTo(ranked, minGap, outcomes[..i], BackfilledCooldown, i)
  {
    forall a: nat | a < i ensures outcomes[a] == Selected <==> first[..i][a] == Selected {
      assert outcomes[a] == LastVerdict(ranked, max, minGap, first, outcomes[..a]);
    }
    if CloseTo(ranked, minGap, first[..i], Selected, i) {
      var a: nat :| a < i && first[..i][a] == Selected && TooClose(ranked[a], ranked[i], minGap);
      assert Accepted(outcomes[a]);
    }
    if CloseTo(ranked, minGap, outcomes[..i], BackfilledCooldown, i) {
      var a: nat :| a < i && outcomes[..i][a] == BackfilledCooldown && TooClose(ranked[a], ranked[i], minGap);
      assert Accepted(outcomes[a]);
    }
    if a: nat :| a < i && Accepted(outcomes[a]) && TooClose(ranked[a], ranked[i], minGap) {
      assert first[..i][a] == Selected || outcomes[..i][a] == BackfilledCooldown;
    }
  }

  // ---- A run in which it happens ------------------------------------------------------------

  // Three plain lines, each more than the join gap after the one before.
  function Lines(): seq<Event>
  {
    [Line(0, 3000), Line(3101, 3301), Line(3402, 3502)]
  }

  function Line(start: nat, end: nat): Event
  {
    Event(start, end, false, false, 0)
  }

  // What the choice reads off their clusters, longest first.
  function ThreeCandidates(): seq<Candidate>
  {
    [Candidate(1500, 3000), Candidate(3201, 3301), Candidate(3452, 3502)]
  }

  // A line without drawings and tags.
  predicate Bare(e: Event)
  {
    e.start + 1 < e.end && !e.hasFn && !e.hasDrawing && e.tagCount == 0
  }

  lemma BarePlaced(e: Event)
    requires Bare(e)
    ensures Placed(Alone(e)) && PlacedFrom(Alone(e), Alone(e))
    ensures CandidateOf(Alone(e)) == Candidate(e.start + (e.end - e.start) / 2, e.end)
  {
    AloneSummary(e);
    assert Alone(e).members[0] == e;
  }

  lemma BareReadOff(lines: seq<Event>, candidates: seq<Candidate>)
    requires |candidates| == |lines| && forall i :: 0 <= i < |lines| ==> Bare(lines[i])
    requires forall i :: 0 <= i < |lines| ==>
               candidates[i] == Candidate(lines[i].start + (lines[i].end - lines[i].start) / 2, lines[i].end)
    ensures ReadOff(AllAlone(lines), candidates) && AllPlaced(AllAlone(lines))
  {
    forall c | 0 <= c < |lines|
      ensures Placed(AllAlone(lines)[c]) && candidates[c] == CandidateOf(AllAlone(lines)[c])
    {
      BarePlaced(lines[c]);
    }
  }

  lemma BareTimed(lines: seq<Event>)
    requires forall i :: 0 <= i < |lines| ==> Bare(lines[i])
    ensures forall i :: 0 <= i < |lines| ==> Timed(lines[i])
  {
  }

  lemma BareTypeset(lines: seq<Event>)
    requires forall i :: 0 <= i < |lines| ==> Bare(lines[i])
    requires forall i :: 0 < i < |lines| ==> lines[i].start > lines[i - 1].end + TYPESET_JOIN_GAP_CS
    requires Sorted(lines, Earlier)
    ensures Typesetting(lines, TYPESET_JOIN_GAP_CS, AllAlone(lines), Upto(|lines| + 1))
  {
    var clusters := AllAlone(lines);
    forall c | 0 <= c < |clusters| ensures PlacedFrom(clusters[c], clusters[c]) {
      BarePlaced(lines[c]);
    }
    BareTimed(lines);
    LonelyCandidates(lines, TYPESET_JOIN_GAP_CS);
    GroupsTypeset(lines, TYPESET_JOIN_GAP_CS, clusters, clusters, Upto(|lines| + 1));
  }

  lemma LongestFirst(lines: seq<Event>)
    requires forall i :: 0 <= i < |lines| ==> Bare(lines[i])
    requires forall i, j :: 0 <= i < j < |lines| ==> lines[i].end - lines[i].start > lines[j].end - lines[j].start
    ensures Sorted(AllAlone(lines), Ahead)
  {
  }

  // Short lines one after the other, each shorter than the one before, are read off as expected.
  lemma ShorterAndShorter(lines: seq<Event>, candidates: seq<Candidate>)
    requires |candidates| == |lines| && forall i :: 0 <= i < |lines| ==> Bare(lines[i])
    requires forall i :: 0 <= i < |lines| ==>
               candidates[i] == Candidate(lines[i].start + (lines[i].end - lines[i].start) / 2, lines[i].end)
    requires forall i :: 0 < i < |lines| ==> lines[i].start > lines[i - 1].end + TYPESET_JOIN_GAP_CS
    requires Sorted(lines, Earlier)
    requires forall i, j :: 0 <= i < j < |lines| ==> lines[i].end - lines[i].start > lines[j].end - lines[j].start
    ensures exists cuts :: Typesetting(lines, TYPESET_JOIN_GAP_CS, AllAlone(lines), cuts)
    ensures Sorted(AllAlone(lines), Ahead) && ReadOff(AllAlone(lines), candidates)
  {
    BareTypeset(lines);
    BareReadOff(lines, candidates);
    LongestFirst(lines);
  }

  // With a gap of ten seconds and a cooldown of three, the second cluster is in the cooldown of
  // the first, the third outside both its gap and its cooldown, and within the gap of the second.
  // So the second loses its place to the third, which is ranked behind it.
  lemma WorseShotDisplaces(outcomes: seq<Verdict>)
    ensures exists cuts :: Typesetting(Lines(), TYPESET_JOIN_GAP_CS, AllAlone(Lines()), cuts)
    ensures Sorted(AllAlone(Lines()), Ahead) && ReadOff(AllAlone(Lines()), ThreeCandidates())
    ensures Final(ThreeCandidates(), 3, 1000, 300, outcomes) <==> outcomes == [Selected, SkippedGap, Selected]
    ensures LosesToWorse(ThreeCandidates(), 1000, [Selected, SkippedGap, Selected], 1)
  {
    ShorterAndShorter(Lines(), ThreeCandidates());
    ThreeFinal(outcomes);
  }

  lemma ThreeFinal(outcomes: seq<Verdict>)
    ensures Final(ThreeCandidates(), 3, 1000, 300, outcomes) <==> outcomes == [Selected, SkippedGap, Selected]
  {
    var ranked, first := ThreeCandidates(), [Selected, DeferredCooldown, Selected];
    ThreeJudged();
    NoPlaces([Selected], BackfilledCooldown);
    TwoSelected(first);
    assert CloseTo(ranked, 1000, first, Selected, 1) by { assert TooClose(ranked[2], ranked[1], 1000); }
    if |outcomes| == 3 {
      assert LastVerdict(ranked, 3, 1000, first, outcomes[..0]) == LastVerdict(ranked, 3, 1000, first, outcomes[..2])
             == Selected;
      assert outcomes[0] == Selected ==> outcomes[..1] == [Selected];
      assert outcomes[0] == Selected ==> LastVerdict(ranked, 3, 1000, first, outcomes[..1]) == SkippedGap;
    }
  }

  lemma TwoSelected(first: seq<Verdict>)
    requires first == [Selected, DeferredCooldown, Selected]
    ensures |Places(first[..1], Selected)| == |Places(first[..2], Selected)| == 1 && |Places(first, Selected)| == 2
  {
    assert first[..1][..0] == [] && first[..2][..1] == first[..1] && first[..3][..2] == first[..2]
           && first[..3] == first;
  }

  lemma ThreeJudged()
    ensures First(ThreeCandidates(), 3, 1000, 300, 3) == [Selected, DeferredCooldown, Selected]
  {
    var ranked, first := ThreeCandidates(), [Selected, DeferredCooldown, Selected];
    TwoSelected(first);
    assert NextVerdict(ranked, 3, 1000, 300, []) == Selected;
    assert First(ranked, 3, 1000, 300, 1) == first[..1] by { assert First(ranked, 3, 1000, 300, 0) == []; }
    assert CooledBy(ranked, 300, first[..1], 1) by { assert Cooling(ranked[0], ranked[1], 300); }
    assert NextVerdict(ranked, 3, 1000, 300, first[..1]) == DeferredCooldown;
    assert First(ranked, 3, 1000, 300, 2) == first[..2];
    assert NextVerdict(ranked, 3, 1000, 300, first[..2]) == Selected;
  }

  // The number of shots is the number of selected plus backfilled verdicts.
  lemma ShotsMatchVerdicts(ranked: seq<Candidate>, outcomes: seq<Verdict>, accepted: seq<nat>)
    requires |outcomes| == |ranked| && Chosen(ranked, outcomes, accepted)
    ensures |accepted| == multiset(outcomes)[Selected] + multiset(outcomes)[BackfilledCooldown]
  {
    Flood.DistinctSize(accepted);
    assert Flood.Members(accepted) == AcceptedOnes(outcomes);
    CountAccepted(outcomes);
  }

  ghost function AcceptedOnes(outcomes: seq<Verdict>): set<nat>
  {
    set i: nat | i < |outcomes| && Accepted(outcomes[i])
  }

  lemma {:induction false} CountAccepted(outcomes: seq<Verdict>)
    ensures |AcceptedOnes(outcomes)| == multiset(outcomes)[Selected] + multiset(outcomes)[BackfilledCooldown]
  {
    if outcomes != [] {
      var n := |outcomes| - 1;
      CountAccepted(outcomes[..n]);
      assert outcomes == outcomes[..n] + [outcomes[n]];
      if Accepted(outcomes[n]) {
        assert AcceptedOnes(outcomes) == AcceptedOnes(outcomes[..n]) + {n};
      } else {
        assert AcceptedOnes(outcomes) == AcceptedOnes(outcomes[..n]);
      }
    }
  }
}

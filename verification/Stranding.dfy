// When forwarding goes wrong, exactly: which turn of the pass makes a chain of two, and which
// terminal report leaves a forwarded job without its parent. No condition on keys is assumed.
module Stranding {
  import opened Wrappers
  import opened Jobs
  import opened QueueFacts
  import opened Links
  import opened Forwards

  // ---- Chains -------------------------------------------------------------------------------

  // No queued job is forwarded to a forwarded one.
  ghost predicate Shallow(queue: seq<Job>)
  {
    forall j, k :: j in queue && k in queue && j.forwardParent == Some(k.id) ==> k.forwardParent.None?
  }

  ghost predicate HasFollower(queue: seq<Job>, id: nat)
  {
    exists j :: j in queue && j.forwardParent == Some(id)
  }

  // The turn of the pass at which the job is forwarded.
  predicate Yields(j: Job, c: Circumstance, p: Pass)
  {
    && WantsEncoder(j) && !j.dispatched && !c.cancelMarked
    && var parent := FindParent(p.parents, j.forwardKeys);
       parent.Some? && parent.value.id != j.id
  }

  lemma YieldsExactly(j: Job, c: Circumstance, p: Pass)
    ensures var (j', p') := Advance(j, c, p);
            && (Yields(j, c, p) ==> MakesLink(j, j', p, p'))
            && (!Yields(j, c, p) ==> Kept(j, j'))
  {
    AdvanceLinks(j, c, p);
    if WantsEncoder(j) { AdvanceEncodes(j, c, p); }
  }

  lemma KeptStaysShallow(queue: seq<Job>, i: nat, j: Job)
    requires UniqueIds(queue) && i < |queue| && Shallow(queue) && Kept(queue[i], j)
    ensures Shallow(queue[i := j])
  {
    DescendsUpdate(queue, i, j);
    forall a', b' | a' in queue[i := j] && b' in queue[i := j] && a'.forwardParent == Some(b'.id)
      ensures b'.forwardParent.None?
    {
      var a :| a in queue && Kept(a, a');
      var b :| b in queue && Kept(b, b');
    }
  }

  // A new link to a job that is not forwarded makes a chain if and only if somebody follows
  // the job that is linked.
  lemma LinkMakesChain(queue: seq<Job>, i: nat, j: Job, k: nat)
    requires UniqueIds(queue) && i < |queue| && k < |queue| && Shallow(queue) && queue[i].forwardParent.None?
    requires j.id == queue[i].id && j.forwardParent == Some(queue[k].id)
    requires queue[k].forwardParent.None? && queue[k].id != j.id
    ensures Shallow(queue[i := j]) <==> !HasFollower(queue, j.id)
  {
    var queue' := queue[i := j];
    UpdateMembers(queue, i, j);
    assert j == queue'[i] && queue[k] in queue;
    if HasFollower(queue, j.id) {
      var f :| f in queue && f.forwardParent == Some(j.id);
      assert queue[i] in queue && f in queue';
    } else {
      forall a, b | a in queue' && b in queue' && a.forwardParent == Some(b.id) ensures b.forwardParent.None? {
        if a == j { SameIdSameJob(queue', b, queue'[k]); }
      }
    }
  }

  lemma ChainMadeExactly(queue: seq<Job>, i: nat, c: Circumstance, p: Pass)
    requires UniqueIds(queue) && i < |queue| && Shallow(queue) && OffersHold(queue, i, p.parents)
    ensures Shallow(queue[i := Advance(queue[i], c, p).0])
            <==> !(Yields(queue[i], c, p) && HasFollower(queue, queue[i].id))
  {
    var (j, p') := Advance(queue[i], c, p);
    YieldsExactly(queue[i], c, p);
    if Yields(queue[i], c, p) {
      var key :| key in queue[i].forwardKeys && key in p.parents && j.forwardParent == Some(p.parents[key].id)
                 && p.parents[key].id != queue[i].id;
      var k: nat :| k < |queue| && OffersAt(queue, i, key, p.parents[key].id, k);
      LinkMakesChain(queue, i, j, k);
    } else {
      KeptStaysShallow(queue, i, j);
    }
  }

  // ---- Orphans ------------------------------------------------------------------------------

  // A job whose parent was queued before is still queued without it.
  ghost predicate Strands(queue: seq<Job>, queue': seq<Job>)
  {
    exists j', k :: j' in queue' && k in queue && j'.forwardParent == Some(k.id) && !HasId(queue', k.id)
  }

  // Somebody who stays follows somebody who leaves.
  ghost predicate Cuts(queue: seq<Job>, leaves: Job -> bool)
  {
    exists j, k :: j in queue && k in queue && j.forwardParent == Some(k.id) && leaves(k) && !leaves(j)
  }

  ghost predicate LeavesExactly(queue: seq<Job>, queue': seq<Job>, leaves: Job -> bool)
  {
    Descends(queue, queue') && forall j :: j in queue ==> (HasId(queue', j.id) <==> !leaves(j))
  }

  lemma StrandsOnlyIfCuts(queue: seq<Job>, queue': seq<Job>, leaves: Job -> bool)
    requires LeavesExactly(queue, queue', leaves) && Strands(queue, queue')
    ensures Cuts(queue, leaves)
  {
    var j', k :| j' in queue' && k in queue && j'.forwardParent == Some(k.id) && !HasId(queue', k.id);
    var j :| j in queue && Kept(j, j');
    assert HasId(queue', j.id);
  }

  lemma StrandsIfCuts(queue: seq<Job>, queue': seq<Job>, leaves: Job -> bool)
    requires UniqueIds(queue) && LeavesExactly(queue, queue', leaves) && Cuts(queue, leaves)
    ensures Strands(queue, queue')
  {
    var j, k :| j in queue && k in queue && j.forwardParent == Some(k.id) && leaves(k) && !leaves(j);
    var j' := Descendant(queue, queue', j);
  }

  lemma StrandsIffCuts(queue: seq<Job>, queue': seq<Job>, leaves: Job -> bool)
    requires UniqueIds(queue) && LeavesExactly(queue, queue', leaves)
    ensures Strands(queue, queue') <==> Cuts(queue, leaves)
  {
    if Strands(queue, queue') { StrandsOnlyIfCuts(queue, queue', leaves); }
    if Cuts(queue, leaves) { StrandsIfCuts(queue, queue', leaves); }
  }

  // A queue that kept every job and then lost the leaving ones.
  lemma FilteredLeaves(queue: seq<Job>, noted: seq<Job>, rest: seq<Job>, leaves: Job -> bool)
    requires UniqueIds(queue) && Descends(queue, noted) && SameIds(queue, noted) && Descends(queue, rest)
    requires forall j, j' :: Kept(j, j') ==> leaves(j) == leaves(j')
    requires forall j :: j in rest <==> j in noted && !leaves(j)
    ensures LeavesExactly(queue, rest, leaves)
  {
    forall j | j in queue ensures HasId(rest, j.id) <==> !leaves(j) {
      var j' := Descendant(queue, noted, j);
      if HasId(rest, j.id) {
        var k' :| k' in rest && k'.id == j.id;
        SameIdSameJob(noted, j', k');
      }
    }
  }

  // Who leaves with a finished job: itself, its followers and its probe.
  predicate LeavesWith(j: Job, job: Job)
  {
    j.id == job.id || j.forwardParent == Some(job.id) || job.probeJob == Some(j.id)
  }

  function Leaver(job: Job): Job -> bool
  {
    (j: Job) => LeavesWith(j, job)
  }

  lemma NotedIds(s: State, pos: nat, stage: Stage)
    requires UniqueIds(s.queue) && pos < |s.queue|
    ensures SameIds(s.queue, Noted(s, pos, Some(stage)).queue)
  {
    var job, s1 := ReportedJob(s.queue[pos], Some(stage)), Marked(s, pos, Some(stage));
    SameLength(s.queue, s1.queue);
    NotifySameIds(s1, job, stage);
    SameIdsTrans(s.queue, s1.queue, NotifyBatch(s1, job, stage).queue);
  }

  lemma ReportLeaves(s: State, pos: nat, stage: Stage)
    requires UniqueIds(s.queue) && pos < |s.queue| && Finished(stage)
    ensures LeavesExactly(s.queue, ReportStep(s, pos, Some(stage)).queue, Leaver(s.queue[pos]))
  {
    var job, noted := ReportedJob(s.queue[pos], Some(stage)), Noted(s, pos, Some(stage)).queue;
    NotedMoves(s, pos, Some(stage));
    NotedIds(s, pos, stage);
    FinishedTail(noted, job, stage);
    ReportMoves(s, pos, Some(stage));
    ReportIsTail(s, pos, Some(stage));
    FilteredLeaves(s.queue, noted, ReportTail(noted, job, Some(stage)), Leaver(s.queue[pos]));
  }

  // A terminal report strands a job if and only if one that stays follows one that leaves.
  lemma TerminalReportStrandsExactly(s: State, id: nat, stage: Stage)
    requires UniqueIds(s.queue) && Finished(stage) && Position(s.queue, id).Some?
    ensures Strands(s.queue, Receive(s, id, Report(Some(stage))).queue)
            <==> Cuts(s.queue, Leaver(s.queue[Position(s.queue, id).value]))
  {
    var pos := Position(s.queue, id).value;
    ReportLeaves(s, pos, stage);
    assert Receive(s, id, Report(Some(stage))) == ReportStep(s, pos, Some(stage));
    StrandsIffCuts(s.queue, ReportStep(s, pos, Some(stage)).queue, Leaver(s.queue[pos]));
  }

  // Without chains and with nobody following a probe, no terminal report strands anybody.
  lemma ShallowReportStrandsNobody(s: State, id: nat, stage: Stage)
    requires UniqueIds(s.queue) && Finished(stage) && Position(s.queue, id).Some? && Shallow(s.queue)
    requires forall j :: j in s.queue && j.forwardParent.Some? ==>
                 s.queue[Position(s.queue, id).value].probeJob != j.forwardParent
    ensures !Strands(s.queue, Receive(s, id, Report(Some(stage))).queue)
  {
    TerminalReportStrandsExactly(s, id, stage);
  }

  // ---- The pass -----------------------------------------------------------------------------

  // The turns that take a job out: keywords that failed, a preview without a request, and kept
  // backups and encodes that are done.
  predicate Dies(j: Job, c: Circumstance)
  {
    && j.forwardParent.None? && j.batch.None?
    && (|| (j.kind == Keycode && j.ready == Queued && !j.dispatched && c.keywords == KeywordsFailed)
        || (j.ready == Downloaded && j.kind == Preview && !c.hasRequest)
        || (j.ready == Downloaded && j.kind == Backup && j.keep)
        || (j.ready == Encoded && j.keep))
  }

  lemma TurnKills(j: Job, c: Circumstance, p: Pass)
    ensures Advance(j, c, p).1.dead == if Dies(j, c) then p.dead + {j.id} else p.dead
  {
  }

  // The jobs at positions from i on that die.
  ghost predicate DeadFrom(queue: seq<Job>, cs: seq<Circumstance>, i: nat, before: set<nat>, dead: set<nat>)
    requires |queue| == |cs|
  {
    forall id :: id in dead <==> id in before || exists k: nat :: i <= k < |queue| && DiesAt(queue, cs, k, id)
  }

  ghost predicate DiesAt(queue: seq<Job>, cs: seq<Circumstance>, k: nat, id: nat)
    requires k < |queue| == |cs|
  {
    queue[k].id == id && Dies(queue[k], cs[k])
  }

  lemma {:induction false} PassKills(queue: seq<Job>, cs: seq<Circumstance>, i: nat, p: Pass)
    requires i <= |queue| == |cs|
    ensures DeadFrom(queue, cs, i, p.dead, AdvanceFrom(queue, cs, i, p).1.dead)
    decreases |queue| - i
  {
    if i < |queue| {
      var (j, p') := Advance(queue[i], cs[i], p);
      var queue' := queue[i := j];
      PassKills(queue', cs, i + 1, p');
      TurnKills(queue[i], cs[i], p);
      DeadStep(queue, queue', cs, i, p.dead, p'.dead, AdvanceFrom(queue', cs, i + 1, p').1.dead);
    }
  }

  lemma DeadStep(queue: seq<Job>, queue': seq<Job>, cs: seq<Circumstance>, i: nat, a: set<nat>, b: set<nat>,
                 dead: set<nat>)
    requires i < |queue| == |cs| == |queue'| && (forall k: nat :: i < k < |queue| ==> queue'[k] == queue[k])
    requires b == (if Dies(queue[i], cs[i]) then a + {queue[i].id} else a) && DeadFrom(queue', cs, i + 1, b, dead)
    ensures DeadFrom(queue, cs, i, a, dead)
  {
    forall id ensures id in dead <==> id in a || exists k: nat :: i <= k < |queue| && DiesAt(queue, cs, k, id) {
      if k: nat :| i <= k < |queue| && DiesAt(queue, cs, k, id) {
        if k > i { assert DiesAt(queue', cs, k, id); }
      }
      if id in dead && id !in a {
        if id in b {
          assert DiesAt(queue, cs, i, id);
        } else {
          var k: nat :| i + 1 <= k < |queue| && DiesAt(queue', cs, k, id);
          assert DiesAt(queue, cs, k, id);
        }
      }
    }
  }

  function DeadJobs(dead: set<nat>): Job -> bool
  {
    (j: Job) => j.id in dead
  }

  lemma DeathStrandsExactly(queue: seq<Job>, queue': seq<Job>, dead: set<nat>)
    requires UniqueIds(queue) && Descends(queue, queue') && SameIds(queue, queue')
    ensures Strands(queue, Filter(queue', (j: Job) => j.id !in dead)) <==> Cuts(queue, DeadJobs(dead))
  {
    var rest := Filter(queue', (j: Job) => j.id !in dead);
    FilterMembers(queue', (j: Job) => j.id !in dead);
    DescendsFilter(queue', (j: Job) => j.id !in dead);
    DescendsTrans(queue, queue', rest);
    FilteredLeaves(queue, queue', rest, DeadJobs(dead));
    StrandsIffCuts(queue, rest, DeadJobs(dead));
  }

  // The same jobs at the same places.
  ghost predicate Aligned(queue: seq<Job>, queue': seq<Job>)
  {
    |queue'| == |queue| && forall k :: 0 <= k < |queue| ==> queue'[k].id == queue[k].id
  }

  lemma TurnKeepsId(j: Job, c: Circumstance, p: Pass)
    ensures Advance(j, c, p).0.id == j.id
  {
    AdvanceLinks(j, c, p);
  }

  lemma {:induction false} PassAligned(queue: seq<Job>, cs: seq<Circumstance>, i: nat, p: Pass)
    requires i <= |queue| == |cs|
    ensures Aligned(queue, AdvanceFrom(queue, cs, i, p).0)
    decreases |queue| - i
  {
    if i < |queue| {
      var (j, p') := Advance(queue[i], cs[i], p);
      TurnKeepsId(queue[i], cs[i], p);
      PassAligned(queue[i := j], cs, i + 1, p');
    }
  }

  lemma {:induction false} UploadsAligned(queue: seq<Job>, uploads: seq<(nat, string)>)
    ensures Aligned(queue, SyncUploads(queue, uploads))
  {
    if uploads != [] { UploadsAligned(queue, uploads[..|uploads| - 1]); }
  }

  lemma AlignedIds(queue: seq<Job>, queue': seq<Job>)
    requires Aligned(queue, queue')
    ensures SameIds(queue, queue') && SameIds(queue', queue) && (UniqueIds(queue) ==> UniqueIds(queue'))
  {
    SameLength(queue, queue');
    SameLength(queue', queue);
  }

  lemma StrandsById(queue: seq<Job>, queue': seq<Job>, rest: seq<Job>)
    requires SameIds(queue, queue') && Strands(queue, rest)
    ensures Strands(queue', rest)
  {
    var j, k :| j in rest && k in queue && j.forwardParent == Some(k.id) && !HasId(rest, k.id);
    var k' :| k' in queue' && k'.id == k.id;
  }

  // No job of this id dies.
  ghost predicate Survives(queue: seq<Job>, cs: seq<Circumstance>, id: nat)
    requires |queue| == |cs|
  {
    forall k: nat :: k < |queue| ==> !DiesAt(queue, cs, k, id)
  }

  // The job's parent is the one it had before the pass, or one that survives.
  ghost predicate SafelyLinked(queue: seq<Job>, cs: seq<Circumstance>, before: Job, after: Job)
    requires |queue| == |cs|
  {
    after.forwardParent == before.forwardParent
    || (before.forwardParent.None? && after.forwardParent.Some? && Survives(queue, cs, after.forwardParent.value))
  }

  ghost predicate OffersSurvive(queue: seq<Job>, cs: seq<Circumstance>, parents: map<nat, Parent>)
    requires |queue| == |cs|
  {
    forall key :: key in parents ==> Survives(queue, cs, parents[key].id)
  }

  // Before turn i, in terms of the queue the pass started from.
  ghost predicate PassSafe(start: seq<Job>, cs: seq<Circumstance>, queue: seq<Job>, i: nat, p: Pass)
    requires |start| == |cs|
  {
    && Aligned(start, queue) && i <= |start| && OffersSurvive(start, cs, p.parents)
    && (forall k :: i <= k < |start| ==> queue[k] == start[k])
    && (forall k :: 0 <= k < i ==> SafelyLinked(start, cs, start[k], queue[k]))
  }

  // A forwardable job never dies, and neither does one that goes to the encoder.
  lemma ForwardableSurvives(queue: seq<Job>, cs: seq<Circumstance>, k: nat)
    requires UniqueIds(queue) && k < |queue| == |cs| && (IsForwardable(queue[k]) || WantsEncoder(queue[k]))
    ensures Survives(queue, cs, queue[k].id)
  {
  }

  lemma {:induction false} StartOffersSurvive(queue: seq<Job>, cs: seq<Circumstance>, n: nat)
    requires UniqueIds(queue) && n <= |queue| == |cs|
    ensures OffersSurvive(queue, cs, ActiveParents(queue[..n]))
  {
    if n > 0 {
      var j := queue[n - 1];
      assert queue[..n][..n - 1] == queue[..n - 1];
      StartOffersSurvive(queue, cs, n - 1);
      if ActiveParent(j) {
        ForwardableSurvives(queue, cs, n - 1);
        OffersGrow(queue, cs, ActiveParents(queue[..n - 1]), j.forwardKeys,
                   Parent(j.id, j.ready, ForwardedWorker(j.worker)));
      }
    }
  }

  lemma OffersGrow(queue: seq<Job>, cs: seq<Circumstance>, parents: map<nat, Parent>, keys: seq<nat>, parent: Parent)
    requires |queue| == |cs| && OffersSurvive(queue, cs, parents) && Survives(queue, cs, parent.id)
    ensures OffersSurvive(queue, cs, AddParents(parents, keys, parent))
  {
    var grown := AddParents(parents, keys, parent);
    forall key | key in grown ensures Survives(queue, cs, grown[key].id) {
      AddParentsEntries(parents, keys, parent, key);
    }
  }

  // The turn links to a surviving parent, if at all, and offers only a survivor.
  lemma TurnSafe(queue: seq<Job>, cs: seq<Circumstance>, i: nat, p: Pass)
    requires UniqueIds(queue) && i < |queue| == |cs| && OffersSurvive(queue, cs, p.parents)
    ensures var (j, p') := Advance(queue[i], cs[i], p);
            SafelyLinked(queue, cs, queue[i], j) && OffersSurvive(queue, cs, p'.parents)
  {
    var (j, p') := Advance(queue[i], cs[i], p);
    YieldsExactly(queue[i], cs[i], p);
    if p'.parents != p.parents {
      TurnOffersItself(queue[i], cs[i], p);
      ForwardableSurvives(queue, cs, i);
      OffersGrow(queue, cs, p.parents, queue[i].forwardKeys,
                 Parent(queue[i].id, Downloaded, ForwardedWorker("enc-main")));
    }
  }

  lemma TurnOffersItself(j: Job, c: Circumstance, p: Pass)
    requires Advance(j, c, p).1.parents != p.parents
    ensures WantsEncoder(j)
    ensures Advance(j, c, p).1.parents
            == AddParents(p.parents, j.forwardKeys, Parent(j.id, Downloaded, ForwardedWorker("enc-main")))
  {
    AdvanceLinks(j, c, p);
  }

  lemma PassStaysSafe(start: seq<Job>, cs: seq<Circumstance>, queue: seq<Job>, i: nat, p: Pass)
    requires UniqueIds(start) && i < |start| == |cs| && PassSafe(start, cs, queue, i, p)
    ensures var (j, p') := Advance(queue[i], cs[i], p); PassSafe(start, cs, queue[i := j], i + 1, p')
  {
    TurnKeepsId(queue[i], cs[i], p);
    TurnSafe(start, cs, i, p);
  }

  lemma {:induction false} WholePassSafe(start: seq<Job>, cs: seq<Circumstance>, queue: seq<Job>, i: nat, p: Pass)
    requires UniqueIds(start) && i <= |start| == |cs| == |queue| && PassSafe(start, cs, queue, i, p)
    ensures var (queue', p') := AdvanceFrom(queue, cs, i, p); PassSafe(start, cs, queue', |start|, p')
    decreases |start| - i
  {
    if i < |start| {
      var (j, p') := Advance(queue[i], cs[i], p);
      PassStaysSafe(start, cs, queue, i, p);
      WholePassSafe(start, cs, queue[i := j], i + 1, p');
    }
  }

  // Before the pass, somebody follows a job that dies in it.
  ghost predicate FollowsDying(queue: seq<Job>, cs: seq<Circumstance>)
    requires |queue| == |cs|
  {
    exists k: nat, m: nat ::
        k < |queue| && m < |queue| && Dies(queue[k], cs[k]) && queue[m].forwardParent == Some(queue[k].id)
  }

  // Links made in the pass lead to survivors, so only old ones are cut.
  lemma CutFollowsDying(start: seq<Job>, cs: seq<Circumstance>, queue: seq<Job>, p: Pass)
    requires |start| == |cs| && PassSafe(start, cs, queue, |start|, p)
    requires DeadFrom(start, cs, 0, {}, p.dead) && Cuts(queue, DeadJobs(p.dead))
    ensures FollowsDying(start, cs)
  {
    var j, d :| j in queue && d in queue && j.forwardParent == Some(d.id) && d.id in p.dead && j.id !in p.dead;
    var m: nat :| m < |queue| && queue[m] == j;
    var k: nat :| k < |start| && DiesAt(start, cs, k, d.id);
    assert SafelyLinked(start, cs, start[m], queue[m]);
    assert start[m].forwardParent == Some(start[k].id);
  }

  lemma FollowsDyingCuts(start: seq<Job>, cs: seq<Circumstance>, queue: seq<Job>, p: Pass)
    requires UniqueIds(start) && |start| == |cs| && PassSafe(start, cs, queue, |start|, p)
    requires DeadFrom(start, cs, 0, {}, p.dead) && FollowsDying(start, cs)
    ensures Cuts(queue, DeadJobs(p.dead))
  {
    var k: nat, m: nat :| k < |start| && m < |start| && Dies(start[k], cs[k])
        && start[m].forwardParent == Some(start[k].id);
    assert DiesAt(start, cs, k, start[k].id);
    FollowerLives(start, cs, m, p.dead);
    OldLinkStays(start, cs, queue, p, m);
    CutAt(queue, m, k, p.dead);
  }

  lemma OldLinkStays(start: seq<Job>, cs: seq<Circumstance>, queue: seq<Job>, p: Pass, m: nat)
    requires m < |start| == |cs| && PassSafe(start, cs, queue, |start|, p) && start[m].forwardParent.Some?
    ensures queue[m].forwardParent == start[m].forwardParent
  {
    assert SafelyLinked(start, cs, start[m], queue[m]);
  }

  lemma CutAt(queue: seq<Job>, m: nat, k: nat, dead: set<nat>)
    requires m < |queue| && k < |queue| && queue[m].forwardParent == Some(queue[k].id)
    requires queue[k].id in dead && queue[m].id !in dead
    ensures Cuts(queue, DeadJobs(dead))
  {
    assert queue[m] in queue && queue[k] in queue;
  }

  lemma CutsIffFollowsDying(start: seq<Job>, cs: seq<Circumstance>, queue: seq<Job>, p: Pass)
    requires UniqueIds(start) && |start| == |cs| && PassSafe(start, cs, queue, |start|, p)
    requires DeadFrom(start, cs, 0, {}, p.dead)
    ensures Cuts(queue, DeadJobs(p.dead)) <==> FollowsDying(start, cs)
  {
    if Cuts(queue, DeadJobs(p.dead)) { CutFollowsDying(start, cs, queue, p); }
    if FollowsDying(start, cs) { FollowsDyingCuts(start, cs, queue, p); }
  }

  // A job with a parent takes no turn, so it does not die.
  lemma FollowerLives(queue: seq<Job>, cs: seq<Circumstance>, m: nat, dead: set<nat>)
    requires UniqueIds(queue) && m < |queue| == |cs| && queue[m].forwardParent.Some? && DeadFrom(queue, cs, 0, {}, dead)
    ensures queue[m].id !in dead
  {
  }

  // The pass strands a job if and only if, before it, somebody follows a job that dies in it.
  lemma PassStrandsExactly(s: State, cs: seq<Circumstance>)
    requires UniqueIds(s.queue) && |cs| == |s.queue|
    ensures Strands(s.queue, Progress(s, cs).queue) <==> FollowsDying(s.queue, cs)
  {
    var (queue, p) := AdvanceFrom(s.queue, cs, 0, StartPass(s));
    assert s.queue[..|s.queue|] == s.queue;
    StartOffersSurvive(s.queue, cs, |s.queue|);
    WholePassSafe(s.queue, cs, s.queue, 0, StartPass(s));
    PassKills(s.queue, cs, 0, StartPass(s));
    PassCuts(s, cs);
    CutsIffFollowsDying(s.queue, cs, queue, p);
  }

  lemma PassCuts(s: State, cs: seq<Circumstance>)
    requires UniqueIds(s.queue) && |cs| == |s.queue|
    ensures var (queue, p) := AdvanceFrom(s.queue, cs, 0, StartPass(s));
            Strands(s.queue, Progress(s, cs).queue) <==> Cuts(queue, DeadJobs(p.dead))
  {
    var (queue, p) := AdvanceFrom(s.queue, cs, 0, StartPass(s));
    PassAligned(s.queue, cs, 0, StartPass(s));
    AlignedIds(s.queue, queue);
    UploadsDescend(queue, p.uploads);
    UploadsAligned(queue, p.uploads);
    AlignedIds(queue, SyncUploads(queue, p.uploads));
    DeathStrandsExactly(queue, SyncUploads(queue, p.uploads), p.dead);
    var rest := Progress(s, cs).queue;
    if Strands(s.queue, rest) { StrandsById(s.queue, queue, rest); }
    if Strands(queue, rest) { StrandsById(queue, s.queue, rest); }
  }

  // ---- Cancelling and stalls ----------------------------------------------------------------

  // Who leaves with a cancelled or a stalled job: itself and its followers.
  function Family(id: nat): Job -> bool
  {
    (j: Job) => j.id == id || j.forwardParent == Some(id)
  }

  lemma FamilyLeavesExactly(queue: seq<Job>, queue': seq<Job>, id: nat)
    requires UniqueIds(queue) && Descends(queue, queue') && FamilyLeft(queue, queue', id)
    ensures LeavesExactly(queue, queue', Family(id))
  {
    forall j | j in queue && HasId(queue', j.id) ensures !Family(id)(j) {
      var j' := Descendant(queue, queue', j);
    }
  }

  lemma CancelLeaves(s: State, id: nat, author: nat)
    requires UniqueIds(s.queue) && Cancels(s, id, author)
    ensures LeavesExactly(s.queue, CancelJob(s, id, author).queue, Family(id))
  {
    FamilyTakenOut(s.queue, id);
    CancelMoves(s, id, author);
    FamilyLeavesExactly(s.queue, CancelJob(s, id, author).queue, id);
  }

  // A job that may be cancelled at once.
  ghost predicate Cancels(s: State, id: nat, author: nat)
  {
    var found := OwnedPosition(s.queue, id, author);
    found.Some? && CancelledAtOnce(s.queue[found.value])
  }

  // Cancelling strands a job if and only if the asker's job goes at once and one of its
  // followers has a follower of its own.
  lemma CancelStrandsExactly(s: State, id: nat, author: nat)
    requires UniqueIds(s.queue)
    ensures Strands(s.queue, CancelJob(s, id, author).queue) <==> Cancels(s, id, author) && Cuts(s.queue, Family(id))
  {
    if Cancels(s, id, author) {
      CancelLeaves(s, id, author);
      StrandsIffCuts(s.queue, CancelJob(s, id, author).queue, Family(id));
    } else {
      NothingStrands(s.queue);
    }
  }

  lemma NothingStrands(queue: seq<Job>)
    ensures !Strands(queue, queue)
  {
  }

  // The failure of a stalled job strands another if and only if one of its followers has a
  // follower of its own.
  lemma StallStrandsExactly(s: State, id: nat)
    requires UniqueIds(s.queue) && Position(s.queue, id).Some?
    ensures Strands(s.queue, FailOne(s, id).queue) <==> Cuts(s.queue, Family(id))
  {
    FailOneFamily(s, Position(s.queue, id).value);
    FailOneMoves(s, id);
    FamilyLeavesExactly(s.queue, FailOne(s, id).queue, id);
    StrandsIffCuts(s.queue, FailOne(s, id).queue, Family(id));
  }
}

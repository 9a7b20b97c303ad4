// What one progression pass does to the queue, job by job: the turns in order, who leaves, and
// what the followers hear.
module Turns {
  import opened Wrappers
  import opened Jobs
  import opened QueueFacts
  import opened Links
  import opened Forwards
  import opened Effects
  import opened Stranding

  // ---- The turns ----------------------------------------------------------------------------

  ghost predicate TurnAt(queue: seq<Job>, cs: seq<Circumstance>, turned: seq<Job>, passes: seq<Pass>, k: nat)
    requires k < |queue| == |cs| == |turned| && |passes| == |queue| + 1
  {
    TurnEffect(queue[k], cs[k], passes[k], turned[k], passes[k + 1])
  }

  // From position i on each job takes its turn, in order, and hands the pass on.
  ghost predicate TurnsFrom(queue: seq<Job>, cs: seq<Circumstance>, i: nat, turned: seq<Job>, passes: seq<Pass>)
  {
    && |queue| == |cs| == |turned| && |passes| == |queue| + 1
    && forall k: nat :: i <= k < |queue| ==> TurnAt(queue, cs, turned, passes, k)
  }

  // The turns before i have been taken already.
  lemma {:induction false} TurnsTaken(queue: seq<Job>, cs: seq<Circumstance>, i: nat, p: Pass)
    returns (passes: seq<Pass>)
    requires i <= |queue| == |cs|
    ensures var (turned, p') := AdvanceFrom(queue, cs, i, p);
            && TurnsFrom(queue, cs, i, turned, passes) && passes[i] == p && passes[|queue|] == p'
            && forall k :: 0 <= k < i ==> turned[k] == queue[k]
    decreases |queue| - i
  {
    if i == |queue| {
      passes := seq(|queue| + 1, _ => p);
    } else {
      var (j, p') := Advance(queue[i], cs[i], p);
      var rest := TurnsTaken(queue[i := j], cs, i + 1, p');
      passes := rest[i := p];
      TurnHasEffect(queue[i], cs[i], p);
      var turned := AdvanceFrom(queue, cs, i, p).0;
      forall k: nat | i <= k < |queue| ensures TurnAt(queue, cs, turned, passes, k) {
        if k > i { assert TurnAt(queue[i := j], cs, turned, rest, k); }
      }
    }
  }

  // ---- What the followers hear --------------------------------------------------------------

  // Encoded and not kept: this job is uploaded.
  predicate GoesUp(j: Job)
  {
    !Idle(j) && j.ready == Encoded && !j.keep
  }

  // The calls for followers are those of the jobs from i on that go up.
  ghost predicate CallsFrom(queue: seq<Job>, i: nat, before: seq<(nat, string)>, calls: seq<(nat, string)>)
  {
    forall e :: e in calls <==> e in before || (e.1 == "upl-forward" && exists k: nat ::
        i <= k < |queue| && GoesUpAt(queue, k, e.0))
  }

  ghost predicate GoesUpAt(queue: seq<Job>, k: nat, id: nat)
    requires k < |queue|
  {
    queue[k].id == id && GoesUp(queue[k])
  }

  lemma TurnCalls(j: Job, c: Circumstance, p: Pass)
    ensures Advance(j, c, p).1.uploads == if GoesUp(j) then p.uploads + [(j.id, "upl-forward")] else p.uploads
  {
    UploadName();
  }

  lemma {:induction false} PassCalls(queue: seq<Job>, cs: seq<Circumstance>, i: nat, p: Pass)
    requires i <= |queue| == |cs|
    ensures CallsFrom(queue, i, p.uploads, AdvanceFrom(queue, cs, i, p).1.uploads)
    decreases |queue| - i
  {
    if i < |queue| {
      var (j, p') := Advance(queue[i], cs[i], p);
      PassCalls(queue[i := j], cs, i + 1, p');
      TurnCalls(queue[i], cs[i], p);
      CallsStep(queue, queue[i := j], i, p.uploads, p'.uploads, AdvanceFrom(queue, cs, i, p).1.uploads);
    }
  }

  lemma CallsStep(queue: seq<Job>, queue': seq<Job>, i: nat, a: seq<(nat, string)>, b: seq<(nat, string)>,
                  calls: seq<(nat, string)>)
    requires i < |queue| == |queue'| && (forall k: nat :: i < k < |queue| ==> queue'[k] == queue[k])
    requires b == (if GoesUp(queue[i]) then a + [(queue[i].id, "upl-forward")] else a)
    requires CallsFrom(queue', i + 1, b, calls)
    ensures CallsFrom(queue, i, a, calls)
  {
    forall e ensures e in calls <==> e in a || (e.1 == "upl-forward" && exists k: nat ::
        i <= k < |queue| && GoesUpAt(queue, k, e.0))
    {
      if e.1 == "upl-forward" {
        if k: nat :| i <= k < |queue| && GoesUpAt(queue, k, e.0) {
          if k > i { assert GoesUpAt(queue', k, e.0); }
        }
        if k: nat :| i + 1 <= k < |queue'| && GoesUpAt(queue', k, e.0) {
          assert GoesUpAt(queue, k, e.0);
        }
      }
      if e in b && e !in a { assert GoesUpAt(queue, i, e.0); }
    }
  }

  // A job told of an upload takes its stage and the followers' worker name; another stays.
  ghost predicate Told(j: Job, j': Job, told: bool)
  {
    if told then j' == j.(ready := j'.ready, worker := j'.worker) && j'.ready == Uploading && j'.worker == "upl-forward"
    else j' == j
  }

  ghost predicate Called(j: Job, calls: seq<(nat, string)>)
  {
    exists e :: e in calls && j.forwardParent == Some(e.0)
  }

  lemma {:induction false} CallsHeard(queue: seq<Job>, calls: seq<(nat, string)>)
    requires forall e :: e in calls ==> e.1 == "upl-forward"
    ensures var queue' := SyncUploads(queue, calls);
            |queue'| == |queue| && forall k :: 0 <= k < |queue| ==> Told(queue[k], queue'[k], Called(queue[k], calls))
  {
    if calls != [] {
      var rest, last := calls[..|calls| - 1], calls[|calls| - 1];
      CallsHeard(queue, rest);
      forall k | 0 <= k < |queue| ensures Told(queue[k], SyncUploads(queue, calls)[k], Called(queue[k], calls)) {
        assert Called(queue[k], calls) <==> Called(queue[k], rest) || queue[k].forwardParent == Some(last.0);
      }
    }
  }

  // Follows a job of the queue that goes up.
  ghost predicate Hears(queue: seq<Job>, j: Job)
  {
    exists k: nat :: k < |queue| && j.forwardParent.Some? && GoesUpAt(queue, k, j.forwardParent.value)
  }

  lemma CalledHears(queue: seq<Job>, calls: seq<(nat, string)>, j: Job)
    requires CallsFrom(queue, 0, [], calls)
    ensures Called(j, calls) <==> Hears(queue, j)
  {
    if Hears(queue, j) {
      assert (j.forwardParent.value, "upl-forward") in calls;
    }
  }

  // ---- The queue after the pass -------------------------------------------------------------

  lemma AlignedOrder(queue: seq<Job>, moved: seq<Job>, rest: seq<Job>)
    requires Aligned(queue, moved) && SameOrder(moved, rest)
    ensures SameOrder(queue, rest)
  {
  }

  // The job at k has left, or stands in the queue as its turn and the call for followers made it.
  ghost predicate StandsAs(queue: seq<Job>, cs: seq<Circumstance>, turned: seq<Job>, queue': seq<Job>, k: nat)
    requires k < |queue| == |cs| == |turned|
  {
    if Dies(queue[k], cs[k]) then !HasId(queue', queue[k].id)
    else exists j' :: j' in queue' && Told(turned[k], j', Hears(queue, turned[k]))
  }

  ghost predicate ComesFrom(queue: seq<Job>, cs: seq<Circumstance>, turned: seq<Job>, j': Job, k: nat)
    requires k < |queue| == |cs| == |turned|
  {
    !Dies(queue[k], cs[k]) && Told(turned[k], j', Hears(queue, turned[k]))
  }

  ghost predicate QueueEffect(queue: seq<Job>, cs: seq<Circumstance>, turned: seq<Job>, queue': seq<Job>)
    requires |queue| == |cs| == |turned|
  {
    && UniqueIds(queue') && SameOrder(queue, queue')
    && (forall k: nat :: k < |queue| ==> StandsAs(queue, cs, turned, queue', k))
    && (forall j' :: j' in queue' ==> exists k: nat :: k < |queue| && ComesFrom(queue, cs, turned, j', k))
  }

  lemma DeadAt(queue: seq<Job>, cs: seq<Circumstance>, dead: set<nat>, k: nat)
    requires UniqueIds(queue) && k < |queue| == |cs| && DeadFrom(queue, cs, 0, {}, dead)
    ensures queue[k].id in dead <==> Dies(queue[k], cs[k])
  {
    if Dies(queue[k], cs[k]) { assert DiesAt(queue, cs, k, queue[k].id); }
  }

  lemma SurvivorsStay(queue: seq<Job>, cs: seq<Circumstance>, turned: seq<Job>, moved: seq<Job>, dead: set<nat>)
    requires UniqueIds(queue) && |queue| == |cs| == |turned| && Aligned(queue, moved)
    requires DeadFrom(queue, cs, 0, {}, dead)
    requires forall k :: 0 <= k < |queue| ==> Told(turned[k], moved[k], Hears(queue, turned[k]))
    ensures QueueEffect(queue, cs, turned, Filter(moved, (j: Job) => j.id !in dead))
  {
    var rest := Filter(moved, (j: Job) => j.id !in dead);
    AlignedIds(queue, moved);
    FilterMembers(moved, (j: Job) => j.id !in dead);
    FilterInOrder(moved, (j: Job) => j.id !in dead);
    AlignedOrder(queue, moved, rest);
    forall k: nat | k < |queue| ensures StandsAs(queue, cs, turned, rest, k) {
      DeadAt(queue, cs, dead, k);
      assert moved[k] in moved && moved[k].id == queue[k].id;
    }
    forall j' | j' in rest ensures exists k: nat :: k < |queue| && ComesFrom(queue, cs, turned, j', k) {
      var k :| 0 <= k < |moved| && moved[k] == j';
      DeadAt(queue, cs, dead, k);
      assert ComesFrom(queue, cs, turned, j', k);
    }
  }

  // ---- What the pass starts from ------------------------------------------------------------

  // May be followed: an unforwarded encode that is not kept and is under way. One that merely
  // landed is under way once it is dispatched.
  predicate UnderWay(j: Job)
  {
    && j.kind == Encode && !j.keep && j.forwardParent.None? && !Ends(j.ready)
    && j.ready != Probing && j.ready != Probed && (j.ready == Downloaded ==> j.dispatched)
  }

  // The encoder has its input: preparing another of the same would fetch it twice.
  predicate Holds(j: Job)
  {
    j.forwardParent.None? && j.kind != Preview && (j.ready == Encoding || (j.ready == Downloaded && j.dispatched))
  }

  // The first job under way with this key is at k.
  ghost predicate FirstUnderWay(queue: seq<Job>, key: nat, k: nat)
  {
    && k < |queue| && UnderWay(queue[k]) && key in queue[k].forwardKeys
    && forall i :: 0 <= i < k ==> !(UnderWay(queue[i]) && key in queue[i].forwardKeys)
  }

  ghost predicate FirstHolds(queue: seq<Job>, key: nat, k: nat)
  {
    && k < |queue| && Holds(queue[k]) && key in queue[k].cacheKeys
    && forall i :: 0 <= i < k ==> !(Holds(queue[i]) && key in queue[i].cacheKeys)
  }

  // Under a key stands the first job under way with that key, and nothing when there is none.
  ghost predicate OfferOf(queue: seq<Job>, parents: map<nat, Parent>, key: nat)
  {
    if key in parents then exists k: nat ::
        FirstUnderWay(queue, key, k)
        && parents[key] == Parent(queue[k].id, queue[k].ready, ForwardedWorker(queue[k].worker))
    else forall k :: 0 <= k < |queue| ==> !(UnderWay(queue[k]) && key in queue[k].forwardKeys)
  }

  ghost predicate SourceOf(queue: seq<Job>, sources: map<nat, nat>, key: nat)
  {
    if key in sources then exists k: nat :: FirstHolds(queue, key, k) && sources[key] == queue[k].id
    else forall k :: 0 <= k < |queue| ==> !(Holds(queue[k]) && key in queue[k].cacheKeys)
  }

  // A batch child the encoder has.
  predicate ChildWithEncoder(j: Job)
  {
    j.batchParent.Some? && j.dispatched && j.ready in {Downloaded, Encoding}
  }

  // An encode of no batch that has yet to be sent.
  predicate WaitsForEncoder(j: Job)
  {
    && j.batchParent.None? && j.batch.None? && j.forwardParent.None? && !j.dispatched && Unreported(j)
    && j.kind in {Encode, Pancode, Keycode, Studio, BatchDownload}
  }

  // What the pass knows before its first turn.
  ghost predicate Begins(s: State, p: Pass)
  {
    && (forall key :: OfferOf(s.queue, p.parents, key)) && (forall key :: SourceOf(s.queue, p.sources, key))
    && (p.inFlight <==> exists k :: 0 <= k < |s.queue| && ChildWithEncoder(s.queue[k]))
    && (p.othersWaiting <==> exists k :: 0 <= k < |s.queue| && WaitsForEncoder(s.queue[k]))
    && p == p.(dead := {}, uploads := [], reboots := s.reboots, nextOrder := s.nextOrder,
               sinceBatch := s.sinceBatch, log := s.log)
  }

  lemma OfferKept(queue: seq<Job>, n: nat, key: nat, parent: Parent, k: nat)
    requires n < |queue| && FirstUnderWay(queue[..n], key, k)
    requires parent == Parent(queue[..n][k].id, queue[..n][k].ready, ForwardedWorker(queue[..n][k].worker))
    ensures FirstUnderWay(queue, key, k)
            && parent == Parent(queue[k].id, queue[k].ready, ForwardedWorker(queue[k].worker))
  {
    assert forall i :: 0 <= i < n ==> queue[i] == queue[..n][i];
  }

  lemma OfferNew(queue: seq<Job>, n: nat, key: nat)
    requires |queue| == n + 1 && UnderWay(queue[n]) && key in queue[n].forwardKeys
    requires forall k :: 0 <= k < n ==> !(UnderWay(queue[..n][k]) && key in queue[..n][k].forwardKeys)
    ensures FirstUnderWay(queue, key, n)
  {
    assert forall i :: 0 <= i < n ==> queue[i] == queue[..n][i];
  }

  lemma NoOffer(queue: seq<Job>, n: nat, key: nat)
    requires |queue| == n + 1 && !(UnderWay(queue[n]) && key in queue[n].forwardKeys)
    requires forall k :: 0 <= k < n ==> !(UnderWay(queue[..n][k]) && key in queue[..n][k].forwardKeys)
    ensures forall k :: 0 <= k < |queue| ==> !(UnderWay(queue[k]) && key in queue[k].forwardKeys)
  {
    assert forall i :: 0 <= i < n ==> queue[i] == queue[..n][i];
  }

  // The first offer of a key stays, and the last job adds one where there was none.
  lemma OfferEntry(before: map<nat, Parent>, j: Job, after: map<nat, Parent>, key: nat)
    requires after == if UnderWay(j) then AddParents(before, j.forwardKeys,
                                                     Parent(j.id, j.ready, ForwardedWorker(j.worker))) else before
    ensures key in before ==> key in after && after[key] == before[key]
    ensures key !in before && key in after ==>
              && UnderWay(j) && key in j.forwardKeys
              && after[key] == Parent(j.id, j.ready, ForwardedWorker(j.worker))
    ensures key !in after ==> !(UnderWay(j) && key in j.forwardKeys)
  {
    AddParentsExact(before, j.forwardKeys, Parent(j.id, j.ready, ForwardedWorker(j.worker)));
  }

  lemma {:induction false} OfferCollected(queue: seq<Job>, key: nat)
    ensures OfferOf(queue, ActiveParents(queue), key)
  {
    if queue != [] {
      var n := |queue| - 1;
      var before, after := ActiveParents(queue[..n]), ActiveParents(queue);
      OfferCollected(queue[..n], key);
      OfferEntry(before, queue[n], after, key);
      if key in before {
        var k: nat :| FirstUnderWay(queue[..n], key, k)
            && before[key] == Parent(queue[..n][k].id, queue[..n][k].ready, ForwardedWorker(queue[..n][k].worker));
        OfferKept(queue, n, key, before[key], k);
      } else if key in after {
        OfferNew(queue, n, key);
      } else {
        NoOffer(queue, n, key);
      }
    }
  }

  lemma {:induction false} SourceCollected(queue: seq<Job>, key: nat)
    ensures SourceOf(queue, ActiveSources(queue), key)
  {
    if queue != [] {
      var n := |queue| - 1;
      var before, j := ActiveSources(queue[..n]), queue[n];
      SourceCollected(queue[..n], key);
      AddSourcesExact(before, j.cacheKeys, j.id);
      if key in before {
        var k: nat :| FirstHolds(queue[..n], key, k) && before[key] == queue[k].id;
        assert FirstHolds(queue, key, k);
      } else {
        assert forall k :: 0 <= k < n ==> queue[k] == queue[..n][k];
        if key in ActiveSources(queue) { assert FirstHolds(queue, key, n); }
      }
    }
  }

  lemma PassBegins(s: State)
    ensures Begins(s, StartPass(s))
  {
    forall key ensures OfferOf(s.queue, StartPass(s).parents, key) { OfferCollected(s.queue, key); }
    forall key ensures SourceOf(s.queue, StartPass(s).sources, key) { SourceCollected(s.queue, key); }
    assert forall j: Job :: BatchInFlight(j) == ChildWithEncoder(j) && OrdinaryWaiting(j) == WaitsForEncoder(j);
  }

  // ---- The whole pass -----------------------------------------------------------------------

  // The turns of all jobs one after the other, from what the queue says before the first, and
  // what is left of the queue then. Orders, epochs and the log are those of the last turn.
  ghost predicate Passed(s: State, cs: seq<Circumstance>, t: State, turned: seq<Job>, passes: seq<Pass>)
  {
    && TurnsFrom(s.queue, cs, 0, turned, passes) && Begins(s, passes[0]) && QueueEffect(s.queue, cs, turned, t.queue)
    && var p := passes[|s.queue|];
       t == s.(queue := t.queue, reboots := p.reboots, nextOrder := p.nextOrder, sinceBatch := p.sinceBatch,
               log := p.log)
  }

  ghost predicate PassEffect(s: State, cs: seq<Circumstance>, t: State)
  {
    exists turned, passes :: Passed(s, cs, t, turned, passes)
  }

  lemma PassHasEffect(s: State, cs: seq<Circumstance>)
    requires UniqueIds(s.queue) && |cs| == |s.queue|
    ensures PassEffect(s, cs, Progress(s, cs))
  {
    var start := StartPass(s);
    var (turned, p) := AdvanceFrom(s.queue, cs, 0, start);
    var passes := TurnsTaken(s.queue, cs, 0, start);
    PassBegins(s);
    PassCalls(s.queue, cs, 0, start);
    PassAligned(s.queue, cs, 0, start);
    PassKills(s.queue, cs, 0, start);
    QueueAfterPass(s.queue, cs, turned, p);
    assert Passed(s, cs, Progress(s, cs), turned, passes);
  }

  lemma QueueAfterPass(queue: seq<Job>, cs: seq<Circumstance>, turned: seq<Job>, p: Pass)
    requires UniqueIds(queue) && |queue| == |cs| && Aligned(queue, turned)
    requires CallsFrom(queue, 0, [], p.uploads) && DeadFrom(queue, cs, 0, {}, p.dead)
    ensures QueueEffect(queue, cs, turned, Filter(SyncUploads(turned, p.uploads), (j: Job) => j.id !in p.dead))
  {
    var moved := SyncUploads(turned, p.uploads);
    CallsHeard(turned, p.uploads);
    UploadsAligned(turned, p.uploads);
    forall k | 0 <= k < |queue| ensures Told(turned[k], moved[k], Hears(queue, turned[k])) {
      CalledHears(queue, p.uploads, turned[k]);
    }
    SurvivorsStay(queue, cs, turned, moved, p.dead);
  }

  // ---- Job by job ---------------------------------------------------------------------------

  ghost predicate Becomes(queue: seq<Job>, j: Job, stage: Stage, worker: string)
  {
    j.(ready := stage, worker := worker) in queue
  }

  // An encode the encoder has, or that is to be cancelled.
  predicate LeftAlone(j: Job, c: Circumstance)
  {
    j.ready == Downloaded && j.kind !in {Subs, Preview, Backup, BackupAll} && (j.dispatched || c.cancelMarked)
  }

  // A job that follows nobody on the way up, and has no turn of its own, stays as it is.
  ghost predicate Untouched(queue: seq<Job>, j: Job, c: Circumstance)
  {
    (Rests(j) || LeftAlone(j, c)) && !Hears(queue, j)
  }

  // A keycode without its keywords.
  predicate AwaitsKeywords(j: Job, c: Circumstance)
  {
    !Idle(j) && j.ready == Queued && j.kind == Keycode && !j.dispatched && c.keywords == KeywordsWaiting
  }

  // What becomes of the job that stands in the queue before the pass.
  ghost predicate Outcome(queue: seq<Job>, queue': seq<Job>, j: Job, c: Circumstance)
  {
    && (GoesUp(j) ==> Becomes(queue', j, Uploading, "upl-pending"))
    && (Hears(queue, j) ==> Becomes(queue', j, Uploading, "upl-forward"))
    && (Untouched(queue, j, c) ==> j in queue')
    && (AwaitsKeywords(j, c) ==> Becomes(queue', j, Queued, "key-wait"))
    && (!Idle(j) && j.ready == Downloaded ==> LandedOutcome(queue', j, c))
    && (Dies(j, c) ==> !HasId(queue', j.id))
  }

  // Subtitles and previews that landed go to the preview worker, backups to the upload worker.
  ghost predicate LandedOutcome(queue': seq<Job>, j: Job, c: Circumstance)
  {
    && (j.kind == Subs || (j.kind == Preview && c.hasRequest) ==> Becomes(queue', j, Encoding, "prw-pending"))
    && (j.kind == BackupAll || (j.kind == Backup && !j.keep) ==> Becomes(queue', j, Uploading, "upl-pending"))
  }

  ghost predicate PassOutcomes(queue: seq<Job>, cs: seq<Circumstance>, queue': seq<Job>)
  {
    |queue| == |cs| && forall k :: 0 <= k < |queue| ==> Outcome(queue, queue', queue[k], cs[k])
  }

  lemma OutcomeAt(queue: seq<Job>, cs: seq<Circumstance>, turned: seq<Job>, passes: seq<Pass>, queue': seq<Job>,
                  k: nat)
    requires TurnsFrom(queue, cs, 0, turned, passes) && QueueEffect(queue, cs, turned, queue') && k < |queue|
    ensures Outcome(queue, queue', queue[k], cs[k])
  {
    var j := queue[k];
    assert TurnAt(queue, cs, turned, passes, k) && StandsAs(queue, cs, turned, queue', k);
    if GoesUp(j) { assert Becomes(queue', j, Uploading, "upl-pending"); }
  }

  lemma PassDecides(s: State, cs: seq<Circumstance>, t: State)
    requires PassEffect(s, cs, t)
    ensures PassOutcomes(s.queue, cs, t.queue)
  {
    var turned, passes :| Passed(s, cs, t, turned, passes);
    forall k | 0 <= k < |s.queue| ensures Outcome(s.queue, t.queue, s.queue[k], cs[k]) {
      OutcomeAt(s.queue, cs, turned, passes, t.queue, k);
    }
  }

  // Both of it: how the turns chain, and what becomes of each job.
  ghost predicate ProgressEffect(s: State, cs: seq<Circumstance>, t: State)
  {
    PassEffect(s, cs, t) && PassOutcomes(s.queue, cs, t.queue)
  }

  lemma ProgressHasEffect(s: State, cs: seq<Circumstance>)
    requires UniqueIds(s.queue) && |cs| == |s.queue|
    ensures ProgressEffect(s, cs, Progress(s, cs))
  {
    PassHasEffect(s, cs);
    PassDecides(s, cs, Progress(s, cs));
  }
}

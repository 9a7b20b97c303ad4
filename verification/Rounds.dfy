// What the loop's smaller rounds do to the queue: downloads that start or wait, probes that time
// out, batches that settle, and encodes that stall.
module Rounds {
  import opened Wrappers
  import opened Jobs
  import opened QueueFacts
  import opened Links
  import opened Forwards
  import opened Effects

  // ---- Downloads ----------------------------------------------------------------------------

  // Only the stage, the worker and the job it copies from are set.
  ghost predicate LandsAt(j: Job, j': Job, stage: Stage, worker: string, source: Option<nat>)
  {
    && j' == j.(ready := j'.ready, worker := j'.worker, duplicateSource := j'.duplicateSource)
    && j'.ready == stage && j'.worker == worker && j'.duplicateSource == source
  }

  // A cached input is there at once, another's is waited for, a transfer is queued behind, and
  // the rest is fetched.
  ghost predicate StartsBy(j: Job, plan: Plan, j': Job)
  {
    match plan
    case FromCache => LandsAt(j, j', Downloaded, "dwl-cache", j.duplicateSource)
    case BehindOwner(owner) => LandsAt(j, j', Downloading, "dwl-cache", Some(owner))
    case BehindTransfer => LandsAt(j, j', Downloading, "dwl-pending", j.duplicateSource)
    case Fetch => LandsAt(j, j', if j.ready == Queued then Downloading else j.ready, j.worker, j.duplicateSource)
  }

  lemma DownloadStarts(j: Job, plan: Plan)
    ensures StartsBy(j, plan, StartDownload(j, plan))
  {
  }

  // At most the job of this id changes.
  ghost predicate OnlyOne(s: State, t: State, id: nat)
  {
    && t == s.(queue := t.queue) && |t.queue| == |s.queue|
    && forall k :: 0 <= k < |s.queue| && s.queue[k].id != id ==> t.queue[k] == s.queue[k]
  }

  // Only an unforwarded job that waits for its download is tried again.
  predicate AwaitsDownload(j: Job)
  {
    && j.forwardParent.None? && j.ready == Queued && j.worker == "dwl-pending"
    && j.kind in {Encode, Pancode, Backup, Preview}
  }

  ghost predicate RetryEffect(s: State, t: State, id: nat, plan: Plan)
  {
    && OnlyOne(s, t, id)
    && forall k :: 0 <= k < |s.queue| && s.queue[k].id == id ==>
         if AwaitsDownload(s.queue[k]) then StartsBy(s.queue[k], plan, t.queue[k]) else t.queue[k] == s.queue[k]
  }

  lemma RetryHasEffect(s: State, id: nat, plan: Plan)
    requires UniqueIds(s.queue)
    ensures RetryEffect(s, RetryDownload(s, id, plan), id, plan)
  {
    var found := Position(s.queue, id);
    if found.Some? { DownloadStarts(s.queue[found.value], plan); }
  }

  // A copy that is there ends the wait; a source that is gone sends the job back to its download.
  ghost predicate WaitEnds(j: Job, outcome: WaitOutcome, j': Job)
  {
    match outcome
    case StillWaiting => j' == j
    case CacheHit => LandsAt(j, j', Downloaded, "dwl-cache", j.duplicateSource)
    case Requeue => LandsAt(j, j', Queued, "dwl-pending", None)
    case Copied => LandsAt(j, j', Downloaded, j.worker, None)
  }

  ghost predicate WaitEffect(s: State, t: State, id: nat, outcome: WaitOutcome)
  {
    && OnlyOne(s, t, id)
    && forall k :: 0 <= k < |s.queue| && s.queue[k].id == id ==>
         var j := s.queue[k];
         if j.forwardParent.None? && j.ready == Downloading && j.duplicateSource.Some?
         then WaitEnds(j, outcome, t.queue[k]) else t.queue[k] == j
  }

  lemma WaitHasEffect(s: State, id: nat, outcome: WaitOutcome)
    requires UniqueIds(s.queue)
    ensures WaitEffect(s, DuplicateRound(s, id, outcome), id, outcome)
  {
  }

  // The keys of a torrent file are added to those the job has.
  ghost predicate GrowEffect(s: State, t: State, id: nat, keys: seq<nat>)
  {
    && OnlyOne(s, t, id)
    && forall k :: 0 <= k < |s.queue| && s.queue[k].id == id ==>
         && t.queue[k] == s.queue[k].(forwardKeys := t.queue[k].forwardKeys)
         && forall key :: key in t.queue[k].forwardKeys <==> key in s.queue[k].forwardKeys || key in keys
  }

  lemma GrowHasEffect(s: State, id: nat, keys: seq<nat>)
    requires UniqueIds(s.queue)
    ensures GrowEffect(s, GrowKeys(s, id, keys), id, keys)
  {
  }

  // ---- Probes -------------------------------------------------------------------------------

  // A probe that waited too long for its successor leaves; everybody else stays.
  ghost predicate ProbeEffect(s: State, t: State, id: nat)
  {
    && t == s.(queue := t.queue) && UniqueIds(t.queue) && SameOrder(s.queue, t.queue)
    && forall j :: j in t.queue <==> j in s.queue && !(j.id == id && j.ready == Probed)
  }

  lemma SelfInOrder(queue: seq<Job>)
    requires UniqueIds(queue)
    ensures SameOrder(queue, queue)
  {
  }

  lemma RemovedInOrder(queue: seq<Job>, pos: nat)
    requires UniqueIds(queue) && pos < |queue|
    ensures SameOrder(queue, queue[..pos] + queue[pos + 1..])
  {
    var rest := queue[..pos] + queue[pos + 1..];
    assert forall a: nat :: a < |rest| ==> rest[a] == if a < pos then queue[a] else queue[a + 1];
  }

  lemma ProbeLeaves(s: State, pos: nat)
    requires UniqueIds(s.queue) && pos < |s.queue| && s.queue[pos].ready == Probed
    ensures ProbeEffect(s, s.(queue := s.queue[..pos] + s.queue[pos + 1..]), s.queue[pos].id)
  {
    RemovedInOrder(s.queue, pos);
    RemoveMembers(s.queue, pos);
    OnlyAt(s.queue, pos);
  }

  lemma OnlyAt(queue: seq<Job>, pos: nat)
    requires UniqueIds(queue) && pos < |queue|
    ensures forall j :: j in queue && j.id == queue[pos].id ==> j == queue[pos]
  {
  }

  lemma NoProbe(s: State, id: nat)
    requires UniqueIds(s.queue) && forall j :: j in s.queue && j.id == id ==> j.ready != Probed
    ensures ProbeEffect(s, s, id)
  {
    SelfInOrder(s.queue);
  }

  lemma ProbeHasEffect(s: State, id: nat)
    requires UniqueIds(s.queue)
    ensures ProbeEffect(s, ProbeTimeout(s, id), id)
  {
    var found := Position(s.queue, id);
    if found.Some? {
      OnlyAt(s.queue, found.value);
      if s.queue[found.value].ready == Probed { ProbeLeaves(s, found.value); } else { NoProbe(s, id); }
    } else {
      NoProbe(s, id);
    }
  }

  // ---- Submission ---------------------------------------------------------------------------

  // Another encode that is not kept, follows nobody, is not over, and has a key in common.
  predicate MayLead(job: Job, other: Job)
  {
    && other.kind == Encode && !other.keep && other.forwardParent.None? && !Ends(other.ready) && other.id != job.id
    && exists b :: 0 <= b < |other.forwardKeys| && other.forwardKeys[b] in job.forwardKeys
  }

  lemma LeadersMayParent(job: Job, other: Job)
    ensures MayParent(job, other) <==> MayLead(job, other)
  {
  }

  // The first queued job it may follow stands at k.
  ghost predicate FirstMayParent(queue: seq<Job>, job: Job, k: nat)
  {
    k < |queue| && MayLead(job, queue[k]) && forall i :: 0 <= i < k ==> !MayLead(job, queue[i])
  }

  // It takes the stage of the job it follows, and the followers' name of that job's worker.
  ghost predicate FollowsAt(queue: seq<Job>, job: Job, j: Job, k: nat)
  {
    && FirstMayParent(queue, job, k)
    && var lead := queue[k];
       j == job.(forwardParent := Some(lead.id), ready := lead.ready, worker := ForwardedWorker(lead.worker))
  }

  // Downloads start by their plan; the rest goes to the worker of its kind.
  ghost predicate EntersBy(job: Job, plan: Plan, j: Job)
  {
    match job.kind
    case Encode | Pancode | Subs | Backup | Preview => StartsBy(job.(worker := "dwl-pending"), plan, j)
    case BatchDownload | BackupAll => LandsAt(job, j, Downloading, "dwl-pending", job.duplicateSource)
    case Probe => LandsAt(job, j, Probing, "prw-pending", job.duplicateSource)
    case StudioPreview => LandsAt(job, j, Encoding, "prw-pending", job.duplicateSource)
    case Keycode => LandsAt(job, j, Queued, "key-wait", job.duplicateSource)
    case Scrape => j == job
    case Studio => LandsAt(job.(dispatched := true), j, Encoding, "enc-main", job.duplicateSource)
  }

  ghost predicate EntersAs(queue: seq<Job>, job: Job, plan: Plan, j: Job)
  {
    if job.kind == Encode && !job.keep && exists p :: p in queue && MayLead(job, p) then
      exists k: nat :: FollowsAt(queue, job, j, k)
    else EntersBy(job, plan, j)
  }

  lemma {:induction false} FirstParentAt(queue: seq<Job>, job: Job)
    ensures var found := FirstParent(job, queue);
            if found.None? then forall k :: 0 <= k < |queue| ==> !MayLead(job, queue[k])
            else exists k: nat :: FirstMayParent(queue, job, k) && ParentAt(queue, found.value, k)
  {
    if queue != [] { LeadersMayParent(job, queue[0]); }
    if queue != [] && !MayLead(job, queue[0]) {
      FirstParentAt(queue[1..], job);
      var found := FirstParent(job, queue);
      if found.Some? {
        var k: nat :| FirstMayParent(queue[1..], job, k) && ParentAt(queue[1..], found.value, k);
        assert forall i :: 0 < i <= k ==> queue[i] == queue[1..][i - 1];
        assert FirstMayParent(queue, job, k + 1) && ParentAt(queue, found.value, k + 1);
      }
    } else if queue != [] {
      assert FirstMayParent(queue, job, 0) && ParentAt(queue, FirstParent(job, queue).value, 0);
    }
  }

  ghost predicate ParentAt(queue: seq<Job>, p: Parent, k: nat)
  {
    k < |queue| && p == Parent(queue[k].id, queue[k].ready, ForwardedWorker(queue[k].worker))
  }

  lemma LinkedEntersAs(queue: seq<Job>, job: Job, plan: Plan, p: Parent)
    requires job.kind == Encode && FreshJob(job) && QueuedEncodeParent(job, queue) == Some(p)
    ensures EntersAs(queue, job, plan, MarkForwarded(job.(worker := "dwl-pending"), p))
  {
    FirstParentAt(queue, job);
    var k: nat :| FirstMayParent(queue, job, k) && ParentAt(queue, p, k);
    assert queue[k] in queue;
    assert FollowsAt(queue, job, MarkForwarded(job.(worker := "dwl-pending"), p), k);
  }

  lemma FreeEntersAs(queue: seq<Job>, job: Job, setup: Setup)
    requires FreshJob(job) && QueuedEncodeParent(job, queue).None? && Entering(queue, job, setup).Some?
    requires job.kind == Encode ==> QueuedEncodeParent(job.(worker := "dwl-pending"), queue).None?
    ensures EntersAs(queue, job, setup.plan, Entering(queue, job, setup).value)
  {
    FirstParentAt(queue, job);
    DownloadStarts(job.(worker := "dwl-pending"), setup.plan);
  }

  lemma {:induction false} WorkerIrrelevant(queue: seq<Job>, job: Job, worker: string)
    ensures FirstParent(job.(worker := worker), queue) == FirstParent(job, queue)
  {
    if queue != [] {
      assert MayParent(job.(worker := worker), queue[0]) == MayParent(job, queue[0]);
      WorkerIrrelevant(queue[1..], job, worker);
    }
  }

  lemma EnteringAs(queue: seq<Job>, job: Job, setup: Setup)
    requires FreshJob(job) && Entering(queue, job, setup).Some?
    ensures EntersAs(queue, job, setup.plan, Entering(queue, job, setup).value)
  {
    WorkerIrrelevant(queue, job, "dwl-pending");
    var parent := QueuedEncodeParent(job, queue);
    if job.kind == Encode && parent.Some? {
      LinkedEntersAs(queue, job, setup.plan, parent.value);
    } else {
      FreeEntersAs(queue, job, setup);
    }
  }

  // Turned away or queued, and then as its kind, its plan and the queue before it say.
  ghost predicate JoinEffect(s: State, t: State, job: Job, setup: Setup)
  {
    && SubmitEffect(s, t, job, setup)
    && (!Refused(s.queue, job, setup) ==>
          |t.queue| == |s.queue| + 1 && EntersAs(s.queue, job, setup.plan, t.queue[|s.queue|]))
  }

  lemma JoinHasEffect(s: State, job: Job, setup: Setup)
    requires FreshJob(job)
    ensures JoinEffect(s, Submit(s, job, setup), job, setup)
  {
    SubmitHasEffect(s, job, setup);
    RefusedExactly(s.queue, job, setup);
    if !Refused(s.queue, job, setup) { EnteringAs(s.queue, job, setup); }
  }

  // ---- Batches ------------------------------------------------------------------------------

  // With its download over, every entry without a child counts as failed, once.
  ghost predicate SettledTo(j: Job, j': Job)
  {
    if j.ready == Downloaded && j.batch.Some? && !j.batch.value.downloadSettled then
      && SameButBatch(j, j') && j'.batch.Some?
      && var (b, b') := (j.batch.value, j'.batch.value);
         && b'.entries == b.entries && b'.finished == b.finished && b'.downloadSettled
         && b'.failed == b.failed + |OpenEntries(b)|
    else j' == j
  }

  // Every entry is accounted for.
  predicate Over(j: Job)
  {
    && j.ready in {Downloaded, Downloading} && j.batch.Some?
    && 0 < |j.batch.value.entries| <= j.batch.value.finished + j.batch.value.failed
  }

  predicate Settles(j: Job, a: Action)
  {
    && j.ready == Downloaded && j.batch.Some? && !j.batch.value.downloadSettled
    && a == Settled(j.id, OpenEntries(j.batch.value))
  }

  ghost predicate SettleEntries(queue: seq<Job>, log: seq<Action>)
  {
    forall a :: a in log <==> exists j :: j in queue && Settles(j, a)
  }

  ghost predicate DoneEntries(queue: seq<Job>, log: seq<Action>)
  {
    forall a :: a in log <==> exists j :: j in queue && Over(j) && a == BatchDone(j.id)
  }

  // The landed batches settle, and then those that are over leave.
  ghost predicate BatchesEffect(s: State, t: State, settled: seq<Job>, settling: seq<Action>, done: seq<Action>)
  {
    && |settled| == |s.queue| && (forall k :: 0 <= k < |s.queue| ==> SettledTo(s.queue[k], settled[k]))
    && t == s.(queue := t.queue, log := s.log + settling + done)
    && SettleEntries(s.queue, settling) && DoneEntries(settled, done)
    && UniqueIds(t.queue) && SameOrder(settled, t.queue)
    && forall j :: j in t.queue <==> j in settled && !Over(j)
  }

  lemma {:induction false} SettleLogHolds(queue: seq<Job>, a: Action)
    ensures a in SettleLog(queue) <==> exists j :: j in queue && Settles(j, a)
  {
    if queue != [] {
      var n := |queue| - 1;
      SettleLogHolds(queue[..n], a);
      assert forall j :: j in queue <==> j in queue[..n] || j == queue[n];
      assert a in SettleLog(queue) <==> a in SettleLog(queue[..n]) || Settles(queue[n], a);
    }
  }

  lemma SettleLogEntries(queue: seq<Job>)
    ensures SettleEntries(queue, SettleLog(queue))
  {
    forall a ensures a in SettleLog(queue) <==> exists j :: j in queue && Settles(j, a) {
      SettleLogHolds(queue, a);
    }
  }

  lemma {:induction false} DoneLogEntries(queue: seq<Job>)
    ensures DoneEntries(queue, DoneLog(queue))
  {
    if queue != [] {
      DoneLogEntries(queue[..|queue| - 1]);
      assert forall j :: j in queue <==> j in queue[..|queue| - 1] || j == queue[|queue| - 1];
    }
  }

  lemma BatchesHaveEffect(s: State)
    requires UniqueIds(s.queue)
    ensures BatchesEffect(s, FinishBatches(s), Map(s.queue, SettleJob), SettleLog(s.queue),
                          DoneLog(Map(s.queue, SettleJob)))
  {
    var settled := Map(s.queue, SettleJob);
    DescendsMap(s.queue, SettleJob);
    SettleLogEntries(s.queue);
    DoneLogEntries(settled);
    FilterMembers(settled, (j: Job) => !BatchFinished(j));
    FilterInOrder(settled, (j: Job) => !BatchFinished(j));
  }

  // ---- Stalls -------------------------------------------------------------------------------

  predicate InFamily(j: Job, id: nat)
  {
    j.id == id || j.forwardParent == Some(id)
  }

  // A job that stays keeps all but its batch record, where the failure is counted.
  ghost predicate Witness(j: Job, j': Job, failing: Job)
  {
    !InFamily(j, failing.id) && SameButBatch(j, j') && Tallied(j, j', failing.batchParent, Failed)
  }

  // The batch that hears of a failure is queued and does not follow the job that failed.
  ghost predicate BatchHears(queue: seq<Job>, failing: Job)
  {
    exists j :: j in queue && failing.batchParent == Some(j.id) && j.batch.Some? && j.forwardParent != Some(failing.id)
  }

  // The job leaves with its followers, and its batch counts one failure.
  ghost predicate FailEffect(s: State, t: State, failing: Job)
  {
    && t == s.(queue := t.queue, log := t.log) && UniqueIds(t.queue)
    && (forall j' :: j' in t.queue ==> exists j :: j in s.queue && Witness(j, j', failing))
    && (forall j :: j in s.queue && !InFamily(j, failing.id) ==> exists j' :: j' in t.queue && Witness(j, j', failing))
    && t.log == s.log + if BatchHears(s.queue, failing) then [ChildDone(failing.batchParent.value, failing.id)] else []
  }

  // Before the batch is told: the failed job is marked and its followers are gone.
  lemma FailMarked(s: State, pos: nat)
    requires UniqueIds(s.queue) && pos < |s.queue| && s.queue[pos].forwardParent != Some(s.queue[pos].id)
    ensures var queue, id := FailSynced(s, pos).queue, s.queue[pos].id;
            && UniqueIds(queue)
            && forall j :: j in queue <==> j == FailedJob(s.queue[pos]) || (j in s.queue && !InFamily(j, id))
  {
    var job := FailedJob(s.queue[pos]);
    UpdateMembers(s.queue, pos, job);
    FilterMembers(s.queue[pos := job], (j: Job) => j.forwardParent != Some(job.id));
  }

  lemma TalliedAlike(j: Job, j': Job, job: Job, failing: Job)
    requires SameButBatch(j, j') && Tallied(j, j', job.batchParent, Failed) && job == FailedJob(failing)
    requires !InFamily(j, failing.id)
    ensures Witness(j, j', failing)
  {
  }

  lemma FailTold(queue: seq<Job>, told: seq<Job>, before: seq<Job>, failing: Job)
    requires UniqueIds(queue) && |told| == |queue| && failing in before
    requires forall j :: j in queue <==> j == FailedJob(failing) || (j in before && !InFamily(j, failing.id))
    requires forall k :: 0 <= k < |queue| ==>
               SameButBatch(queue[k], told[k]) && Tallied(queue[k], told[k], FailedJob(failing).batchParent, Failed)
    ensures var rest := Without(told, failing.id);
            && UniqueIds(rest)
            && (forall j' :: j' in rest ==> exists j :: j in before && Witness(j, j', failing))
            && (forall j :: j in before && !InFamily(j, failing.id) ==>
                  exists j' :: j' in rest && Witness(j, j', failing))
  {
    var rest := Without(told, failing.id);
    FilterMembers(told, (j: Job) => j.id != failing.id);
    forall j' | j' in rest ensures exists j :: j in before && Witness(j, j', failing) {
      var k :| 0 <= k < |told| && told[k] == j';
      assert queue[k] in queue;
      TalliedAlike(queue[k], j', FailedJob(failing), failing);
    }
    forall j | j in before && !InFamily(j, failing.id) ensures exists j' :: j' in rest && Witness(j, j', failing) {
      var k :| 0 <= k < |queue| && queue[k] == j;
      TalliedAlike(j, told[k], FailedJob(failing), failing);
      assert told[k] in told;
    }
  }

  lemma BatchStillHears(s: State, queue: seq<Job>, failing: Job)
    requires failing in s.queue && UniqueIds(s.queue) && failing.forwardParent != Some(failing.id)
    requires forall j :: j in queue <==> j == FailedJob(failing) || (j in s.queue && !InFamily(j, failing.id))
    ensures BatchHears(s.queue, failing) <==>
            failing.batchParent.Some? && HasBatch(queue, failing.batchParent.value)
  {
    if BatchHears(s.queue, failing) {
      var j :| j in s.queue && failing.batchParent == Some(j.id) && j.batch.Some?
          && j.forwardParent != Some(failing.id);
      if j.id == failing.id { SameIdSameJob(s.queue, j, failing); }
      assert FailedJob(failing) in queue;
    }
  }

  lemma FailHasEffect(s: State, pos: nat)
    requires UniqueIds(s.queue) && pos < |s.queue| && s.queue[pos].forwardParent != Some(s.queue[pos].id)
    ensures FailEffect(s, FailOne(s, s.queue[pos].id), s.queue[pos])
  {
    var failing, s1 := s.queue[pos], FailSynced(s, pos);
    var job := FailedJob(failing);
    FailMarked(s, pos);
    assert job in s1.queue && Position(s1.queue, failing.id).Some? && Position(s.queue, failing.id) == Some(pos);
    NotifyPositions(s1, job, Failed);
    FailTold(s1.queue, NotifyBatch(s1, job, Failed).queue, s.queue, failing);
    BatchStillHears(s, s1.queue, failing);
    FailLogs(s1, job);
    assert FailOne(s, failing.id) == NotifyBatch(s1, job, Failed).(queue := FailOne(s, failing.id).queue);
  }

  lemma FailLogs(s: State, job: Job)
    requires UniqueIds(s.queue)
    ensures NotifyBatch(s, job, Failed).log == s.log
            + if job.batchParent.Some? && HasBatch(s.queue, job.batchParent.value)
              then [ChildDone(job.batchParent.value, job.id)] else []
  {
    if job.batchParent.Some? { ParentHasEffect(s, job.batchParent.value, job.id, Failed); }
  }

  // One job of the list after the other, each if it is still queued.
  ghost predicate FailTurn(s: State, t: State, id: nat)
  {
    && ((forall j :: j in s.queue ==> j.id != id) ==> t == s)
    && forall j :: j in s.queue && j.id == id && j.forwardParent != Some(id) ==> FailEffect(s, t, j)
  }

  ghost predicate FailTurns(states: seq<State>, ids: seq<nat>)
  {
    |states| == |ids| + 1 && forall k :: 0 <= k < |ids| ==> FailTurn(states[k], states[k + 1], ids[k])
  }

  // One reboot, if there is anybody to fail, and then the failures.
  ghost predicate StallEffect(s: State, t: State, ids: seq<nat>)
  {
    if ids == [] then t == s
    else exists states :: FailTurns(states, ids) && states[0] == s.(reboots := s.reboots + 1) && states[|ids|] == t
  }

  lemma FailTurnTaken(s: State, id: nat)
    requires UniqueIds(s.queue)
    ensures FailTurn(s, FailOne(s, id), id)
  {
    forall j | j in s.queue && j.id == id && j.forwardParent != Some(id) ensures FailEffect(s, FailOne(s, id), j) {
      var k :| 0 <= k < |s.queue| && s.queue[k] == j;
      FailHasEffect(s, k);
    }
  }

  lemma {:induction false} FailTurnsTaken(s: State, ids: seq<nat>) returns (states: seq<State>)
    requires UniqueIds(s.queue)
    ensures FailTurns(states, ids) && states[0] == s && states[|ids|] == FailAll(s, ids)
    ensures UniqueIds(FailAll(s, ids).queue)
  {
    if ids == [] {
      states := [s];
    } else {
      var n := |ids| - 1;
      var before := FailTurnsTaken(s, ids[..n]);
      states := before + [FailAll(s, ids)];
      FailTurnTaken(before[n], ids[n]);
      FailOneMoves(before[n], ids[n]);
      OneMoreTurn(before, ids, FailAll(s, ids));
    }
  }

  lemma OneMoreTurn(states: seq<State>, ids: seq<nat>, t: State)
    requires ids != [] && FailTurns(states, ids[..|ids| - 1]) && FailTurn(states[|ids| - 1], t, ids[|ids| - 1])
    ensures FailTurns(states + [t], ids)
  {
    var more := states + [t];
    forall k | 0 <= k < |ids| ensures FailTurn(more[k], more[k + 1], ids[k]) {
      if k < |ids| - 1 { assert FailTurn(states[k], states[k + 1], ids[..|ids| - 1][k]); }
    }
  }

  lemma StallHasEffect(s: State, ids: seq<nat>)
    requires UniqueIds(s.queue)
    ensures StallEffect(s, FailStalled(s, ids), ids)
  {
    if ids != [] {
      var states := FailTurnsTaken(s.(reboots := s.reboots + 1), ids);
    }
  }
}

// The queue loop as it runs: one object whose methods change the queue and the counters in
// place, each proved to be the step function of module Jobs.
module Orchestrator {
  import opened Wrappers
  import opened Jobs
  import opened QueueFacts
  import opened Links
  import opened Effects
  import opened Rounds
  import opened Turns
  import Epochs
  import Batches

  // ---- Filters ------------------------------------------------------------------------------

  lemma {:induction false} FilterSame(queue: seq<Job>, keep: Job -> bool, keep': Job -> bool)
    requires forall j :: j in queue ==> keep(j) == keep'(j)
    ensures Filter(queue, keep) == Filter(queue, keep')
  {
    if queue != [] {
      assert queue[|queue| - 1] in queue;
      FilterSame(queue[..|queue| - 1], keep, keep');
    }
  }

  lemma {:induction false} FilterAppend(a: seq<Job>, b: seq<Job>, keep: Job -> bool)
    ensures Filter(a + b, keep) == Filter(a, keep) + Filter(b, keep)
  {
    if b == [] {
      assert a + b == a;
    } else {
      var n := |b| - 1;
      assert (a + b)[..|a + b| - 1] == a + b[..n];
      FilterAppend(a, b[..n], keep);
    }
  }

  lemma {:induction false} FilterAll(queue: seq<Job>, keep: Job -> bool)
    requires forall j :: j in queue ==> keep(j)
    ensures Filter(queue, keep) == queue
  {
    if queue != [] {
      var n := |queue| - 1;
      assert queue[n] in queue;
      FilterAll(queue[..n], keep);
      assert queue == queue[..n] + [queue[n]];
    }
  }

  lemma {:induction false} FilterDrops(queue: seq<Job>, keep: Job -> bool, pos: nat)
    requires pos < |queue| && forall k :: 0 <= k < |queue| ==> (keep(queue[k]) <==> k != pos)
    ensures Filter(queue, keep) == queue[..pos] + queue[pos + 1..]
  {
    var n := |queue| - 1;
    if pos == n {
      FilterAll(queue[..n], keep);
    } else {
      FilterDrops(queue[..n], keep, pos);
      assert queue[..n][..pos] + queue[..n][pos + 1..] + [queue[n]] == queue[..pos] + queue[pos + 1..];
    }
  }

  // Removing one position is filtering its id away.
  lemma RemoveIsFilter(queue: seq<Job>, pos: nat)
    requires UniqueIds(queue) && pos < |queue|
    ensures queue[..pos] + queue[pos + 1..] == Without(queue, queue[pos].id)
  {
    FilterDrops(queue, (j: Job) => j.id != queue[pos].id, pos);
  }

  // The ids of the jobs that satisfy a condition, in queue order.
  function IdsOf(queue: seq<Job>, wanted: Job -> bool): seq<nat>
  {
    if queue == [] then []
    else
      var n := |queue| - 1;
      IdsOf(queue[..n], wanted) + if wanted(queue[n]) then [queue[n].id] else []
  }

  lemma {:induction false} IdsOfContents(queue: seq<Job>, wanted: Job -> bool, id: nat)
    ensures id in IdsOf(queue, wanted) <==> exists j :: j in queue && wanted(j) && j.id == id
  {
    if queue != [] {
      var n := |queue| - 1;
      IdsOfContents(queue[..n], wanted, id);
      assert forall j :: j in queue <==> j in queue[..n] || j == queue[n];
    }
  }

  // With unique ids, exactly the wanted jobs carry these ids.
  lemma IdsOfWanted(queue: seq<Job>, wanted: Job -> bool)
    requires UniqueIds(queue)
    ensures forall j :: j in queue ==> (j.id in IdsOf(queue, wanted) <==> wanted(j))
  {
    forall j | j in queue ensures j.id in IdsOf(queue, wanted) <==> wanted(j) {
      IdsOfContents(queue, wanted, j.id);
    }
  }

  ghost predicate AllDistinct(ids: seq<nat>)
  {
    forall a, b :: 0 <= a < b < |ids| ==> ids[a] != ids[b]
  }

  lemma {:induction false} IdsOfDistinct(queue: seq<Job>, wanted: Job -> bool)
    requires UniqueIds(queue)
    ensures AllDistinct(IdsOf(queue, wanted))
  {
    if queue != [] {
      var n := |queue| - 1;
      IdsOfDistinct(queue[..n], wanted);
      IdsOfContents(queue[..n], wanted, queue[n].id);
    }
  }

  // The listed jobs changed.
  function Changed(queue: seq<Job>, ids: seq<nat>, f: Job -> Job): seq<Job>
  {
    Map(queue, (j: Job) => if j.id in ids then f(j) else j)
  }

  lemma ChangeOne(queue: seq<Job>, ids: seq<nat>, id: nat, f: Job -> Job, pos: nat)
    requires UniqueIds(queue) && (forall j :: f(j).id == j.id) && pos < |queue| && queue[pos].id == id && id !in ids
    ensures Changed(queue, ids, f)[pos] == queue[pos]
    ensures Changed(queue, ids, f)[pos := f(queue[pos])] == Changed(queue, ids + [id], f)
  {
  }

  lemma ChangedIds(queue: seq<Job>, ids: seq<nat>, f: Job -> Job)
    requires forall j :: f(j).id == j.id
    ensures |Changed(queue, ids, f)| == |queue| && forall k :: 0 <= k < |queue| ==>
                Changed(queue, ids, f)[k].id == queue[k].id
  {
  }

  lemma ChangedAll(queue: seq<Job>, ids: seq<nat>, f: Job -> Job)
    requires forall j :: j in queue ==> j.id in ids || f(j) == j
    ensures Changed(queue, ids, f) == Map(queue, f)
  {
    forall k | 0 <= k < |queue| ensures Changed(queue, ids, f)[k] == Map(queue, f)[k] {
      assert queue[k] in queue;
    }
  }

  lemma ChangedNone(queue: seq<Job>, f: Job -> Job)
    ensures Changed(queue, [], f) == queue
  {
  }

  // The listed jobs taken out.
  function Lacking(queue: seq<Job>, ids: seq<nat>): seq<Job>
  {
    Filter(queue, (j: Job) => j.id !in ids)
  }

  lemma LackingNone(queue: seq<Job>)
    ensures Lacking(queue, []) == queue
  {
    var ids: seq<nat> := [];
    FilterAll(queue, (j: Job) => j.id !in ids);
  }

  lemma LackingNext(queue: seq<Job>, ids: seq<nat>, id: nat)
    ensures Without(Lacking(queue, ids), id) == Lacking(queue, ids + [id])
  {
    var more := ids + [id];
    FilterTwice(queue, (j: Job) => j.id !in ids, (j: Job) => j.id != id, (j: Job) => j.id !in more);
  }

  lemma LackingUnique(queue: seq<Job>, ids: seq<nat>)
    requires UniqueIds(queue)
    ensures UniqueIds(Lacking(queue, ids))
  {
    FilterUnique(queue, (j: Job) => j.id !in ids);
  }

  lemma LackingWanted(queue: seq<Job>, wanted: Job -> bool, keep: Job -> bool)
    requires UniqueIds(queue) && forall j :: j in queue ==> keep(j) == !wanted(j)
    ensures Lacking(queue, IdsOf(queue, wanted)) == Filter(queue, keep)
  {
    IdsOfWanted(queue, wanted);
    FilterSame(queue, (j: Job) => j.id !in IdsOf(queue, wanted), keep);
  }

  // Links, dispatch epochs and batch turns are all in order.
  ghost predicate KeptByAll(s: State)
  {
    LinkInv(s) && Epochs.EpochInv(s) && Batches.TurnInv(s)
  }

  lemma StepKeepsAll(s: State, e: Event)
    requires KeptByAll(s) && Possible(s, e)
    ensures KeptByAll(Step(s, e))
  {
    StepLinks(s, e);
    Epochs.StepKeeps(s, e);
    Batches.StepTurns(s, e);
  }

  lemma TurnUnique(queue: seq<Job>, i: nat, c: Circumstance, p: Pass)
    requires UniqueIds(queue) && i < |queue|
    ensures UniqueIds(queue[i := Advance(queue[i], c, p).0])
  {
    AdvanceLinks(queue[i], c, p);
    UpdateMembers(queue, i, Advance(queue[i], c, p).0);
  }

  lemma SettledUnique(queue: seq<Job>)
    requires UniqueIds(queue)
    ensures UniqueIds(Map(queue, SettleJob))
  {
    DescendsMap(queue, SettleJob);
  }

  lemma ProgressIs(s: State, cs: seq<Circumstance>, queue: seq<Job>, p: Pass)
    requires |cs| == |s.queue| && (queue, p) == AdvanceFrom(s.queue, cs, 0, StartPass(s))
    ensures Progress(s, cs) == s.(queue := Filter(SyncUploads(queue, p.uploads), (j: Job) => j.id !in p.dead),
                                  reboots := p.reboots, nextOrder := p.nextOrder, sinceBatch := p.sinceBatch,
                                      log := p.log)
  {
  }

  lemma FailAllNext(s: State, ids: seq<nat>, n: nat)
    requires n < |ids|
    ensures FailAll(s, ids[..n + 1]) == FailOne(FailAll(s, ids[..n]), ids[n])
  {
    assert ids[..n + 1][..n] == ids[..n];
  }

  class Loop {
    var queue: seq<Job>
    var reboots: nat
    var known: nat
    var nextOrder: nat
    var sinceBatch: nat
    var log: seq<Action>
    ghost var used: set<nat>

    ghost function Snapshot(): State
      reads this
    {
      State(queue, reboots, known, nextOrder, sinceBatch, used, log)
    }

    ghost predicate Valid()
      reads this
    {
      KeptByAll(Snapshot())
    }

    constructor (start: nat, ghost earlier: set<nat>)
      ensures Snapshot() == Initial(start, earlier) && Valid()
    {
      queue, reboots, known, nextOrder, sinceBatch := [], start, start, 1, 0;
      log := [];
      used := earlier;
    }

    // ---- Encoder reboots --------------------------------------------------------------------

    // reset_encode_dispatches_after_reboot
    method ResetEncodeDispatches(epoch: nat)
      modifies `queue
      ensures queue == ResetDispatches(old(queue), epoch)
    {
      var i := 0;
      while i < |queue|
        invariant i <= |queue| == |old(queue)|
        invariant forall k :: 0 <= k < i ==> queue[k] == ResetJob(old(queue)[k], epoch)
        invariant forall k :: i <= k < |queue| ==> queue[k] == old(queue)[k]
      {
        if queue[i].epoch < epoch && Waiting(queue[i]) {
          queue := queue[i := queue[i].(dispatched := false, order := None)];
        }
        i := i + 1;
      }
    }

    method CheckEncodeRebootEpoch()
      modifies `queue, `known
      ensures Snapshot() == CheckEpoch(old(Snapshot())) && CheckEffect(old(Snapshot()), Snapshot())
      ensures Epochs.EpochInv(old(Snapshot())) ==> forall j :: j in queue && j.dispatched && Waiting(j) ==>
                  j.epoch == reboots
    {
      CheckHasEffect(Snapshot());
      Epochs.AllCurrent(Snapshot());
      if reboots != known {
        ResetEncodeDispatches(reboots);
        known := reboots;
      }
    }

    // ---- Forwarding -------------------------------------------------------------------------

    method FindQueuedParent(job: Job) returns (parent: Option<Parent>)
      ensures parent == QueuedEncodeParent(job, queue)
    {
      if !IsForwardable(job) { return None; }
      var i := 0;
      while i < |queue|
        invariant i <= |queue|
        invariant FirstParent(job, queue) == FirstParent(job, queue[i..])
      {
        var other := queue[i];
        assert queue[i..][1..] == queue[i + 1..];
        if MayParent(job, other) {
          return Some(Parent(other.id, other.ready, ForwardedWorker(other.worker)));
        }
        i := i + 1;
      }
      assert queue[i..] == [];
      parent := None;
    }

    // sync_forwarded_state: the ids first, then each job by its position.
    method SyncForwardedState(parentId: nat, stage: Option<Stage>, worker: Option<string>)
      requires UniqueIds(queue)
      modifies `queue
      ensures queue == SyncState(old(queue), parentId, stage, worker)
      ensures UniqueIds(queue)
    {
      ghost var before := queue;
      ghost var f := (j: Job) => SyncedJob(j, parentId, stage, worker);
      var wanted := (j: Job) => j.forwardParent == Some(parentId);
      var ids := IdsOf(queue, wanted);
      IdsOfWanted(before, wanted);
      IdsOfDistinct(before, wanted);
      var n := 0;
      ChangedNone(before, f);
      while n < |ids|
        invariant n <= |ids|
        invariant queue == Changed(before, ids[..n], f)
      {
        var found := Position(queue, ids[n]);
        if found.Some? {
          assert ids[n] !in ids[..n];
          SyncAt(before, ids[..n], ids[n], found.value, parentId, stage, worker);
        }
        assert ids[..n + 1] == ids[..n] + [ids[n]];
        n := n + 1;
      }
      assert ids[..n] == ids;
      ChangedAll(before, ids, f);
      DescendsSync(before, parentId, stage, worker);
    }

    method SyncAt(ghost before: seq<Job>, ghost ids: seq<nat>, ghost id: nat, pos: nat,
                  ghost parentId: nat, stage: Option<Stage>, worker: Option<string>)
      requires UniqueIds(before) && queue == Changed(before, ids, (j: Job) => SyncedJob(j, parentId, stage, worker))
      requires id !in ids && pos < |queue| && queue[pos].id == id
      requires forall j :: j in before && j.id == id ==> j.forwardParent == Some(parentId)
      modifies `queue
      ensures queue == Changed(before, ids + [id], (j: Job) => SyncedJob(j, parentId, stage, worker))
    {
      ghost var f := (j: Job) => SyncedJob(j, parentId, stage, worker);
      ChangedIds(before, ids, f);
      assert before[pos] in before;
      ChangeOne(before, ids, id, f, pos);
      if stage.Some? {
        queue := queue[pos := queue[pos].(ready := stage.value)];
      }
      if worker.Some? {
        queue := queue[pos := queue[pos].(worker := worker.value)];
      }
    }

    // sync_forwarded_jobs: a terminal stage also takes the forwarded jobs out.
    method SyncForwardedJobs(parentId: nat, stage: Option<Stage>, parentWorker: string)
      requires UniqueIds(queue)
      modifies `queue
      ensures queue == SyncJobs(old(queue), parentId, stage, parentWorker)
      ensures UniqueIds(queue)
    {
      if stage.Some? && IsTerminal(stage.value) {
        TakeOutForwarded(parentId);
      } else {
        SyncForwardedState(parentId, stage, Some(ForwardedWorker(parentWorker)));
      }
    }

    method TakeOutForwarded(parentId: nat)
      requires UniqueIds(queue)
      modifies `queue
      ensures queue == Filter(old(queue), (j: Job) => j.forwardParent != Some(parentId))
      ensures UniqueIds(queue)
    {
      ghost var before := queue;
      var ids := IdsOf(queue, (j: Job) => j.forwardParent == Some(parentId));
      var n := 0;
      LackingNone(before);
      while n < |ids|
        invariant n <= |ids|
        invariant queue == Lacking(before, ids[..n])
      {
        assert ids[..n + 1] == ids[..n] + [ids[n]];
        LackingNext(before, ids[..n], ids[n]);
        LackingUnique(before, ids[..n]);
        var found := Position(queue, ids[n]);
        if found.Some? {
          RemoveIsFilter(queue, found.value);
          queue := queue[..found.value] + queue[found.value + 1..];
        } else {
          FilterAll(queue, (j: Job) => j.id != ids[n]);
        }
        n := n + 1;
      }
      assert ids[..n] == ids;
      LackingUnique(before, ids);
      LackingWanted(before, (j: Job) => j.forwardParent == Some(parentId),
                    (j: Job) => j.forwardParent != Some(parentId));
    }

    // ---- Batches ----------------------------------------------------------------------------

    method UpdateParent(parentId: nat, childId: nat, stage: Stage)
      requires UniqueIds(queue)
      modifies `queue, `log
      ensures Snapshot() == UpdateBatchParent(old(Snapshot()), parentId, childId, stage)
      ensures ParentEffect(old(Snapshot()), Snapshot(), parentId, childId, stage)
      ensures UniqueIds(queue)
    {
      ParentHasEffect(Snapshot(), parentId, childId, stage);
      var found := Position(queue, parentId);
      if found.None? || queue[found.value].batch.None? { return; }
      var pos := found.value;
      if !IsTerminal(stage) { return; }
      var b := queue[pos].batch.value;
      if stage == Uploaded {
        b := b.(finished := b.finished + 1);
      } else {
        b := b.(failed := b.failed + 1);
      }
      SetBatchMembers(queue, pos, b);
      queue := queue[pos := queue[pos].(batch := Some(b))];
      log := log + [ChildDone(parentId, childId)];
    }

    method SpawnChild(pos: nat, fileIndex: nat, h: HandOff)
      requires pos < |queue|
      modifies `queue, `used, `log
      ensures Snapshot() == SpawnBatchChild(old(Snapshot()), pos, fileIndex, h)
      ensures SpawnEffect(old(Snapshot()), Snapshot(), pos, fileIndex, h)
    {
      SpawnHasEffect(Snapshot(), pos, fileIndex, h);
      var parent := queue[pos];
      if parent.batch.None? { return; }
      var b := parent.batch.value;
      var at := EntryFor(b.entries, fileIndex);
      if at.None? || b.entries[at.value].jobId.Some? { return; }
      match h
      case NoChild =>
        queue := queue[pos := queue[pos].(batch := Some(b.(failed := b.failed + 1)))];
        log := log + [Missed(parent.id)];
      case Child(id, _, _) =>
        var entry := b.entries[at.value].(jobId := Some(id));
        queue := queue[pos := queue[pos].(batch := Some(b.(entries := b.entries[at.value := entry])))];
        queue := queue + [BatchChild(parent, h)];
        used := used + {id};
    }

    // settle_download
    method Settle(b: Batch) returns (settled: Batch)
      ensures settled == SettleDownload(b)
    {
      if b.downloadSettled { return b; }
      var unmet, i := 0, 0;
      while i < |b.entries|
        invariant i <= |b.entries|
        invariant unmet == |set k: nat | k < i && b.entries[k].jobId.None?|
      {
        ghost var seen := set k: nat | k < i && b.entries[k].jobId.None?;
        ghost var next := set k: nat | k < i + 1 && b.entries[k].jobId.None?;
        if b.entries[i].jobId.None? {
          assert next == seen + {i};
          unmet := unmet + 1;
        } else {
          assert next == seen;
        }
        i := i + 1;
      }
      assert OpenEntries(b) == set k: nat | k < i && b.entries[k].jobId.None?;
      settled := b.(downloadSettled := true, failed := b.failed + unmet);
    }

    // do_batch_parent_things
    method BatchParentThings()
      requires UniqueIds(queue)
      modifies `queue, `log
      ensures Snapshot() == FinishBatches(old(Snapshot()))
      ensures exists settled, settling, done :: BatchesEffect(old(Snapshot()), Snapshot(), settled, settling, done)
    {
      BatchesHaveEffect(Snapshot());
      SettledUnique(queue);
      log := log + SettleLog(queue);
      SettleDownloads();
      log := log + DoneLog(queue);
      TakeOutFinished();
    }

    method SettleDownloads()
      requires UniqueIds(queue)
      modifies `queue
      ensures queue == Map(old(queue), SettleJob)
    {
      ghost var before := queue;
      var ids := IdsOf(queue, NeedsSettling);
      IdsOfWanted(before, NeedsSettling);
      IdsOfDistinct(before, NeedsSettling);
      var n := 0;
      ChangedNone(before, SettleJob);
      while n < |ids|
        invariant n <= |ids|
        invariant queue == Changed(before, ids[..n], SettleJob)
      {
        var found := Position(queue, ids[n]);
        if found.Some? {
          assert ids[n] !in ids[..n];
          SettleAt(before, ids[..n], ids[n], found.value);
        }
        assert ids[..n + 1] == ids[..n] + [ids[n]];
        n := n + 1;
      }
      assert ids[..n] == ids;
      ChangedAll(before, ids, SettleJob);
    }

    method SettleAt(ghost before: seq<Job>, ghost ids: seq<nat>, ghost id: nat, pos: nat)
      requires UniqueIds(before) && queue == Changed(before, ids, SettleJob) && id !in ids
      requires pos < |queue| && queue[pos].id == id
      requires forall j :: j in before && j.id == id ==> NeedsSettling(j)
      modifies `queue
      ensures queue == Changed(before, ids + [id], SettleJob)
    {
      ChangedIds(before, ids, SettleJob);
      assert before[pos] in before;
      ChangeOne(before, ids, id, SettleJob, pos);
      var b := Settle(queue[pos].batch.value);
      queue := queue[pos := queue[pos].(batch := Some(b))];
    }

    method TakeOutFinished()
      requires UniqueIds(queue)
      modifies `queue
      ensures queue == Filter(old(queue), (j: Job) => !BatchFinished(j))
    {
      ghost var before := queue;
      var ids := IdsOf(queue, BatchFinished);
      var n := 0;
      LackingNone(before);
      while n < |ids|
        invariant n <= |ids|
        invariant queue == Lacking(before, ids[..n])
      {
        assert ids[..n + 1] == ids[..n] + [ids[n]];
        LackingNext(before, ids[..n], ids[n]);
        queue := Without(queue, ids[n]);
        n := n + 1;
      }
      assert ids[..n] == ids;
      LackingWanted(before, BatchFinished, (j: Job) => !BatchFinished(j));
    }

    // ---- Worker messages --------------------------------------------------------------------

    method NotifyParent(job: Job, stage: Stage)
      requires UniqueIds(queue)
      modifies `queue, `log
      ensures Snapshot() == NotifyBatch(old(Snapshot()), job, stage)
      ensures UniqueIds(queue)
    {
      if job.batchParent.Some? {
        UpdateParent(job.batchParent.value, job.id, stage);
      }
    }

    // The finished job's probe and the job itself leave.
    method TakeOutJob(job: Job)
      requires UniqueIds(queue)
      modifies `queue
      ensures queue == Without(DropProbe(old(queue), job.probeJob), job.id)
      ensures UniqueIds(queue)
    {
      if job.probeJob.Some? {
        var found := Position(queue, job.probeJob.value);
        if found.Some? {
          DescendsRemove(queue, found.value);
          queue := queue[..found.value] + queue[found.value + 1..];
        }
      }
      FilterUnique(queue, (j: Job) => j.id != job.id);
      queue := Without(queue, job.id);
    }

    method HandleReport(pos: nat, stage: Option<Stage>)
      requires UniqueIds(queue) && pos < |queue|
      modifies `queue, `log
      ensures Snapshot() == ReportStep(old(Snapshot()), pos, stage)
      ensures ReportEffect(old(Snapshot()), Snapshot(), pos, stage)
    {
      ReportHasEffect(Snapshot(), pos, stage);
      var job := queue[pos];
      if stage.Some? {
        job := job.(ready := stage.value);
        if stage.value != Encoding {
          job := job.(dispatched := false, order := None);
        }
        log := log + [Reported(job.id)];
      }
      UpdateMembers(queue, pos, job);
      queue := queue[pos := job];
      if stage.Some? {
        NotifyParent(job, stage.value);
      }
      SyncForwardedJobs(job.id, stage, job.worker);
      if Finished(job.ready) {
        TakeOutJob(job);
      }
    }

    method AssignWorker(pos: nat, worker: string)
      requires UniqueIds(queue) && pos < |queue|
      modifies `queue
      ensures var named := old(queue)[pos := old(queue)[pos].(worker := worker)];
              queue == SyncState(named, old(queue)[pos].id, None, Some(ForwardedWorker(worker)))
    {
      var id := queue[pos].id;
      DescendsUpdate(queue, pos, queue[pos].(worker := worker));
      queue := queue[pos := queue[pos].(worker := worker)];
      SyncForwardedState(id, None, Some(ForwardedWorker(worker)));
    }

    // do_worker_message_things
    method WorkerMessage(id: nat, message: Message)
      requires UniqueIds(queue)
      modifies `queue, `used, `log
      ensures Snapshot() == Receive(old(Snapshot()), id, message)
      ensures ReceiveEffect(old(Snapshot()), Snapshot(), id, message)
    {
      ReceiveHasEffect(Snapshot(), id, message);
      var found := Position(queue, id);
      if found.None? { return; }
      var pos := found.value;
      match message
      case Assign(worker) => AssignWorker(pos, worker);
      case Warning =>
      case FileDone(fileIndex, handOff) => SpawnChild(pos, fileIndex, handOff);
      case DuplicateWait(owner) => queue := queue[pos := queue[pos].(duplicateSource := Some(owner))];
      case Report(stage) => HandleReport(pos, stage);
    }

    // ---- Cancelling and stalls --------------------------------------------------------------

    method Cancel(id: nat, author: nat)
      requires UniqueIds(queue)
      modifies `queue
      ensures Snapshot() == CancelJob(old(Snapshot()), id, author)
      ensures CancelEffect(old(Snapshot()), Snapshot(), id, author)
    {
      CancelHasEffect(Snapshot(), id, author);
      var found := OwnedPosition(queue, id, author);
      if found.None? || !CancelledAtOnce(queue[found.value]) { return; }
      SyncForwardedJobs(id, Some(Cancelled), queue[found.value].worker);
      queue := Without(queue, id);
    }

    method FailStalledJob(id: nat)
      requires UniqueIds(queue)
      modifies `queue, `log
      ensures Snapshot() == FailOne(old(Snapshot()), id) && FailTurn(old(Snapshot()), Snapshot(), id)
      ensures UniqueIds(queue)
    {
      FailTurnTaken(Snapshot(), id);
      var found := Position(queue, id);
      if found.None? { return; }
      var job := queue[found.value].(ready := Failed, dispatched := false, order := None);
      UpdateMembers(queue, found.value, job);
      queue := queue[found.value := job];
      SyncForwardedJobs(id, Some(Failed), ForwardedWorker(job.worker));
      if Position(queue, id).Some? {
        NotifyParent(job, Failed);
      }
      FilterUnique(queue, (j: Job) => j.id != id);
      queue := Without(queue, id);
    }

    method FailEach(ids: seq<nat>)
      requires UniqueIds(queue)
      modifies `queue, `log
      ensures Snapshot() == FailAll(old(Snapshot()), ids)
    {
      ghost var before := Snapshot();
      var n := 0;
      while n < |ids|
        invariant n <= |ids| && UniqueIds(queue)
        invariant Snapshot() == FailAll(before, ids[..n])
      {
        FailAllNext(before, ids, n);
        FailStalledJob(ids[n]);
        n := n + 1;
      }
      assert ids[..n] == ids;
    }

    // do_encode_stall_things: one reboot, then every stalled job fails.
    method FailStalledJobs(ids: seq<nat>)
      requires UniqueIds(queue)
      modifies `queue, `log, `reboots
      ensures Snapshot() == FailStalled(old(Snapshot()), ids) && StallEffect(old(Snapshot()), Snapshot(), ids)
    {
      StallHasEffect(Snapshot(), ids);
      if ids == [] { return; }
      reboots := reboots + 1;
      FailEach(ids);
    }

    // ---- Submission -------------------------------------------------------------------------

    // Puts a prepared job into the queue.
    method Push(job: Job)
      modifies `queue
      ensures queue == old(queue) + [job]
    {
      queue := queue + [job];
    }

    method QueueEncodeJob(job: Job, plan: Plan)
      requires job.kind == Encode && job.worker == "dwl-pending"
      modifies `queue, `log
      ensures var parent := QueuedEncodeParent(job, old(queue));
              if parent.Some? then
                queue == old(queue) + [MarkForwarded(job, parent.value)]
                && log == old(log) + [Linked(job.id, parent.value.id)]
              else
                queue == old(queue) + [StartDownload(job, plan)] && log == old(log)
    {
      var parent := FindQueuedParent(job);
      if parent.Some? {
        Push(MarkForwarded(job, parent.value));
        log := log + [Linked(job.id, parent.value.id)];
      } else {
        Push(StartDownload(job, plan));
      }
    }

    // do_queue_things for a job
    method QueueJob(job: Job, setup: Setup)
      requires FreshJob(job)
      modifies `queue, `reboots, `used, `log
      ensures Snapshot() == Submit(old(Snapshot()), job, setup)
      ensures JoinEffect(old(Snapshot()), Snapshot(), job, setup)
    {
      JoinHasEffect(Snapshot(), job, setup);
      TakeIn(job, setup);
    }

    method TakeIn(job: Job, setup: Setup)
      requires FreshJob(job)
      modifies `queue, `reboots, `used, `log
      ensures Snapshot() == Submit(old(Snapshot()), job, setup)
    {
      used := used + {job.id};
      if setup.gitBlocked && IsEncodeType(job.kind) { return; }
      if CountTopLevel(queue) > 4 { return; }
      if !setup.setUp { return; }
      if job.kind == Encode {
        QueueEncodeJob(job.(worker := "dwl-pending"), setup.plan);
      } else {
        QueueOtherJob(job, setup);
      }
    }

    method QueueOtherJob(job: Job, setup: Setup)
      requires job.kind != Encode && CountTopLevel(queue) <= 4 && setup.setUp
               && !(setup.gitBlocked && IsEncodeType(job.kind))
      modifies `queue, `reboots, `log
      ensures var entering := Entering(old(queue), job, setup);
              queue == old(queue) + if entering.Some? then [entering.value] else []
      ensures if job.kind == Studio then
                reboots == old(reboots) + setup.bumps && log == old(log) + [Sent(job.id, reboots)]
              else reboots == old(reboots) && log == old(log)
    {
      match job.kind
      case Pancode | Subs | Backup | Preview => Push(StartDownload(job.(worker := "dwl-pending"), setup.plan));
      case BatchDownload =>
        if job.batch.None? || job.batch.value.entries == [] { return; }
        Push(StartDownload(job.(worker := "dwl-pending"), Fetch));
      case BackupAll => Push(StartDownload(job.(worker := "dwl-pending"), Fetch));
      case Probe => Push(job.(worker := "prw-pending", ready := Probing));
      case Keycode => Push(job.(worker := "key-wait"));
      case Studio =>
        reboots := reboots + setup.bumps;
        log := log + [Sent(job.id, reboots)];
        Push(job.(worker := "enc-main", ready := Encoding, dispatched := true));
      case StudioPreview => Push(job.(worker := "prw-pending", ready := Encoding));
      case Scrape => Push(job);
    }

    // ---- The progression pass ---------------------------------------------------------------

    // The first job of a key wins.
    method AddParentKeys(before: map<nat, Parent>, keys: seq<nat>, parent: Parent) returns (parents: map<nat, Parent>)
      ensures parents == AddParents(before, keys, parent)
    {
      parents := before;
      var k := 0;
      while k < |keys|
        invariant k <= |keys| && parents == AddParents(before, keys[..k], parent)
      {
        assert keys[..k + 1][..k] == keys[..k];
        if keys[k] !in parents {
          parents := parents[keys[k] := parent];
        }
        k := k + 1;
      }
      assert keys[..k] == keys;
    }

    method AddSourceKeys(before: map<nat, nat>, keys: seq<nat>, owner: nat) returns (sources: map<nat, nat>)
      ensures sources == AddSources(before, keys, owner)
    {
      sources := before;
      var k := 0;
      while k < |keys|
        invariant k <= |keys| && sources == AddSources(before, keys[..k], owner)
      {
        assert keys[..k + 1][..k] == keys[..k];
        if keys[k] !in sources {
          sources := sources[keys[k] := owner];
        }
        k := k + 1;
      }
      assert keys[..k] == keys;
    }

    method CollectSources() returns (sources: map<nat, nat>)
      ensures sources == ActiveSources(queue)
    {
      sources := map[];
      var i := 0;
      while i < |queue|
        invariant i <= |queue| && sources == ActiveSources(queue[..i])
      {
        assert queue[..i + 1][..i] == queue[..i];
        if ActiveSource(queue[i]) {
          sources := AddSourceKeys(sources, queue[i].cacheKeys, queue[i].id);
        }
        i := i + 1;
      }
      assert queue[..i] == queue;
    }

    method CollectParents() returns (parents: map<nat, Parent>)
      ensures parents == ActiveParents(queue)
    {
      parents := map[];
      var i := 0;
      while i < |queue|
        invariant i <= |queue| && parents == ActiveParents(queue[..i])
      {
        var j := queue[i];
        assert queue[..i + 1][..i] == queue[..i];
        if ActiveParent(j) {
          parents := AddParentKeys(parents, j.forwardKeys, Parent(j.id, j.ready, ForwardedWorker(j.worker)));
        }
        i := i + 1;
      }
      assert queue[..i] == queue;
    }

    method LookUpParent(parents: map<nat, Parent>, keys: seq<nat>) returns (parent: Option<Parent>)
      ensures parent == FindParent(parents, keys)
    {
      var k := 0;
      while k < |keys|
        invariant k <= |keys| && FindParent(parents, keys) == FindParent(parents, keys[k..])
      {
        assert keys[k..][1..] == keys[k + 1..];
        if keys[k] in parents { return Some(parents[keys[k]]); }
        k := k + 1;
      }
      assert keys[k..] == [];
      parent := None;
    }

    method LookUpSource(sources: map<nat, nat>, keys: seq<nat>) returns (source: Option<nat>)
      ensures source == FindSource(sources, keys)
    {
      var k := 0;
      while k < |keys|
        invariant k <= |keys| && FindSource(sources, keys) == FindSource(sources, keys[k..])
      {
        assert keys[k..][1..] == keys[k + 1..];
        if keys[k] in sources { return Some(sources[keys[k]]); }
        k := k + 1;
      }
      assert keys[k..] == [];
      source := None;
    }

    // Is a batch child with the encoder, and is another encode waiting for it?
    method SurveyQueue() returns (inFlight: bool, othersWaiting: bool)
      ensures inFlight <==> exists k :: 0 <= k < |queue| && BatchInFlight(queue[k])
      ensures othersWaiting <==> exists k :: 0 <= k < |queue| && OrdinaryWaiting(queue[k])
    {
      inFlight, othersWaiting := false, false;
      var i := 0;
      while i < |queue|
        invariant i <= |queue|
        invariant inFlight <==> exists k :: 0 <= k < i && BatchInFlight(queue[k])
        invariant othersWaiting <==> exists k :: 0 <= k < i && OrdinaryWaiting(queue[k])
      {
        inFlight := inFlight || BatchInFlight(queue[i]);
        othersWaiting := othersWaiting || OrdinaryWaiting(queue[i]);
        i := i + 1;
      }
    }

    // The message may reboot the layer on its way in, so the epoch is read after it.
    method Send(job: Job, bumps: nat, p: Pass) returns (sent: Job, after: Pass)
      ensures sent == MarkDispatched(job.(worker := "enc-main"), p.nextOrder, p.reboots + bumps)
      ensures after == p.(reboots := p.reboots + bumps, nextOrder := p.nextOrder + 1, log := p.log
                          + [Sent(job.id, p.reboots + bumps)])
    {
      after := p.(reboots := p.reboots + bumps);
      after := after.(log := after.log + [Sent(job.id, after.reboots)]);
      sent := job.(worker := "enc-main", dispatched := true, order := Some(after.nextOrder), epoch := after.reboots);
      after := after.(nextOrder := after.nextOrder + 1);
    }

    method KeycodeTurn(j: Job, c: Circumstance, p: Pass) returns (job: Job, after: Pass)
      ensures (job, after) == DispatchKeycode(j, c, p)
    {
      job, after := j, p;
      match c.keywords
      case KeywordsWaiting => job := job.(worker := "key-wait");
      case KeywordsFailed =>
        job := job.(ready := Failed, worker := "key-fail");
        after := after.(dead := after.dead + {job.id});
      case KeywordsReady => job, after := Send(job, c.bumps, after);
    }

    method DispatchTurn(j: Job, c: Circumstance, p: Pass) returns (job: Job, after: Pass)
      ensures (job, after) == DispatchEncode(j, c, p)
    {
      job, after := Send(j, c.bumps, p);
      after := after.(log := after.log + [Dispatched(job.id, job.batchParent.Some?, p.othersWaiting)]);
      if job.batchParent.Some? {
        after := after.(inFlight := true, sinceBatch := 0);
      } else {
        after := after.(sinceBatch := after.sinceBatch + 1);
      }
      var sources := AddSourceKeys(after.sources, job.cacheKeys, job.id);
      var parents := AddParentKeys(after.parents, job.forwardKeys,
                                   Parent(job.id, Downloaded, ForwardedWorker(job.worker)));
      after := after.(sources := sources, parents := parents);
      assert p.log + [Sent(j.id, after.reboots)] + [Dispatched(j.id, j.batchParent.Some?, p.othersWaiting)]
          == p.log + [Sent(j.id, after.reboots), Dispatched(j.id, j.batchParent.Some?, p.othersWaiting)];
    }

    method EncodeTurn(j: Job, c: Circumstance, p: Pass) returns (job: Job, after: Pass)
      ensures (job, after) == AdvanceEncode(j, c, p) && EncodeEffect(j, c, p, job, after)
    {
      EncodeHasEffect(j, c, p);
      job, after := j, p;
      if job.dispatched { return; }
      if c.cancelMarked { return; }
      var parent := LookUpParent(p.parents, job.forwardKeys);
      if parent.Some? && parent.value.id != job.id {
        job := MarkForwarded(job, parent.value);
        after := after.(log := after.log + [Linked(job.id, parent.value.id)]);
        return;
      }
      var source := LookUpSource(p.sources, job.cacheKeys);
      if source.Some? {
        job := job.(duplicateSource := source, ready := Downloading, worker := "dwl-cache");
        return;
      }
      if job.batchParent.Some? && !BatchChildMayDispatch(p.inFlight, p.othersWaiting, p.sinceBatch) { return; }
      job, after := DispatchTurn(job, c, after);
    }

    method JobTurn(j: Job, c: Circumstance, p: Pass) returns (job: Job, after: Pass)
      ensures (job, after) == Advance(j, c, p) && TurnEffect(j, c, p, job, after)
    {
      TurnHasEffect(j, c, p);
      job, after := j, p;
      if job.forwardParent.Some? || job.batch.Some? || job.ready == Probed { return; }
      if job.kind == Keycode && job.ready == Queued && !job.dispatched {
        job, after := KeycodeTurn(job, c, after);
        return;
      }
      if job.ready == Downloaded {
        match job.kind
        case Subs => job := job.(worker := "prw-pending", ready := Encoding);
        case Preview =>
          if !c.hasRequest {
            job := job.(ready := Failed);
            after := after.(dead := after.dead + {job.id});
          } else {
            job := job.(worker := "prw-pending", ready := Encoding);
          }
        case Backup =>
          if job.keep {
            after := after.(dead := after.dead + {job.id});
          } else {
            job := job.(worker := "upl-pending", ready := Uploading);
          }
        case BackupAll => job := job.(worker := "upl-pending", ready := Uploading);
        case _ => job, after := EncodeTurn(job, c, after);
      } else if job.ready == Encoded {
        if job.keep {
          after := after.(dead := after.dead + {job.id});
        } else {
          job := job.(worker := "upl-pending", ready := Uploading);
          after := after.(uploads := after.uploads + [(job.id, ForwardedWorker(job.worker))]);
        }
      }
    }

    method SyncForwardedUploads(uploads: seq<(nat, string)>)
      requires UniqueIds(queue)
      modifies `queue
      ensures queue == SyncUploads(old(queue), uploads)
    {
      ghost var before := queue;
      var k := 0;
      while k < |uploads|
        invariant k <= |uploads| && UniqueIds(queue)
        invariant queue == SyncUploads(before, uploads[..k])
      {
        assert uploads[..k + 1][..k] == uploads[..k];
        SyncForwardedState(uploads[k].0, Some(Uploading), Some(uploads[k].1));
        k := k + 1;
      }
      assert uploads[..k] == uploads;
    }

    // The loop over the queue, each job's turn in place.
    method TakeTurns(cs: seq<Circumstance>, start: Pass) returns (p: Pass)
      requires |cs| == |queue| && UniqueIds(queue)
      modifies `queue
      ensures (queue, p) == AdvanceFrom(old(queue), cs, 0, start)
      ensures UniqueIds(queue)
    {
      ghost var before := queue;
      p := start;
      var i := 0;
      while i < |queue|
        invariant i <= |queue| == |cs| && UniqueIds(queue)
        invariant AdvanceFrom(before, cs, 0, start) == AdvanceFrom(queue, cs, i, p)
      {
        var job, after := JobTurn(queue[i], cs[i], p);
        TurnUnique(queue, i, cs[i], p);
        queue := queue[i := job];
        p := after;
        i := i + 1;
      }
    }

    method BeginPass() returns (p: Pass)
      ensures p == StartPass(Snapshot())
    {
      var inFlight, othersWaiting := SurveyQueue();
      var sources := CollectSources();
      var parents := CollectParents();
      p := Pass(inFlight, othersWaiting, parents, sources, {}, [], reboots, nextOrder, sinceBatch, log);
    }

    // The turns, the calls for followers, and then the jobs that leave.
    method TakePass(cs: seq<Circumstance>)
      requires |cs| == |queue| && UniqueIds(queue)
      modifies `queue, `reboots, `nextOrder, `sinceBatch, `log
      ensures Snapshot() == Progress(old(Snapshot()), cs)
    {
      var start := BeginPass();
      ghost var before := Snapshot();
      var p := TakeTurns(cs, start);
      ProgressIs(before, cs, queue, p);
      SyncForwardedUploads(p.uploads);
      queue := Filter(queue, (j: Job) => j.id !in p.dead);
      reboots, nextOrder, sinceBatch, log := p.reboots, p.nextOrder, p.sinceBatch, p.log;
    }

    // do_job_progression_things
    method Progression(cs: seq<Circumstance>)
      requires |cs| == |queue| && UniqueIds(queue)
      modifies `queue, `reboots, `nextOrder, `sinceBatch, `log
      ensures Snapshot() == Progress(old(Snapshot()), cs) && ProgressEffect(old(Snapshot()), cs, Snapshot())
    {
      ProgressHasEffect(Snapshot(), cs);
      TakePass(cs);
    }

    // ---- The waiting rounds -----------------------------------------------------------------

    method ProbeRound(id: nat)
      requires UniqueIds(queue)
      modifies `queue
      ensures Snapshot() == ProbeTimeout(old(Snapshot()), id) && ProbeEffect(old(Snapshot()), Snapshot(), id)
    {
      ProbeHasEffect(Snapshot(), id);
      var found := Position(queue, id);
      if found.Some? && queue[found.value].ready == Probed {
        queue := queue[..found.value] + queue[found.value + 1..];
      }
    }

    method DuplicateWaitRound(id: nat, outcome: WaitOutcome)
      requires UniqueIds(queue)
      modifies `queue
      ensures Snapshot() == DuplicateRound(old(Snapshot()), id, outcome)
      ensures WaitEffect(old(Snapshot()), Snapshot(), id, outcome)
    {
      WaitHasEffect(Snapshot(), id, outcome);
      var found := Position(queue, id);
      if found.None? { return; }
      var j := queue[found.value];
      if j.forwardParent.Some? || j.ready != Downloading || j.duplicateSource.None? { return; }
      match outcome {
        case StillWaiting =>
        case CacheHit => j := j.(ready := Downloaded, worker := "dwl-cache");
        case Requeue => j := j.(duplicateSource := None, ready := Queued, worker := "dwl-pending");
        case Copied => j := j.(duplicateSource := None, ready := Downloaded);
      }
      queue := queue[found.value := j];
    }

    method DownloadRound(id: nat, plan: Plan)
      requires UniqueIds(queue)
      modifies `queue
      ensures Snapshot() == RetryDownload(old(Snapshot()), id, plan)
      ensures RetryEffect(old(Snapshot()), Snapshot(), id, plan)
    {
      RetryHasEffect(Snapshot(), id, plan);
      var found := Position(queue, id);
      if found.None? { return; }
      var j := queue[found.value];
      if j.forwardParent.Some? || j.ready != Queued || j.worker != "dwl-pending" { return; }
      if j.kind == Encode || j.kind == Pancode || j.kind == Backup || j.kind == Preview {
        queue := queue[found.value := StartDownload(j, plan)];
      }
    }

    method TorrentFileLands(id: nat, keys: seq<nat>)
      requires UniqueIds(queue)
      modifies `queue
      ensures Snapshot() == GrowKeys(old(Snapshot()), id, keys) && GrowEffect(old(Snapshot()), Snapshot(), id, keys)
    {
      GrowHasEffect(Snapshot(), id, keys);
      var found := Position(queue, id);
      if found.None? { return; }
      queue := queue[found.value := queue[found.value].(forwardKeys := queue[found.value].forwardKeys + keys)];
    }

    // ---- One turn of the loop ---------------------------------------------------------------

    // Whatever happens, the object takes the step the state machine takes, and keeps what
    // every state of a run keeps.
    method Handle(e: Event)
      requires Valid() && Possible(Snapshot(), e)
      modifies this
      ensures Snapshot() == Step(old(Snapshot()), e) && Valid()
    {
      StepKeepsAll(Snapshot(), e);
      match e
      case Submitted(job, setup) => QueueJob(job, setup);
      case Received(id, message) => WorkerMessage(id, message);
      case EpochChecked => CheckEncodeRebootEpoch();
      case Rebooted => reboots := reboots + 1;
      case CancelAsked(id, author) => Cancel(id, author);
      case StallFound(ids) => FailStalledJobs(ids);
      case ProbeTimedOut(id) => ProbeRound(id);
      case DuplicateChecked(id, outcome) => DuplicateWaitRound(id, outcome);
      case DownloadRetried(id, plan) => DownloadRound(id, plan);
      case Progressed(cs) => Progression(cs);
      case BatchesChecked => BatchParentThings();
      case KeysGrown(id, keys) => TorrentFileLands(id, keys);
    }
  }
}

// What one step of the loop does to the queue, job by job, without the step's own control flow.
module Effects {
  import opened Wrappers
  import opened Jobs
  import opened QueueFacts
  import opened Links
  import opened Forwards

  // The stages at which a job is over, for itself and for those who follow it.
  predicate Ends(stage: Stage)
  {
    stage == Uploaded || stage == Failed || stage == Declined || stage == Cancelled
  }

  // ---- Encoder reboots ----------------------------------------------------------------------

  // Landed, or a queued keycode: the encoder has not been heard of.
  predicate Unreported(j: Job)
  {
    j.ready == Downloaded || (j.ready == Queued && j.kind == Keycode)
  }

  // Of a job handed to an older encoder layer that has not reported, only the dispatch is undone.
  ghost predicate Rechecked(j: Job, j': Job, epoch: nat, rebooted: bool)
  {
    if rebooted && Unreported(j) && j.epoch < epoch then
      !j'.dispatched && j'.order.None? && j' == j.(dispatched := j'.dispatched, order := j'.order)
    else j' == j
  }

  ghost predicate CheckEffect(s: State, t: State)
  {
    && t == s.(queue := t.queue, known := s.reboots) && |t.queue| == |s.queue|
    && forall k :: 0 <= k < |s.queue| ==> Rechecked(s.queue[k], t.queue[k], s.reboots, s.known != s.reboots)
  }

  lemma CheckHasEffect(s: State)
    ensures CheckEffect(s, CheckEpoch(s))
  {
  }

  // ---- Batches ------------------------------------------------------------------------------

  // One counter of a batch moved by one, the other stayed.
  ghost predicate CounterMoved(b: Batch, b': Option<Batch>, done: bool)
  {
    && b'.Some? && b'.value.entries == b.entries && b'.value.downloadSettled == b.downloadSettled
    && b'.value.finished + b'.value.failed == b.finished + b.failed + 1
    && (if done then b'.value.finished == b.finished + 1 else b'.value.failed == b.failed + 1)
  }

  // The part of a child's report that a job sees as the batch of the child.
  ghost predicate Tallied(j: Job, j': Job, parentId: Option<nat>, stage: Stage)
  {
    if Ends(stage) && parentId == Some(j.id)
        && j.batch.Some? then CounterMoved(j.batch.value, j'.batch, stage == Uploaded)
    else j'.batch == j.batch
  }

  ghost predicate HasBatch(queue: seq<Job>, id: nat)
  {
    exists j :: j in queue && j.id == id && j.batch.Some?
  }

  // A terminal stage of a child moves one counter of its batch, and is logged; nothing else.
  ghost predicate ParentEffect(s: State, t: State, parentId: nat, childId: nat, stage: Stage)
  {
    && t == s.(queue := t.queue, log := t.log) && |t.queue| == |s.queue|
    && (forall k :: 0 <= k < |s.queue| ==>
          SameButBatch(s.queue[k], t.queue[k]) && Tallied(s.queue[k], t.queue[k], Some(parentId), stage))
    && t.log == s.log + if Ends(stage) && HasBatch(s.queue, parentId) then [ChildDone(parentId, childId)] else []
  }

  lemma BatchAt(queue: seq<Job>, id: nat)
    requires UniqueIds(queue)
    ensures var found := Position(queue, id);
            && (found.Some? ==> forall k :: 0 <= k < |queue| && k != found.value ==> queue[k].id != id)
            && (HasBatch(queue, id) <==> found.Some? && queue[found.value].batch.Some?)
  {
    var found := Position(queue, id);
    if found.Some? { assert queue[found.value] in queue; }
  }

  lemma ParentHasEffect(s: State, parentId: nat, childId: nat, stage: Stage)
    requires UniqueIds(s.queue)
    ensures ParentEffect(s, UpdateBatchParent(s, parentId, childId, stage), parentId, childId, stage)
  {
    BatchAt(s.queue, parentId);
    if HasBatch(s.queue, parentId) && IsTerminal(stage) {
      ParentCounts(s, Position(s.queue, parentId).value, childId, stage);
    }
  }

  lemma ParentCounts(s: State, pos: nat, childId: nat, stage: Stage)
    requires pos < |s.queue| && Position(s.queue, s.queue[pos].id) == Some(pos)
    requires s.queue[pos].batch.Some? && IsTerminal(stage)
    ensures var t := UpdateBatchParent(s, s.queue[pos].id, childId, stage);
            && t == s.(queue := t.queue, log := s.log + [ChildDone(s.queue[pos].id, childId)])
            && |t.queue| == |s.queue| && SameButBatch(s.queue[pos], t.queue[pos])
            && CounterMoved(s.queue[pos].batch.value, t.queue[pos].batch, stage == Uploaded)
            && forall k :: 0 <= k < |s.queue| && k != pos ==> t.queue[k] == s.queue[k]
  {
  }

  // Entry `at` is the first of its file, and has no child yet.
  ghost predicate OpenAt(b: Batch, fileIndex: nat, at: nat)
  {
    && at < |b.entries| && b.entries[at].fileIndex == fileIndex && b.entries[at].jobId.None?
    && forall k :: 0 <= k < at ==> b.entries[k].fileIndex != fileIndex
  }

  ghost predicate Opens(j: Job, fileIndex: nat)
  {
    j.batch.Some? && exists at: nat :: OpenAt(j.batch.value, fileIndex, at)
  }

  // The entry now names the child, and the counters are untouched.
  ghost predicate Assigned(b: Batch, b': Option<Batch>, fileIndex: nat, id: nat)
  {
    exists at: nat ::
      && OpenAt(b, fileIndex, at) && b'.Some? && b'.value == b.(entries := b'.value.entries)
      && |b'.value.entries| == |b.entries| && b'.value.entries[at] == Entry(fileIndex, Some(id))
      && forall k :: 0 <= k < |b.entries| && k != at ==> b'.value.entries[k] == b.entries[k]
  }

  // A child of its parent, ready for the encoder and free of anything the parent is tied to.
  ghost predicate ChildOf(parent: Job, h: HandOff, j: Job)
    requires h.Child?
  {
    && j.id == h.id && j.kind == Pancode && j.batchParent == Some(parent.id) && j.author == parent.author
    && j.ready == Downloaded && !j.dispatched && j.order.None? && j.forwardParent.None? && j.duplicateSource.None?
    && j.batch.None? && j.probeJob.None? && !j.keep && j.forwardKeys == h.forwardKeys && j.cacheKeys == h.cacheKeys
  }

  // A landed file with an open entry makes one child, or one failure; another file does nothing.
  ghost predicate SpawnEffect(s: State, t: State, pos: nat, fileIndex: nat, h: HandOff)
    requires pos < |s.queue|
  {
    var parent := s.queue[pos];
    if !Opens(parent, fileIndex) then t == s
    else
      && |t.queue| >= |s.queue| && SameButBatch(parent, t.queue[pos])
      && (forall k :: 0 <= k < |s.queue| && k != pos ==> t.queue[k] == s.queue[k])
      && (h.Child? ==>
            && t == s.(queue := t.queue, used := s.used + {h.id}) && |t.queue| == |s.queue| + 1
            && ChildOf(parent, h, t.queue[|s.queue|])
            && Assigned(parent.batch.value, t.queue[pos].batch, fileIndex, h.id))
      && (h.NoChild? ==>
            && t == s.(queue := t.queue, log := s.log + [Missed(parent.id)]) && |t.queue| == |s.queue|
            && CounterMoved(parent.batch.value, t.queue[pos].batch, false))
  }

  lemma {:induction false} EntryForFirst(entries: seq<Entry>, fileIndex: nat)
    ensures var at := EntryFor(entries, fileIndex);
            && (at.Some? ==> forall k :: 0 <= k < at.value ==> entries[k].fileIndex != fileIndex)
            && (at.None? ==> forall k :: 0 <= k < |entries| ==> entries[k].fileIndex != fileIndex)
  {
    if entries != [] {
      EntryForFirst(entries[1..], fileIndex);
      assert forall k :: 0 < k < |entries| ==> entries[k] == entries[1..][k - 1];
    }
  }

  lemma OpensExactly(j: Job, fileIndex: nat)
    requires j.batch.Some?
    ensures var b := j.batch.value;
            var at := EntryFor(b.entries, fileIndex);
            && (Opens(j, fileIndex) <==> at.Some? && b.entries[at.value].jobId.None?)
            && (at.Some? && b.entries[at.value].jobId.None? ==> OpenAt(b, fileIndex, at.value))
  {
    var b := j.batch.value;
    EntryForFirst(b.entries, fileIndex);
    var at := EntryFor(b.entries, fileIndex);
    forall a: nat | OpenAt(b, fileIndex, a) ensures at == Some(a) {
    }
    assert at.Some? && b.entries[at.value].jobId.None? ==> OpenAt(b, fileIndex, at.value);
  }

  lemma SpawnHasEffect(s: State, pos: nat, fileIndex: nat, h: HandOff)
    requires pos < |s.queue|
    ensures SpawnEffect(s, SpawnBatchChild(s, pos, fileIndex, h), pos, fileIndex, h)
  {
    var parent := s.queue[pos];
    if parent.batch.Some? {
      OpensExactly(parent, fileIndex);
      if Opens(parent, fileIndex) && h.Child? {
        var b := parent.batch.value;
        var at := EntryFor(b.entries, fileIndex).value;
        var t := SpawnBatchChild(s, pos, fileIndex, h);
        assert t.queue[pos].batch.value.entries[at] == Entry(fileIndex, Some(h.id));
      }
    }
  }

  // ---- Reports ------------------------------------------------------------------------------

  // How a job looks once another, or itself, has reported: the reporter takes the stage and is
  // with the encoder only while encoding, its followers take stage and worker, its batch counts.
  ghost predicate AfterReport(j: Job, reporter: Job, stage: Option<Stage>, j': Job)
  {
    var told, follows := j.id == reporter.id, j.forwardParent == Some(reporter.id);
    && j' == j.(ready := j'.ready, worker := j'.worker, dispatched := j'.dispatched, order := j'.order,
                batch := j'.batch)
    && j'.ready == (if stage.Some? && (told || follows) then stage.value else j.ready)
    && j'.worker == (if follows then ForwardedWorker(reporter.worker) else j.worker)
    && (if told && stage.Some? && stage != Some(Encoding) then !j'.dispatched && j'.order.None?
        else j'.dispatched == j.dispatched && j'.order == j.order)
    && (if stage.Some? then Tallied(j, j', reporter.batchParent, stage.value) else j'.batch == j.batch)
  }

  // Who a report takes out: on a terminal stage the followers, and on a finished one also the
  // reporter and its probe.
  predicate Leaves(j: Job, reporter: Job, stage: Option<Stage>)
  {
    var last := if stage.Some? then stage.value else reporter.ready;
    || (stage.Some? && Ends(stage.value) && j.forwardParent == Some(reporter.id))
    || (Ends(last) && last != Declined && (j.id == reporter.id || reporter.probeJob == Some(j.id)))
  }

  ghost predicate Origin(queue: seq<Job>, reporter: Job, stage: Option<Stage>, j': Job)
  {
    exists j :: j in queue && !Leaves(j, reporter, stage) && AfterReport(j, reporter, stage, j')
  }

  ghost predicate Successor(queue': seq<Job>, reporter: Job, stage: Option<Stage>, j: Job)
  {
    exists j' :: j' in queue' && AfterReport(j, reporter, stage, j')
  }

  ghost predicate ReportEffect(s: State, t: State, pos: nat, stage: Option<Stage>)
    requires pos < |s.queue|
  {
    var reporter := s.queue[pos];
    && t == s.(queue := t.queue, log := t.log) && UniqueIds(t.queue)
    && (forall j' :: j' in t.queue ==> Origin(s.queue, reporter, stage, j'))
    && (forall j :: j in s.queue && !Leaves(j, reporter, stage) ==> Successor(t.queue, reporter, stage, j))
  }

  // Before the followers hear of it.
  ghost predicate AfterNoted(j: Job, reporter: Job, stage: Option<Stage>, j': Job)
  {
    var told := j.id == reporter.id;
    && j' == j.(ready := j'.ready, dispatched := j'.dispatched, order := j'.order, batch := j'.batch)
    && j'.ready == (if stage.Some? && told then stage.value else j.ready)
    && (if told && stage.Some? && stage != Some(Encoding) then !j'.dispatched && j'.order.None?
        else j'.dispatched == j.dispatched && j'.order == j.order)
    && (if stage.Some? then Tallied(j, j', reporter.batchParent, stage.value) else j'.batch == j.batch)
  }

  lemma MarkedPositions(s: State, pos: nat, stage: Option<Stage>)
    requires UniqueIds(s.queue) && pos < |s.queue|
    ensures var t := Marked(s, pos, stage);
            && |t.queue| == |s.queue| && t == s.(queue := t.queue, log := t.log) && UniqueIds(t.queue)
            && forall k :: 0 <= k < |s.queue| ==> AfterMarked(s.queue[k], s.queue[pos], stage, t.queue[k])
  {
    UpdateMembers(s.queue, pos, ReportedJob(s.queue[pos], stage));
  }

  // The report itself, before anybody is told.
  ghost predicate AfterMarked(j: Job, reporter: Job, stage: Option<Stage>, j': Job)
  {
    var told := j.id == reporter.id && stage.Some?;
    && j' == j.(ready := j'.ready, dispatched := j'.dispatched, order := j'.order)
    && j'.ready == (if told then stage.value else j.ready)
    && (if told && stage != Some(Encoding) then !j'.dispatched && j'.order.None?
        else j'.dispatched == j.dispatched && j'.order == j.order)
  }

  lemma MarkedThenTallied(j: Job, reporter: Job, stage: Stage, m: Job, j': Job)
    requires AfterMarked(j, reporter, Some(stage), m) && SameButBatch(m, j')
             && Tallied(m, j', reporter.batchParent, stage)
    ensures AfterNoted(j, reporter, Some(stage), j')
  {
  }

  lemma NotifyPositions(s: State, job: Job, stage: Stage)
    requires UniqueIds(s.queue)
    ensures var t := NotifyBatch(s, job, stage);
            && |t.queue| == |s.queue| && t == s.(queue := t.queue, log := t.log)
            && forall k :: 0 <= k < |s.queue| ==>
                 SameButBatch(s.queue[k], t.queue[k]) && Tallied(s.queue[k], t.queue[k], job.batchParent, stage)
  {
    if job.batchParent.Some? { ParentHasEffect(s, job.batchParent.value, job.id, stage); }
  }

  lemma NotedPositions(s: State, pos: nat, stage: Option<Stage>)
    requires UniqueIds(s.queue) && pos < |s.queue|
    ensures var t := Noted(s, pos, stage);
            && |t.queue| == |s.queue| && t == s.(queue := t.queue, log := t.log)
            && forall k :: 0 <= k < |s.queue| ==> AfterNoted(s.queue[k], s.queue[pos], stage, t.queue[k])
  {
    var job, s1, t := ReportedJob(s.queue[pos], stage), Marked(s, pos, stage), Noted(s, pos, stage);
    MarkedPositions(s, pos, stage);
    if stage.Some? {
      NotifyPositions(s1, job, stage.value);
      forall k | 0 <= k < |s.queue| ensures AfterNoted(s.queue[k], s.queue[pos], stage, t.queue[k]) {
        MarkedThenTallied(s.queue[k], s.queue[pos], stage.value, s1.queue[k], t.queue[k]);
      }
    }
  }

  lemma SyncMembers(queue: seq<Job>, id: nat, stage: Option<Stage>, worker: string)
    ensures forall j' :: j' in SyncJobs(queue, id, stage, worker) <==>
              exists j :: j in queue && !(stage.Some? && IsTerminal(stage.value) && j.forwardParent == Some(id))
                          && j' == SyncedJob(j, id, stage, Some(ForwardedWorker(worker)))
  {
    if stage.Some? && IsTerminal(stage.value) {
      FilterMembers(queue, (j: Job) => j.forwardParent != Some(id));
    } else {
      var f := (j: Job) => SyncedJob(j, id, stage, Some(ForwardedWorker(worker)));
      MapMembers(queue, f);
      forall j | j in queue ensures f(j) in Map(queue, f) {
        var k :| 0 <= k < |queue| && queue[k] == j;
        assert Map(queue, f)[k] == f(j);
      }
    }
  }

  lemma DropProbeMembers(queue: seq<Job>, probe: Option<nat>)
    requires UniqueIds(queue)
    ensures forall j :: j in DropProbe(queue, probe) <==> j in queue && probe != Some(j.id)
  {
    if probe.Some? && Position(queue, probe.value).Some? {
      RemoveMembers(queue, Position(queue, probe.value).value);
    }
  }

  function SyncedTo(j: Job, job: Job, stage: Option<Stage>): Job
  {
    SyncedJob(j, job.id, stage, Some(ForwardedWorker(job.worker)))
  }

  ghost predicate SyncedFrom(queue: seq<Job>, job: Job, stage: Option<Stage>, j': Job)
  {
    exists j :: j in queue && !Leaves(j, job, stage) && j' == SyncedTo(j, job, stage)
  }

  // What the tail of a report makes of the queue.
  lemma TailMembers(queue: seq<Job>, job: Job, stage: Option<Stage>)
    requires UniqueIds(queue) && (stage.Some? ==> job.ready == stage.value)
    ensures forall j' :: j' in ReportTail(queue, job, stage) <==> SyncedFrom(queue, job, stage, j')
  {
    var synced, rest := SyncJobs(queue, job.id, stage, job.worker), ReportTail(queue, job, stage);
    SyncMembers(queue, job.id, stage, job.worker);
    RestMembers(queue, job, stage);
    forall j' ensures j' in rest <==> SyncedFrom(queue, job, stage, j') {
      if j' in synced {
        var j :| j in queue && !(stage.Some? && IsTerminal(stage.value) && j.forwardParent == Some(job.id))
                 && j' == SyncedTo(j, job, stage);
      }
    }
  }

  lemma RestMembers(queue: seq<Job>, job: Job, stage: Option<Stage>)
    requires UniqueIds(queue)
    ensures forall j' :: j' in ReportTail(queue, job, stage) <==>
              && j' in SyncJobs(queue, job.id, stage, job.worker)
              && (Finished(job.ready) ==> j'.id != job.id && job.probeJob != Some(j'.id))
  {
    var synced := SyncJobs(queue, job.id, stage, job.worker);
    DescendsSyncJobs(queue, job.id, stage, job.worker);
    if Finished(job.ready) {
      DropProbeMembers(synced, job.probeJob);
      FilterMembers(DropProbe(synced, job.probeJob), (j: Job) => j.id != job.id);
    }
  }

  lemma SyncedAfter(j: Job, reporter: Job, stage: Option<Stage>, noted: Job)
    requires AfterNoted(j, reporter, stage, noted)
    ensures AfterReport(j, reporter, stage,
                        SyncedJob(noted, reporter.id, stage, Some(ForwardedWorker(reporter.worker))))
    ensures Leaves(noted, ReportedJob(reporter, stage), stage) <==> Leaves(j, reporter, stage)
  {
  }

  lemma ReportHasEffect(s: State, pos: nat, stage: Option<Stage>)
    requires UniqueIds(s.queue) && pos < |s.queue|
    ensures ReportEffect(s, ReportStep(s, pos, stage), pos, stage)
  {
    var reporter, noted := s.queue[pos], Noted(s, pos, stage).queue;
    var job, queue' := ReportedJob(s.queue[pos], stage), ReportStep(s, pos, stage).queue;
    NotedPositions(s, pos, stage);
    NotedMoves(s, pos, stage);
    ReportMoves(s, pos, stage);
    ReportIsTail(s, pos, stage);
    TailMembers(noted, job, stage);
    TailOrigins(s.queue, noted, queue', reporter, stage);
    TailSuccessors(s.queue, noted, queue', reporter, stage);
  }

  // The queue after the tail, from the positions before the report.
  ghost predicate TailOf(queue: seq<Job>, noted: seq<Job>, queue': seq<Job>, reporter: Job, stage: Option<Stage>)
  {
    && |noted| == |queue| && (forall k :: 0 <= k < |queue| ==> AfterNoted(queue[k], reporter, stage, noted[k]))
    && forall j' :: j' in queue' <==> SyncedFrom(noted, ReportedJob(reporter, stage), stage, j')
  }

  lemma TailOrigins(queue: seq<Job>, noted: seq<Job>, queue': seq<Job>, reporter: Job, stage: Option<Stage>)
    requires TailOf(queue, noted, queue', reporter, stage)
    ensures forall j' :: j' in queue' ==> Origin(queue, reporter, stage, j')
  {
    var job := ReportedJob(reporter, stage);
    forall j' | j' in queue' ensures Origin(queue, reporter, stage, j') {
      var n :| n in noted && !Leaves(n, job, stage) && j' == SyncedTo(n, job, stage);
      var k :| 0 <= k < |noted| && noted[k] == n;
      SyncedAfter(queue[k], reporter, stage, n);
      assert queue[k] in queue;
    }
  }

  lemma TailSuccessors(queue: seq<Job>, noted: seq<Job>, queue': seq<Job>, reporter: Job, stage: Option<Stage>)
    requires TailOf(queue, noted, queue', reporter, stage)
    ensures forall j :: j in queue && !Leaves(j, reporter, stage) ==> Successor(queue', reporter, stage, j)
  {
    var job := ReportedJob(reporter, stage);
    forall j | j in queue && !Leaves(j, reporter, stage) ensures Successor(queue', reporter, stage, j) {
      var k :| 0 <= k < |queue| && queue[k] == j;
      SyncedAfter(j, reporter, stage, noted[k]);
      assert noted[k] in noted && SyncedFrom(noted, job, stage, SyncedTo(noted[k], job, stage));
    }
  }

  // ---- Worker messages ----------------------------------------------------------------------

  // A worker's name spreads to the followers.
  ghost predicate Renamed(j: Job, j': Job, id: nat, worker: string)
  {
    && j' == j.(worker := j'.worker)
    && j'.worker == (if j.forwardParent == Some(id) then ForwardedWorker(worker) else if j.id == id then worker
                     else j.worker)
  }

  ghost predicate MessageEffect(s: State, t: State, pos: nat, message: Message)
    requires pos < |s.queue|
  {
    match message
    case Assign(worker) =>
      && t == s.(queue := t.queue) && |t.queue| == |s.queue|
      && forall k :: 0 <= k < |s.queue| ==> Renamed(s.queue[k], t.queue[k], s.queue[pos].id, worker)
    case Warning => t == s
    case FileDone(fileIndex, h) => SpawnEffect(s, t, pos, fileIndex, h)
    case DuplicateWait(owner) =>
      && t == s.(queue := t.queue) && |t.queue| == |s.queue|
      && t.queue[pos] == s.queue[pos].(duplicateSource := Some(owner))
      && forall k :: 0 <= k < |s.queue| && k != pos ==> t.queue[k] == s.queue[k]
    case Report(stage) => ReportEffect(s, t, pos, stage)
  }

  // A message about a job that has left changes nothing.
  ghost predicate ReceiveEffect(s: State, t: State, id: nat, message: Message)
  {
    && (forall pos: nat :: pos < |s.queue| && s.queue[pos].id == id ==> MessageEffect(s, t, pos, message))
    && ((forall j :: j in s.queue ==> j.id != id) ==> t == s)
  }

  lemma RenameHasEffect(s: State, pos: nat, worker: string)
    requires UniqueIds(s.queue) && pos < |s.queue|
    ensures var named := s.queue[pos := s.queue[pos].(worker := worker)];
            MessageEffect(s, s.(queue := SyncState(named, s.queue[pos].id, None, Some(ForwardedWorker(worker)))), pos,
                          Assign(worker))
  {
  }

  lemma MessageHasEffect(s: State, pos: nat, message: Message)
    requires UniqueIds(s.queue) && pos < |s.queue| && Position(s.queue, s.queue[pos].id) == Some(pos)
    ensures MessageEffect(s, Receive(s, s.queue[pos].id, message), pos, message)
  {
    match message
    case Report(stage) => ReportHasEffect(s, pos, stage);
    case FileDone(fileIndex, h) => SpawnHasEffect(s, pos, fileIndex, h);
    case Assign(worker) => RenameHasEffect(s, pos, worker);
    case Warning =>
    case DuplicateWait(owner) =>
  }

  lemma OnePosition(queue: seq<Job>, id: nat)
    requires UniqueIds(queue)
    ensures forall pos: nat :: pos < |queue| && queue[pos].id == id ==> Position(queue, id) == Some(pos)
  {
  }

  lemma NobodyHeard(s: State, id: nat, message: Message)
    requires Position(s.queue, id).None?
    ensures ReceiveEffect(s, s, id, message)
  {
  }

  lemma OneHeard(s: State, t: State, id: nat, message: Message, pos: nat)
    requires UniqueIds(s.queue) && pos < |s.queue| && s.queue[pos].id == id && MessageEffect(s, t, pos, message)
    ensures ReceiveEffect(s, t, id, message)
  {
    assert s.queue[pos] in s.queue;
    forall k: nat | k < |s.queue| && s.queue[k].id == id ensures k == pos {
    }
  }

  lemma ReceiveHasEffect(s: State, id: nat, message: Message)
    requires UniqueIds(s.queue)
    ensures ReceiveEffect(s, Receive(s, id, message), id, message)
  {
    var found := Position(s.queue, id);
    if found.None? {
      NobodyHeard(s, id, message);
    } else {
      OnePosition(s.queue, id);
      MessageHasEffect(s, found.value, message);
      OneHeard(s, Receive(s, id, message), id, message, found.value);
    }
  }

  // ---- Cancelling ---------------------------------------------------------------------------

  // The asker owns a queued job of this id that no worker holds.
  ghost predicate MayCancel(queue: seq<Job>, id: nat, author: nat)
  {
    exists j :: j in queue && j.id == id && j.author == author && NobodyHolds(j)
  }

  // No worker has to be asked about this job: it follows another, or it is not with the encoder
  // and either waits for a copy, its download or its keywords, or stands between two workers.
  ghost predicate NobodyHolds(j: Job)
  {
    || j.forwardParent.Some?
    || (!j.dispatched && (j.duplicateSource.Some? || j.worker in ["dwl-pending", "key-wait"]
                          || j.ready in {Queued, Probed, Downloaded, Encoded, Uploaded, Failed, Declined, Cancelled}))
  }

  // The job leaves with its followers; everybody else stays as they were, in order.
  ghost predicate CancelEffect(s: State, t: State, id: nat, author: nat)
  {
    if MayCancel(s.queue, id, author) then
      && t == s.(queue := t.queue)
      && t.queue == Filter(s.queue, (j: Job) => j.id != id && j.forwardParent != Some(id))
    else t == s
  }

  lemma {:induction false} OwnedFound(queue: seq<Job>, id: nat, author: nat)
    ensures OwnedPosition(queue, id, author).None? ==> forall j :: j in queue ==> !(j.id == id && j.author == author)
  {
    if queue != [] {
      OwnedFound(queue[1..], id, author);
      assert forall j :: j in queue <==> j == queue[0] || j in queue[1..];
    }
  }

  lemma CancelHasEffect(s: State, id: nat, author: nat)
    requires UniqueIds(s.queue)
    ensures CancelEffect(s, CancelJob(s, id, author), id, author)
  {
    var found := OwnedPosition(s.queue, id, author);
    OwnedFound(s.queue, id, author);
    if found.Some? {
      assert s.queue[found.value] in s.queue;
      forall j | j in s.queue && j.id == id ensures j == s.queue[found.value] {
        SameIdSameJob(s.queue, j, s.queue[found.value]);
      }
      FilterTwice(s.queue, (j: Job) => j.forwardParent != Some(id), (j: Job) => j.id != id,
                  (j: Job) => j.id != id && j.forwardParent != Some(id));
    }
  }

  // ---- Submission ---------------------------------------------------------------------------

  ghost function TopLevel(queue: seq<Job>): set<nat>
  {
    set k: nat | k < |queue| && queue[k].batchParent.None?
  }

  // Turned away: a git sync blocks encodes, five jobs are queued besides batch children, the
  // preparation failed, or a batch names no file.
  ghost predicate Refused(queue: seq<Job>, job: Job, setup: Setup)
  {
    || (setup.gitBlocked && job.kind in {Encode, Pancode, Keycode, Studio, BatchDownload})
    || |TopLevel(queue)| > 4 || !setup.setUp
    || (job.kind == BatchDownload && (job.batch.None? || job.batch.value.entries == []))
  }

  ghost predicate JoinsAs(s: State, t: State, job: Job, setup: Setup, j: Job)
  {
    && t.queue == s.queue + [j] && Kept(job.(forwardParent := j.forwardParent), j)
    && (EntersLinked(s.queue, job, j) || EntersFree(s.queue, job, j))
    && (j.dispatched <==> job.kind == Studio)
    && (if j.forwardParent.Some? then t.log == s.log + [Linked(job.id, j.forwardParent.value)] && t.reboots == s.reboots
        else if job.kind == Studio then t.log == s.log + [Sent(job.id, t.reboots)]
            && t.reboots == s.reboots + setup.bumps
        else t.log == s.log && t.reboots == s.reboots)
  }

  // The job joins at the end, linked if and only if it is a forwardable encode and some queued
  // job may be its parent; whoever is queued stays as it was.
  ghost predicate SubmitEffect(s: State, t: State, job: Job, setup: Setup)
  {
    && t == s.(queue := t.queue, used := s.used + {job.id}, log := t.log, reboots := t.reboots)
    && if Refused(s.queue, job, setup) then t == s.(used := t.used)
       else |t.queue| > 0 && JoinsAs(s, t, job, setup, t.queue[|t.queue| - 1])
  }

  lemma {:induction false} TopLevelCount(queue: seq<Job>)
    ensures |TopLevel(queue)| == CountTopLevel(queue)
  {
    if queue != [] {
      var n := |queue| - 1;
      TopLevelCount(queue[..n]);
      var fewer := TopLevel(queue[..n]);
      if queue[n].batchParent.None? {
        assert TopLevel(queue) == fewer + {n};
      } else {
        assert TopLevel(queue) == fewer;
      }
    }
  }

  lemma RefusedExactly(queue: seq<Job>, job: Job, setup: Setup)
    ensures Refused(queue, job, setup) <==> Entering(queue, job, setup).None?
  {
    TopLevelCount(queue);
  }

  lemma SubmitHasEffect(s: State, job: Job, setup: Setup)
    requires FreshJob(job)
    ensures SubmitEffect(s, Submit(s, job, setup), job, setup)
  {
    RefusedExactly(s.queue, job, setup);
    if !Refused(s.queue, job, setup) {
      EnteringLink(s.queue, job, setup);
    }
  }

  // ---- One turn with the encoder ------------------------------------------------------------

  // The first of the keys that is offered is offered by somebody else.
  ghost predicate Offered(parents: map<nat, Parent>, j: Job, a: nat)
  {
    && a < |j.forwardKeys| && j.forwardKeys[a] in parents && parents[j.forwardKeys[a]].id != j.id
    && forall b :: 0 <= b < a ==> j.forwardKeys[b] !in parents
  }

  ghost predicate MayFollow(parents: map<nat, Parent>, j: Job)
  {
    exists a: nat :: Offered(parents, j, a)
  }

  ghost predicate Follows(j: Job, p: Pass, j': Job, p': Pass)
  {
    exists a: nat ::
      && Offered(p.parents, j, a)
      && var offer := p.parents[j.forwardKeys[a]];
         && j' == j.(forwardParent := Some(offer.id), duplicateSource := None, ready := offer.stage,
                     worker := offer.worker)
         && p' == p.(log := p.log + [Linked(j.id, offer.id)])
  }

  // Its input is being encoded already: it waits for a copy.
  ghost predicate Copies(j: Job, p: Pass, j': Job, p': Pass)
  {
    && p' == p && j' == j.(duplicateSource := j'.duplicateSource, ready := Downloading, worker := "dwl-cache")
    && exists a: nat ::
         && a < |j.cacheKeys| && j.cacheKeys[a] in p.sources
         && j'.duplicateSource == Some(p.sources[j.cacheKeys[a]])
  }

  // It is sent: in the epoch after the message, under the next order, and offers its keys.
  ghost predicate Goes(j: Job, c: Circumstance, p: Pass, j': Job, p': Pass)
  {
    && j'.dispatched && j'.order == Some(p.nextOrder) && p'.nextOrder == p.nextOrder + 1
    && j'.epoch == p'.reboots == p.reboots + c.bumps
    && j' == j.(worker := "enc-main", dispatched := true, order := j'.order, epoch := j'.epoch)
    && p'.log == p.log + [Sent(j.id, p'.reboots), Dispatched(j.id, j.batchParent.Some?, p.othersWaiting)]
    && (forall key :: key in p.parents ==> key in p'.parents && p'.parents[key] == p.parents[key])
    && (forall key :: key in j.forwardKeys ==> key in p'.parents)
    && (forall key :: key in p'.parents && key !in p.parents ==>
          key in j.forwardKeys && p'.parents[key] == Parent(j.id, Downloaded, "enc-forward"))
    && (forall key :: key in p.sources ==> key in p'.sources && p'.sources[key] == p.sources[key])
    && (forall key :: key in j.cacheKeys ==> key in p'.sources)
    && (forall key :: key in p'.sources && key !in p.sources ==> key in j.cacheKeys && p'.sources[key] == j.id)
    && (if j.batchParent.Some? then p'.inFlight && p'.sinceBatch == 0
        else p'.inFlight == p.inFlight && p'.sinceBatch == p.sinceBatch + 1)
    && p'.dead == p.dead && p'.uploads == p.uploads
  }

  ghost predicate HeldBack(j: Job, p: Pass)
  {
    j.batchParent.Some? && (p.inFlight || (p.othersWaiting && p.sinceBatch < 2))
  }

  ghost predicate SourceBusy(p: Pass, j: Job)
  {
    exists a: nat :: a < |j.cacheKeys| && j.cacheKeys[a] in p.sources
  }

  // Of its four outcomes exactly one: the job rests, follows, waits for a copy, or goes.
  ghost predicate EncodeEffect(j: Job, c: Circumstance, p: Pass, j': Job, p': Pass)
  {
    if j.dispatched || c.cancelMarked then j' == j && p' == p
    else if MayFollow(p.parents, j) then Follows(j, p, j', p')
    else if SourceBusy(p, j) then Copies(j, p, j', p')
    else if HeldBack(j, p) then j' == j && p' == p
    else Goes(j, c, p, j', p')
  }

  lemma {:induction false} FindParentFirst(parents: map<nat, Parent>, keys: seq<nat>)
    ensures var found := FindParent(parents, keys);
            if found.None? then forall a :: 0 <= a < |keys| ==> keys[a] !in parents
            else exists a: nat :: FirstOffer(parents, keys, a) && parents[keys[a]] == found.value
  {
    if keys != [] {
      FindParentFirst(parents, keys[1..]);
      if keys[0] in parents {
        assert FirstOffer(parents, keys, 0);
      } else if FindParent(parents, keys).Some? {
        var a: nat :| FirstOffer(parents, keys[1..], a) && parents[keys[1..][a]] == FindParent(parents, keys).value;
        assert FirstOffer(parents, keys, a + 1);
      }
    }
  }

  ghost predicate FirstOffer(parents: map<nat, Parent>, keys: seq<nat>, a: nat)
  {
    a < |keys| && keys[a] in parents && forall b :: 0 <= b < a ==> keys[b] !in parents
  }

  lemma {:induction false} FindSourceFound(sources: map<nat, nat>, keys: seq<nat>)
    ensures var found := FindSource(sources, keys);
            if found.None? then forall a :: 0 <= a < |keys| ==> keys[a] !in sources
            else exists a: nat :: a < |keys| && keys[a] in sources && found.value == sources[keys[a]]
  {
    if keys != [] && keys[0] !in sources {
      FindSourceFound(sources, keys[1..]);
      if FindSource(sources, keys).Some? {
        var a: nat :| a < |keys| - 1 && keys[1..][a] in sources
            && FindSource(sources, keys).value == sources[keys[1..][a]];
        assert keys[a + 1] in sources;
      }
    }
  }

  lemma {:induction false} AddParentsExact(parents: map<nat, Parent>, keys: seq<nat>, parent: Parent)
    ensures var more := AddParents(parents, keys, parent);
            && (forall key :: key in more <==> key in parents || key in keys)
            && (forall key :: key in more ==> more[key] == if key in parents then parents[key] else parent)
  {
    if keys != [] {
      AddParentsExact(parents, keys[..|keys| - 1], parent);
      assert forall key :: key in keys <==> key in keys[..|keys| - 1] || key == keys[|keys| - 1];
    }
  }

  lemma {:induction false} AddSourcesExact(sources: map<nat, nat>, keys: seq<nat>, owner: nat)
    ensures var more := AddSources(sources, keys, owner);
            && (forall key :: key in more <==> key in sources || key in keys)
            && (forall key :: key in more ==> more[key] == if key in sources then sources[key] else owner)
  {
    if keys != [] {
      AddSourcesExact(sources, keys[..|keys| - 1], owner);
      assert forall key :: key in keys <==> key in keys[..|keys| - 1] || key == keys[|keys| - 1];
    }
  }

  lemma MayFollowExactly(j: Job, p: Pass)
    ensures var found := FindParent(p.parents, j.forwardKeys);
            && (MayFollow(p.parents, j) <==> found.Some? && found.value.id != j.id)
            && (MayFollow(p.parents, j) ==> exists a: nat ::
                Offered(p.parents, j, a) && p.parents[j.forwardKeys[a]] == found.value)
  {
    FindParentFirst(p.parents, j.forwardKeys);
    var found := FindParent(p.parents, j.forwardKeys);
    if found.Some? {
      var a: nat :| FirstOffer(p.parents, j.forwardKeys, a) && p.parents[j.forwardKeys[a]] == found.value;
      if found.value.id != j.id { assert Offered(p.parents, j, a); }
      forall b: nat | Offered(p.parents, j, b) ensures b == a {
      }
    }
  }

  lemma DispatchGoes(j: Job, c: Circumstance, p: Pass)
    ensures var (j', p') := DispatchEncode(j, c, p); Goes(j, c, p, j', p')
  {
    EncoderName();
    AddParentsExact(p.parents, j.forwardKeys, Parent(j.id, Downloaded, ForwardedWorker("enc-main")));
    AddSourcesExact(p.sources, j.cacheKeys, j.id);
  }

  lemma EncoderName()
    ensures ForwardedWorker("enc-main") == "enc-forward"
  {
    assert "enc-main"[0] != "dwl-"[0] && "enc-main"[0] != "upl-"[0];
  }

  lemma EncodeHasEffect(j: Job, c: Circumstance, p: Pass)
    ensures var (j', p') := AdvanceEncode(j, c, p); EncodeEffect(j, c, p, j', p')
  {
    MayFollowExactly(j, p);
    FindSourceFound(p.sources, j.cacheKeys);
    DispatchGoes(j, c, p);
  }

  // ---- One turn of any job ------------------------------------------------------------------

  // A job that is forwarded, holds a batch or has been probed has no turn.
  predicate Idle(j: Job)
  {
    j.forwardParent.Some? || j.batch.Some? || j.ready == Probed
  }

  // What a job that does not want the encoder makes of its stage.
  ghost predicate Handed(j: Job, j': Job, stage: Stage, worker: string)
  {
    j' == j.(ready := j'.ready, worker := j'.worker) && j'.ready == stage && j'.worker == worker
  }

  // A queued keycode waits for its keywords, fails with them, or is sent when they are there.
  ghost predicate KeycodeEffect(j: Job, c: Circumstance, p: Pass, j': Job, p': Pass)
  {
    if c.keywords == KeywordsWaiting then Handed(j, j', Queued, "key-wait") && p' == p
    else if c.keywords == KeywordsFailed then Handed(j, j', Failed, "key-fail") && p' == p.(dead := p.dead + {j.id})
    else
      && j'.dispatched && j'.order == Some(p.nextOrder) && j'.epoch == p'.reboots == p.reboots + c.bumps
      && j' == j.(worker := "enc-main", dispatched := true, order := j'.order, epoch := j'.epoch)
      && p' == p.(reboots := p'.reboots, nextOrder := p.nextOrder + 1, log := p.log + [Sent(j.id, p'.reboots)])
  }

  // A landed job goes on by its kind: subtitles and previews to the preview worker, backups to the
  // upload worker, all others to the encoder.
  ghost predicate LandedEffect(j: Job, c: Circumstance, p: Pass, j': Job, p': Pass)
  {
    match j.kind
    case Subs => Handed(j, j', Encoding, "prw-pending") && p' == p
    case Preview =>
      if c.hasRequest then Handed(j, j', Encoding, "prw-pending") && p' == p
      else j' == j.(ready := Failed) && p' == p.(dead := p.dead + {j.id})
    case Backup =>
      if j.keep then j' == j && p' == p.(dead := p.dead + {j.id})
      else Handed(j, j', Uploading, "upl-pending") && p' == p
    case BackupAll => Handed(j, j', Uploading, "upl-pending") && p' == p
    case _ => EncodeEffect(j, c, p, j', p')
  }

  // An encoded job is uploaded, and its followers are to hear of it; a kept one leaves.
  ghost predicate EncodedEffect(j: Job, p: Pass, j': Job, p': Pass)
  {
    if j.keep then j' == j && p' == p.(dead := p.dead + {j.id})
    else Handed(j, j', Uploading, "upl-pending") && p' == p.(uploads := p.uploads + [(j.id, "upl-forward")])
  }

  ghost predicate TurnEffect(j: Job, c: Circumstance, p: Pass, j': Job, p': Pass)
  {
    if Idle(j) then j' == j && p' == p
    else match j.ready
      case Downloaded => LandedEffect(j, c, p, j', p')
      case Encoded => EncodedEffect(j, p, j', p')
      case Queued =>
        if j.kind == Keycode && !j.dispatched then KeycodeEffect(j, c, p, j', p') else j' == j && p' == p
      case _ => j' == j && p' == p
  }

  // Followers show what kind of worker the job they follow has.
  lemma FollowersName(worker: string)
    ensures ForwardedWorker(worker)
            == if |worker| >= 4 && worker[..4] == "dwl-" then "dwl-forward"
               else if |worker| >= 4 && worker[..4] == "upl-" then "upl-forward"
               else "enc-forward"
  {
  }

  lemma UploadName()
    ensures ForwardedWorker("upl-pending") == "upl-forward"
  {
    FollowersName("upl-pending");
    assert "upl-pending"[..4] == "upl-";
    assert "upl-"[0] != "dwl-"[0];
  }

  // Subtitles, previews and backups that landed.
  lemma HandedOn(j: Job, c: Circumstance, p: Pass)
    requires !Idle(j) && j.ready == Downloaded && !WantsEncoder(j)
    ensures var (j', p') := Advance(j, c, p); LandedEffect(j, c, p, j', p')
  {
  }

  lemma EncoderTurn(j: Job, c: Circumstance, p: Pass)
    requires !Idle(j) && j.ready == Downloaded && WantsEncoder(j)
    ensures var (j', p') := Advance(j, c, p); LandedEffect(j, c, p, j', p')
  {
    AdvanceEncodes(j, c, p);
    EncodeHasEffect(j, c, p);
    LandedEncode(j, c, p, AdvanceEncode(j, c, p).0, AdvanceEncode(j, c, p).1);
  }

  lemma LandedEncode(j: Job, c: Circumstance, p: Pass, j': Job, p': Pass)
    requires j.kind != Subs && j.kind != Preview && j.kind != Backup && j.kind != BackupAll
    ensures LandedEffect(j, c, p, j', p') <==> EncodeEffect(j, c, p, j', p')
  {
  }

  lemma KeycodeTurn(j: Job, c: Circumstance, p: Pass)
    requires !Idle(j) && j.ready == Queued && j.kind == Keycode && !j.dispatched
    ensures var (j', p') := Advance(j, c, p); KeycodeEffect(j, c, p, j', p')
  {
  }

  lemma EncodedTurn(j: Job, c: Circumstance, p: Pass)
    requires !Idle(j) && j.ready == Encoded
    ensures var (j', p') := Advance(j, c, p); EncodedEffect(j, p, j', p')
  {
    UploadName();
  }

  predicate Rests(j: Job)
  {
    || Idle(j)
    || (j.ready != Downloaded && j.ready != Encoded && !(j.ready == Queued && j.kind == Keycode && !j.dispatched))
  }

  lemma RestingTurn(j: Job, c: Circumstance, p: Pass)
    requires Rests(j)
    ensures Advance(j, c, p) == (j, p)
  {
  }

  lemma TurnHasEffect(j: Job, c: Circumstance, p: Pass)
    ensures var (j', p') := Advance(j, c, p); TurnEffect(j, c, p, j', p')
  {
    if Rests(j) {
      RestingTurn(j, c, p);
    } else if j.ready == Encoded {
      EncodedTurn(j, c, p);
    } else if j.ready == Queued {
      KeycodeTurn(j, c, p);
    } else if WantsEncoder(j) {
      EncoderTurn(j, c, p);
    } else {
      HandedOn(j, c, p);
    }
  }
}

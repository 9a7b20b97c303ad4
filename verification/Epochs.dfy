// Encoder reboots neither lose nor double-send a job.
module Epochs {
  import opened Wrappers
  import opened Jobs
  import opened QueueFacts

  // Kinds the progression pass hands to the encoder layer.
  predicate Encodes(kind: JobType)
  {
    kind != Subs && kind != Preview && kind != Backup && kind != BackupAll
  }

  // One job against the reboot count the loop last acted on and against its last send. A job
  // that is dispatched and has not reported was sent with its recorded epoch, no older than
  // that count; one that is not dispatched any more was last sent before it.
  ghost predicate EpochOk(j: Job, known: nat, reboots: nat, nextOrder: nat, last: Option<nat>)
  {
    && (j.dispatched ==> Encodes(j.kind) && (Waiting(j) || j.ready == Encoding))
    && j.epoch <= reboots
    && (j.dispatched && Waiting(j) ==> last == Some(j.epoch) && known <= j.epoch)
    && (!j.dispatched && last.Some? ==> last.value < known)
    && (j.forwardParent.Some? ==> !j.dispatched)
    && (j.order.Some? ==> j.order.value < nextOrder)
  }

  ghost predicate DistinctOrders(queue: seq<Job>)
  {
    forall j, k :: j in queue && k in queue && j.order.Some? && j.order == k.order ==> j.id == k.id
  }

  // Every send carries a larger epoch than the previous send of that job, unless the job
  // reported a stage in between.
  ghost predicate GoodSends(log: seq<Action>)
  {
    forall k :: 0 <= k < |log| && log[k].Sent? ==>
      var last := LastSend(log[..k], log[k].id);
      last.Some? ==> last.value < log[k].epoch
  }

  ghost predicate EpochInv(s: State)
  {
    && UniqueIds(s.queue) && s.known <= s.reboots
    && (forall j :: j in s.queue ==> j.id in s.used)
    && (forall id :: LastSend(s.log, id).Some? ==> id in s.used && LastSend(s.log, id).value <= s.reboots)
    && (forall j :: j in s.queue ==> EpochOk(j, s.known, s.reboots, s.nextOrder, LastSend(s.log, j.id)))
    && DistinctOrders(s.queue)
    && GoodSends(s.log)
  }

  // ---- Primitive changes --------------------------------------------------------------------

  // The dispatch state is left alone, and so is everything about a dispatched job.
  ghost predicate Calm(j: Job, j': Job)
  {
    && j'.id == j.id && j'.dispatched == j.dispatched && j'.order == j.order && j'.epoch == j.epoch
    && (j.dispatched ==> j'.ready == j.ready && j'.kind == j.kind && j'.forwardParent == j.forwardParent)
  }

  ghost predicate CalmQueue(queue: seq<Job>, queue': seq<Job>)
  {
    && UniqueIds(queue')
    && forall j' :: j' in queue' ==> exists j :: j in queue && Calm(j, j')
  }

  lemma CalmKeeps(s: State, queue': seq<Job>)
    requires EpochInv(s) && CalmQueue(s.queue, queue')
    ensures EpochInv(s.(queue := queue'))
  {
    forall j' | j' in queue'
      ensures j'.id in s.used && EpochOk(j', s.known, s.reboots, s.nextOrder, LastSend(s.log, j'.id))
    {
      var j :| j in s.queue && Calm(j, j');
    }
    forall j', k' | j' in queue' && k' in queue' && j'.order.Some? && j'.order == k'.order ensures j'.id == k'.id {
      var j :| j in s.queue && Calm(j, j');
      var k :| k in s.queue && Calm(k, k');
    }
  }

  lemma CalmUpdate(s: State, pos: nat, job: Job)
    requires EpochInv(s) && pos < |s.queue| && Calm(s.queue[pos], job)
    ensures EpochInv(s.(queue := s.queue[pos := job]))
  {
    UpdateMembers(s.queue, pos, job);
    var queue' := s.queue[pos := job];
    forall j' | j' in queue' ensures exists j :: j in s.queue && Calm(j, j') {
      if j' == job { assert s.queue[pos] in s.queue; } else { assert Calm(j', j'); }
    }
    CalmKeeps(s, queue');
  }

  lemma CalmMap(s: State, f: Job -> Job)
    requires EpochInv(s) && forall j :: j in s.queue ==> Calm(j, f(j))
    ensures EpochInv(s.(queue := Map(s.queue, f)))
  {
    MapMembers(s.queue, f);
    CalmKeeps(s, Map(s.queue, f));
  }

  lemma CalmFilter(s: State, keep: Job -> bool)
    requires EpochInv(s)
    ensures EpochInv(s.(queue := Filter(s.queue, keep)))
  {
    FilterMembers(s.queue, keep);
    assert forall j :: j in s.queue ==> Calm(j, j);
    CalmKeeps(s, Filter(s.queue, keep));
  }

  lemma CalmRemove(s: State, pos: nat)
    requires EpochInv(s) && pos < |s.queue|
    ensures EpochInv(s.(queue := s.queue[..pos] + s.queue[pos + 1..]))
  {
    RemoveMembers(s.queue, pos);
    assert forall j :: j in s.queue ==> Calm(j, j);
    CalmKeeps(s, s.queue[..pos] + s.queue[pos + 1..]);
  }

  // A new job enters undispatched.
  lemma NewJob(s: State, job: Job)
    requires EpochInv(s) && job.id !in s.used
    requires !job.dispatched && job.order.None? && job.epoch <= s.reboots
    ensures EpochInv(s.(queue := s.queue + [job], used := s.used + {job.id}))
  {
    AppendMembers(s.queue, job);
  }

  lemma MarkUsed(s: State, id: nat)
    requires EpochInv(s)
    ensures EpochInv(s.(used := s.used + {id}))
  {
  }

  predicate Silent(a: Action)
  {
    !a.Sent? && !a.Reported?
  }

  lemma GoodSendsAppend(log: seq<Action>, a: Action)
    requires GoodSends(log)
    requires a.Sent? && LastSend(log, a.id).Some? ==> LastSend(log, a.id).value < a.epoch
    ensures GoodSends(log + [a])
  {
    var more := log + [a];
    forall k | 0 <= k < |more| && more[k].Sent?
      ensures var last := LastSend(more[..k], more[k].id); last.Some? ==> last.value < more[k].epoch
    {
      assert more[..k] == log[..k];
      if k == |log| { assert log[..k] == log; }
    }
  }

  lemma SilentAction(s: State, a: Action)
    requires EpochInv(s) && Silent(a)
    ensures EpochInv(s.(log := s.log + [a]))
  {
    forall id ensures LastSend(s.log + [a], id) == LastSend(s.log, id) {
      LastSendAppend(s.log, a, id);
    }
    GoodSendsAppend(s.log, a);
  }

  lemma {:induction false} SilentActions(s: State, more: seq<Action>)
    requires EpochInv(s) && forall k :: 0 <= k < |more| ==> Silent(more[k])
    ensures EpochInv(s.(log := s.log + more))
  {
    if more == [] {
      assert s.log + more == s.log;
    } else {
      var n := |more| - 1;
      SilentActions(s, more[..n]);
      SilentAction(s.(log := s.log + more[..n]), more[n]);
      assert s.log + more == s.log + more[..n] + [more[n]];
    }
  }

  lemma MoreReboots(s: State, reboots: nat)
    requires EpochInv(s) && s.reboots <= reboots
    ensures EpochInv(s.(reboots := reboots))
  {
  }

  // A stage report clears the dispatch, except that Encoding keeps it.
  lemma ReportKeeps(s: State, pos: nat, stage: Stage)
    requires EpochInv(s) && pos < |s.queue|
    ensures var job := ReportedJob(s.queue[pos], Some(stage));
            EpochInv(s.(queue := s.queue[pos := job], log := s.log + [Reported(job.id)]))
  {
    var job := ReportedJob(s.queue[pos], Some(stage));
    var queue', a := s.queue[pos := job], Reported(job.id);
    UpdateMembers(s.queue, pos, job);
    GoodSendsAppend(s.log, a);
    forall id ensures LastSend(s.log + [a], id) == if id == job.id then None else LastSend(s.log, id) {
      LastSendAppend(s.log, a, id);
    }
    assert s.queue[pos] in s.queue;
  }

  // Handing an undispatched job to the encoder layer in its present epoch.
  lemma SendKeeps(s: State, pos: nat, job: Job, reboots: nat)
    requires EpochInv(s) && pos < |s.queue| && s.reboots <= reboots
    requires job.id == s.queue[pos].id && !s.queue[pos].dispatched && s.queue[pos].forwardParent.None?
    requires job.dispatched && job.order == Some(s.nextOrder) && job.epoch == reboots && Waiting(job)
             && job.forwardParent.None? && Encodes(job.kind)
    ensures EpochInv(s.(queue := s.queue[pos := job], reboots := reboots, nextOrder := s.nextOrder + 1,
                        log := s.log + [Sent(job.id, reboots)]))
  {
    var a := Sent(job.id, reboots);
    assert s.queue[pos] in s.queue;
    UpdateMembers(s.queue, pos, job);
    GoodSendsAppend(s.log, a);
    forall id ensures LastSend(s.log + [a], id) == if id == job.id then Some(reboots) else LastSend(s.log, id) {
      LastSendAppend(s.log, a, id);
    }
  }

  // ---- The epoch check ----------------------------------------------------------------------

  lemma CheckKeeps(s: State)
    requires EpochInv(s)
    ensures EpochInv(CheckEpoch(s))
  {
    if s.reboots != s.known {
      var f := (j: Job) => ResetJob(j, s.reboots);
      MapMembers(s.queue, f);
      var queue' := ResetDispatches(s.queue, s.reboots);
      forall j' | j' in queue' ensures j'.id in s.used
        && EpochOk(j', s.reboots, s.reboots, s.nextOrder, LastSend(s.log, j'.id))
      {
        var j :| j in s.queue && f(j) == j';
      }
      forall j', k' | j' in queue' && k' in queue' && j'.order.Some? && j'.order == k'.order ensures j'.id == k'.id {
        var j :| j in s.queue && f(j) == j';
        var k :| k in s.queue && f(k) == k';
      }
    }
  }

  // After a check, whoever is dispatched and has not reported was sent in the present epoch.
  lemma PendingIsCurrent(s: State, j: Job)
    requires EpochInv(s)
    requires j in CheckEpoch(s).queue && j.dispatched && Waiting(j)
    ensures j.epoch == s.reboots && LastSend(s.log, j.id) == Some(s.reboots)
  {
    CheckKeeps(s);
  }

  lemma AllCurrent(s: State)
    ensures EpochInv(s) ==>
              forall j :: j in CheckEpoch(s).queue && j.dispatched && Waiting(j) ==> j.epoch == s.reboots
  {
    if EpochInv(s) {
      forall j | j in CheckEpoch(s).queue && j.dispatched && Waiting(j) ensures j.epoch == s.reboots {
        PendingIsCurrent(s, j);
      }
    }
  }

  // And nobody is lost: a waiting job sent in an older epoch is free to be dispatched again.
  lemma StaleIsFreed(s: State, j: Job)
    requires EpochInv(s) && j in s.queue && j.dispatched && Waiting(j) && j.epoch < s.reboots
    ensures j.(dispatched := false, order := None) in CheckEpoch(s).queue
  {
    MapMembers(s.queue, (j: Job) => ResetJob(j, s.reboots));
    assert ResetJob(j, s.reboots) == j.(dispatched := false, order := None);
  }

  // ---- Every step ---------------------------------------------------------------------------

  lemma SyncStateCalm(s: State, parentId: nat, stage: Option<Stage>, worker: Option<string>)
    requires EpochInv(s)
    ensures EpochInv(s.(queue := SyncState(s.queue, parentId, stage, worker)))
  {
    CalmMap(s, (j: Job) => SyncedJob(j, parentId, stage, worker));
  }

  lemma SyncJobsCalm(s: State, parentId: nat, stage: Option<Stage>, worker: string)
    requires EpochInv(s)
    ensures EpochInv(s.(queue := SyncJobs(s.queue, parentId, stage, worker)))
  {
    if stage.Some? && IsTerminal(stage.value) {
      CalmFilter(s, (j: Job) => j.forwardParent != Some(parentId));
    } else {
      SyncStateCalm(s, parentId, stage, Some(ForwardedWorker(worker)));
    }
  }

  lemma BatchUpdateCalm(s: State, parentId: nat, childId: nat, stage: Stage)
    requires EpochInv(s)
    ensures EpochInv(UpdateBatchParent(s, parentId, childId, stage))
  {
    var pos := Position(s.queue, parentId);
    if pos.Some? && s.queue[pos.value].batch.Some? {
      var b := s.queue[pos.value].batch.value;
      var up := UpdateBatchParent(s, parentId, childId, stage);
      if IsTerminal(stage) {
        CalmUpdate(s, pos.value, s.queue[pos.value].(batch := up.queue[pos.value].batch));
        SilentAction(s.(queue := up.queue), ChildDone(parentId, childId));
      }
    }
  }

  // What enters the queue is the submitted job, dispatched only if it is a studio render.
  lemma EnteringShape(queue: seq<Job>, job: Job, setup: Setup)
    requires FreshJob(job) && Entering(queue, job, setup).Some?
    ensures var j := Entering(queue, job, setup).value;
            && j.id == job.id && j.kind == job.kind && j.order.None? && j.epoch == 0
            && (j.dispatched <==> job.kind == Studio)
            && (job.kind == Studio ==> j.ready == Encoding && j.forwardParent.None?)
  {
  }

  lemma LinkedKeeps(s: State, job: Job, parent: nat)
    requires EpochInv(s) && job.id !in s.used
    requires !job.dispatched && job.order.None? && job.epoch <= s.reboots
    ensures EpochInv(s.(queue := s.queue + [job], used := s.used + {job.id}, log := s.log + [Linked(job.id, parent)]))
  {
    NewJob(s, job);
    SilentAction(s.(queue := s.queue + [job], used := s.used + {job.id}), Linked(job.id, parent));
  }

  lemma SubmitKeeps(s: State, job: Job, setup: Setup)
    requires EpochInv(s) && FreshJob(job) && job.id !in s.used
    ensures EpochInv(Submit(s, job, setup))
  {
    var good := (x: State) => EpochInv(x);
    MarkUsed(s, job.id);
    var entering := Entering(s.queue, job, setup);
    if entering.Some? {
      EnteringShape(s.queue, job, setup);
      if job.kind == Studio {
        StudioKeeps(s, entering.value, s.reboots + setup.bumps);
      } else if entering.value.forwardParent.Some? {
        LinkedKeeps(s, entering.value, entering.value.forwardParent.value);
      } else {
        NewJob(s, entering.value);
      }
    }
    SubmitCases(s, job, setup, good);
    assert good(Submit(s, job, setup));
  }

  // A message sent under a new id.
  lemma FirstSend(log: seq<Action>, id: nat, epoch: nat)
    requires GoodSends(log) && LastSend(log, id).None?
    ensures GoodSends(log + [Sent(id, epoch)])
    ensures forall k :: LastSend(log + [Sent(id, epoch)], k) == if k == id then Some(epoch) else LastSend(log, k)
  {
    GoodSendsAppend(log, Sent(id, epoch));
    forall k ensures LastSend(log + [Sent(id, epoch)], k) == if k == id then Some(epoch) else LastSend(log, k) {
      LastSendAppend(log, Sent(id, epoch), k);
    }
  }

  predicate Rendering(job: Job)
  {
    && job.dispatched && job.ready == Encoding && job.kind == Studio && job.order.None? && job.epoch == 0
    && job.forwardParent.None?
  }

  // A studio render is sent on submission and counts as encoding from then on.
  lemma StudioKeeps(s: State, job: Job, reboots: nat)
    requires EpochInv(s) && job.id !in s.used && s.reboots <= reboots && Rendering(job)
    ensures EpochInv(s.(queue := s.queue + [job], used := s.used + {job.id}, reboots := reboots,
                        log := s.log + [Sent(job.id, reboots)]))
  {
    var t := s.(queue := s.queue + [job], used := s.used + {job.id}, reboots := reboots, log := s.log
                + [Sent(job.id, reboots)]);
    AppendMembers(s.queue, job);
    FirstSend(s.log, job.id, reboots);
    StudioOrders(s, job);
    forall j | j in t.queue
      ensures j.id in t.used && EpochOk(j, t.known, t.reboots, t.nextOrder, LastSend(t.log, j.id))
    {
      if j != job { assert j in s.queue && EpochOk(j, s.known, s.reboots, s.nextOrder, LastSend(s.log, j.id)); }
    }
  }

  lemma StudioOrders(s: State, job: Job)
    requires EpochInv(s) && job.order.None?
    ensures DistinctOrders(s.queue + [job])
  {
  }

  lemma SpawnKeeps(s: State, pos: nat, fileIndex: nat, h: HandOff)
    requires EpochInv(s) && pos < |s.queue| && (h.Child? ==> h.id !in s.used)
    ensures EpochInv(SpawnBatchChild(s, pos, fileIndex, h))
  {
    var parent := s.queue[pos];
    assert parent in s.queue;
    var t := SpawnBatchChild(s, pos, fileIndex, h);
    if t != s {
      var updated := s.queue[pos].(batch := t.queue[pos].batch);
      CalmUpdate(s, pos, updated);
      if h.NoChild? {
        SilentAction(s.(queue := t.queue), Missed(parent.id));
      } else {
        NewJob(s.(queue := s.queue[pos := updated]), BatchChild(parent, h));
      }
    }
  }

  lemma NotedKeeps(s: State, pos: nat, stage: Option<Stage>)
    requires EpochInv(s) && pos < |s.queue|
    ensures EpochInv(Noted(s, pos, stage))
  {
    var job := ReportedJob(s.queue[pos], stage);
    if stage.Some? {
      ReportKeeps(s, pos, stage.value);
      if job.batchParent.Some? { BatchUpdateCalm(Marked(s, pos, stage), job.batchParent.value, job.id, stage.value); }
    } else {
      assert Marked(s, pos, stage).queue == s.queue;
    }
  }

  lemma TailKeeps(s: State, job: Job, stage: Option<Stage>)
    requires EpochInv(s)
    ensures EpochInv(s.(queue := ReportTail(s.queue, job, stage)))
  {
    var synced := s.(queue := SyncJobs(s.queue, job.id, stage, job.worker));
    SyncJobsCalm(s, job.id, stage, job.worker);
    if Finished(job.ready) {
      var dropped := synced.(queue := DropProbe(synced.queue, job.probeJob));
      if job.probeJob.Some? && Position(synced.queue, job.probeJob.value).Some? {
        CalmRemove(synced, Position(synced.queue, job.probeJob.value).value);
      }
      CalmFilter(dropped, (j: Job) => j.id != job.id);
    }
  }

  lemma ReportStepKeeps(s: State, pos: nat, stage: Option<Stage>)
    requires EpochInv(s) && pos < |s.queue|
    ensures EpochInv(ReportStep(s, pos, stage))
  {
    NotedKeeps(s, pos, stage);
    TailKeeps(Noted(s, pos, stage), ReportedJob(s.queue[pos], stage), stage);
    ReportIsTail(s, pos, stage);
  }

  lemma ReceiveKeeps(s: State, id: nat, message: Message)
    requires EpochInv(s) && Possible(s, Received(id, message))
    ensures EpochInv(Receive(s, id, message))
  {
    var found := Position(s.queue, id);
    if found.Some? {
      var pos := found.value;
      match message
      case Assign(worker) =>
        var job := s.queue[pos].(worker := worker);
        CalmUpdate(s, pos, job);
        SyncStateCalm(s.(queue := s.queue[pos := job]), id, None, Some(ForwardedWorker(worker)));
      case Warning =>
      case FileDone(fileIndex, handOff) => SpawnKeeps(s, pos, fileIndex, handOff);
      case DuplicateWait(owner) => CalmUpdate(s, pos, s.queue[pos].(duplicateSource := Some(owner)));
      case Report(stage) => ReportStepKeeps(s, pos, stage);
    }
  }

  lemma CancelKeeps(s: State, id: nat, author: nat)
    requires EpochInv(s)
    ensures EpochInv(CancelJob(s, id, author))
  {
    var found := OwnedPosition(s.queue, id, author);
    if found.Some? {
      SyncJobsCalm(s, id, Some(Cancelled), s.queue[found.value].worker);
      CalmFilter(s.(queue := SyncJobs(s.queue, id, Some(Cancelled), s.queue[found.value].worker)),
                 (j: Job) => j.id != id);
    }
  }

  ghost predicate BatchVariants(queue: seq<Job>, queue': seq<Job>)
  {
    UniqueIds(queue') && forall j' :: j' in queue' ==> exists j :: j in queue && SameButBatch(j, j')
  }

  // A failed job leaves the queue, so what its own record became does not matter.
  lemma FailedLeaves(queue: seq<Job>, pos: nat, job: Job, rest: seq<Job>)
    requires UniqueIds(queue) && pos < |queue| && job.id == queue[pos].id
    requires BatchVariants(queue[pos := job], rest)
    ensures CalmQueue(queue, Without(rest, job.id))
  {
    UpdateMembers(queue, pos, job);
    FilterMembers(rest, (j: Job) => j.id != job.id);
    var updated := queue[pos := job];
    forall j' | j' in Without(rest, job.id) ensures exists j :: j in queue && Calm(j, j') {
      var j :| j in updated && SameButBatch(j, j');
      assert j in queue && Calm(j, j');
    }
  }

  lemma SyncedVariants(queue: seq<Job>, id: nat, worker: string)
    requires UniqueIds(queue)
    ensures BatchVariants(queue, SyncJobs(queue, id, Some(Failed), worker))
  {
    FilterMembers(queue, (j: Job) => j.forwardParent != Some(id));
    assert forall j :: j in queue ==> SameButBatch(j, j);
  }

  lemma NotifiedVariants(queue: seq<Job>, s: State, job: Job)
    requires BatchVariants(queue, s.queue)
    ensures BatchVariants(queue, NotifyBatch(s, job, Failed).queue)
  {
    NotifyMembers(s, job, Failed);
    var t := NotifyBatch(s, job, Failed);
    forall j' | j' in t.queue ensures exists j :: j in queue && SameButBatch(j, j') {
      var k :| k in s.queue && SameButBatch(k, j');
      var j :| j in queue && SameButBatch(j, k);
      assert SameButBatch(j, j');
    }
  }

  lemma FailedQueue(s: State, pos: nat, job: Job)
    requires UniqueIds(s.queue) && pos < |s.queue| && job.id == s.queue[pos].id
    ensures var s1 := s.(queue := SyncJobs(s.queue[pos := job], job.id, Some(Failed), ForwardedWorker(job.worker)));
            var s2 := NotifyBatch(s1, job, Failed);
            && CalmQueue(s.queue, Without(s1.queue, job.id)) && CalmQueue(s.queue, Without(s2.queue, job.id))
  {
    var updated := s.queue[pos := job];
    UpdateMembers(s.queue, pos, job);
    SyncedVariants(updated, job.id, ForwardedWorker(job.worker));
    var s1 := s.(queue := SyncJobs(updated, job.id, Some(Failed), ForwardedWorker(job.worker)));
    NotifiedVariants(updated, s1, job);
    FailedLeaves(s.queue, pos, job, s1.queue);
    FailedLeaves(s.queue, pos, job, NotifyBatch(s1, job, Failed).queue);
  }

  lemma FailOneQueue(s: State, id: nat)
    requires UniqueIds(s.queue)
    ensures var t := FailOne(s, id);
            && CalmQueue(s.queue, t.queue) && t == s.(queue := t.queue, log := t.log)
            && (t.log == s.log || exists a :: Silent(a) && t.log == s.log + [a])
  {
    var found := Position(s.queue, id);
    if found.None? {
      assert forall j :: j in s.queue ==> Calm(j, j);
    } else {
      var job := s.queue[found.value].(ready := Failed, dispatched := false, order := None);
      FailedQueue(s, found.value, job);
    }
  }

  lemma FailOneKeeps(s: State, id: nat)
    requires EpochInv(s)
    ensures EpochInv(FailOne(s, id))
  {
    FailOneQueue(s, id);
    var t := FailOne(s, id);
    CalmKeeps(s, t.queue);
    if a :| Silent(a) && t.log == s.log + [a] {
      SilentAction(s.(queue := t.queue), a);
    }
  }

  lemma {:induction false} FailAllKeeps(s: State, ids: seq<nat>)
    requires EpochInv(s)
    ensures EpochInv(FailAll(s, ids))
  {
    if ids != [] {
      FailAllKeeps(s, ids[..|ids| - 1]);
      FailOneKeeps(FailAll(s, ids[..|ids| - 1]), ids[|ids| - 1]);
    }
  }

  lemma FinishBatchesKeeps(s: State)
    requires EpochInv(s)
    ensures EpochInv(FinishBatches(s))
  {
    var settled := Map(s.queue, SettleJob);
    SettledCalm(s);
    LogsSilent(s.queue);
    LogsSilent(settled);
    SilentActions(s.(queue := FinishBatches(s).queue), SettleLog(s.queue) + DoneLog(settled));
    assert s.log + SettleLog(s.queue) + DoneLog(settled) == s.log + (SettleLog(s.queue) + DoneLog(settled));
  }

  lemma SettledCalm(s: State)
    requires EpochInv(s)
    ensures EpochInv(s.(queue := FinishBatches(s).queue))
  {
    CalmMap(s, SettleJob);
    CalmFilter(s.(queue := Map(s.queue, SettleJob)), (j: Job) => !BatchFinished(j));
  }

  lemma {:induction false} LogsSilent(queue: seq<Job>)
    ensures forall k :: 0 <= k < |SettleLog(queue)| ==> Silent(SettleLog(queue)[k])
    ensures forall k :: 0 <= k < |DoneLog(queue)| ==> Silent(DoneLog(queue)[k])
  {
    if queue != [] { LogsSilent(queue[..|queue| - 1]); }
  }

  // ---- The progression pass -----------------------------------------------------------------

  lemma SinceBatchFree(s: State, n: nat)
    requires EpochInv(s)
    ensures EpochInv(s.(sinceBatch := n))
  {
  }

  // The pass sends a job: it was free, and carries the next order and the present epoch.
  ghost predicate SendsJob(j: Job, j': Job, p: Pass, p': Pass)
  {
    && j'.id == j.id && !j.dispatched && j.forwardParent.None? && j'.forwardParent.None?
    && j'.dispatched && Waiting(j') && Encodes(j'.kind) && j'.order == Some(p.nextOrder)
    && j'.epoch == p'.reboots >= p.reboots
    && p'.nextOrder == p.nextOrder + 1
    && (p'.log == p.log + [Sent(j.id, p'.reboots)]
        || exists batch, others :: p'.log == p.log + [Sent(j.id, p'.reboots), Dispatched(j.id, batch, others)])
  }

  ghost predicate LeavesJob(j: Job, j': Job, p: Pass, p': Pass)
  {
    && Calm(j, j')
    && p'.reboots == p.reboots && p'.nextOrder == p.nextOrder && p'.sinceBatch == p.sinceBatch
    && (p'.log == p.log || exists parent :: p'.log == p.log + [Linked(j.id, parent)])
  }

  lemma KeycodeShape(j: Job, c: Circumstance, p: Pass)
    requires j.kind == Keycode && j.ready == Queued && !j.dispatched && j.forwardParent.None?
    ensures var (j', p') := DispatchKeycode(j, c, p); SendsJob(j, j', p, p') || LeavesJob(j, j', p, p')
  {
  }

  lemma EncodeShape(j: Job, c: Circumstance, p: Pass)
    requires j.ready == Downloaded && j.forwardParent.None? && Encodes(j.kind)
    ensures var (j', p') := AdvanceEncode(j, c, p); SendsJob(j, j', p, p') || LeavesJob(j, j', p, p')
  {
    var (j', p') := AdvanceEncode(j, c, p);
    if p'.nextOrder != p.nextOrder {
      assert p'.log == p.log + [Sent(j.id, p'.reboots), Dispatched(j.id, j.batchParent.Some?, p.othersWaiting)];
    } else if p'.log != p.log {
      assert p'.log == p.log + [Linked(j.id, j'.forwardParent.value)];
    }
  }

  lemma AdvanceShape(j: Job, c: Circumstance, p: Pass)
    requires j.dispatched ==> Encodes(j.kind) && (Waiting(j) || j.ready == Encoding)
    ensures var (j', p') := Advance(j, c, p); SendsJob(j, j', p, p') || LeavesJob(j, j', p, p')
  {
    var (j', p') := Advance(j, c, p);
    if j.forwardParent.None? {
      if j.kind == Keycode && j.ready == Queued && !j.dispatched { KeycodeShape(j, c, p); }
      if j.ready == Downloaded && Encodes(j.kind) { EncodeShape(j, c, p); }
    }
    if (j', p') != AdvanceEncode(j, c, p) && (j', p') != DispatchKeycode(j, c, p) {
      assert Calm(j, j');
    }
  }

  lemma AdvanceKeeps(s: State, queue: seq<Job>, i: nat, c: Circumstance, p: Pass)
    requires EpochInv(During(s, queue, p)) && i < |queue|
    ensures var (j, p') := Advance(queue[i], c, p);
            EpochInv(During(s, queue[i := j], p'))
  {
    var d := During(s, queue, p);
    var (j, p') := Advance(queue[i], c, p);
    assert queue[i] in queue;
    AdvanceShape(queue[i], c, p);
    if SendsJob(queue[i], j, p, p') {
      SendKeeps(d, i, j, p'.reboots);
      var sent := d.(queue := queue[i := j], reboots := p'.reboots, nextOrder := p'.nextOrder, log := p.log
                     + [Sent(j.id, p'.reboots)]);
      SinceBatchFree(sent, p'.sinceBatch);
      if batch, others :| p'.log == p.log + [Sent(j.id, p'.reboots), Dispatched(j.id, batch, others)] {
        SilentAction(sent.(sinceBatch := p'.sinceBatch), Dispatched(j.id, batch, others));
        assert p'.log == sent.log + [Dispatched(j.id, batch, others)];
      }
    } else {
      CalmUpdate(d, i, j);
      if parent :| p'.log == p.log + [Linked(queue[i].id, parent)] {
        SilentAction(d.(queue := queue[i := j]), Linked(queue[i].id, parent));
      }
    }
  }

  lemma {:induction false} AdvanceFromKeeps(s: State, queue: seq<Job>, cs: seq<Circumstance>, i: nat, p: Pass)
    requires i <= |queue| == |cs| && EpochInv(During(s, queue, p))
    ensures var (queue', p') := AdvanceFrom(queue, cs, i, p); EpochInv(During(s, queue', p'))
    decreases |queue| - i
  {
    if i < |queue| {
      AdvanceKeeps(s, queue, i, cs[i], p);
      var (j, p') := Advance(queue[i], cs[i], p);
      AdvanceFromKeeps(s, queue[i := j], cs, i + 1, p');
    }
  }

  lemma {:induction false} SyncUploadsCalm(s: State, uploads: seq<(nat, string)>)
    requires EpochInv(s)
    ensures EpochInv(s.(queue := SyncUploads(s.queue, uploads)))
  {
    if uploads != [] {
      var init := uploads[..|uploads| - 1];
      var (id, worker) := uploads[|uploads| - 1];
      SyncUploadsCalm(s, init);
      SyncStateCalm(s.(queue := SyncUploads(s.queue, init)), id, Some(Uploading), Some(worker));
    }
  }

  lemma ProgressKeeps(s: State, cs: seq<Circumstance>)
    requires EpochInv(s) && |cs| == |s.queue|
    ensures EpochInv(Progress(s, cs))
  {
    assert During(s, s.queue, StartPass(s)) == s;
    AdvanceFromKeeps(s, s.queue, cs, 0, StartPass(s));
    var (queue, p) := AdvanceFrom(s.queue, cs, 0, StartPass(s));
    SyncUploadsCalm(During(s, queue, p), p.uploads);
    CalmFilter(During(s, SyncUploads(queue, p.uploads), p), (j: Job) => j.id !in p.dead);
  }

  lemma WaitsKeep(s: State, id: nat, outcome: WaitOutcome, plan: Plan)
    requires EpochInv(s)
    ensures EpochInv(DuplicateRound(s, id, outcome))
    ensures EpochInv(RetryDownload(s, id, plan))
  {
    var found := Position(s.queue, id);
    if found.Some? {
      var j := s.queue[found.value];
      assert j in s.queue;
      if !j.dispatched {
        CalmUpdate(s, found.value, WaitedJob(j, outcome));
        CalmUpdate(s, found.value, StartDownload(j, plan));
      }
    }
  }

  lemma RoundsKeep(s: State, id: nat, keys: seq<nat>)
    requires EpochInv(s)
    ensures EpochInv(ProbeTimeout(s, id))
    ensures EpochInv(GrowKeys(s, id, keys))
  {
    var found := Position(s.queue, id);
    if found.Some? {
      CalmRemove(s, found.value);
      CalmUpdate(s, found.value, s.queue[found.value].(forwardKeys := s.queue[found.value].forwardKeys + keys));
    }
  }

  lemma SmallStepKeeps(s: State, e: Event)
    requires EpochInv(s) && Possible(s, e) && !e.Submitted? && !e.Received? && !e.Progressed? && !e.StallFound?
    ensures EpochInv(Step(s, e))
  {
    match e
    case EpochChecked => CheckKeeps(s);
    case Rebooted => MoreReboots(s, s.reboots + 1);
    case CancelAsked(id, author) => CancelKeeps(s, id, author);
    case BatchesChecked => FinishBatchesKeeps(s);
    case _ => RoundStepKeeps(s, e);
  }

  lemma RoundStepKeeps(s: State, e: Event)
    requires EpochInv(s) && Possible(s, e)
    requires e.ProbeTimedOut? || e.DuplicateChecked? || e.DownloadRetried? || e.KeysGrown?
    ensures EpochInv(Step(s, e))
  {
    match e
    case ProbeTimedOut(id) => RoundsKeep(s, id, []);
    case DuplicateChecked(id, outcome) => WaitsKeep(s, id, outcome, Fetch);
    case DownloadRetried(id, plan) => WaitsKeep(s, id, StillWaiting, plan);
    case KeysGrown(id, keys) => RoundsKeep(s, id, keys);
  }

  lemma StallCases(s: State, ids: seq<nat>, good: State -> bool)
    requires good(s) && good(FailAll(s.(reboots := s.reboots + 1), ids))
    ensures good(FailStalled(s, ids))
  {
  }

  lemma StallKeeps(s: State, ids: seq<nat>)
    requires EpochInv(s)
    ensures EpochInv(FailStalled(s, ids))
  {
    var good, more := (x: State) => EpochInv(x), s.(reboots := s.reboots + 1);
    MoreReboots(s, s.reboots + 1);
    FailAllKeeps(more, ids);
    StallCases(s, ids, good);
    assert good(FailStalled(s, ids));
  }

  lemma StepKeeps(s: State, e: Event)
    requires EpochInv(s) && Possible(s, e)
    ensures EpochInv(Step(s, e))
  {
    if e.Submitted? { SubmitKeeps(s, e.job, e.setup); }
    else if e.Received? { ReceiveKeeps(s, e.id, e.message); }
    else if e.Progressed? { ProgressKeeps(s, e.circumstances); }
    else if e.StallFound? { StallKeeps(s, e.ids); }
    else { SmallStepKeeps(s, e); }
  }

  // On every run the invariant holds in every state.
  lemma {:induction false} RunKeeps(states: seq<State>, events: seq<Event>, k: nat)
    requires IsRun(states, events) && k < |states|
    ensures EpochInv(states[k])
  {
    if k > 0 {
      RunKeeps(states, events, k - 1);
      StepKeeps(states[k - 1], events[k - 1]);
    }
  }

  // On every run: after an epoch check, whoever is dispatched and has not reported was sent in
  // the present epoch, so no reboot loses a job.
  lemma CheckedRunIsCurrent(states: seq<State>, events: seq<Event>, k: nat, j: Job)
    requires IsRun(states, events) && k < |events| && events[k] == EpochChecked
    requires j in states[k + 1].queue && j.dispatched && Waiting(j)
    ensures j.epoch == states[k].reboots && LastSend(states[k + 1].log, j.id) == Some(states[k].reboots)
  {
    RunKeeps(states, events, k);
    PendingIsCurrent(states[k], j);
  }

  // On every run: dispatch orders in the queue are distinct and below the next one.
  lemma RunOrders(states: seq<State>, events: seq<Event>, n: nat, a: nat, b: nat)
    requires IsRun(states, events) && n < |states| && a < |states[n].queue| && b < |states[n].queue|
    requires states[n].queue[a].order.Some?
    ensures states[n].queue[a].order.value < states[n].nextOrder
    ensures a != b ==> states[n].queue[b].order != states[n].queue[a].order
  {
    RunKeeps(states, events, n);
    assert states[n].queue[a] in states[n].queue && states[n].queue[b] in states[n].queue;
  }

  // Two sends of one job with no stage report between them carry strictly increasing epochs.
  lemma SendsIncrease(states: seq<State>, events: seq<Event>, n: nat, a: nat, b: nat)
    requires IsRun(states, events) && n < |states|
    requires var log := states[n].log;
             && a < b < |log| && log[a].Sent? && log[b].Sent? && log[a].id == log[b].id
             && forall k :: a < k < b ==> log[k] != Reported(log[a].id)
    ensures states[n].log[a].epoch < states[n].log[b].epoch
  {
    RunKeeps(states, events, n);
    LastSendAfter(states[n].log, a, b);
  }

  lemma {:induction false} LastSendAfter(log: seq<Action>, a: nat, b: nat)
    requires GoodSends(log) && a < b <= |log| && log[a].Sent?
    requires forall k :: a < k < b ==> log[k] != Reported(log[a].id)
    ensures LastSend(log[..b], log[a].id).Some? && LastSend(log[..b], log[a].id).value >= log[a].epoch
  {
    var prefix := log[..b - 1];
    assert log[..b] == prefix + [log[b - 1]];
    LastSendAppend(prefix, log[b - 1], log[a].id);
    if a < b - 1 {
      LastSendAfter(log, a, b - 1);
    }
  }
}

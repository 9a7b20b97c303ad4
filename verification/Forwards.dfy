// Forwarding of duplicate encodes on runs whose forward keys are fixed and shared only by
// forwardable jobs: one unforwarded encode per key, chains of length one, and no orphans.
module Forwards {
  import opened Wrappers
  import opened Jobs
  import opened QueueFacts
  import opened Links

  // ---- The invariant ------------------------------------------------------------------------

  // A forwardable job that is not forwarded: it runs itself, and others may be forwarded to it.
  predicate IsFree(j: Job)
  {
    j.forwardParent.None? && IsForwardable(j)
  }

  // No two of them share a key.
  ghost predicate OneOwner(queue: seq<Job>)
  {
    forall j, k :: j in queue && k in queue && j.id != k.id && IsFree(j) && IsFree(k) ==> !SharesKey(j, k)
  }

  // Only forwardable jobs share keys with others. This leaves out kept encodes that share a key
  // with an ordinary one, and pancodes or batch children of one file; module ForwardLimits shows
  // that forwarding then goes wrong.
  ghost predicate KindsApart(queue: seq<Job>)
  {
    forall j, k :: j in queue && k in queue && j.id != k.id && SharesKey(j, k) ==> IsForwardable(j) && IsForwardable(k)
  }

  ghost predicate ProbesNamed(queue: seq<Job>)
  {
    forall j, k :: j in queue && k in queue && j.probeJob == Some(k.id) ==> k.kind == Probe
  }

  ghost predicate BatchKinds(queue: seq<Job>)
  {
    forall j :: j in queue && j.batch.Some? ==> j.kind == BatchDownload
  }

  ghost predicate Identities(queue: seq<Job>)
  {
    UniqueIds(queue) && OneOwner(queue) && KindsApart(queue) && ProbesNamed(queue) && BatchKinds(queue)
  }

  // The parent of every forwarded job is queued, forwardable and not forwarded itself.
  ghost predicate Fostered(queue: seq<Job>)
  {
    forall j :: j in queue && j.forwardParent.Some? ==> exists p :: p in queue && Fosters(p, j)
  }

  ghost predicate Fosters(p: Job, j: Job)
  {
    j.forwardParent == Some(p.id) && IsFree(p)
  }

  ghost predicate Sound(j: Job)
  {
    !IsTerminal(j.ready) && (j.ready == Probed ==> j.kind == Probe)
  }

  ghost predicate SoundBut(queue: seq<Job>, leaving: set<nat>)
  {
    forall j :: j in queue ==> j.id in leaving || Sound(j)
  }

  ghost predicate Recorded(queue: seq<Job>, used: set<nat>)
  {
    forall j :: j in queue ==> j.id in used && (j.probeJob.Some? ==> j.probeJob.value in used)
  }

  ghost predicate TidyQueue(queue: seq<Job>)
  {
    Identities(queue) && Fostered(queue) && SoundBut(queue, {})
  }

  ghost predicate Tidy(s: State)
  {
    TidyQueue(s.queue) && Recorded(s.queue, s.used)
  }

  // ---- What carries over --------------------------------------------------------------------

  lemma SharingIsMutual(j: Job, k: Job)
    ensures SharesKey(j, k) <==> SharesKey(k, j)
  {
    if a :| 0 <= a < |j.forwardKeys| && j.forwardKeys[a] in k.forwardKeys {
      var b :| 0 <= b < |k.forwardKeys| && k.forwardKeys[b] == j.forwardKeys[a];
    }
    if b :| 0 <= b < |k.forwardKeys| && k.forwardKeys[b] in j.forwardKeys {
      var a :| 0 <= a < |j.forwardKeys| && j.forwardKeys[a] == k.forwardKeys[b];
    }
  }

  lemma KeptSharing(j: Job, j': Job, k: Job, k': Job)
    requires Kept(j, j') && Kept(k, k')
    ensures SharesKey(j', k') == SharesKey(j, k)
  {
  }

  lemma OwnersDescend(queue: seq<Job>, queue': seq<Job>)
    requires OneOwner(queue) && KindsApart(queue) && Descends(queue, queue')
    ensures OneOwner(queue') && KindsApart(queue')
  {
    forall j', k' | j' in queue' && k' in queue' && j'.id != k'.id && SharesKey(j', k')
      ensures IsForwardable(j') && IsForwardable(k') && !(j'.forwardParent.None? && k'.forwardParent.None?)
    {
      var j :| j in queue && Kept(j, j');
      var k :| k in queue && Kept(k, k');
      KeptSharing(j, j', k, k');
    }
  }

  lemma IdentitiesDescend(queue: seq<Job>, queue': seq<Job>)
    requires Identities(queue) && Descends(queue, queue')
    ensures Identities(queue')
  {
    OwnersDescend(queue, queue');
    forall j' | j' in queue' && j'.batch.Some? ensures j'.kind == BatchDownload {
      var j :| j in queue && Kept(j, j');
    }
    forall j', k' | j' in queue' && k' in queue' && j'.probeJob == Some(k'.id) ensures k'.kind == Probe {
      var j :| j in queue && Kept(j, j');
      var k :| k in queue && Kept(k, k');
    }
  }

  lemma RecordedDescends(queue: seq<Job>, queue': seq<Job>, used: set<nat>, used': set<nat>)
    requires Recorded(queue, used) && Descends(queue, queue') && used <= used'
    ensures Recorded(queue', used')
  {
    forall j' | j' in queue' ensures j'.id in used' && (j'.probeJob.Some? ==> j'.probeJob.value in used') {
      var j :| j in queue && Kept(j, j');
    }
  }

  ghost predicate HasId(queue: seq<Job>, id: nat)
  {
    exists j :: j in queue && j.id == id
  }

  // A possible parent stays in the queue, or leaves no job forwarded to it behind.
  ghost predicate NoOrphans(queue: seq<Job>, queue': seq<Job>)
  {
    forall p :: p in queue && IsFree(p) ==>
      HasId(queue', p.id) || forall j' :: j' in queue' ==> j'.forwardParent != Some(p.id)
  }

  lemma FosteredDescends(queue: seq<Job>, queue': seq<Job>)
    requires UniqueIds(queue) && Fostered(queue) && Descends(queue, queue') && NoOrphans(queue, queue')
    ensures Fostered(queue')
  {
    forall j' | j' in queue' && j'.forwardParent.Some? ensures exists p' :: p' in queue' && Fosters(p', j') {
      var j :| j in queue && Kept(j, j');
      var p :| p in queue && Fosters(p, j);
      assert HasId(queue', p.id);
      var p' :| p' in queue' && p'.id == p.id;
      var q :| q in queue && Kept(q, p');
      assert Fosters(p', j');
    }
  }

  // A step that takes nobody out has no orphans to leave.
  ghost predicate SameIds(queue: seq<Job>, queue': seq<Job>)
  {
    forall j :: j in queue ==> HasId(queue', j.id)
  }

  lemma SameLength(queue: seq<Job>, queue': seq<Job>)
    requires |queue'| == |queue| && forall k :: 0 <= k < |queue| ==> queue'[k].id == queue[k].id
    ensures SameIds(queue, queue')
  {
    forall j | j in queue ensures HasId(queue', j.id) {
      var k :| 0 <= k < |queue| && queue[k] == j;
      assert queue'[k] in queue';
    }
  }

  lemma StillTidy(s: State, t: State)
    requires Tidy(s) && Descends(s.queue, t.queue) && s.used <= t.used
    requires NoOrphans(s.queue, t.queue) && SoundBut(t.queue, {})
    ensures Tidy(t)
  {
    IdentitiesDescend(s.queue, t.queue);
    RecordedDescends(s.queue, t.queue, s.used, t.used);
    FosteredDescends(s.queue, t.queue);
  }

  lemma SyncedSound(j: Job, id: nat, stage: Option<Stage>, worker: Option<string>, leaving: set<nat>)
    requires j.id in leaving || Sound(j)
    requires stage.Some? ==> !IsTerminal(stage.value)
    requires stage == Some(Probed) ==> j.forwardParent != Some(id)
    ensures var j' := SyncedJob(j, id, stage, worker); j'.id == j.id && (j.id in leaving || Sound(j'))
  {
  }

  lemma SyncSound(queue: seq<Job>, id: nat, stage: Option<Stage>, worker: Option<string>, leaving: set<nat>)
    requires SoundBut(queue, leaving)
    requires stage.Some? ==> !IsTerminal(stage.value)
    requires stage == Some(Probed) ==> forall j :: j in queue ==> j.forwardParent != Some(id)
    ensures SoundBut(SyncState(queue, id, stage, worker), leaving)
    ensures SameIds(queue, SyncState(queue, id, stage, worker))
  {
    var synced := SyncState(queue, id, stage, worker);
    SameLength(queue, synced);
    forall j' | j' in synced ensures j'.id in leaving || Sound(j') {
      var k :| 0 <= k < |synced| && synced[k] == j';
      assert queue[k] in queue;
      SyncedSound(queue[k], id, stage, worker, leaving);
    }
  }

  lemma UpdateSound(queue: seq<Job>, pos: nat, job: Job)
    requires pos < |queue| && SoundBut(queue, {}) && Sound(job) && job.id == queue[pos].id
    ensures SoundBut(queue[pos := job], {}) && SameIds(queue, queue[pos := job])
  {
    SameLength(queue, queue[pos := job]);
  }

  // ---- Reports ------------------------------------------------------------------------------

  lemma FinishedTail(queue: seq<Job>, job: Job, stage: Stage)
    requires UniqueIds(queue) && Finished(stage) && job.ready == stage
    ensures forall j :: j in ReportTail(queue, job, Some(stage)) <==>
              j in queue && j.forwardParent != Some(job.id) && j.id != job.id && job.probeJob != Some(j.id)
  {
    var unforwarded, notMe := (j: Job) => j.forwardParent != Some(job.id), (j: Job) => j.id != job.id;
    FilterMembers(queue, unforwarded);
    var synced := Filter(queue, unforwarded);
    var dropped := DropProbe(synced, job.probeJob);
    if job.probeJob.Some? && Position(synced, job.probeJob.value).Some? {
      RemoveMembers(synced, Position(synced, job.probeJob.value).value);
    }
    FilterMembers(dropped, notMe);
  }

  lemma NotifySameIds(s: State, job: Job, stage: Stage)
    ensures SameIds(s.queue, NotifyBatch(s, job, stage).queue)
  {
    SameLength(s.queue, NotifyBatch(s, job, stage).queue);
  }

  lemma SameIdsTrans(a: seq<Job>, b: seq<Job>, c: seq<Job>)
    requires SameIds(a, b) && SameIds(b, c)
    ensures SameIds(a, c)
  {
    forall j | j in a ensures HasId(c, j.id) {
      var k :| k in b && k.id == j.id;
    }
  }

  lemma NotifySound(s: State, job: Job, stage: Stage, leaving: set<nat>)
    requires UniqueIds(s.queue) && SoundBut(s.queue, leaving)
    ensures SoundBut(NotifyBatch(s, job, stage).queue, leaving)
  {
    NotifyMembers(s, job, stage);
    var t := NotifyBatch(s, job, stage);
    forall j' | j' in t.queue ensures j'.id in leaving || Sound(j') {
      var j :| j in s.queue && SameButBatch(j, j');
    }
  }

  // A forwarded job follows an encode, so nobody follows a job that reports Probed.
  lemma NobodyFollowsProbe(queue: seq<Job>, pos: nat)
    requires Identities(queue) && Fostered(queue) && pos < |queue| && queue[pos].kind == Probe
    ensures forall j :: j in queue ==> j.forwardParent != Some(queue[pos].id)
  {
    forall j | j in queue ensures j.forwardParent != Some(queue[pos].id) {
      if j.forwardParent.Some? {
        var p :| p in queue && Fosters(p, j);
        assert queue[pos] in queue;
      }
    }
  }

  lemma NobodyFollowsDescends(queue: seq<Job>, queue': seq<Job>, id: nat)
    requires Descends(queue, queue') && forall j :: j in queue ==> j.forwardParent != Some(id)
    ensures forall j' :: j' in queue' ==> j'.forwardParent != Some(id)
  {
    forall j' | j' in queue' ensures j'.forwardParent != Some(id) {
      var j :| j in queue && Kept(j, j');
    }
  }

  lemma NotedShape(s: State, pos: nat, stage: Option<Stage>)
    requires UniqueIds(s.queue) && pos < |s.queue| && SoundBut(s.queue, {})
    ensures var t := Noted(s, pos, stage);
            && Descends(s.queue, t.queue) && SameIds(s.queue, t.queue) && SoundBut(t.queue, {s.queue[pos].id})
            && (Sound(ReportedJob(s.queue[pos], stage)) ==> SoundBut(t.queue, {}))
  {
    var job, s1 := ReportedJob(s.queue[pos], stage), Marked(s, pos, stage);
    NotedMoves(s, pos, stage);
    UpdateMembers(s.queue, pos, job);
    SameLength(s.queue, s1.queue);
    if stage.Some? {
      NotifySameIds(s1, job, stage.value);
      SameIdsTrans(s.queue, s1.queue, NotifyBatch(s1, job, stage.value).queue);
      NotifySound(s1, job, stage.value, {job.id});
      if Sound(job) { NotifySound(s1, job, stage.value, {}); }
    }
  }

  lemma NotedUnique(s: State, pos: nat, stage: Stage)
    requires UniqueIds(s.queue) && pos < |s.queue|
    ensures UniqueIds(Noted(s, pos, Some(stage)).queue)
  {
    var job := ReportedJob(s.queue[pos], Some(stage));
    UpdateMembers(s.queue, pos, job);
    NotifyMembers(s.(queue := s.queue[pos := job], log := s.log + [Reported(job.id)]), job, stage);
  }

  lemma FinishedClears(s: State, pos: nat, stage: Stage)
    requires UniqueIds(s.queue) && Finished(stage) && pos < |s.queue|
    ensures NobodyLeft(ReportStep(s, pos, Some(stage)).queue, s.queue[pos].id)
  {
    var job := ReportedJob(s.queue[pos], Some(stage));
    var queue := Noted(s, pos, Some(stage)).queue;
    NotedUnique(s, pos, stage);
    FinishedTail(queue, job, stage);
    assert NobodyLeft(ReportTail(queue, job, Some(stage)), job.id);
    ReportIsTail(s, pos, Some(stage));
  }

  // Neither the job nor anybody forwarded to it.
  ghost predicate NobodyLeft(queue: seq<Job>, id: nat)
  {
    forall j :: j in queue ==> j.id != id && j.forwardParent != Some(id)
  }

  // A terminal report takes the job out and everybody forwarded to it.
  lemma TerminalReportClears(s: State, id: nat, stage: Stage)
    requires UniqueIds(s.queue) && Finished(stage) && Position(s.queue, id).Some?
    ensures NobodyLeft(Receive(s, id, Report(Some(stage))).queue, id)
  {
    var pos := Position(s.queue, id).value;
    assert Receive(s, id, Report(Some(stage))) == ReportStep(s, pos, Some(stage));
    FinishedClears(s, pos, stage);
  }

  lemma FinishedTidy(s: State, pos: nat, stage: Stage)
    requires Tidy(s) && pos < |s.queue| && Finished(stage)
    ensures Tidy(ReportStep(s, pos, Some(stage)))
  {
    var job := ReportedJob(s.queue[pos], Some(stage));
    var s2 := Noted(s, pos, Some(stage));
    var t := ReportStep(s, pos, Some(stage));
    NotedShape(s, pos, Some(stage));
    FinishedTail(s2.queue, job, stage);
    ReportMoves(s, pos, Some(stage));
    ReportIsTail(s, pos, Some(stage));
    FinishedNoOrphans(s.queue, s2.queue, t.queue, s.queue[pos]);
    StillTidy(s, t);
  }

  // Where a job that stayed is now.
  lemma Descendant(queue: seq<Job>, queue': seq<Job>, p: Job) returns (p': Job)
    requires UniqueIds(queue) && Descends(queue, queue') && p in queue && HasId(queue', p.id)
    ensures p' in queue' && Kept(p, p')
  {
    p' :| p' in queue' && p'.id == p.id;
    var q :| q in queue && Kept(q, p');
    SameIdSameJob(queue, p, q);
  }

  lemma FinishedNoOrphans(queue: seq<Job>, noted: seq<Job>, rest: seq<Job>, job: Job)
    requires Identities(queue) && Descends(queue, noted) && SameIds(queue, noted) && job in queue
    requires forall j :: j in rest <==>
               j in noted && j.forwardParent != Some(job.id) && j.id != job.id && job.probeJob != Some(j.id)
    ensures NoOrphans(queue, rest)
  {
    forall p | p in queue && IsFree(p)
      ensures HasId(rest, p.id) || forall j' :: j' in rest ==> j'.forwardParent != Some(p.id)
    {
      if p.id != job.id {
        var p' := Descendant(queue, noted, p);
        assert p' in rest;
      }
    }
  }

  // The tail of a report that takes nobody out.
  lemma RunningTail(queue: seq<Job>, job: Job, stage: Option<Stage>)
    requires SoundBut(queue, {}) && Sound(job) && (stage.Some? ==> !IsTerminal(stage.value))
    requires stage == Some(Probed) ==> forall j :: j in queue ==> j.forwardParent != Some(job.id)
    ensures SoundBut(ReportTail(queue, job, stage), {}) && SameIds(queue, ReportTail(queue, job, stage))
  {
    SyncSound(queue, job.id, stage, Some(ForwardedWorker(job.worker)), {});
  }

  lemma FollowersMayBeProbed(s: State, pos: nat, stage: Option<Stage>)
    requires Tidy(s) && pos < |s.queue| && Descends(s.queue, Noted(s, pos, stage).queue)
    requires stage == Some(Probed) ==> s.queue[pos].kind == Probe
    ensures stage == Some(Probed) ==> forall j :: j in Noted(s, pos, stage).queue ==>
                j.forwardParent != Some(s.queue[pos].id)
  {
    if stage == Some(Probed) {
      NobodyFollowsProbe(s.queue, pos);
      NobodyFollowsDescends(s.queue, Noted(s, pos, stage).queue, s.queue[pos].id);
    }
  }

  lemma RunningShape(s: State, pos: nat, stage: Option<Stage>)
    requires Tidy(s) && pos < |s.queue| && (stage.Some? ==> !IsTerminal(stage.value))
    requires stage == Some(Probed) ==> s.queue[pos].kind == Probe
    ensures var queue, job := Noted(s, pos, stage).queue, ReportedJob(s.queue[pos], stage);
            Sound(job) && SameIds(s.queue, queue) && SoundBut(queue, {}) && Descends(s.queue, queue)
  {
    assert s.queue[pos] in s.queue;
    NotedShape(s, pos, stage);
  }

  lemma RunningQueue(s: State, pos: nat, stage: Option<Stage>)
    requires Tidy(s) && pos < |s.queue| && (stage.Some? ==> !IsTerminal(stage.value))
    requires stage == Some(Probed) ==> s.queue[pos].kind == Probe
    ensures SameIds(s.queue, ReportStep(s, pos, stage).queue) && SoundBut(ReportStep(s, pos, stage).queue, {})
  {
    var queue, job := Noted(s, pos, stage).queue, ReportedJob(s.queue[pos], stage);
    RunningShape(s, pos, stage);
    FollowersMayBeProbed(s, pos, stage);
    RunningTail(queue, job, stage);
    SameIdsTrans(s.queue, queue, ReportTail(queue, job, stage));
    ReportIsTail(s, pos, stage);
  }

  lemma RunningTidy(s: State, pos: nat, stage: Option<Stage>)
    requires Tidy(s) && pos < |s.queue| && (stage.Some? ==> !IsTerminal(stage.value))
    requires stage == Some(Probed) ==> s.queue[pos].kind == Probe
    ensures Tidy(ReportStep(s, pos, stage))
  {
    ReportMoves(s, pos, stage);
    RunningQueue(s, pos, stage);
    StillTidy(s, ReportStep(s, pos, stage));
  }

  lemma ReportTidy(s: State, id: nat, stage: Option<Stage>)
    requires Tidy(s) && Possible(s, Received(id, Report(stage)))
    ensures Tidy(Receive(s, id, Report(stage)))
  {
    var found := Position(s.queue, id);
    if found.Some? {
      if stage.Some? && Finished(stage.value) {
        FinishedTidy(s, found.value, stage.value);
      } else {
        RunningTidy(s, found.value, stage);
      }
    }
  }

  lemma ReceiveTidy(s: State, id: nat, message: Message)
    requires Tidy(s) && !message.FileDone? && Possible(s, Received(id, message))
    ensures Tidy(Receive(s, id, message))
  {
    var found := Position(s.queue, id);
    if found.Some? {
      var pos := found.value;
      assert s.queue[pos] in s.queue;
      ReceiveMoves(s, id, message);
      match message
      case Assign(worker) =>
        var queue := s.queue[pos := s.queue[pos].(worker := worker)];
        UpdateSound(s.queue, pos, s.queue[pos].(worker := worker));
        SyncSound(queue, id, None, Some(ForwardedWorker(worker)), {});
        SameIdsTrans(s.queue, queue, Receive(s, id, message).queue);
        StillTidy(s, Receive(s, id, message));
      case Warning =>
      case DuplicateWait(owner) =>
        UpdateSound(s.queue, pos, s.queue[pos].(duplicateSource := Some(owner)));
        StillTidy(s, Receive(s, id, message));
      case Report(stage) => ReportTidy(s, id, stage);
    }
  }

  // ---- The other routine steps --------------------------------------------------------------

  // A job and its forwarded jobs leave together.
  ghost predicate FamilyLeft(queue: seq<Job>, queue': seq<Job>, id: nat)
  {
    && (forall j' :: j' in queue' ==> j'.id != id && j'.forwardParent != Some(id))
    && (forall j :: j in queue && j.id != id && j.forwardParent != Some(id) ==> HasId(queue', j.id))
  }

  lemma FamilyLeaves(queue: seq<Job>, queue': seq<Job>, id: nat)
    requires FamilyLeft(queue, queue', id)
    ensures NoOrphans(queue, queue')
  {
  }

  lemma FamilyTakenOut(queue: seq<Job>, id: nat)
    ensures var rest := Without(Filter(queue, (j: Job) => j.forwardParent != Some(id)), id);
            FamilyLeft(queue, rest, id) && (forall j :: j in rest ==> j in queue)
  {
    var unforwarded := (j: Job) => j.forwardParent != Some(id);
    FilterMembers(queue, unforwarded);
    FilterMembers(Filter(queue, unforwarded), (j: Job) => j.id != id);
  }

  lemma CancelTidy(s: State, id: nat, author: nat)
    requires Tidy(s)
    ensures Tidy(CancelJob(s, id, author))
  {
    var t := CancelJob(s, id, author);
    var found := OwnedPosition(s.queue, id, author);
    if found.Some? && CancelledAtOnce(s.queue[found.value]) {
      FamilyTakenOut(s.queue, id);
      CancelMoves(s, id, author);
      FamilyLeaves(s.queue, t.queue, id);
      StillTidy(s, t);
    }
  }

  // What is left of the queue when the followers are gone and the batch has been told.
  function FailRest(s1: State, job: Job): seq<Job>
  {
    var s2 := if Position(s1.queue, job.id).None? then s1 else NotifyBatch(s1, job, Failed);
    Without(s2.queue, job.id)
  }

  lemma FailTail(s1: State, job: Job)
    requires UniqueIds(s1.queue) && forall j :: j in s1.queue ==> j.forwardParent != Some(job.id)
    ensures forall j' :: j' in FailRest(s1, job) ==> j'.id != job.id && j'.forwardParent != Some(job.id)
    ensures forall j :: j in s1.queue && j.id != job.id ==> HasId(FailRest(s1, job), j.id)
  {
    var s2 := if Position(s1.queue, job.id).None? then s1 else NotifyBatch(s1, job, Failed);
    NotifySameIds(s1, job, Failed);
    SameLength(s1.queue, s1.queue);
    DescendsNotify(s1, job, Failed);
    NobodyFollowsDescends(s1.queue, NotifyBatch(s1, job, Failed).queue, job.id);
    FilterMembers(s2.queue, (j: Job) => j.id != job.id);
    forall j | j in s1.queue && j.id != job.id ensures HasId(FailRest(s1, job), j.id) {
      var k :| k in s2.queue && k.id == j.id;
      assert k in FailRest(s1, job);
    }
  }

  lemma FailTailSound(s1: State, job: Job)
    requires UniqueIds(s1.queue) && SoundBut(s1.queue, {job.id})
    ensures SoundBut(FailRest(s1, job), {})
  {
    var s2 := if Position(s1.queue, job.id).None? then s1 else NotifyBatch(s1, job, Failed);
    NotifySound(s1, job, Failed, {job.id});
    FilterMembers(s2.queue, (j: Job) => j.id != job.id);
  }

  // The job failed and its followers are gone.
  function FailSynced(s: State, pos: nat): State
    requires pos < |s.queue|
  {
    var job := FailedJob(s.queue[pos]);
    s.(queue := SyncJobs(s.queue[pos := job], job.id, Some(Failed), ForwardedWorker(job.worker)))
  }

  function FailedJob(j: Job): Job
  {
    j.(ready := Failed, dispatched := false, order := None)
  }

  lemma FailOneIs(s: State, pos: nat)
    requires UniqueIds(s.queue) && pos < |s.queue|
    ensures FailOne(s, s.queue[pos].id).queue == FailRest(FailSynced(s, pos), FailedJob(s.queue[pos]))
  {
    assert Position(s.queue, s.queue[pos].id) == Some(pos);
  }

  lemma FailSyncedMembers(s: State, pos: nat)
    requires UniqueIds(s.queue) && pos < |s.queue|
    ensures var queue, id := FailSynced(s, pos).queue, s.queue[pos].id;
            && UniqueIds(queue)
            && (forall j :: j in queue ==> j.forwardParent != Some(id) && (j.id == id || j in s.queue))
            && (forall j :: j in s.queue && j.id != id && j.forwardParent != Some(id) ==> j in queue)
  {
    var job := FailedJob(s.queue[pos]);
    UpdateMembers(s.queue, pos, job);
    FilterMembers(s.queue[pos := job], (j: Job) => j.forwardParent != Some(job.id));
    FilterUnique(s.queue[pos := job], (j: Job) => j.forwardParent != Some(job.id));
  }

  lemma FailOneFamily(s: State, pos: nat)
    requires UniqueIds(s.queue) && pos < |s.queue|
    ensures FamilyLeft(s.queue, FailOne(s, s.queue[pos].id).queue, s.queue[pos].id)
  {
    FailSyncedMembers(s, pos);
    FailTail(FailSynced(s, pos), FailedJob(s.queue[pos]));
    FailOneIs(s, pos);
  }

  lemma FailOneTidy(s: State, id: nat)
    requires Tidy(s)
    ensures Tidy(FailOne(s, id))
  {
    var found := Position(s.queue, id);
    if found.Some? {
      var t := FailOne(s, id);
      FailSyncedMembers(s, found.value);
      FailTailSound(FailSynced(s, found.value), FailedJob(s.queue[found.value]));
      FailOneIs(s, found.value);
      FailOneFamily(s, found.value);
      FailOneMoves(s, id);
      FamilyLeaves(s.queue, t.queue, id);
      StillTidy(s, t);
    }
  }

  lemma {:induction false} FailAllTidy(s: State, ids: seq<nat>)
    requires Tidy(s)
    ensures Tidy(FailAll(s, ids))
  {
    if ids != [] {
      FailAllTidy(s, ids[..|ids| - 1]);
      FailOneTidy(FailAll(s, ids[..|ids| - 1]), ids[|ids| - 1]);
    }
  }

  lemma ProbeTimeoutTidy(s: State, id: nat)
    requires Tidy(s)
    ensures Tidy(ProbeTimeout(s, id))
  {
    var found := Position(s.queue, id);
    if found.Some? && s.queue[found.value].ready == Probed {
      var t := ProbeTimeout(s, id);
      assert s.queue[found.value] in s.queue;
      RemoveMembers(s.queue, found.value);
      DescendsRemove(s.queue, found.value);
      forall p | p in s.queue && IsForwardable(p) ensures HasId(t.queue, p.id) {
        assert p in t.queue;
      }
      StillTidy(s, t);
    }
  }

  // One job changes in place and stays sound.
  lemma ChangeTidy(s: State, pos: nat, job: Job)
    requires Tidy(s) && pos < |s.queue| && Kept(s.queue[pos], job) && Sound(job)
    ensures Tidy(s.(queue := s.queue[pos := job]))
  {
    DescendsUpdate(s.queue, pos, job);
    UpdateSound(s.queue, pos, job);
    StillTidy(s, s.(queue := s.queue[pos := job]));
  }

  lemma DuplicateTidy(s: State, id: nat, outcome: WaitOutcome)
    requires Tidy(s)
    ensures Tidy(DuplicateRound(s, id, outcome))
  {
    var found := Position(s.queue, id);
    if found.Some? && DuplicateRound(s, id, outcome) != s {
      assert s.queue[found.value] in s.queue;
      ChangeTidy(s, found.value, WaitedJob(s.queue[found.value], outcome));
    }
  }

  lemma RetryTidy(s: State, id: nat, plan: Plan)
    requires Tidy(s)
    ensures Tidy(RetryDownload(s, id, plan))
  {
    var found := Position(s.queue, id);
    if found.Some? && RetryDownload(s, id, plan) != s {
      assert s.queue[found.value] in s.queue;
      ChangeTidy(s, found.value, StartDownload(s.queue[found.value], plan));
    }
  }

  lemma FinishTidy(s: State)
    requires Tidy(s)
    ensures Tidy(FinishBatches(s))
  {
    var t := FinishBatches(s);
    var settled := Map(s.queue, SettleJob);
    MapMembers(s.queue, SettleJob);
    FilterMembers(settled, (j: Job) => !BatchFinished(j));
    FinishMoves(s);
    forall p | p in s.queue && IsForwardable(p) ensures HasId(t.queue, p.id) {
      assert SettleJob(p) in settled && SettleJob(p) in t.queue;
    }
    StillTidy(s, t);
  }

  lemma ResetSound(queue: seq<Job>, epoch: nat)
    requires SoundBut(queue, {})
    ensures SoundBut(ResetDispatches(queue, epoch), {}) && SameIds(queue, ResetDispatches(queue, epoch))
  {
    MapMembers(queue, (j: Job) => ResetJob(j, epoch));
    SameLength(queue, ResetDispatches(queue, epoch));
  }

  lemma CheckTidy(s: State)
    requires Tidy(s)
    ensures Tidy(CheckEpoch(s))
  {
    CheckMoves(s);
    if s.reboots != s.known {
      ResetSound(s.queue, s.reboots);
      StillTidy(s, CheckEpoch(s));
    }
  }

  lemma RebootTidy(s: State)
    requires Tidy(s)
    ensures Tidy(s.(reboots := s.reboots + 1))
  {
  }

  lemma StallTidy(s: State, ids: seq<nat>)
    requires Tidy(s)
    ensures Tidy(FailStalled(s, ids))
  {
    RebootTidy(s);
    FailAllTidy(s.(reboots := s.reboots + 1), ids);
  }

  lemma RoutineTidy(s: State, e: Event)
    requires Tidy(s) && Possible(s, e) && Routine(e)
    ensures Tidy(Step(s, e))
  {
    match e
    case Received(id, message) => ReceiveTidy(s, id, message);
    case EpochChecked => CheckTidy(s);
    case Rebooted => RebootTidy(s);
    case CancelAsked(id, author) => CancelTidy(s, id, author);
    case StallFound(ids) => StallTidy(s, ids);
    case ProbeTimedOut(id) => ProbeTimeoutTidy(s, id);
    case DuplicateChecked(id, outcome) => DuplicateTidy(s, id, outcome);
    case DownloadRetried(id, plan) => RetryTidy(s, id, plan);
    case BatchesChecked => FinishTidy(s);
  }

  // ---- Steps that bring a job in ------------------------------------------------------------

  // The condition on the surroundings, which can be checked before the event: keys stay fixed, a
  // new job shares a key with a queued one only if both are forwardable (so no kept encode next to
  // an ordinary one, and no two pancodes or batch children of one file), and a probe id is that
  // of a known job, and of no queued one that is not a probe.
  ghost predicate KeysApart(s: State, e: Event)
  {
    match e
    case Submitted(job, _) =>
      && (forall k :: k in s.queue && SharesKey(k, job) ==> IsForwardable(k) && IsForwardable(job))
      && (forall k :: k in s.queue && job.probeJob == Some(k.id) ==> k.kind == Probe)
      && (job.probeJob.Some? ==> job.probeJob.value in s.used)
    case Received(_, FileDone(_, Child(_, keys, _))) =>
      forall k, a :: k in s.queue && 0 <= a < |k.forwardKeys| ==> k.forwardKeys[a] !in keys
    case KeysGrown(_, _) => false
    case _ => true
  }

  // A job fit to join the queue.
  ghost predicate Joins(queue: seq<Job>, used: set<nat>, job: Job)
  {
    && job.id !in used && Sound(job)
    && (job.batch.Some? ==> job.kind == BatchDownload)
    && (job.probeJob.Some? ==> job.probeJob.value in used)
    && (forall k :: k in queue && job.probeJob == Some(k.id) ==> k.kind == Probe)
    && (forall k :: k in queue && SharesKey(k, job) ==> IsForwardable(k) && IsForwardable(job))
    && (forall k :: k in queue && SharesKey(k, job) ==> job.forwardParent.Some? || k.forwardParent.Some?)
    && (job.forwardParent.Some? ==> exists p :: p in queue && Fosters(p, job))
  }

  lemma JoinOwners(queue: seq<Job>, used: set<nat>, job: Job)
    requires OneOwner(queue) && KindsApart(queue) && Joins(queue, used, job)
    ensures OneOwner(queue + [job]) && KindsApart(queue + [job])
  {
    AppendMembers(queue, job);
    forall j, k | j in queue + [job] && k in queue + [job] && j.id != k.id && SharesKey(j, k)
      ensures IsForwardable(j) && IsForwardable(k) && !(j.forwardParent.None? && k.forwardParent.None?)
    {
      SharingIsMutual(j, k);
    }
  }

  lemma JoinFostered(queue: seq<Job>, used: set<nat>, job: Job)
    requires Fostered(queue) && Joins(queue, used, job)
    ensures Fostered(queue + [job])
  {
    AppendMembers(queue, job);
    forall j | j in queue + [job] && j.forwardParent.Some? ensures exists p :: p in queue + [job] && Fosters(p, j) {
      var p :| p in queue && Fosters(p, j);
      assert p in queue + [job];
    }
  }

  lemma JoinTidy(s: State, job: Job)
    requires Tidy(s) && Joins(s.queue, s.used, job)
    ensures Tidy(s.(queue := s.queue + [job], used := s.used + {job.id}))
  {
    AppendMembers(s.queue, job);
    JoinOwners(s.queue, s.used, job);
    JoinFostered(s.queue, s.used, job);
  }

  lemma KeptSharesWith(k: Job, job: Job, j: Job)
    requires j.forwardKeys == job.forwardKeys
    ensures SharesKey(k, j) == SharesKey(k, job)
  {
  }

  lemma SubmittedJoins(s: State, job: Job, setup: Setup)
    requires Tidy(s) && Possible(s, Submitted(job, setup)) && KeysApart(s, Submitted(job, setup))
    requires Entering(s.queue, job, setup).Some?
    ensures Joins(s.queue, s.used, Entering(s.queue, job, setup).value)
  {
    var j := Entering(s.queue, job, setup).value;
    EnteringLink(s.queue, job, setup);
    forall k | k in s.queue && SharesKey(k, j)
      ensures IsForwardable(k) && IsForwardable(j) && (j.forwardParent.Some? || k.forwardParent.Some?)
    {
      KeptSharesWith(k, job, j);
      assert !EntersFree(s.queue, job, j) || !MayParent(job, k);
    }
    if EntersLinked(s.queue, job, j) {
      var p :| p in s.queue && MayParent(job, p) && j.forwardParent == Some(p.id) && j.ready == p.ready;
      assert Fosters(p, j);
    }
  }

  lemma SubmitTidy(s: State, job: Job, setup: Setup)
    requires Tidy(s) && Possible(s, Submitted(job, setup)) && KeysApart(s, Submitted(job, setup))
    ensures Tidy(Submit(s, job, setup))
  {
    var entering := Entering(s.queue, job, setup);
    if entering.Some? {
      SubmittedJoins(s, job, setup);
      EnteringLink(s.queue, job, setup);
      JoinTidy(s, entering.value);
    }
  }

  lemma SpawnTidy(s: State, pos: nat, fileIndex: nat, h: HandOff)
    requires Tidy(s) && pos < |s.queue| && Possible(s, Received(s.queue[pos].id, FileDone(fileIndex, h)))
    requires KeysApart(s, Received(s.queue[pos].id, FileDone(fileIndex, h)))
    ensures Tidy(SpawnBatchChild(s, pos, fileIndex, h))
  {
    var parent := s.queue[pos];
    assert parent in s.queue;
    var t := SpawnBatchChild(s, pos, fileIndex, h);
    if t != s {
      var updated := s.(queue := s.queue[pos := parent.(batch := t.queue[pos].batch)]);
      DescendsUpdate(s.queue, pos, updated.queue[pos]);
      UpdateSound(s.queue, pos, updated.queue[pos]);
      StillTidy(s, updated);
      if h.Child? { ChildJoins(s, updated, parent, h); JoinTidy(updated, BatchChild(parent, h)); }
    }
  }

  lemma ChildJoins(s: State, updated: State, parent: Job, h: HandOff)
    requires h.Child? && h.id !in s.used && updated.used == s.used && Descends(s.queue, updated.queue)
    requires forall k, a :: k in s.queue && 0 <= a < |k.forwardKeys| ==> k.forwardKeys[a] !in h.forwardKeys
    ensures Joins(updated.queue, updated.used, BatchChild(parent, h))
  {
    var child := BatchChild(parent, h);
    forall k' | k' in updated.queue ensures !SharesKey(k', child) {
      var k :| k in s.queue && Kept(k, k');
    }
  }

  // ---- The progression pass -----------------------------------------------------------------

  // In the middle of the pass: the killed jobs are still queued, and are nobody's parents.
  ghost predicate PassTidy(queue: seq<Job>, i: nat, p: Pass)
  {
    && Identities(queue) && Fostered(queue) && SoundBut(queue, p.dead) && OffersHold(queue, i, p.parents)
    && DeadBarren(queue, p.dead)
  }

  ghost predicate DeadBarren(queue: seq<Job>, dead: set<nat>)
  {
    forall j :: j in queue && j.id in dead ==> !IsForwardable(j)
  }

  lemma OwnersCoincide(queue: seq<Job>, j: Job, k: Job)
    requires OneOwner(queue) && KindsApart(queue) && j in queue && k in queue
    requires SharesKey(j, k) && j.forwardParent.None? && k.forwardParent.None?
    ensures j.id == k.id
  {
  }

  // Nobody shares a key with an offered parent, so the pass makes no link.
  lemma PassLinksNobody(queue: seq<Job>, i: nat, c: Circumstance, p: Pass)
    requires Identities(queue) && i < |queue| && OffersHold(queue, i, p.parents)
    ensures var (j, p') := Advance(queue[i], c, p); KeepsLink(queue[i], j, p, p')
  {
    var (j, p') := Advance(queue[i], c, p);
    AdvanceLinks(queue[i], c, p);
    if MakesLink(queue[i], j, p, p') {
      var key :| key in queue[i].forwardKeys && key in p.parents && j.forwardParent == Some(p.parents[key].id)
                 && p.parents[key].id != queue[i].id;
      var k: nat :| k < |queue| && OffersAt(queue, i, key, p.parents[key].id, k);
      assert SharesKey(queue[i], queue[k]);
      OwnersCoincide(queue, queue[i], queue[k]);
    }
  }

  ghost predicate OffersSound(parents: map<nat, Parent>)
  {
    forall key :: key in parents ==> Runs(parents[key].stage)
  }

  ghost predicate KeepsSound(j: Job, j': Job, p: Pass, p': Pass)
  {
    && p.dead <= p'.dead <= p.dead + {j.id}
    && (Sound(j) ==> Sound(j') || j.id in p'.dead)
    && (p'.dead != p.dead ==> !IsForwardable(j))
  }

  lemma EncodeSound(j: Job, c: Circumstance, p: Pass)
    requires OffersSound(p.parents) && j.ready == Downloaded
    ensures var (j', p') := AdvanceEncode(j, c, p); Sound(j') && p'.dead == p.dead
  {
    FindParentFound(p.parents, j.forwardKeys);
  }

  lemma AdvanceSound(j: Job, c: Circumstance, p: Pass)
    requires OffersSound(p.parents)
    ensures var (j', p') := Advance(j, c, p); KeepsSound(j, j', p, p')
  {
    if j.ready == Downloaded { EncodeSound(j, c, p); }
  }

  lemma SoundUpdated(queue: seq<Job>, i: nat, j: Job, p: Pass, p': Pass)
    requires UniqueIds(queue) && i < |queue| && SoundBut(queue, p.dead) && DeadBarren(queue, p.dead)
    requires KeepsSound(queue[i], j, p, p') && Kept(queue[i], j)
    ensures SoundBut(queue[i := j], p'.dead) && DeadBarren(queue[i := j], p'.dead)
  {
    UpdateMembers(queue, i, j);
    assert queue[i] in queue;
  }

  lemma IdentityUpdated(queue: seq<Job>, i: nat, j: Job)
    requires Identities(queue) && Fostered(queue) && i < |queue| && Kept(queue[i], j)
    ensures Identities(queue[i := j]) && Fostered(queue[i := j]) && Descends(queue, queue[i := j])
  {
    DescendsUpdate(queue, i, j);
    SameLength(queue, queue[i := j]);
    IdentitiesDescend(queue, queue[i := j]);
    FosteredDescends(queue, queue[i := j]);
  }

  lemma AdvanceTidy(queue: seq<Job>, i: nat, c: Circumstance, p: Pass)
    requires PassTidy(queue, i, p) && i < |queue|
    ensures var (j, p') := Advance(queue[i], c, p); PassTidy(queue[i := j], i + 1, p') && Descends(queue, queue[i := j])
  {
    var (j, p') := Advance(queue[i], c, p);
    PassLinksNobody(queue, i, c, p);
    AdvanceSound(queue[i], c, p);
    OffersStep(queue, i, c, p);
    IdentityUpdated(queue, i, j);
    SoundUpdated(queue, i, j, p, p');
  }

  ghost predicate PassFrom(start: seq<Job>, queue: seq<Job>, i: nat, p: Pass)
  {
    PassTidy(queue, i, p) && Descends(start, queue)
  }

  lemma AdvancePass(start: seq<Job>, queue: seq<Job>, i: nat, c: Circumstance, p: Pass)
    requires PassFrom(start, queue, i, p) && i < |queue|
    ensures var (j, p') := Advance(queue[i], c, p); PassFrom(start, queue[i := j], i + 1, p')
  {
    AdvanceTidy(queue, i, c, p);
    DescendsTrans(start, queue, queue[i := Advance(queue[i], c, p).0]);
  }

  lemma PassKeepsTidy(start: seq<Job>)
    ensures KeptByPass((queue: seq<Job>, i: nat, p: Pass) => PassFrom(start, queue, i, p))
  {
    forall queue: seq<Job>, i: nat, c: Circumstance, p: Pass | i < |queue| && PassFrom(start, queue, i, p)
      ensures PassFrom(start, queue[i := Advance(queue[i], c, p).0], i + 1, Advance(queue[i], c, p).1)
    {
      AdvancePass(start, queue, i, c, p);
    }
  }

  lemma {:induction false} UploadsSound(queue: seq<Job>, uploads: seq<(nat, string)>, leaving: set<nat>)
    requires SoundBut(queue, leaving)
    ensures SoundBut(SyncUploads(queue, uploads), leaving) && SameIds(queue, SyncUploads(queue, uploads))
  {
    SameLength(queue, queue);
    if uploads != [] {
      var init := uploads[..|uploads| - 1];
      var (id, worker) := uploads[|uploads| - 1];
      UploadsSound(queue, init, leaving);
      SyncSound(SyncUploads(queue, init), id, Some(Uploading), Some(worker), leaving);
      SameIdsTrans(queue, SyncUploads(queue, init), SyncUploads(queue, uploads));
    }
  }

  // Taking the killed jobs out leaves no orphans.
  lemma DeadLeave(queue: seq<Job>, dead: set<nat>)
    requires UniqueIds(queue) && Fostered(queue) && SoundBut(queue, dead) && DeadBarren(queue, dead)
    ensures var rest := Filter(queue, (j: Job) => j.id !in dead); Fostered(rest) && SoundBut(rest, {})
  {
    var rest := Filter(queue, (j: Job) => j.id !in dead);
    FilterMembers(queue, (j: Job) => j.id !in dead);
    DescendsFilter(queue, (j: Job) => j.id !in dead);
    FosteredDescends(queue, rest);
  }

  lemma UploadsFostered(queue: seq<Job>, uploads: seq<(nat, string)>, dead: set<nat>)
    requires UniqueIds(queue) && Fostered(queue) && SoundBut(queue, dead) && DeadBarren(queue, dead)
    ensures var uploaded := SyncUploads(queue, uploads);
            Descends(queue, uploaded) && Fostered(uploaded) && SoundBut(uploaded, dead) && DeadBarren(uploaded, dead)
  {
    UploadsDescend(queue, uploads);
    UploadsSound(queue, uploads, dead);
    var uploaded := SyncUploads(queue, uploads);
    FosteredDescends(queue, uploaded);
    forall j' | j' in uploaded && j'.id in dead ensures !IsForwardable(j') {
      var j :| j in queue && Kept(j, j');
    }
  }

  lemma PassStart(s: State)
    requires Tidy(s)
    ensures PassFrom(s.queue, s.queue, 0, StartPass(s))
  {
    ActiveParentsHold(s.queue);
    DescendsSelf(s.queue);
    var p := StartPass(s);
    assert p.dead == {} && p.parents == ActiveParents(s.queue);
  }

  lemma PassEnd(start: seq<Job>, cs: seq<Circumstance>, p: Pass)
    requires |cs| == |start| && PassFrom(start, start, 0, p)
    ensures var (queue, p') := AdvanceFrom(start, cs, 0, p); PassFrom(start, queue, |queue|, p')
  {
    var holds := (queue: seq<Job>, i: nat, q: Pass) => PassFrom(start, queue, i, q);
    PassKeepsTidy(start);
    PassInduction(holds, start, cs, 0, p);
    var (queue, p') := AdvanceFrom(start, cs, 0, p);
    assert holds(queue, |queue|, p');
  }

  // After the pass: the forwarded jobs of the uploads follow, and the killed jobs leave.
  lemma PassTail(start: seq<Job>, queue: seq<Job>, p: Pass)
    requires PassFrom(start, queue, |queue|, p)
    ensures var rest := Filter(SyncUploads(queue, p.uploads), (j: Job) => j.id !in p.dead);
            Descends(start, rest) && Fostered(rest) && SoundBut(rest, {})
  {
    UploadsFostered(queue, p.uploads, p.dead);
    var uploaded := SyncUploads(queue, p.uploads);
    DeadLeave(uploaded, p.dead);
    DescendsFilter(uploaded, (j: Job) => j.id !in p.dead);
    DescendsTrans(start, queue, uploaded);
    DescendsTrans(start, uploaded, Filter(uploaded, (j: Job) => j.id !in p.dead));
  }

  lemma ProgressTidy(s: State, cs: seq<Circumstance>)
    requires Tidy(s) && |cs| == |s.queue|
    ensures Tidy(Progress(s, cs))
  {
    PassStart(s);
    PassEnd(s.queue, cs, StartPass(s));
    var (queue, p) := AdvanceFrom(s.queue, cs, 0, StartPass(s));
    PassTail(s.queue, queue, p);
    var t := Progress(s, cs);
    IdentitiesDescend(s.queue, t.queue);
    RecordedDescends(s.queue, t.queue, s.used, t.used);
  }

  // ---- Runs ---------------------------------------------------------------------------------

  lemma StepTidy(s: State, e: Event)
    requires Tidy(s) && Possible(s, e) && KeysApart(s, e)
    ensures Tidy(Step(s, e))
  {
    if Routine(e) {
      RoutineTidy(s, e);
    } else {
      match e
      case Submitted(job, setup) => SubmitTidy(s, job, setup);
      case Progressed(cs) => ProgressTidy(s, cs);
      case Received(id, message) =>
        var found := Position(s.queue, id);
        if found.Some? { SpawnTidy(s, found.value, message.fileIndex, message.handOff); }
    }
  }

  ghost predicate IsApartRun(states: seq<State>, events: seq<Event>)
  {
    IsRun(states, events) && forall k :: 0 <= k < |events| ==> KeysApart(states[k], events[k])
  }

  lemma {:induction false} RunTidy(states: seq<State>, events: seq<Event>, n: nat)
    requires IsApartRun(states, events) && n < |states|
    ensures Tidy(states[n])
  {
    if n > 0 {
      RunTidy(states, events, n - 1);
      StepTidy(states[n - 1], events[n - 1]);
    }
  }

  lemma ParentIsFree(queue: seq<Job>, j: Job, k: Job)
    requires UniqueIds(queue) && Fostered(queue) && j in queue && k in queue && k.forwardParent == Some(j.id)
    ensures IsFree(j)
  {
    var p :| p in queue && Fosters(p, k);
    SameIdSameJob(queue, p, j);
  }

  // The parent of a forwarded job is in the queue and not forwarded, and nobody is forwarded
  // to the forwarded job.
  lemma ChainsHaveLengthOne(states: seq<State>, events: seq<Event>, n: nat, j: Job)
    requires IsApartRun(states, events) && n < |states| && j in states[n].queue && j.forwardParent.Some?
    ensures exists p :: p in states[n].queue && p.id == j.forwardParent.value && p.forwardParent.None?
    ensures forall k :: k in states[n].queue ==> k.forwardParent != Some(j.id)
  {
    RunTidy(states, events, n);
    var queue := states[n].queue;
    forall k | k in queue ensures k.forwardParent != Some(j.id) {
      if k.forwardParent == Some(j.id) { ParentIsFree(queue, j, k); }
    }
    var p :| p in queue && Fosters(p, j);
  }

  // A terminal report of a job leaves neither it nor anybody forwarded to it in the queue.
  lemma TerminalReportLeavesNobody(states: seq<State>, events: seq<Event>, n: nat, id: nat, stage: Stage)
    requires IsApartRun(states, events) && n < |events|
    requires events[n] == Received(id, Report(Some(stage))) && Finished(stage)
    ensures NobodyLeft(states[n + 1].queue, id)
  {
    RunTidy(states, events, n);
    var queue := states[n].queue;
    if Position(queue, id).Some? {
      TerminalReportClears(states[n], id, stage);
    } else {
      forall j | j in queue ensures j.forwardParent != Some(id) {
        if j.forwardParent.Some? { var p :| p in queue && Fosters(p, j); }
      }
    }
  }
}

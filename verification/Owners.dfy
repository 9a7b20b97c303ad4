// On runs whose forward keys stay fixed, no two unforwarded forwardable encodes in the queue
// share a key: a duplicate is forwarded on submission.
module Owners {
  import opened Wrappers
  import opened Jobs
  import opened QueueFacts
  import opened Links
  import opened Forwards

  // No finished job is left in the queue, but for those about to leave.
  ghost predicate AliveBut(queue: seq<Job>, leaving: set<nat>)
  {
    forall j :: j in queue ==> j.id in leaving || !IsTerminal(j.ready)
  }

  ghost predicate Owned(s: State)
  {
    UniqueIds(s.queue) && OneOwner(s.queue) && AliveBut(s.queue, {})
  }

  lemma OneOwnerDescends(queue: seq<Job>, queue': seq<Job>)
    requires OneOwner(queue) && Descends(queue, queue')
    ensures OneOwner(queue')
  {
    forall j', k' | j' in queue' && k' in queue' && j'.id != k'.id && IsFree(j') && IsFree(k')
      ensures !SharesKey(j', k')
    {
      var j :| j in queue && Kept(j, j');
      var k :| k in queue && Kept(k, k');
      KeptSharing(j, j', k, k');
    }
  }

  lemma StillOwned(s: State, t: State)
    requires Owned(s) && Descends(s.queue, t.queue) && AliveBut(t.queue, {})
    ensures Owned(t)
  {
    OneOwnerDescends(s.queue, t.queue);
  }

  // ---- What keeps the queue alive -----------------------------------------------------------

  lemma AliveMap(queue: seq<Job>, f: Job -> Job, leaving: set<nat>)
    requires AliveBut(queue, leaving)
    requires forall j :: j in queue ==> f(j).id == j.id && (!IsTerminal(j.ready) ==> !IsTerminal(f(j).ready))
    ensures AliveBut(Map(queue, f), leaving)
  {
    MapMembers(queue, f);
  }

  lemma AliveFilter(queue: seq<Job>, keep: Job -> bool, leaving: set<nat>)
    requires AliveBut(queue, leaving)
    ensures AliveBut(Filter(queue, keep), leaving)
    ensures (forall j :: j in queue && keep(j) ==> j.id !in leaving) ==> AliveBut(Filter(queue, keep), {})
  {
    FilterMembers(queue, keep);
  }

  lemma AliveUpdate(queue: seq<Job>, pos: nat, job: Job, leaving: set<nat>)
    requires pos < |queue| && AliveBut(queue, leaving) && (job.id in leaving || !IsTerminal(job.ready))
    ensures AliveBut(queue[pos := job], leaving)
  {
  }

  lemma AliveSync(queue: seq<Job>, id: nat, stage: Option<Stage>, worker: Option<string>, leaving: set<nat>)
    requires AliveBut(queue, leaving) && (stage.Some? ==> !IsTerminal(stage.value))
    ensures AliveBut(SyncState(queue, id, stage, worker), leaving)
  {
    AliveMap(queue, (j: Job) => SyncedJob(j, id, stage, worker), leaving);
  }

  lemma AliveSyncJobs(queue: seq<Job>, id: nat, stage: Option<Stage>, worker: string, leaving: set<nat>)
    requires AliveBut(queue, leaving)
    ensures AliveBut(SyncJobs(queue, id, stage, worker), leaving)
  {
    if stage.Some? && IsTerminal(stage.value) {
      AliveFilter(queue, (j: Job) => j.forwardParent != Some(id), leaving);
    } else {
      AliveSync(queue, id, stage, Some(ForwardedWorker(worker)), leaving);
    }
  }

  lemma AliveNotify(s: State, job: Job, stage: Stage, leaving: set<nat>)
    requires UniqueIds(s.queue) && AliveBut(s.queue, leaving)
    ensures AliveBut(NotifyBatch(s, job, stage).queue, leaving)
  {
    NotifyMembers(s, job, stage);
    var t := NotifyBatch(s, job, stage);
    forall j' | j' in t.queue ensures j'.id in leaving || !IsTerminal(j'.ready) {
      var j :| j in s.queue && SameButBatch(j, j');
    }
  }

  lemma AliveWithout(queue: seq<Job>, id: nat)
    requires AliveBut(queue, {id})
    ensures AliveBut(Without(queue, id), {})
  {
    AliveFilter(queue, (j: Job) => j.id != id, {id});
  }

  // ---- Every step ---------------------------------------------------------------------------

  lemma AliveNoted(s: State, pos: nat, stage: Option<Stage>, leaving: set<nat>)
    requires Owned(s) && pos < |s.queue|
    requires s.queue[pos].id in leaving || !IsTerminal(ReportedJob(s.queue[pos], stage).ready)
    ensures AliveBut(Noted(s, pos, stage).queue, leaving)
  {
    var job := ReportedJob(s.queue[pos], stage);
    UpdateMembers(s.queue, pos, job);
    AliveUpdate(s.queue, pos, job, leaving);
    if stage.Some? { AliveNotify(Marked(s, pos, stage), job, stage.value, leaving); }
  }

  lemma AliveDropProbe(queue: seq<Job>, probe: Option<nat>, leaving: set<nat>)
    requires AliveBut(queue, leaving)
    ensures AliveBut(DropProbe(queue, probe), leaving)
  {
    if probe.Some? && Position(queue, probe.value).Some? {
      var pos := Position(queue, probe.value).value;
      assert forall j :: j in queue[..pos] + queue[pos + 1..] ==> j in queue;
    }
  }

  lemma ReportOwned(s: State, pos: nat, stage: Option<Stage>)
    requires Owned(s) && pos < |s.queue| && stage != Some(Declined)
    ensures Owned(ReportStep(s, pos, stage))
  {
    var job, queue := ReportedJob(s.queue[pos], stage), Noted(s, pos, stage).queue;
    var id := s.queue[pos].id;
    assert s.queue[pos] in s.queue;
    ReportMoves(s, pos, stage);
    ReportIsTail(s, pos, stage);
    AliveNoted(s, pos, stage, if Finished(job.ready) then {id} else {});
    AliveSyncJobs(queue, id, stage, job.worker, if Finished(job.ready) then {id} else {});
    if Finished(job.ready) {
      var synced := SyncJobs(queue, id, stage, job.worker);
      AliveDropProbe(synced, job.probeJob, {id});
      AliveWithout(DropProbe(synced, job.probeJob), id);
    }
    StillOwned(s, ReportStep(s, pos, stage));
  }

  lemma ReceiveOwned(s: State, id: nat, message: Message)
    requires Owned(s) && !message.FileDone? && Possible(s, Received(id, message))
    ensures Owned(Receive(s, id, message))
  {
    var found := Position(s.queue, id);
    if found.Some? {
      var pos := found.value;
      assert s.queue[pos] in s.queue;
      match message
      case Report(stage) => ReportOwned(s, pos, stage);
      case Warning =>
      case Assign(worker) =>
        ReceiveMoves(s, id, message);
        AliveUpdate(s.queue, pos, s.queue[pos].(worker := worker), {});
        AliveSync(s.queue[pos := s.queue[pos].(worker := worker)], id, None, Some(ForwardedWorker(worker)), {});
        StillOwned(s, Receive(s, id, message));
      case DuplicateWait(owner) =>
        ReceiveMoves(s, id, message);
        AliveUpdate(s.queue, pos, s.queue[pos].(duplicateSource := Some(owner)), {});
        StillOwned(s, Receive(s, id, message));
    }
  }

  lemma CancelOwned(s: State, id: nat, author: nat)
    requires Owned(s)
    ensures Owned(CancelJob(s, id, author))
  {
    var found := OwnedPosition(s.queue, id, author);
    CancelMoves(s, id, author);
    if found.Some? {
      var worker := s.queue[found.value].worker;
      AliveSyncJobs(s.queue, id, Some(Cancelled), worker, {});
      AliveFilter(SyncJobs(s.queue, id, Some(Cancelled), worker), (j: Job) => j.id != id, {});
    }
    StillOwned(s, CancelJob(s, id, author));
  }

  lemma FailOneOwned(s: State, id: nat)
    requires Owned(s)
    ensures Owned(FailOne(s, id))
  {
    var found := Position(s.queue, id);
    if found.Some? {
      var job := s.queue[found.value].(ready := Failed, dispatched := false, order := None);
      var updated := s.queue[found.value := job];
      var s1 := s.(queue := SyncJobs(updated, id, Some(Failed), ForwardedWorker(job.worker)));
      UpdateMembers(s.queue, found.value, job);
      AliveUpdate(s.queue, found.value, job, {id});
      AliveSyncJobs(updated, id, Some(Failed), ForwardedWorker(job.worker), {id});
      FilterMembers(updated, (j: Job) => j.forwardParent != Some(id));
      AliveNotify(s1, job, Failed, {id});
      var s2 := if Position(s1.queue, id).None? then s1 else NotifyBatch(s1, job, Failed);
      AliveWithout(s2.queue, id);
      FailOneMoves(s, id);
      StillOwned(s, FailOne(s, id));
    }
  }

  lemma {:induction false} FailAllOwned(s: State, ids: seq<nat>)
    requires Owned(s)
    ensures Owned(FailAll(s, ids))
  {
    if ids != [] {
      FailAllOwned(s, ids[..|ids| - 1]);
      FailOneOwned(FailAll(s, ids[..|ids| - 1]), ids[|ids| - 1]);
    }
  }

  lemma ChangeOwned(s: State, pos: nat, job: Job)
    requires Owned(s) && pos < |s.queue| && Kept(s.queue[pos], job) && !IsTerminal(job.ready)
    ensures Owned(s.(queue := s.queue[pos := job]))
  {
    DescendsUpdate(s.queue, pos, job);
    AliveUpdate(s.queue, pos, job, {});
    StillOwned(s, s.(queue := s.queue[pos := job]));
  }

  lemma AliveRemove(queue: seq<Job>, pos: nat)
    requires UniqueIds(queue) && pos < |queue| && AliveBut(queue, {})
    ensures AliveBut(queue[..pos] + queue[pos + 1..], {})
  {
    RemoveMembers(queue, pos);
  }

  lemma TimeoutOwned(s: State, id: nat)
    requires Owned(s)
    ensures Owned(ProbeTimeout(s, id))
  {
    var found := Position(s.queue, id);
    if found.Some? && ProbeTimeout(s, id) != s {
      DescendsRemove(s.queue, found.value);
      AliveRemove(s.queue, found.value);
      StillOwned(s, ProbeTimeout(s, id));
    }
  }

  lemma DuplicateOwned(s: State, id: nat, outcome: WaitOutcome)
    requires Owned(s)
    ensures Owned(DuplicateRound(s, id, outcome))
  {
    var found := Position(s.queue, id);
    if found.Some? && DuplicateRound(s, id, outcome) != s {
      assert s.queue[found.value] in s.queue;
      ChangeOwned(s, found.value, WaitedJob(s.queue[found.value], outcome));
    }
  }

  lemma RetryOwned(s: State, id: nat, plan: Plan)
    requires Owned(s)
    ensures Owned(RetryDownload(s, id, plan))
  {
    var found := Position(s.queue, id);
    if found.Some? && RetryDownload(s, id, plan) != s {
      assert s.queue[found.value] in s.queue;
      ChangeOwned(s, found.value, StartDownload(s.queue[found.value], plan));
    }
  }

  lemma FinishOwned(s: State)
    requires Owned(s)
    ensures Owned(FinishBatches(s))
  {
    FinishMoves(s);
    AliveMap(s.queue, SettleJob, {});
    AliveFilter(Map(s.queue, SettleJob), (j: Job) => !BatchFinished(j), {});
    StillOwned(s, FinishBatches(s));
  }

  lemma ResetAlive(queue: seq<Job>, epoch: nat)
    requires AliveBut(queue, {})
    ensures AliveBut(ResetDispatches(queue, epoch), {})
  {
    AliveMap(queue, (j: Job) => ResetJob(j, epoch), {});
  }

  lemma CheckOwned(s: State)
    requires Owned(s)
    ensures Owned(CheckEpoch(s))
  {
    if s.reboots != s.known {
      ResetDescends(s.queue, s.reboots);
      ResetAlive(s.queue, s.reboots);
      StillOwned(s, CheckEpoch(s));
    }
  }

  lemma RebootOwned(s: State)
    requires Owned(s)
    ensures Owned(s.(reboots := s.reboots + 1))
  {
  }

  lemma StallOwned(s: State, ids: seq<nat>)
    requires Owned(s)
    ensures Owned(FailStalled(s, ids))
  {
    RebootOwned(s);
    FailAllOwned(s.(reboots := s.reboots + 1), ids);
  }

  lemma RoutineOwned(s: State, e: Event)
    requires Owned(s) && Possible(s, e) && Routine(e)
    ensures Owned(Step(s, e))
  {
    match e
    case Received(id, message) => ReceiveOwned(s, id, message);
    case EpochChecked => CheckOwned(s);
    case Rebooted => RebootOwned(s);
    case CancelAsked(id, author) => CancelOwned(s, id, author);
    case StallFound(ids) => StallOwned(s, ids);
    case ProbeTimedOut(id) => TimeoutOwned(s, id);
    case DuplicateChecked(id, outcome) => DuplicateOwned(s, id, outcome);
    case DownloadRetried(id, plan) => RetryOwned(s, id, plan);
    case BatchesChecked => FinishOwned(s);
  }

  // ---- Steps that bring a job in ------------------------------------------------------------

  // A job enters free only if no free job in the queue shares a key with it.
  lemma JoinOwned(s: State, job: Job)
    requires Owned(s) && !IsTerminal(job.ready) && forall k :: k in s.queue ==> k.id != job.id
    requires forall k :: k in s.queue && IsFree(k) && IsFree(job) ==> !SharesKey(k, job)
    ensures UniqueIds(s.queue + [job]) && OneOwner(s.queue + [job]) && AliveBut(s.queue + [job], {})
  {
    AppendMembers(s.queue, job);
    forall j, k | j in s.queue + [job] && k in s.queue + [job] && j.id != k.id && IsFree(j) && IsFree(k)
      ensures !SharesKey(j, k)
    {
      SharingIsMutual(j, k);
    }
  }

  lemma EntersAlone(s: State, job: Job, j: Job)
    requires Owned(s) && Kept(job.(forwardParent := j.forwardParent), j) && forall k :: k in s.queue ==> k.id != job.id
    requires EntersLinked(s.queue, job, j) || EntersFree(s.queue, job, j)
    ensures !IsTerminal(j.ready)
    ensures forall k :: k in s.queue && IsFree(k) && IsFree(j) ==> !SharesKey(k, j)
  {
    forall k | k in s.queue && IsFree(k) && IsFree(j) ensures !SharesKey(k, j) {
      KeptSharesWith(k, job, j);
      assert !MayParent(job, k);
    }
  }

  lemma SubmitOwned(s: State, job: Job, setup: Setup)
    requires Owned(s) && LinkInv(s) && FreshJob(job) && job.id !in s.used
    ensures Owned(Submit(s, job, setup))
  {
    var entering := Entering(s.queue, job, setup);
    if entering.Some? {
      EnteringLink(s.queue, job, setup);
      EntersAlone(s, job, entering.value);
      JoinOwned(s, entering.value);
    }
  }

  lemma SpawnOwned(s: State, pos: nat, fileIndex: nat, h: HandOff)
    requires Owned(s) && LinkInv(s) && pos < |s.queue| && (h.Child? ==> h.id !in s.used)
    ensures Owned(SpawnBatchChild(s, pos, fileIndex, h))
  {
    var parent := s.queue[pos];
    var t := SpawnBatchChild(s, pos, fileIndex, h);
    assert parent in s.queue;
    if t != s {
      var updated := s.(queue := s.queue[pos := parent.(batch := t.queue[pos].batch)]);
      DescendsUpdate(s.queue, pos, updated.queue[pos]);
      AliveUpdate(s.queue, pos, updated.queue[pos], {});
      StillOwned(s, updated);
      UpdateMembers(s.queue, pos, updated.queue[pos]);
      if h.Child? { JoinOwned(updated, BatchChild(parent, h)); }
    }
  }

  // ---- The progression pass -----------------------------------------------------------------

  // The pass may forward jobs, which frees no key, and marks what it kills.
  ghost predicate PassOwned(queue: seq<Job>, i: nat, p: Pass)
  {
    UniqueIds(queue) && OneOwner(queue) && AliveBut(queue, p.dead) && OffersHold(queue, i, p.parents)
  }

  ghost predicate KeepsAlive(j: Job, j': Job, p: Pass, p': Pass)
  {
    p.dead <= p'.dead && (!IsTerminal(j.ready) ==> !IsTerminal(j'.ready) || j.id in p'.dead)
  }

  lemma AdvanceAlive(j: Job, c: Circumstance, p: Pass)
    requires OffersSound(p.parents)
    ensures var (j', p') := Advance(j, c, p); KeepsAlive(j, j', p, p')
  {
    if WantsEncoder(j) {
      AdvanceEncodes(j, c, p);
      EncodeSound(j, c, p);
    }
  }

  // What forwarding may do to a job's part in the ownership of keys.
  lemma OwnersUpdated(queue: seq<Job>, i: nat, j: Job)
    requires UniqueIds(queue) && OneOwner(queue) && i < |queue|
    requires j.id == queue[i].id && j.forwardKeys == queue[i].forwardKeys && (IsFree(j) ==> IsFree(queue[i]))
    ensures UniqueIds(queue[i := j]) && OneOwner(queue[i := j])
  {
    UpdateMembers(queue, i, j);
    assert queue[i] in queue;
    forall a, b | a in queue[i := j] && b in queue[i := j] && a.id != b.id && IsFree(a) && IsFree(b)
      ensures !SharesKey(a, b)
    {
      var a', b' := if a == j then queue[i] else a, if b == j then queue[i] else b;
      assert a' in queue && b' in queue && SharesKey(a', b') == SharesKey(a, b);
    }
  }

  lemma AdvanceOwned(queue: seq<Job>, i: nat, c: Circumstance, p: Pass)
    requires PassOwned(queue, i, p) && i < |queue|
    ensures var (j, p') := Advance(queue[i], c, p); PassOwned(queue[i := j], i + 1, p')
  {
    var (j, p') := Advance(queue[i], c, p);
    AdvanceLinks(queue[i], c, p);
    AdvanceAlive(queue[i], c, p);
    OffersStep(queue, i, c, p);
    OwnersUpdated(queue, i, j);
    assert queue[i] in queue;
    UpdateMembers(queue, i, j);
  }

  lemma PassKeepsOwned()
    ensures KeptByPass((queue: seq<Job>, i: nat, p: Pass) => PassOwned(queue, i, p))
  {
    forall queue: seq<Job>, i: nat, c: Circumstance, p: Pass | i < |queue| && PassOwned(queue, i, p)
      ensures PassOwned(queue[i := Advance(queue[i], c, p).0], i + 1, Advance(queue[i], c, p).1)
    {
      AdvanceOwned(queue, i, c, p);
    }
  }

  lemma WholePassOwned(queue: seq<Job>, cs: seq<Circumstance>, p: Pass)
    requires |cs| == |queue| && PassOwned(queue, 0, p)
    ensures var (queue', p') := AdvanceFrom(queue, cs, 0, p); PassOwned(queue', |queue|, p')
  {
    var holds := (q: seq<Job>, i: nat, r: Pass) => PassOwned(q, i, r);
    PassKeepsOwned();
    PassInduction(holds, queue, cs, 0, p);
    var (queue', p') := AdvanceFrom(queue, cs, 0, p);
    assert holds(queue', |queue|, p');
  }

  lemma {:induction false} UploadsAlive(queue: seq<Job>, uploads: seq<(nat, string)>, leaving: set<nat>)
    requires AliveBut(queue, leaving)
    ensures AliveBut(SyncUploads(queue, uploads), leaving)
  {
    if uploads != [] {
      var init := uploads[..|uploads| - 1];
      var (id, worker) := uploads[|uploads| - 1];
      UploadsAlive(queue, init, leaving);
      AliveSync(SyncUploads(queue, init), id, Some(Uploading), Some(worker), leaving);
    }
  }

  lemma PassEndOwned(queue: seq<Job>, n: nat, p: Pass)
    requires PassOwned(queue, n, p)
    ensures var rest := Filter(SyncUploads(queue, p.uploads), (j: Job) => j.id !in p.dead);
            UniqueIds(rest) && OneOwner(rest) && AliveBut(rest, {})
  {
    var uploaded := SyncUploads(queue, p.uploads);
    UploadsDescend(queue, p.uploads);
    UploadsAlive(queue, p.uploads, p.dead);
    OneOwnerDescends(queue, uploaded);
    DescendsFilter(uploaded, (j: Job) => j.id !in p.dead);
    OneOwnerDescends(uploaded, Filter(uploaded, (j: Job) => j.id !in p.dead));
    AliveFilter(uploaded, (j: Job) => j.id !in p.dead, p.dead);
  }

  lemma ProgressOwned(s: State, cs: seq<Circumstance>)
    requires Owned(s) && |cs| == |s.queue|
    ensures Owned(Progress(s, cs))
  {
    ActiveParentsHold(s.queue);
    var p := StartPass(s);
    assert p.dead == {} && p.parents == ActiveParents(s.queue);
    WholePassOwned(s.queue, cs, p);
    var (queue, p') := AdvanceFrom(s.queue, cs, 0, p);
    PassEndOwned(queue, |s.queue|, p');
  }

  // ---- Runs ---------------------------------------------------------------------------------

  lemma StepOwned(s: State, e: Event)
    requires Owned(s) && LinkInv(s) && Possible(s, e) && !e.KeysGrown?
    ensures Owned(Step(s, e))
  {
    if Routine(e) {
      RoutineOwned(s, e);
    } else {
      match e
      case Submitted(job, setup) => SubmitOwned(s, job, setup);
      case Progressed(cs) => ProgressOwned(s, cs);
      case Received(id, message) =>
        var found := Position(s.queue, id);
        if found.Some? { SpawnOwned(s, found.value, message.fileIndex, message.handOff); }
    }
  }

  // A run on which no torrent file adds keys to a queued job.
  ghost predicate IsFixedKeyRun(states: seq<State>, events: seq<Event>)
  {
    IsRun(states, events) && forall k :: 0 <= k < |events| ==> !events[k].KeysGrown?
  }

  lemma {:induction false} RunOwned(states: seq<State>, events: seq<Event>, n: nat)
    requires IsFixedKeyRun(states, events) && n < |states|
    ensures Owned(states[n])
  {
    if n > 0 {
      RunOwned(states, events, n - 1);
      RunLinks(states, events, n - 1);
      StepOwned(states[n - 1], events[n - 1]);
    }
  }

  // No two unforwarded forwardable encodes in the queue share a key.
  lemma OneEncodePerKey(states: seq<State>, events: seq<Event>, n: nat, j: Job, k: Job)
    requires IsFixedKeyRun(states, events) && n < |states| && j in states[n].queue && k in states[n].queue
             && j.id != k.id
    requires IsFree(j) && IsFree(k)
    ensures !SharesKey(j, k)
  {
    RunOwned(states, events, n);
  }

  // And nobody in the queue has finished.
  lemma NobodyFinished(states: seq<State>, events: seq<Event>, n: nat, j: Job)
    requires IsFixedKeyRun(states, events) && n < |states| && j in states[n].queue
    ensures !IsTerminal(j.ready)
  {
    RunOwned(states, events, n);
  }
}

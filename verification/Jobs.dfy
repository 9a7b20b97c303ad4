// The job queue of pn_worker and every step of its loop, as functions on the state. Files,
// the database, the clock and the workers appear as parameters of the steps.
module Jobs {
  import opened Wrappers

  datatype JobType = Encode | Probe | Pancode | Scrape | Backup | BackupAll | Keycode | Preview
                   | Studio | StudioPreview | BatchDownload | Subs

  datatype Stage = Queued | Probing | Probed | Downloading | Downloaded | Encoding | Encoded
                 | Uploading | Uploaded | Failed | Declined | Cancelled

  // One episode of a batch; jobId once a child job was made of it.
  datatype Entry = Entry(fileIndex: nat, jobId: Option<nat>)

  datatype Batch = Batch(entries: seq<Entry>, finished: nat, failed: nat, downloadSettled: bool)

  datatype Job = Job(
    id: nat, author: nat, kind: JobType, ready: Stage, worker: string,
    forwardKeys: seq<nat>, cacheKeys: seq<nat>, keep: bool,
    duplicateSource: Option<nat>, forwardParent: Option<nat>,
    dispatched: bool, order: Option<nat>, epoch: nat,
    probeJob: Option<nat>, batch: Option<Batch>, batchParent: Option<nat>)

  // What happened, in order: messages handed to the encoder layer, stage reports received,
  // forward links made, encodes dispatched by the progression pass, and batch bookkeeping.
  datatype Action =
    | Sent(id: nat, epoch: nat)
    | Reported(id: nat)
    | Linked(child: nat, parent: nat)
    | Dispatched(id: nat, isBatchChild: bool, othersWaiting: bool)
    | Missed(batchId: nat)
    | Settled(batchId: nat, entries: set<nat>)
    | ChildDone(batchId: nat, childId: nat)
    | BatchDone(batchId: nat)

  // reboots counts the restarts of the encoder layer; known is the count the loop last acted on.
  datatype State = State(
    queue: seq<Job>, reboots: nat, known: nat, nextOrder: nat, sinceBatch: nat,
    used: set<nat>, log: seq<Action>)

  // ---- Queue helpers ------------------------------------------------------------------------

  // First position of a job id.
  function Position(queue: seq<Job>, id: nat): (pos: Option<nat>)
    ensures pos.Some? ==> pos.value < |queue| && queue[pos.value].id == id
    ensures pos.None? <==> forall k :: 0 <= k < |queue| ==> queue[k].id != id
  {
    if queue == [] then None
    else if queue[0].id == id then Some(0)
    else
      var rest := Position(queue[1..], id);
      assert forall k :: 0 < k < |queue| ==> queue[k] == queue[1..][k - 1];
      if rest.Some? then Some(rest.value + 1) else None
  }

  function Filter(queue: seq<Job>, keep: Job -> bool): seq<Job>
  {
    if queue == [] then []
    else
      var n := |queue| - 1;
      Filter(queue[..n], keep) + if keep(queue[n]) then [queue[n]] else []
  }

  function Map(queue: seq<Job>, f: Job -> Job): seq<Job>
  {
    seq(|queue|, i requires 0 <= i < |queue| => f(queue[i]))
  }

  function Without(queue: seq<Job>, id: nat): seq<Job>
  {
    Filter(queue, (j: Job) => j.id != id)
  }

  function HasPrefix(s: string, prefix: string): bool
  {
    prefix <= s
  }

  function IsEncodeType(kind: JobType): bool
  {
    kind == Encode || kind == Pancode || kind == Keycode || kind == Studio || kind == BatchDownload
  }

  function IsTerminal(stage: Stage): bool
  {
    stage == Uploaded || stage == Failed || stage == Declined || stage == Cancelled
  }

  // ---- Encoder reboots ----------------------------------------------------------------------

  // Handed over, but no stage report has come back yet.
  predicate Waiting(j: Job)
  {
    j.ready == Downloaded || (j.kind == Keycode && j.ready == Queued)
  }

  function ResetJob(j: Job, epoch: nat): Job
  {
    if j.epoch >= epoch then j
    else if Waiting(j) then j.(dispatched := false, order := None)
    else j
  }

  function ResetDispatches(queue: seq<Job>, epoch: nat): seq<Job>
  {
    Map(queue, (j: Job) => ResetJob(j, epoch))
  }

  function CheckEpoch(s: State): State
  {
    if s.reboots != s.known then s.(queue := ResetDispatches(s.queue, s.reboots), known := s.reboots) else s
  }

  // ---- Forwarding ---------------------------------------------------------------------------

  function IsForwardable(j: Job): bool
  {
    j.kind == Encode && !j.keep
  }

  predicate SharesKey(j: Job, k: Job)
  {
    exists a :: 0 <= a < |j.forwardKeys| && j.forwardKeys[a] in k.forwardKeys
  }

  datatype Parent = Parent(id: nat, stage: Stage, worker: string)

  function ForwardedWorker(worker: string): string
  {
    if HasPrefix(worker, "dwl-") then "dwl-forward"
    else if HasPrefix(worker, "upl-") then "upl-forward"
    else "enc-forward"
  }

  predicate MayParent(job: Job, other: Job)
  {
    && other.id != job.id && other.forwardParent.None? && IsForwardable(other)
    && !IsTerminal(other.ready) && SharesKey(other, job)
  }

  function FirstParent(job: Job, queue: seq<Job>): Option<Parent>
  {
    if queue == [] then None
    else if MayParent(job, queue[0]) then Some(Parent(queue[0].id, queue[0].ready, ForwardedWorker(queue[0].worker)))
    else FirstParent(job, queue[1..])
  }

  function QueuedEncodeParent(job: Job, queue: seq<Job>): Option<Parent>
  {
    if !IsForwardable(job) then None else FirstParent(job, queue)
  }

  function MarkForwarded(job: Job, parent: Parent): Job
  {
    job.(forwardParent := Some(parent.id), duplicateSource := None, ready := parent.stage, worker := parent.worker)
  }

  function SyncedJob(j: Job, parentId: nat, stage: Option<Stage>, worker: Option<string>): Job
  {
    if j.forwardParent != Some(parentId) then j
    else
      var staged := if stage.Some? then j.(ready := stage.value) else j;
      if worker.Some? then staged.(worker := worker.value) else staged
  }

  // sync_forwarded_state
  function SyncState(queue: seq<Job>, parentId: nat, stage: Option<Stage>, worker: Option<string>): seq<Job>
  {
    Map(queue, (j: Job) => SyncedJob(j, parentId, stage, worker))
  }

  // sync_forwarded_jobs: like sync_forwarded_state, but a terminal stage removes the forwarded jobs.
  function SyncJobs(queue: seq<Job>, parentId: nat, stage: Option<Stage>, parentWorker: string): seq<Job>
  {
    if stage.Some? && IsTerminal(stage.value) then Filter(queue, (j: Job) => j.forwardParent != Some(parentId))
    else SyncState(queue, parentId, stage, Some(ForwardedWorker(parentWorker)))
  }

  // ---- Submission ---------------------------------------------------------------------------

  // How the download of a submitted job starts.
  datatype Plan = FromCache | BehindOwner(owner: nat) | BehindTransfer | Fetch

  function StartDownload(job: Job, plan: Plan): Job
  {
    match plan
    case FromCache => job.(ready := Downloaded, worker := "dwl-cache")
    case BehindOwner(owner) => job.(duplicateSource := Some(owner), ready := Downloading, worker := "dwl-cache")
    // The wait sets Queued, and the common tail of queue_download_job turns it into Downloading.
    case BehindTransfer => job.(ready := Downloading, worker := "dwl-pending")
    case Fetch => if job.ready == Queued then job.(ready := Downloading) else job
  }

  // gitBlocked: a git sync is armed. setUp: keep, work directory, subtitle and database all fine.
  // bumps: reboots the encoder layer makes on the way in, if the job is sent there.
  datatype Setup = Setup(gitBlocked: bool, setUp: bool, plan: Plan, bumps: nat)

  function CountTopLevel(queue: seq<Job>): nat
  {
    |Filter(queue, (j: Job) => j.batchParent.None?)|
  }

  // The job as it enters the queue, if it does.
  function Entering(queue: seq<Job>, job: Job, setup: Setup): Option<Job>
  {
    if setup.gitBlocked && IsEncodeType(job.kind) then None
    else if CountTopLevel(queue) > 4 then None
    else if !setup.setUp then None
    else match job.kind
      case Encode =>
        var prepared := job.(worker := "dwl-pending");
        var parent := QueuedEncodeParent(prepared, queue);
        if parent.Some? then Some(MarkForwarded(prepared, parent.value))
        else Some(StartDownload(prepared, setup.plan))
      case Pancode | Subs | Backup | Preview => Some(StartDownload(job.(worker := "dwl-pending"), setup.plan))
      case BatchDownload =>
        if job.batch.None? || job.batch.value.entries == [] then None
        else Some(StartDownload(job.(worker := "dwl-pending"), Fetch))
      case BackupAll => Some(StartDownload(job.(worker := "dwl-pending"), Fetch))
      case Probe => Some(job.(worker := "prw-pending", ready := Probing))
      case Keycode => Some(job.(worker := "key-wait"))
      case Studio => Some(job.(worker := "enc-main", ready := Encoding, dispatched := true))
      case StudioPreview => Some(job.(worker := "prw-pending", ready := Encoding))
      case Scrape => Some(job)
  }

  // do_queue_things for a job: a studio render goes to the encoder layer at once.
  function Submit(s: State, job: Job, setup: Setup): State
  {
    var entering := Entering(s.queue, job, setup);
    var used := s.used + {job.id};
    if entering.None? then s.(used := used)
    else
      var t := s.(queue := s.queue + [entering.value], used := used);
      if job.kind == Studio then
        t.(reboots := s.reboots + setup.bumps, log := s.log + [Sent(job.id, s.reboots + setup.bumps)])
      else if entering.value.forwardParent.Some? then
        t.(log := s.log + [Linked(job.id, entering.value.forwardParent.value)])
      else t
  }

  // ---- Batches ------------------------------------------------------------------------------

  function OpenEntries(b: Batch): set<nat>
  {
    set i: nat | i < |b.entries| && b.entries[i].jobId.None?
  }

  // settle_download: every entry without a child counts as failed, once.
  function SettleDownload(b: Batch): Batch
  {
    if b.downloadSettled then b
    else b.(downloadSettled := true, failed := b.failed + |OpenEntries(b)|)
  }

  function Complete(b: Batch): bool
  {
    b.finished + b.failed >= |b.entries|
  }

  // First entry of a file.
  function EntryFor(entries: seq<Entry>, fileIndex: nat): (pos: Option<nat>)
    ensures pos.Some? ==> pos.value < |entries| && entries[pos.value].fileIndex == fileIndex
  {
    if entries == [] then None
    else if entries[0].fileIndex == fileIndex then Some(0)
    else
      var rest := EntryFor(entries[1..], fileIndex);
      if rest.Some? then Some(rest.value + 1) else None
  }

  // What a finished file is turned into: nothing when the hand-off fails.
  datatype HandOff = NoChild | Child(id: nat, forwardKeys: seq<nat>, cacheKeys: seq<nat>)

  function BatchChild(parent: Job, h: HandOff): Job
    requires h.Child?
  {
    parent.(id := h.id, kind := Pancode, batch := None, batchParent := Some(parent.id), probeJob := None, keep := false,
            duplicateSource := None, forwardParent := None, dispatched := false, order := None,
            worker := "enc-pending", ready := Downloaded, forwardKeys := h.forwardKeys, cacheKeys := h.cacheKeys)
  }

  function SetBatch(queue: seq<Job>, pos: nat, b: Batch): seq<Job>
    requires pos < |queue|
  {
    queue[pos := queue[pos].(batch := Some(b))]
  }

  function SpawnBatchChild(s: State, pos: nat, fileIndex: nat, h: HandOff): State
    requires pos < |s.queue|
  {
    var parent := s.queue[pos];
    if parent.batch.None? then s
    else
      var b := parent.batch.value;
      var at := EntryFor(b.entries, fileIndex);
      if at.None? || b.entries[at.value].jobId.Some? then s
      else match h
        case NoChild =>
          s.(queue := SetBatch(s.queue, pos, b.(failed := b.failed + 1)), log := s.log + [Missed(parent.id)])
        case Child(id, _, _) =>
          var entries := b.entries[at.value := b.entries[at.value].(jobId := Some(id))];
          s.(queue := SetBatch(s.queue, pos, b.(entries := entries)) + [BatchChild(parent, h)], used := s.used + {id})
  }

  // update_batch_parent
  function UpdateBatchParent(s: State, parentId: nat, childId: nat, stage: Stage): State
  {
    var pos := Position(s.queue, parentId);
    if pos.None? || s.queue[pos.value].batch.None? then s
    else
      var b := s.queue[pos.value].batch.value;
      if stage == Uploaded then
        s.(queue := SetBatch(s.queue, pos.value, b.(finished := b.finished + 1)), log := s.log
           + [ChildDone(parentId, childId)])
      else if IsTerminal(stage) then
        s.(queue := SetBatch(s.queue, pos.value, b.(failed := b.failed + 1)), log := s.log
           + [ChildDone(parentId, childId)])
      else s
  }

  function NotifyBatch(s: State, job: Job, stage: Stage): State
  {
    if job.batchParent.Some? then UpdateBatchParent(s, job.batchParent.value, job.id, stage) else s
  }

  predicate NeedsSettling(j: Job)
  {
    j.ready == Downloaded && j.batch.Some? && !j.batch.value.downloadSettled
  }

  function SettleJob(j: Job): Job
  {
    if NeedsSettling(j) then j.(batch := Some(SettleDownload(j.batch.value))) else j
  }

  // One log entry per settled batch, in queue order.
  function SettleLog(queue: seq<Job>): seq<Action>
  {
    if queue == [] then []
    else
      var n := |queue| - 1;
      SettleLog(queue[..n])
      + if NeedsSettling(queue[n]) then [Settled(queue[n].id, OpenEntries(queue[n].batch.value))] else []
  }

  predicate BatchFinished(j: Job)
  {
    j.batch.Some? && Complete(j.batch.value) && j.batch.value.entries != []
    && (j.ready == Downloaded || j.ready == Downloading)
  }

  function DoneLog(queue: seq<Job>): seq<Action>
  {
    if queue == [] then []
    else
      var n := |queue| - 1;
      DoneLog(queue[..n]) + if BatchFinished(queue[n]) then [BatchDone(queue[n].id)] else []
  }

  // do_batch_parent_things
  function FinishBatches(s: State): State
  {
    var settled := Map(s.queue, SettleJob);
    s.(queue := Filter(settled, (j: Job) => !BatchFinished(j)), log := s.log + SettleLog(s.queue) + DoneLog(settled))
  }

  // ---- Worker messages ----------------------------------------------------------------------

  datatype Message =
    | Assign(worker: string)
    | Warning
    | FileDone(fileIndex: nat, handOff: HandOff)
    | DuplicateWait(owner: nat)
    | Report(stage: Option<Stage>)

  function ReportedJob(j: Job, stage: Option<Stage>): Job
  {
    if stage.None? then j
    else if stage.value == Encoding then j.(ready := Encoding)
    else j.(ready := stage.value, dispatched := false, order := None)
  }

  predicate Finished(stage: Stage)
  {
    stage == Uploaded || stage == Failed || stage == Cancelled
  }

  function DropProbe(queue: seq<Job>, probe: Option<nat>): seq<Job>
  {
    if probe.None? then queue
    else
      var pos := Position(queue, probe.value);
      if pos.None? then queue else queue[..pos.value] + queue[pos.value + 1..]
  }

  function ReportStep(s: State, pos: nat, stage: Option<Stage>): State
    requires pos < |s.queue|
  {
    var job := ReportedJob(s.queue[pos], stage);
    var s1 := s.(queue := s.queue[pos := job], log := if stage.Some? then s.log + [Reported(job.id)] else s.log);
    var s2 := if stage.Some? then NotifyBatch(s1, job, stage.value) else s1;
    var s3 := s2.(queue := SyncJobs(s2.queue, job.id, stage, job.worker));
    if Finished(job.ready) then s3.(queue := Without(DropProbe(s3.queue, job.probeJob), job.id)) else s3
  }

  // do_worker_message_things
  function Receive(s: State, id: nat, message: Message): State
  {
    var found := Position(s.queue, id);
    if found.None? then s
    else
      var pos := found.value;
      match message
      case Assign(worker) =>
        var queue := s.queue[pos := s.queue[pos].(worker := worker)];
        s.(queue := SyncState(queue, id, None, Some(ForwardedWorker(worker))))
      case Warning => s
      case FileDone(fileIndex, handOff) => SpawnBatchChild(s, pos, fileIndex, handOff)
      case DuplicateWait(owner) => s.(queue := s.queue[pos := s.queue[pos].(duplicateSource := Some(owner))])
      case Report(stage) => ReportStep(s, pos, stage)
  }

  // ---- Cancelling, stalls, timeouts and waiting ---------------------------------------------

  predicate CancelledAtOnce(j: Job)
  {
    if j.forwardParent.Some? then true
    else if j.dispatched then false
    else if j.duplicateSource.Some? || j.worker == "dwl-pending" || j.worker == "key-wait" then true
    else j.ready != Probing && j.ready != Downloading && j.ready != Encoding && j.ready != Uploading
  }

  // First job of this id and author.
  function OwnedPosition(queue: seq<Job>, id: nat, author: nat): (pos: Option<nat>)
    ensures pos.Some? ==> pos.value < |queue| && queue[pos.value].id == id && queue[pos.value].author == author
  {
    if queue == [] then None
    else if queue[0].id == id && queue[0].author == author then Some(0)
    else
      var rest := OwnedPosition(queue[1..], id, author);
      if rest.Some? then Some(rest.value + 1) else None
  }

  // The Cancel half-job; a cancel marker on disk is left to the worker that reads it.
  function CancelJob(s: State, id: nat, author: nat): State
  {
    var found := OwnedPosition(s.queue, id, author);
    if found.None? || !CancelledAtOnce(s.queue[found.value]) then s
    else s.(queue := Without(SyncJobs(s.queue, id, Some(Cancelled), s.queue[found.value].worker), id))
  }

  predicate MayStall(j: Job)
  {
    j.forwardParent.None? && IsEncodeType(j.kind) && j.dispatched && (j.ready == Downloaded || j.ready == Encoding)
  }

  function FailOne(s: State, id: nat): State
  {
    var found := Position(s.queue, id);
    if found.None? then s
    else
      var job := s.queue[found.value].(ready := Failed, dispatched := false, order := None);
      var s1 := s.(queue := SyncJobs(s.queue[found.value := job], id, Some(Failed), ForwardedWorker(job.worker)));
      var s2 := if Position(s1.queue, id).None? then s1 else NotifyBatch(s1, job, Failed);
      s2.(queue := Without(s2.queue, id))
  }

  function FailAll(s: State, ids: seq<nat>): State
  {
    if ids == [] then s else FailOne(FailAll(s, ids[..|ids| - 1]), ids[|ids| - 1])
  }

  // do_encode_stall_things for the jobs the clock calls stalled.
  function FailStalled(s: State, ids: seq<nat>): State
  {
    if ids == [] then s else FailAll(s.(reboots := s.reboots + 1), ids)
  }

  // One round of do_probe_timeout_things.
  function ProbeTimeout(s: State, id: nat): State
  {
    var found := Position(s.queue, id);
    if found.Some? && s.queue[found.value].ready == Probed then
      s.(queue := s.queue[..found.value] + s.queue[found.value + 1..])
    else s
  }

  datatype WaitOutcome = StillWaiting | CacheHit | Requeue | Copied

  function WaitedJob(j: Job, outcome: WaitOutcome): Job
  {
    match outcome
    case StillWaiting => j
    case CacheHit => j.(ready := Downloaded, worker := "dwl-cache")
    case Requeue => j.(duplicateSource := None, ready := Queued, worker := "dwl-pending")
    case Copied => j.(duplicateSource := None, ready := Downloaded)
  }

  // One round of do_duplicate_waiting_things.
  function DuplicateRound(s: State, id: nat, outcome: WaitOutcome): State
  {
    var found := Position(s.queue, id);
    if found.None? then s
    else
      var j := s.queue[found.value];
      if j.forwardParent.None? && j.ready == Downloading && j.duplicateSource.Some? then
        s.(queue := s.queue[found.value := WaitedJob(j, outcome)])
      else s
  }

  // One round of do_queued_download_waiting_things.
  function RetryDownload(s: State, id: nat, plan: Plan): State
  {
    var found := Position(s.queue, id);
    if found.None? then s
    else
      var j := s.queue[found.value];
      if && j.forwardParent.None? && j.ready == Queued && j.worker == "dwl-pending"
         && (j.kind == Encode || j.kind == Pancode || j.kind == Backup || j.kind == Preview) then
        s.(queue := s.queue[found.value := StartDownload(j, plan)])
      else s
  }

  // ---- The progression pass -----------------------------------------------------------------

  datatype KeywordState = KeywordsWaiting | KeywordsReady | KeywordsFailed

  // What the pass finds out about one job from outside the queue.
  datatype Circumstance = Circumstance(keywords: KeywordState, hasRequest: bool, cancelMarked: bool, bumps: nat)

  datatype Pass = Pass(
    inFlight: bool, othersWaiting: bool, parents: map<nat, Parent>, sources: map<nat, nat>,
    dead: set<nat>, uploads: seq<(nat, string)>,
    reboots: nat, nextOrder: nat, sinceBatch: nat, log: seq<Action>)

  predicate BatchInFlight(j: Job)
  {
    j.batchParent.Some? && j.dispatched && (j.ready == Downloaded || j.ready == Encoding)
  }

  predicate OrdinaryWaiting(j: Job)
  {
    && j.batchParent.None? && j.batch.None? && j.forwardParent.None? && IsEncodeType(j.kind) && !j.dispatched
    && Waiting(j)
  }

  function AddParents(parents: map<nat, Parent>, keys: seq<nat>, parent: Parent): map<nat, Parent>
  {
    if keys == [] then parents
    else
      var rest := AddParents(parents, keys[..|keys| - 1], parent);
      var key := keys[|keys| - 1];
      if key in rest then rest else rest[key := parent]
  }

  function AddSources(sources: map<nat, nat>, keys: seq<nat>, owner: nat): map<nat, nat>
  {
    if keys == [] then sources
    else
      var rest := AddSources(sources, keys[..|keys| - 1], owner);
      var key := keys[|keys| - 1];
      if key in rest then rest else rest[key := owner]
  }

  predicate ActiveParent(j: Job)
  {
    && j.forwardParent.None? && IsForwardable(j)
    && (j.ready == Queued || j.ready == Downloading || j.ready == Encoding || j.ready == Encoded || j.ready == Uploading
        || (j.ready == Downloaded && j.dispatched))
  }

  predicate ActiveSource(j: Job)
  {
    j.forwardParent.None? && j.kind != Preview && (j.ready == Encoding || (j.ready == Downloaded && j.dispatched))
  }

  function ActiveParents(queue: seq<Job>): map<nat, Parent>
  {
    if queue == [] then map[]
    else
      var n := |queue| - 1;
      var rest := ActiveParents(queue[..n]);
      if ActiveParent(queue[n]) then
        AddParents(rest, queue[n].forwardKeys, Parent(queue[n].id, queue[n].ready, ForwardedWorker(queue[n].worker)))
      else rest
  }

  function ActiveSources(queue: seq<Job>): map<nat, nat>
  {
    if queue == [] then map[]
    else
      var n := |queue| - 1;
      var rest := ActiveSources(queue[..n]);
      if ActiveSource(queue[n]) then AddSources(rest, queue[n].cacheKeys, queue[n].id) else rest
  }

  // First key with an active parent.
  function FindParent(parents: map<nat, Parent>, keys: seq<nat>): Option<Parent>
  {
    if keys == [] then None
    else if keys[0] in parents then Some(parents[keys[0]])
    else FindParent(parents, keys[1..])
  }

  function FindSource(sources: map<nat, nat>, keys: seq<nat>): Option<nat>
  {
    if keys == [] then None
    else if keys[0] in sources then Some(sources[keys[0]])
    else FindSource(sources, keys[1..])
  }

  function MarkDispatched(j: Job, order: nat, epoch: nat): Job
  {
    j.(dispatched := true, order := Some(order), epoch := epoch)
  }

  predicate BatchChildMayDispatch(inFlight: bool, othersWaiting: bool, sinceBatch: nat)
  {
    !inFlight && (!othersWaiting || sinceBatch >= 2)
  }

  function Kill(j: Job, p: Pass): (Job, Pass)
  {
    (j, p.(dead := p.dead + {j.id}))
  }

  function DispatchKeycode(j: Job, c: Circumstance, p: Pass): (Job, Pass)
  {
    match c.keywords
    case KeywordsWaiting => (j.(worker := "key-wait"), p)
    case KeywordsFailed => Kill(j.(ready := Failed, worker := "key-fail"), p)
    case KeywordsReady =>
      var epoch := p.reboots + c.bumps;
      (MarkDispatched(j.(worker := "enc-main"), p.nextOrder, epoch),
       p.(reboots := epoch, nextOrder := p.nextOrder + 1, log := p.log + [Sent(j.id, epoch)]))
  }

  function DispatchEncode(j: Job, c: Circumstance, p: Pass): (Job, Pass)
  {
    var epoch := p.reboots + c.bumps;
    var sent := MarkDispatched(j.(worker := "enc-main"), p.nextOrder, epoch);
    (sent,
     p.(reboots := epoch, nextOrder := p.nextOrder + 1,
        inFlight := p.inFlight || j.batchParent.Some?,
        sinceBatch := if j.batchParent.Some? then 0 else p.sinceBatch + 1,
        sources := AddSources(p.sources, j.cacheKeys, j.id),
        parents := AddParents(p.parents, j.forwardKeys, Parent(j.id, Downloaded, ForwardedWorker("enc-main"))),
        log := p.log + [Sent(j.id, epoch), Dispatched(j.id, j.batchParent.Some?, p.othersWaiting)]))
  }

  // A downloaded job that wants the encoder: forward it, let it wait, or dispatch it.
  function AdvanceEncode(j: Job, c: Circumstance, p: Pass): (Job, Pass)
  {
    if j.dispatched || c.cancelMarked then (j, p)
    else
      var parent := FindParent(p.parents, j.forwardKeys);
      if parent.Some? && parent.value.id != j.id then
        (MarkForwarded(j, parent.value), p.(log := p.log + [Linked(j.id, parent.value.id)]))
      else
        var source := FindSource(p.sources, j.cacheKeys);
        if source.Some? then (j.(duplicateSource := source, ready := Downloading, worker := "dwl-cache"), p)
        else if j.batchParent.Some? && !BatchChildMayDispatch(p.inFlight, p.othersWaiting, p.sinceBatch) then (j, p)
        else DispatchEncode(j, c, p)
  }

  function Advance(j: Job, c: Circumstance, p: Pass): (Job, Pass)
  {
    if j.forwardParent.Some? || j.batch.Some? || j.ready == Probed then (j, p)
    else if j.kind == Keycode && j.ready == Queued && !j.dispatched then DispatchKeycode(j, c, p)
    else if j.ready == Downloaded then
      match j.kind
      case Subs => (j.(worker := "prw-pending", ready := Encoding), p)
      case Preview =>
        if !c.hasRequest then Kill(j.(ready := Failed), p) else (j.(worker := "prw-pending", ready := Encoding), p)
      case Backup => if j.keep then Kill(j, p) else (j.(worker := "upl-pending", ready := Uploading), p)
      case BackupAll => (j.(worker := "upl-pending", ready := Uploading), p)
      case _ => AdvanceEncode(j, c, p)
    else if j.ready == Encoded then
      if j.keep then Kill(j, p)
      else (j.(worker := "upl-pending", ready := Uploading),
            p.(uploads := p.uploads + [(j.id, ForwardedWorker("upl-pending"))]))
    else (j, p)
  }

  // The loop over the queue from position i on.
  function AdvanceFrom(queue: seq<Job>, cs: seq<Circumstance>, i: nat, p: Pass): (seq<Job>, Pass)
    requires i <= |queue| == |cs|
    decreases |queue| - i
  {
    if i == |queue| then (queue, p)
    else
      var (j, p') := Advance(queue[i], cs[i], p);
      AdvanceFrom(queue[i := j], cs, i + 1, p')
  }

  function StartPass(s: State): Pass
  {
    Pass(exists k :: 0 <= k < |s.queue| && BatchInFlight(s.queue[k]),
         exists k :: 0 <= k < |s.queue| && OrdinaryWaiting(s.queue[k]),
         ActiveParents(s.queue), ActiveSources(s.queue), {}, [],
         s.reboots, s.nextOrder, s.sinceBatch, s.log)
  }

  function SyncUploads(queue: seq<Job>, uploads: seq<(nat, string)>): seq<Job>
  {
    if uploads == [] then queue
    else
      var (id, worker) := uploads[|uploads| - 1];
      SyncState(SyncUploads(queue, uploads[..|uploads| - 1]), id, Some(Uploading), Some(worker))
  }

  // do_job_progression_things
  function Progress(s: State, cs: seq<Circumstance>): State
    requires |cs| == |s.queue|
  {
    var (queue, p) := AdvanceFrom(s.queue, cs, 0, StartPass(s));
    s.(queue := Filter(SyncUploads(queue, p.uploads), (j: Job) => j.id !in p.dead),
       reboots := p.reboots, nextOrder := p.nextOrder, sinceBatch := p.sinceBatch, log := p.log)
  }

  // ---- Runs ---------------------------------------------------------------------------------

  datatype Event =
    | Submitted(job: Job, setup: Setup)
    | Received(id: nat, message: Message)
    | EpochChecked
    | Rebooted
    | CancelAsked(id: nat, author: nat)
    | StallFound(ids: seq<nat>)
    | ProbeTimedOut(id: nat)
    | DuplicateChecked(id: nat, outcome: WaitOutcome)
    | DownloadRetried(id: nat, plan: Plan)
    | Progressed(circumstances: seq<Circumstance>)
    | BatchesChecked
    // The torrent file of a linked job landed and adds forward keys.
    | KeysGrown(id: nat, keys: seq<nat>)

  function GrowKeys(s: State, id: nat, keys: seq<nat>): State
  {
    var found := Position(s.queue, id);
    if found.None? then s
    else
      var j := s.queue[found.value];
      s.(queue := s.queue[found.value := j.(forwardKeys := j.forwardKeys + keys)])
  }

  // As constructed by the front ends.
  predicate FreshJob(job: Job)
  {
    && job.ready == Queued && !job.dispatched && job.order.None? && job.epoch == 0
    && job.duplicateSource.None? && job.forwardParent.None? && job.batchParent.None?
    && (job.batch.Some? ==>
          && job.kind == BatchDownload && job.batch.value.finished == 0 && job.batch.value.failed == 0
          && !job.batch.value.downloadSettled
          && forall i :: 0 <= i < |job.batch.value.entries| ==> job.batch.value.entries[i].jobId.None?)
  }

  // What the surroundings of the loop guarantee: ids are never used twice, no worker reports
  // Declined, only probes are reported Probed, and the clock calls only running encodes stalled.
  predicate Possible(s: State, e: Event)
  {
    match e
    case Submitted(job, _) =>
      FreshJob(job) && job.id !in s.used
    case Received(id, FileDone(_, Child(childId, _, _))) => childId !in s.used
    case Received(id, Report(Some(stage))) =>
      && stage != Declined
      && (stage == Probed ==> forall k :: 0 <= k < |s.queue| && s.queue[k].id == id ==> s.queue[k].kind == Probe)
    case StallFound(ids) =>
      && (forall a, b :: 0 <= a < b < |ids| ==> ids[a] != ids[b])
      && forall a :: 0 <= a < |ids| ==> exists k ::
             0 <= k < |s.queue| && s.queue[k].id == ids[a] && MayStall(s.queue[k])
    case Progressed(cs) => |cs| == |s.queue|
    case _ => true
  }

  function Step(s: State, e: Event): State
    requires Possible(s, e)
  {
    match e
    case Submitted(job, setup) => Submit(s, job, setup)
    case Received(id, message) => Receive(s, id, message)
    case EpochChecked => CheckEpoch(s)
    case Rebooted => s.(reboots := s.reboots + 1)
    case CancelAsked(id, author) => CancelJob(s, id, author)
    case StallFound(ids) => FailStalled(s, ids)
    case ProbeTimedOut(id) => ProbeTimeout(s, id)
    case DuplicateChecked(id, outcome) => DuplicateRound(s, id, outcome)
    case DownloadRetried(id, plan) => RetryDownload(s, id, plan)
    case Progressed(cs) => Progress(s, cs)
    case BatchesChecked => FinishBatches(s)
    case KeysGrown(id, keys) => GrowKeys(s, id, keys)
  }

  // An empty queue; known are the job ids of earlier processes.
  function Initial(reboots: nat, known: set<nat>): State
  {
    State([], reboots, reboots, 1, 0, known, [])
  }

  // A run: the states after each event are reached one from the other.
  ghost predicate IsRun(states: seq<State>, events: seq<Event>)
  {
    && |states| == |events| + 1
    && states[0] == Initial(states[0].reboots, states[0].used)
    && forall k :: 0 <= k < |events| ==> Possible(states[k], events[k]) && states[k + 1] == Step(states[k], events[k])
  }
}

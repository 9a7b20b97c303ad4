// Batches: at most one batch child is with the encoder, a batch child yields to waiting
// encodes, and the counters of a batch count distinct entries.
module Batches {
  import opened Wrappers
  import opened Jobs
  import opened QueueFacts
  import opened Links
  import Epochs

  // ---- What the batch rules look at ---------------------------------------------------------

  datatype Face = Face(id: nat, parent: Option<nat>, batch: Option<Batch>)

  ghost function FaceOf(j: Job): Face
  {
    Face(j.id, j.batchParent, j.batch)
  }

  ghost function Faces(queue: seq<Job>): set<Face>
  {
    set j | j in queue :: FaceOf(j)
  }

  predicate IsOut(j: Job)
  {
    j.batchParent.Some? && j.dispatched
  }

  // The batch children that were handed to the encoder and are not done.
  ghost function Out(queue: seq<Job>): set<nat>
  {
    set j | j in queue && IsOut(j) :: j.id
  }

  // The same face, and not newly dispatched.
  ghost predicate Steady(j: Job, j': Job)
  {
    FaceOf(j') == FaceOf(j) && (j'.dispatched ==> j.dispatched)
  }

  lemma MapViews(queue: seq<Job>, f: Job -> Job)
    requires forall j :: j in queue ==> Steady(j, f(j))
    ensures Faces(Map(queue, f)) <= Faces(queue) && Out(Map(queue, f)) <= Out(queue)
  {
    MapMembers(queue, f);
  }

  lemma FilterViews(queue: seq<Job>, keep: Job -> bool)
    ensures Faces(Filter(queue, keep)) <= Faces(queue) && Out(Filter(queue, keep)) <= Out(queue)
  {
    FilterMembers(queue, keep);
  }

  lemma UpdateViews(queue: seq<Job>, pos: nat, job: Job)
    requires pos < |queue| && Steady(queue[pos], job)
    ensures Faces(queue[pos := job]) <= Faces(queue) && Out(queue[pos := job]) <= Out(queue)
  {
    var updated := queue[pos := job];
    forall j' | j' in updated ensures FaceOf(j') in Faces(queue) && (IsOut(j') ==> j'.id in Out(queue)) {
      assert queue[pos] in queue;
    }
  }

  lemma RemoveViews(queue: seq<Job>, pos: nat)
    requires pos < |queue|
    ensures var rest := queue[..pos] + queue[pos + 1..]; Faces(rest) <= Faces(queue) && Out(rest) <= Out(queue)
  {
    assert forall j :: j in queue[..pos] + queue[pos + 1..] ==> j in queue;
  }

  predicate Uncounted(a: Action)
  {
    !a.Missed? && !a.Settled? && !a.ChildDone?
  }

  // A log that grows without any batch bookkeeping.
  ghost predicate UncountedLog(log: seq<Action>, log': seq<Action>)
  {
    |log| <= |log'| && log'[..|log|] == log && forall k :: |log| <= k < |log'| ==> Uncounted(log'[k])
  }

  // And without any dispatch.
  ghost predicate PlainLog(log: seq<Action>, log': seq<Action>)
  {
    UncountedLog(log, log') && forall k :: |log| <= k < |log'| ==> !log'[k].Dispatched?
  }

  // A step that leaves the batches alone.
  ghost predicate Plain(s: State, t: State)
  {
    && Faces(t.queue) <= Faces(s.queue) && Out(t.queue) <= Out(s.queue)
    && t.sinceBatch == s.sinceBatch && s.used <= t.used && PlainLog(s.log, t.log)
  }

  // ---- Plain steps --------------------------------------------------------------------------

  lemma SyncViews(queue: seq<Job>, id: nat, stage: Option<Stage>, worker: Option<string>)
    ensures Faces(SyncState(queue, id, stage, worker)) <= Faces(queue)
            && Out(SyncState(queue, id, stage, worker)) <= Out(queue)
  {
    MapViews(queue, (j: Job) => SyncedJob(j, id, stage, worker));
  }

  lemma SyncJobsViews(queue: seq<Job>, id: nat, stage: Option<Stage>, worker: string)
    ensures Faces(SyncJobs(queue, id, stage, worker)) <= Faces(queue)
            && Out(SyncJobs(queue, id, stage, worker)) <= Out(queue)
  {
    if stage.Some? && IsTerminal(stage.value) {
      FilterViews(queue, (j: Job) => j.forwardParent != Some(id));
    } else {
      SyncViews(queue, id, stage, Some(ForwardedWorker(worker)));
    }
  }

  lemma ResetViews(queue: seq<Job>, epoch: nat)
    ensures Faces(ResetDispatches(queue, epoch)) <= Faces(queue) && Out(ResetDispatches(queue, epoch)) <= Out(queue)
  {
    forall j | j in queue ensures Steady(j, ResetJob(j, epoch)) {
    }
    MapViews(queue, (j: Job) => ResetJob(j, epoch));
  }

  lemma TailViews(queue: seq<Job>, job: Job, stage: Option<Stage>)
    ensures Faces(ReportTail(queue, job, stage)) <= Faces(queue) && Out(ReportTail(queue, job, stage)) <= Out(queue)
  {
    var synced := SyncJobs(queue, job.id, stage, job.worker);
    SyncJobsViews(queue, job.id, stage, job.worker);
    if Finished(job.ready) {
      var dropped := DropProbe(synced, job.probeJob);
      if job.probeJob.Some? && Position(synced, job.probeJob.value).Some? {
        RemoveViews(synced, Position(synced, job.probeJob.value).value);
      }
      FilterViews(dropped, (j: Job) => j.id != job.id);
    }
  }

  lemma AssignPlain(s: State, pos: nat, worker: string, owner: nat)
    requires pos < |s.queue|
    ensures Plain(s, Receive(s, s.queue[pos].id, Assign(worker)))
    ensures Plain(s, Receive(s, s.queue[pos].id, DuplicateWait(owner)))
  {
    var id := s.queue[pos].id;
    var at := Position(s.queue, id).value;
    var queue := s.queue[at := s.queue[at].(worker := worker)];
    UpdateViews(s.queue, at, s.queue[at].(worker := worker));
    SyncViews(queue, id, None, Some(ForwardedWorker(worker)));
    UpdateViews(s.queue, at, s.queue[at].(duplicateSource := Some(owner)));
  }

  lemma CancelPlain(s: State, id: nat, author: nat)
    ensures Plain(s, CancelJob(s, id, author))
  {
    var found := OwnedPosition(s.queue, id, author);
    if found.Some? {
      var worker := s.queue[found.value].worker;
      SyncJobsViews(s.queue, id, Some(Cancelled), worker);
      FilterViews(SyncJobs(s.queue, id, Some(Cancelled), worker), (j: Job) => j.id != id);
    }
  }

  lemma RoundsPlain(s: State, id: nat, outcome: WaitOutcome, plan: Plan, keys: seq<nat>)
    ensures Plain(s, ProbeTimeout(s, id)) && Plain(s, DuplicateRound(s, id, outcome))
    ensures Plain(s, RetryDownload(s, id, plan)) && Plain(s, GrowKeys(s, id, keys))
  {
    var found := Position(s.queue, id);
    if found.Some? {
      var pos := found.value;
      RemoveViews(s.queue, pos);
      UpdateViews(s.queue, pos, WaitedJob(s.queue[pos], outcome));
      UpdateViews(s.queue, pos, StartDownload(s.queue[pos], plan));
      UpdateViews(s.queue, pos, s.queue[pos].(forwardKeys := s.queue[pos].forwardKeys + keys));
    }
  }

  // Steps that leave all batches alone.
  predicate IsPlain(e: Event)
  {
    match e
    case Received(_, message) => !message.FileDone? && !message.Report?
    case EpochChecked | Rebooted | CancelAsked(_, _) | ProbeTimedOut(_) | DuplicateChecked(_, _)
        | DownloadRetried(_, _) | KeysGrown(_, _) => true
    case _ => false
  }

  lemma PlainStep(s: State, e: Event)
    requires Possible(s, e) && IsPlain(e)
    ensures Plain(s, Step(s, e))
  {
    match e
    case Received(id, message) =>
      if Position(s.queue, id).Some? && !message.Warning? {
        AssignPlain(s, Position(s.queue, id).value, if message.Assign? then message.worker else "",
                    if message.DuplicateWait? then message.owner else 0);
      }
    case EpochChecked => ResetViews(s.queue, s.reboots);
    case Rebooted =>
    case CancelAsked(id, author) => CancelPlain(s, id, author);
    case ProbeTimedOut(id) => RoundsPlain(s, id, StillWaiting, Fetch, []);
    case DuplicateChecked(id, outcome) => RoundsPlain(s, id, outcome, Fetch, []);
    case DownloadRetried(id, plan) => RoundsPlain(s, id, StillWaiting, plan, []);
    case KeysGrown(id, keys) => RoundsPlain(s, id, StillWaiting, Fetch, keys);
  }

  // ---- Dispatching --------------------------------------------------------------------------

  // Ordinary encodes dispatched since the last batch child.
  ghost function SinceBatch(log: seq<Action>): nat
  {
    if log == [] then 0
    else
      var rest := SinceBatch(log[..|log| - 1]);
      match log[|log| - 1]
      case Dispatched(_, isBatchChild, _) => if isBatchChild then 0 else rest + 1
      case _ => rest
  }

  lemma SinceBatchAppend(log: seq<Action>, a: Action)
    ensures SinceBatch(log + [a]) ==
            if a.Dispatched? then if a.isBatchChild then 0 else SinceBatch(log) + 1 else SinceBatch(log)
  {
    assert (log + [a])[..|log|] == log;
  }

  // A batch child goes out only if no other encode was waiting when the pass began, or two
  // ordinary encodes have gone out since the previous batch child.
  ghost predicate Yields(log: seq<Action>, a: Action)
  {
    a.Dispatched? && a.isBatchChild ==> !a.othersWaiting || SinceBatch(log) >= 2
  }

  ghost predicate AllYield(log: seq<Action>)
  {
    forall k :: 0 <= k < |log| ==> Yields(log[..k], log[k])
  }

  lemma YieldAppend(log: seq<Action>, a: Action)
    requires AllYield(log) && Yields(log, a)
    ensures AllYield(log + [a])
  {
    var more := log + [a];
    forall k | 0 <= k < |more| ensures Yields(more[..k], more[k]) {
      assert more[..k] == log[..k];
      if k == |log| { assert log[..k] == log; }
    }
  }

  ghost predicate Unhurried(log: seq<Action>, log': seq<Action>)
  {
    SinceBatch(log') == SinceBatch(log) && (AllYield(log) ==> AllYield(log'))
  }

  lemma {:induction false} NoDispatch(log: seq<Action>, log': seq<Action>)
    requires |log| <= |log'| && log'[..|log|] == log && forall k :: |log| <= k < |log'| ==> !log'[k].Dispatched?
    ensures Unhurried(log, log')
    decreases |log'|
  {
    if |log'| > |log| {
      var n := |log'| - 1;
      assert log'[..n][..|log|] == log;
      NoDispatch(log, log'[..n]);
      assert log' == log'[..n] + [log'[n]];
      SinceBatchAppend(log'[..n], log'[n]);
      if AllYield(log) { YieldAppend(log'[..n], log'[n]); }
    } else {
      assert log' == log;
    }
  }

  ghost predicate Lone(ids: set<nat>)
  {
    forall a, b :: a in ids && b in ids ==> a == b
  }

  // Batch children are pancode jobs.
  ghost predicate KidKinds(queue: seq<Job>)
  {
    forall j :: j in queue && j.batchParent.Some? ==> j.kind == Pancode
  }

  // At most one batch child is out, the counter is what the log says, and every batch child
  // dispatched so far yielded.
  ghost predicate TurnInv(s: State)
  {
    && Lone(Out(s.queue)) && KidKinds(s.queue)
    && s.sinceBatch == SinceBatch(s.log) && AllYield(s.log)
  }

  lemma TurnsKept(s: State, t: State)
    requires TurnInv(s) && Descends(s.queue, t.queue)
    requires Out(t.queue) <= Out(s.queue) && t.sinceBatch == s.sinceBatch && Unhurried(s.log, t.log)
    ensures TurnInv(t)
  {
    KidsDescend(s.queue, t.queue);
  }

  lemma KidsDescend(queue: seq<Job>, queue': seq<Job>)
    requires KidKinds(queue) && Descends(queue, queue')
    ensures KidKinds(queue')
  {
    forall j' | j' in queue' && j'.batchParent.Some? ensures j'.kind == Pancode {
      var j :| j in queue && Kept(j, j');
    }
  }

  // What the pass does to one job, as far as turns are concerned.
  ghost predicate Waits(j: Job, j': Job, p: Pass, p': Pass)
  {
    && Steady(j, j') && p'.inFlight == p.inFlight && p'.othersWaiting == p.othersWaiting
    && p'.sinceBatch == p.sinceBatch && Unhurried(p.log, p'.log)
  }

  ghost predicate GoesOut(j: Job, j': Job, p: Pass, p': Pass)
  {
    && FaceOf(j') == FaceOf(j) && p'.othersWaiting == p.othersWaiting
    && (j.batchParent.Some? ==> BatchChildMayDispatch(p.inFlight, p.othersWaiting, p.sinceBatch))
    && p'.inFlight == (p.inFlight || j.batchParent.Some?)
    && p'.sinceBatch == (if j.batchParent.Some? then 0 else p.sinceBatch + 1)
    && exists sent: Action ::
           sent.Sent? && p'.log == p.log + [sent] + [Dispatched(j.id, j.batchParent.Some?, p.othersWaiting)]
  }

  lemma KeycodeTurn(j: Job, c: Circumstance, p: Pass)
    requires j.batchParent.None?
    ensures var (j', p') := DispatchKeycode(j, c, p); KeycodeGoes(j, j', p, p')
  {
    var (j', p') := DispatchKeycode(j, c, p);
    NoDispatch(p.log, p'.log);
  }

  ghost predicate KeycodeGoes(j: Job, j': Job, p: Pass, p': Pass)
  {
    && FaceOf(j') == FaceOf(j) && j.batchParent.None? && p'.inFlight == p.inFlight
    && p'.othersWaiting == p.othersWaiting
    && p'.sinceBatch == p.sinceBatch && Unhurried(p.log, p'.log)
  }

  lemma EncodeTurn(j: Job, c: Circumstance, p: Pass)
    ensures var (j', p') := AdvanceEncode(j, c, p); Waits(j, j', p, p') || GoesOut(j, j', p, p')
  {
    var (j', p') := AdvanceEncode(j, c, p);
    if p'.nextOrder != p.nextOrder {
      var sent := Sent(j.id, p'.reboots);
      assert p'.log == p.log + [sent] + [Dispatched(j.id, j.batchParent.Some?, p.othersWaiting)];
    } else {
      NoDispatch(p.log, p'.log);
    }
  }

  lemma OtherTurn(j: Job, c: Circumstance, p: Pass)
    requires !WantsEncoder(j) && !WantsKeywords(j)
    ensures var (j', p') := Advance(j, c, p); Waits(j, j', p, p')
  {
    NoDispatch(p.log, p.log);
  }

  lemma AdvanceTurn(j: Job, c: Circumstance, p: Pass)
    requires j.kind == Keycode ==> j.batchParent.None?
    ensures var (j', p') := Advance(j, c, p); Waits(j, j', p, p') || GoesOut(j, j', p, p') || KeycodeGoes(j, j', p, p')
  {
    if WantsEncoder(j) {
      EncodeTurn(j, c, p);
      AdvanceEncodes(j, c, p);
    } else if WantsKeywords(j) {
      KeycodeTurn(j, c, p);
      AdvanceKeycode(j, c, p);
    } else {
      OtherTurn(j, c, p);
    }
  }

  // In the middle of a pass.
  ghost predicate PassTurn(queue: seq<Job>, p: Pass)
  {
    && UniqueIds(queue) && KidKinds(queue) && OneOut(queue, p)
  }

  ghost predicate OneOut(queue: seq<Job>, p: Pass)
  {
    && Lone(Out(queue)) && (!p.inFlight ==> Out(queue) == {})
    && p.sinceBatch == SinceBatch(p.log) && AllYield(p.log)
  }

  lemma OutAfter(queue: seq<Job>, i: nat, j: Job)
    requires UniqueIds(queue) && i < |queue| && FaceOf(j) == FaceOf(queue[i])
    ensures Out(queue[i := j]) <= Out(queue) + (if j.batchParent.Some? then {j.id} else {})
    ensures (j.dispatched ==> queue[i].dispatched) ==> Out(queue[i := j]) <= Out(queue)
  {
    UpdateMembers(queue, i, j);
    assert queue[i] in queue;
  }

  lemma DispatchTurn(log: seq<Action>, sent: Action, d: Action)
    requires AllYield(log) && sent.Sent? && Yields(log, d)
    ensures AllYield(log + [sent] + [d])
    ensures SinceBatch(log + [sent] + [d]) == SinceBatch(log + [d])
  {
    SinceBatchAppend(log, sent);
    YieldAppend(log, sent);
    SinceBatchAppend(log + [sent], d);
    SinceBatchAppend(log, d);
    YieldAppend(log + [sent], d);
  }

  lemma GoesOutLog(j: Job, j': Job, p: Pass, p': Pass)
    requires GoesOut(j, j', p, p') && p.sinceBatch == SinceBatch(p.log) && AllYield(p.log)
    ensures p'.sinceBatch == SinceBatch(p'.log) && AllYield(p'.log)
  {
    var d := Dispatched(j.id, j.batchParent.Some?, p.othersWaiting);
    var sent: Action :| sent.Sent? && p'.log == p.log + [sent] + [d];
    DispatchTurn(p.log, sent, d);
    SinceBatchAppend(p.log, d);
  }

  lemma GoesOutTurn(queue: seq<Job>, i: nat, j: Job, p: Pass, p': Pass)
    requires PassTurn(queue, p) && i < |queue| && GoesOut(queue[i], j, p, p')
    ensures OneOut(queue[i := j], p')
  {
    OutAfter(queue, i, j);
    GoesOutLog(queue[i], j, p, p');
    var out := Out(queue[i := j]);
    if queue[i].batchParent.Some? {
      assert out <= {j.id};
    } else {
      assert out <= Out(queue);
    }
  }

  lemma PassStep(queue: seq<Job>, i: nat, c: Circumstance, p: Pass)
    requires PassTurn(queue, p) && i < |queue|
    ensures var (j, p') := Advance(queue[i], c, p); PassTurn(queue[i := j], p')
  {
    var (j, p') := Advance(queue[i], c, p);
    assert queue[i] in queue;
    AdvanceTurn(queue[i], c, p);
    AdvanceFaces(queue, i, c, p);
    if GoesOut(queue[i], j, p, p') {
      GoesOutTurn(queue, i, j, p, p');
    } else {
      StaysTurn(queue, i, j, p, p');
    }
  }

  lemma AdvanceFaces(queue: seq<Job>, i: nat, c: Circumstance, p: Pass)
    requires UniqueIds(queue) && KidKinds(queue) && i < |queue|
    ensures var j := Advance(queue[i], c, p).0; UniqueIds(queue[i := j]) && KidKinds(queue[i := j])
  {
    var j := Advance(queue[i], c, p).0;
    assert queue[i] in queue;
    AdvanceLinks(queue[i], c, p);
    UpdateMembers(queue, i, j);
  }

  lemma StaysTurn(queue: seq<Job>, i: nat, j: Job, p: Pass, p': Pass)
    requires PassTurn(queue, p) && i < |queue| && (Waits(queue[i], j, p, p') || KeycodeGoes(queue[i], j, p, p'))
    ensures OneOut(queue[i := j], p')
  {
    assert queue[i] in queue;
    OutAfter(queue, i, j);
  }

  lemma PassKeepsTurn()
    ensures KeptByPass((queue: seq<Job>, i: nat, p: Pass) => PassTurn(queue, p))
  {
    forall queue: seq<Job>, i: nat, c: Circumstance, p: Pass | i < |queue| && PassTurn(queue, p)
      ensures PassTurn(queue[i := Advance(queue[i], c, p).0], Advance(queue[i], c, p).1)
    {
      PassStep(queue, i, c, p);
    }
  }

  lemma WholePassTurn(queue: seq<Job>, cs: seq<Circumstance>, p: Pass)
    requires |cs| == |queue| && PassTurn(queue, p)
    ensures var (queue', p') := AdvanceFrom(queue, cs, 0, p); PassTurn(queue', p')
  {
    var holds := (queue: seq<Job>, i: nat, q: Pass) => PassTurn(queue, q);
    PassKeepsTurn();
    PassInduction(holds, queue, cs, 0, p);
    var (queue', p') := AdvanceFrom(queue, cs, 0, p);
    assert holds(queue', |queue|, p');
  }

  lemma {:induction false} UploadsViews(queue: seq<Job>, uploads: seq<(nat, string)>)
    ensures Faces(SyncUploads(queue, uploads)) <= Faces(queue) && Out(SyncUploads(queue, uploads)) <= Out(queue)
  {
    if uploads != [] {
      var init := uploads[..|uploads| - 1];
      var (id, worker) := uploads[|uploads| - 1];
      UploadsViews(queue, init);
      SyncViews(SyncUploads(queue, init), id, Some(Uploading), Some(worker));
    }
  }

  // A dispatched batch child is in flight: it has not reported, or it is encoding.
  lemma OutIsInFlight(s: State)
    requires Epochs.EpochInv(s) && KidKinds(s.queue)
    ensures forall j :: j in s.queue ==> (IsOut(j) <==> BatchInFlight(j))
  {
    forall j | j in s.queue && IsOut(j) ensures BatchInFlight(j) {
      assert Epochs.EpochOk(j, s.known, s.reboots, s.nextOrder, LastSend(s.log, j.id));
    }
  }

  lemma ProgressTurns(s: State, cs: seq<Circumstance>)
    requires TurnInv(s) && Epochs.EpochInv(s) && |cs| == |s.queue|
    ensures TurnInv(Progress(s, cs))
  {
    var p := StartPass(s);
    OutIsInFlight(s);
    assert PassTurn(s.queue, p) by {
      if !p.inFlight {
        forall j | j in s.queue ensures !BatchInFlight(j) {
          var k :| 0 <= k < |s.queue| && s.queue[k] == j;
        }
      }
    }
    WholePassTurn(s.queue, cs, p);
    var (queue, p') := AdvanceFrom(s.queue, cs, 0, p);
    PassTailTurns(queue, p');
  }

  lemma PassTailTurns(queue: seq<Job>, p: Pass)
    requires PassTurn(queue, p)
    ensures var rest := Filter(SyncUploads(queue, p.uploads), (j: Job) => j.id !in p.dead);
            Lone(Out(rest)) && KidKinds(rest)
  {
    UploadsViews(queue, p.uploads);
    UploadsDescend(queue, p.uploads);
    var uploaded := SyncUploads(queue, p.uploads);
    KidsDescend(queue, uploaded);
    FilterViews(uploaded, (j: Job) => j.id !in p.dead);
    FilterMembers(uploaded, (j: Job) => j.id !in p.dead);
  }

  // ---- Counting -----------------------------------------------------------------------------

  // The entries of a batch that its log accounts for: those without a child when the download
  // ended, and those whose child has reported its end.
  ghost predicate Accounted(log: seq<Action>, id: nat, b: Batch, i: nat)
    requires i < |b.entries|
  {
    || (exists entries :: Settled(id, entries) in log && i in entries)
    || (b.entries[i].jobId.Some? && ChildDone(id, b.entries[i].jobId.value) in log)
  }

  ghost function Counted(log: seq<Action>, id: nat, b: Batch): set<nat>
  {
    set i: nat | i < |b.entries| && Accounted(log, id, b, i)
  }

  // Failed hand-offs, which the code counts although the entry stays open.
  ghost function Misses(log: seq<Action>, id: nat): nat
  {
    if log == [] then 0 else Misses(log[..|log| - 1], id) + if log[|log| - 1] == Missed(id) then 1 else 0
  }

  lemma MissesAppend(log: seq<Action>, a: Action, id: nat)
    ensures Misses(log + [a], id) == Misses(log, id) + if a == Missed(id) then 1 else 0
  {
    assert (log + [a])[..|log|] == log;
  }

  ghost predicate DistinctChildren(b: Batch, used: set<nat>)
  {
    && (forall i :: 0 <= i < |b.entries| && b.entries[i].jobId.Some? ==> b.entries[i].jobId.value in used)
    && forall i, k :: 0 <= i < k < |b.entries| && b.entries[i].jobId.Some? ==> b.entries[i].jobId != b.entries[k].jobId
  }

  // Once settled, exactly one settlement is on record, of entries that are still open.
  ghost predicate SettledOnce(log: seq<Action>, id: nat, b: Batch)
  {
    forall entries :: Settled(id, entries) in log ==> b.downloadSettled && entries <= OpenEntries(b)
  }

  // The counters of a batch against the log.
  ghost predicate Fits(id: nat, b: Batch, log: seq<Action>, used: set<nat>)
  {
    && b.finished + b.failed == |Counted(log, id, b)| + Misses(log, id)
    && DistinctChildren(b, used) && SettledOnce(log, id, b)
  }

  // A queued child is the child of an entry and has not been counted.
  ghost predicate Owed(id: nat, b: Batch, child: nat, log: seq<Action>)
  {
    ChildDone(id, child) !in log && exists i :: 0 <= i < |b.entries| && b.entries[i].jobId == Some(child)
  }

  ghost predicate LogUsed(log: seq<Action>, used: set<nat>)
  {
    forall a :: a in log ==>
      match a
      case Missed(id) => id in used
      case Settled(id, _) => id in used
      case ChildDone(id, child) => id in used && child in used
      case _ => true
  }

  ghost predicate BatchInv(faces: set<Face>, log: seq<Action>, used: set<nat>)
  {
    && (forall f :: f in faces ==> f.id in used && (f.parent.Some? ==> f.parent.value in used))
    && (forall f, g :: f in faces && g in faces && f.id == g.id ==> f == g)
    && (forall f :: f in faces && f.batch.Some? ==> Fits(f.id, f.batch.value, log, used))
    && OwedAll(faces, log) && LogUsed(log, used)
  }

  ghost predicate OwedAll(faces: set<Face>, log: seq<Action>)
  {
    forall f, g :: f in faces && g in faces && f.batch.Some? && g.parent == Some(f.id) ==>
        Owed(f.id, f.batch.value, g.id, log)
  }

  // The batches of a state fit its log.
  ghost predicate BatchesFit(s: State)
  {
    BatchInv(Faces(s.queue), s.log, s.used)
  }

  // Two logs with the same bookkeeping for a batch.
  ghost predicate SameBook(log: seq<Action>, log': seq<Action>, id: nat)
  {
    && (forall entries :: Settled(id, entries) in log' <==> Settled(id, entries) in log)
    && (forall child :: ChildDone(id, child) in log' <==> ChildDone(id, child) in log)
    && Misses(log', id) == Misses(log, id)
  }

  lemma SameBookFits(id: nat, b: Batch, log: seq<Action>, log': seq<Action>, used: set<nat>, used': set<nat>)
    requires Fits(id, b, log, used) && SameBook(log, log', id) && used <= used'
    ensures Fits(id, b, log', used')
  {
    assert Counted(log', id, b) == Counted(log, id, b);
  }

  lemma SameBookAppend(log: seq<Action>, a: Action, id: nat)
    requires match a
             case Missed(p) => p != id
             case Settled(p, _) => p != id
             case ChildDone(p, _) => p != id
             case _ => true
    ensures SameBook(log, log + [a], id)
  {
    MissesAppend(log, a, id);
  }

  lemma {:induction false} PlainBook(log: seq<Action>, log': seq<Action>, id: nat)
    requires UncountedLog(log, log')
    ensures SameBook(log, log', id)
    decreases |log'|
  {
    if |log'| > |log| {
      var n := |log'| - 1;
      assert log'[..n][..|log|] == log;
      PlainBook(log, log'[..n], id);
      SameBookAppend(log'[..n], log'[n], id);
      assert log' == log'[..n] + [log'[n]];
    } else {
      assert log' == log;
    }
  }

  lemma PlainUsed(log: seq<Action>, log': seq<Action>, used: set<nat>, used': set<nat>)
    requires LogUsed(log, used) && UncountedLog(log, log') && used <= used'
    ensures LogUsed(log', used')
  {
    forall a | a in log' && !Uncounted(a) ensures a in log {
      var k :| 0 <= k < |log'| && log'[k] == a;
      assert log'[..|log|][k] == a;
    }
  }

  lemma PlainKeeps(faces: set<Face>, log: seq<Action>, used: set<nat>, faces': set<Face>, log': seq<Action>,
                   used': set<nat>)
    requires BatchInv(faces, log, used) && faces' <= faces && UncountedLog(log, log') && used <= used'
    ensures BatchInv(faces', log', used')
  {
    forall id ensures SameBook(log, log', id) { PlainBook(log, log', id); }
    PlainUsed(log, log', used, used');
    forall f | f in faces' && f.batch.Some? ensures Fits(f.id, f.batch.value, log', used') {
      SameBookFits(f.id, f.batch.value, log, log', used, used');
    }
  }

  // A face's batch record is replaced.
  function Rebatched(f: Face, b: Batch): Face
  {
    f.(batch := Some(b))
  }

  ghost predicate OneMore(b: Batch, b': Batch)
  {
    && b'.entries == b.entries && b'.downloadSettled == b.downloadSettled
    && b'.finished + b'.failed == b.finished + b.failed + 1
  }

  // A child's end accounts for one more entry, its own.
  lemma FitsCounted(id: nat, b: Batch, b': Batch, child: nat, log: seq<Action>, used: set<nat>)
    requires Fits(id, b, log, used) && Owed(id, b, child, log) && OneMore(b, b')
    ensures Fits(id, b', log + [ChildDone(id, child)], used)
  {
    var log' := log + [ChildDone(id, child)];
    MissesAppend(log, ChildDone(id, child), id);
    var i: nat :| i < |b.entries| && b.entries[i].jobId == Some(child);
    assert i !in OpenEntries(b);
    assert i !in Counted(log, id, b);
    forall k: nat | k < |b.entries| ensures Accounted(log', id, b', k) <==> Accounted(log, id, b, k) || k == i {
    }
    assert Counted(log', id, b') == Counted(log, id, b) + {i};
  }

  // A failed hand-off is counted without an entry.
  lemma FitsMissed(id: nat, b: Batch, log: seq<Action>, used: set<nat>)
    requires Fits(id, b, log, used)
    ensures Fits(id, b.(failed := b.failed + 1), log + [Missed(id)], used)
  {
    var b', log' := b.(failed := b.failed + 1), log + [Missed(id)];
    MissesAppend(log, Missed(id), id);
    assert Counted(log', id, b') == Counted(log, id, b);
    assert OpenEntries(b') == OpenEntries(b);
  }

  // A hand-off before the download ends gives an open entry its child.
  lemma FitsSpawned(id: nat, b: Batch, at: nat, child: nat, log: seq<Action>, used: set<nat>)
    requires Fits(id, b, log, used) && LogUsed(log, used) && at < |b.entries| && b.entries[at].jobId.None?
             && !b.downloadSettled
    requires child !in used
    ensures Fits(id, b.(entries := b.entries[at := b.entries[at].(jobId := Some(child))]), log, used + {child})
  {
    var b' := b.(entries := b.entries[at := b.entries[at].(jobId := Some(child))]);
    assert ChildDone(id, child) !in log;
    assert Counted(log, id, b') == Counted(log, id, b);
  }

  // The end of the download accounts for the open entries.
  lemma FitsSettled(id: nat, b: Batch, log: seq<Action>, log': seq<Action>, used: set<nat>)
    requires Fits(id, b, log, used) && !b.downloadSettled
    requires forall entries :: Settled(id, entries) in log' <==>
                 Settled(id, entries) in log || entries == OpenEntries(b)
    requires forall child :: ChildDone(id, child) in log' <==> ChildDone(id, child) in log
    requires Misses(log', id) == Misses(log, id)
    ensures Fits(id, SettleDownload(b), log', used)
  {
    var b' := SettleDownload(b);
    assert OpenEntries(b') == OpenEntries(b);
    assert Settled(id, OpenEntries(b)) in log';
    assert Counted(log', id, b') == Counted(log, id, b) + OpenEntries(b);
    assert Counted(log, id, b) !! OpenEntries(b);
  }

  // ---- Steps that count ---------------------------------------------------------------------

  // Faces after one batch record was replaced; the rest shrinks.
  ghost predicate Replaces(faces: set<Face>, faces': set<Face>, f: Face, b: Batch)
  {
    f in faces && f.batch.Some? && faces' <= faces - {f} + {Rebatched(f, b)}
  }

  lemma SetBatchViews(queue: seq<Job>, pos: nat, b: Batch)
    requires pos < |queue| && UniqueIds(queue) && queue[pos].batch.Some?
    ensures Replaces(Faces(queue), Faces(SetBatch(queue, pos, b)), FaceOf(queue[pos]), b)
    ensures Out(SetBatch(queue, pos, b)) <= Out(queue)
  {
    var queue' := SetBatch(queue, pos, b);
    UpdateMembers(queue, pos, queue'[pos]);
    assert queue[pos] in queue;
    forall j' | j' in queue'
      ensures FaceOf(j') in Faces(queue) - {FaceOf(queue[pos])} + {Rebatched(FaceOf(queue[pos]), b)}
    {
    }
  }

  // A batch record and its log entry change together.
  lemma ReplaceKeeps(faces: set<Face>, faces': set<Face>, f: Face, b: Batch, log: seq<Action>, log': seq<Action>,
                     used: set<nat>)
    requires BatchInv(faces, log, used) && Replaces(faces, faces', f, b)
    requires Fits(f.id, b, log', used) && LogUsed(log', used)
    requires forall id :: id != f.id ==> SameBook(log, log', id)
    requires forall g :: g in faces' && g.parent == Some(f.id) ==> Owed(f.id, b, g.id, log')
    ensures BatchInv(faces', log', used)
  {
    forall g | g in faces' && g.batch.Some? ensures Fits(g.id, g.batch.value, log', used) {
      if g.id != f.id { SameBookFits(g.id, g.batch.value, log, log', used, used); }
    }
    forall g, h | g in faces' && h in faces' && g.batch.Some? && h.parent == Some(g.id)
      ensures Owed(g.id, g.batch.value, h.id, log')
    {
      if g.id != f.id {
        var h' := if h == Rebatched(f, b) then f else h;
        assert h' in faces && h'.id == h.id && h'.parent == h.parent;
        assert Owed(g.id, g.batch.value, h.id, log);
        assert SameBook(log, log', g.id);
      }
    }
  }

  // The end of a child: its batch counts it, and it leaves.
  lemma CountKeeps(faces: set<Face>, faces': set<Face>, f: Face, b: Batch, child: Face, log: seq<Action>,
                   used: set<nat>)
    requires BatchInv(faces, log, used) && Replaces(faces, faces', f, b) && OneMore(f.batch.value, b)
    requires child in faces && child.parent == Some(f.id) && forall g :: g in faces' ==> g.id != child.id
    ensures BatchInv(faces', log + [ChildDone(f.id, child.id)], used)
  {
    var a := ChildDone(f.id, child.id);
    FitsCounted(f.id, f.batch.value, b, child.id, log, used);
    forall id | id != f.id ensures SameBook(log, log + [a], id) { SameBookAppend(log, a, id); }
    forall g | g in faces' && g.parent == Some(f.id) ensures Owed(f.id, b, g.id, log + [a]) {
      var g' := if g == Rebatched(f, b) then f else g;
      assert g' in faces && Owed(f.id, f.batch.value, g'.id, log);
    }
    ReplaceKeeps(faces, faces', f, b, log, log + [a], used);
  }

  // What telling a batch does: nothing, or it counts the child.
  ghost predicate Tells(s: State, t: State, child: Job)
  {
    || (Faces(t.queue) <= Faces(s.queue) && t.log == s.log)
    || (exists f, b :: Replaces(Faces(s.queue), Faces(t.queue), f, b) && OneMore(f.batch.value, b)
                       && child.batchParent == Some(f.id) && t.log == s.log + [ChildDone(f.id, child.id)])
  }

  lemma NotifyTells(s: State, child: Job, stage: Stage)
    requires UniqueIds(s.queue)
    ensures var t := NotifyBatch(s, child, stage);
            Tells(s, t, child) && Out(t.queue) <= Out(s.queue) && t.sinceBatch == s.sinceBatch && t.used == s.used
  {
    if child.batchParent.Some? {
      var found := Position(s.queue, child.batchParent.value);
      if found.Some? && s.queue[found.value].batch.Some? && IsTerminal(stage) {
        var b := s.queue[found.value].batch.value;
        var b' := if stage == Uploaded then b.(finished := b.finished + 1) else b.(failed := b.failed + 1);
        SetBatchViews(s.queue, found.value, b');
        assert OneMore(b, b');
      }
    }
  }

  lemma TellsUnhurried(s: State, t: State, child: Job)
    requires Tells(s, t, child)
    ensures Unhurried(s.log, t.log)
  {
    NoDispatch(s.log, t.log);
  }

  // After a child is told of and taken out, the batches fit again.
  lemma ToldKeeps(s: State, t: State, child: Job, faces: set<Face>)
    requires BatchesFit(s) && Tells(s, t, child) && FaceOf(child) in Faces(s.queue)
    requires faces <= Faces(t.queue) && forall g :: g in faces ==> g.id != child.id
    ensures BatchInv(faces, t.log, s.used)
  {
    if Faces(t.queue) <= Faces(s.queue) && t.log == s.log {
      PlainKeeps(Faces(s.queue), s.log, s.used, faces, t.log, s.used);
    } else {
      var f, b :| Replaces(Faces(s.queue), Faces(t.queue), f, b) && OneMore(f.batch.value, b)
                  && child.batchParent == Some(f.id) && t.log == s.log + [ChildDone(f.id, child.id)];
      CountKeeps(Faces(s.queue), faces, f, b, FaceOf(child), s.log, s.used);
    }
  }

  lemma GoneFaces(queue: seq<Job>, id: nat)
    ensures forall g :: g in Faces(Without(queue, id)) ==> g.id != id
    ensures Faces(Without(queue, id)) <= Faces(queue) && Out(Without(queue, id)) <= Out(queue)
  {
    FilterMembers(queue, (j: Job) => j.id != id);
    FilterViews(queue, (j: Job) => j.id != id);
  }

  // ---- Reports and stalls -------------------------------------------------------------------

  lemma MarkedPlain(s: State, pos: nat, stage: Option<Stage>)
    requires UniqueIds(s.queue) && pos < |s.queue|
    ensures Plain(s, Marked(s, pos, stage)) && UniqueIds(Marked(s, pos, stage).queue)
    ensures FaceOf(ReportedJob(s.queue[pos], stage)) in Faces(Marked(s, pos, stage).queue)
  {
    var job := ReportedJob(s.queue[pos], stage);
    UpdateViews(s.queue, pos, job);
    UpdateMembers(s.queue, pos, job);
    assert job in Marked(s, pos, stage).queue;
  }

  lemma ReportOut(s: State, pos: nat, stage: Option<Stage>)
    requires UniqueIds(s.queue) && pos < |s.queue|
    ensures var t := ReportStep(s, pos, stage);
            && Out(t.queue) <= Out(s.queue) && t.sinceBatch == s.sinceBatch && t.used == s.used
            && Unhurried(s.log, t.log)
  {
    NotedOut(s, pos, stage);
    TailViews(Noted(s, pos, stage).queue, ReportedJob(s.queue[pos], stage), stage);
    ReportIsTail(s, pos, stage);
  }

  lemma NotedOut(s: State, pos: nat, stage: Option<Stage>)
    requires UniqueIds(s.queue) && pos < |s.queue|
    ensures var t := Noted(s, pos, stage);
            && Out(t.queue) <= Out(s.queue) && t.sinceBatch == s.sinceBatch && t.used == s.used
            && Unhurried(s.log, t.log)
  {
    var job := ReportedJob(s.queue[pos], stage);
    var s1 := Marked(s, pos, stage);
    MarkedPlain(s, pos, stage);
    NoDispatch(s.log, s1.log);
    if stage.Some? {
      NotifyTells(s1, job, stage.value);
      TellsUnhurried(s1, NotifyBatch(s1, job, stage.value), job);
    }
  }

  lemma FinishedFaces(queue: seq<Job>, job: Job, stage: Option<Stage>)
    requires Finished(job.ready)
    ensures forall g :: g in Faces(ReportTail(queue, job, stage)) ==> g.id != job.id
  {
    GoneFaces(DropProbe(SyncJobs(queue, job.id, stage, job.worker), job.probeJob), job.id);
  }

  lemma FinishedReportCounts(s: State, pos: nat, stage: Stage)
    requires UniqueIds(s.queue) && pos < |s.queue| && Finished(stage) && BatchesFit(s)
    ensures BatchesFit(ReportStep(s, pos, Some(stage)))
  {
    var job := ReportedJob(s.queue[pos], Some(stage));
    var s1 := Marked(s, pos, Some(stage));
    MarkedPlain(s, pos, Some(stage));
    PlainKeeps(Faces(s.queue), s.log, s.used, Faces(s1.queue), s1.log, s1.used);
    NotifyTells(s1, job, stage);
    var s2 := NotifyBatch(s1, job, stage);
    var rest := ReportTail(s2.queue, job, Some(stage));
    TailViews(s2.queue, job, Some(stage));
    FinishedFaces(s2.queue, job, Some(stage));
    ToldKeeps(s1, s2, job, Faces(rest));
    assert ReportStep(s, pos, Some(stage)) == s2.(queue := rest);
  }

  lemma OtherReportCounts(s: State, pos: nat, stage: Option<Stage>)
    requires UniqueIds(s.queue) && pos < |s.queue| && BatchesFit(s)
    requires stage.Some? ==> !IsTerminal(stage.value)
    ensures BatchesFit(ReportStep(s, pos, stage))
  {
    var job := ReportedJob(s.queue[pos], stage);
    var s1 := Marked(s, pos, stage);
    MarkedPlain(s, pos, stage);
    TailViews(s1.queue, job, stage);
    var t := s1.(queue := ReportTail(s1.queue, job, stage));
    assert stage.Some? ==> NotifyBatch(s1, job, stage.value) == s1;
    assert ReportStep(s, pos, stage) == t;
    PlainKeeps(Faces(s.queue), s.log, s.used, Faces(t.queue), t.log, t.used);
  }

  // The states of FailOne.
  function Emptied(s: State, pos: nat): State
    requires pos < |s.queue|
  {
    var job := FailedJob(s.queue[pos]);
    s.(queue := SyncJobs(s.queue[pos := job], job.id, Some(Failed), ForwardedWorker(job.worker)))
  }

  function FailedJob(j: Job): Job
  {
    j.(ready := Failed, dispatched := false, order := None)
  }

  lemma EmptiedViews(s: State, pos: nat)
    requires UniqueIds(s.queue) && pos < |s.queue|
    ensures Plain(s, Emptied(s, pos)) && UniqueIds(Emptied(s, pos).queue)
  {
    var job := FailedJob(s.queue[pos]);
    UpdateViews(s.queue, pos, job);
    UpdateMembers(s.queue, pos, job);
    SyncJobsViews(s.queue[pos := job], job.id, Some(Failed), ForwardedWorker(job.worker));
    FilterMembers(s.queue[pos := job], (j: Job) => j.forwardParent != Some(job.id));
  }

  lemma FailOneCounts(s: State, id: nat)
    requires UniqueIds(s.queue)
    ensures var t := FailOne(s, id);
            && Out(t.queue) <= Out(s.queue) && t.sinceBatch == s.sinceBatch && t.used == s.used
            && Unhurried(s.log, t.log)
            && (BatchesFit(s) ==> BatchesFit(t))
  {
    NoDispatch(s.log, s.log);
    var found := Position(s.queue, id);
    if found.Some? {
      var job := FailedJob(s.queue[found.value]);
      var s1 := Emptied(s, found.value);
      EmptiedViews(s, found.value);
      NotifyTells(s1, job, Failed);
      TellsUnhurried(s1, NotifyBatch(s1, job, Failed), job);
      var s2 := if Position(s1.queue, id).None? then s1 else NotifyBatch(s1, job, Failed);
      GoneFaces(s2.queue, id);
      assert FailOne(s, id) == s2.(queue := Without(s2.queue, id));
      assert s.queue[found.value] in s.queue;
      if BatchesFit(s) {
        FailedCounts(s, s1, s2, job, Faces(Without(s2.queue, id)));
      }
    }
  }

  lemma FailedCounts(s: State, s1: State, s2: State, job: Job, faces: set<Face>)
    requires BatchesFit(s) && FaceOf(job) in Faces(s.queue)
    requires Faces(s1.queue) <= Faces(s.queue) && s1.log == s.log && s1.used == s.used
    requires s2 == s1 || Tells(s1, s2, job)
    requires faces <= Faces(s2.queue) && forall g :: g in faces ==> g.id != job.id
    ensures BatchInv(faces, s2.log, s.used)
  {
    if s2 == s1 || (Faces(s2.queue) <= Faces(s1.queue) && s2.log == s1.log) {
      PlainKeeps(Faces(s.queue), s.log, s.used, faces, s2.log, s.used);
    } else {
      var f, b :| Replaces(Faces(s1.queue), Faces(s2.queue), f, b) && OneMore(f.batch.value, b)
                  && job.batchParent == Some(f.id) && s2.log == s1.log + [ChildDone(f.id, job.id)];
      CountKeeps(Faces(s.queue), faces, f, b, FaceOf(job), s.log, s.used);
    }
  }

  lemma {:induction false} FailAllOut(s: State, ids: seq<nat>)
    requires UniqueIds(s.queue)
    ensures var t := FailAll(s, ids);
            && Out(t.queue) <= Out(s.queue) && t.sinceBatch == s.sinceBatch && t.used == s.used
            && Unhurried(s.log, t.log)
  {
    NoDispatch(s.log, s.log);
    if ids != [] {
      var before := FailAll(s, ids[..|ids| - 1]);
      FailAllOut(s, ids[..|ids| - 1]);
      FailAllMoves(s, ids[..|ids| - 1]);
      FailOneCounts(before, ids[|ids| - 1]);
    }
  }

  lemma {:induction false} FailAllCounts(s: State, ids: seq<nat>)
    requires UniqueIds(s.queue) && BatchesFit(s)
    ensures BatchesFit(FailAll(s, ids))
  {
    if ids != [] {
      var before := FailAll(s, ids[..|ids| - 1]);
      FailAllCounts(s, ids[..|ids| - 1]);
      FailAllMoves(s, ids[..|ids| - 1]);
      FailOneCounts(before, ids[|ids| - 1]);
    }
  }

  // ---- Handing files to children ------------------------------------------------------------

  // A new face joins.
  lemma AddFace(faces: set<Face>, g: Face, log: seq<Action>, used: set<nat>)
    requires BatchInv(faces, log, used) && g.id in used && (g.parent.Some? ==> g.parent.value in used)
    requires forall f :: f in faces ==> f.id != g.id && f.parent != Some(g.id)
    requires g.parent != Some(g.id)
    requires g.batch.Some? ==> Fits(g.id, g.batch.value, log, used)
    requires forall f :: f in faces && f.batch.Some? && g.parent == Some(f.id) ==> Owed(f.id, f.batch.value, g.id, log)
    ensures BatchInv(faces + {g}, log, used)
  {
  }

  lemma MissCounts(faces: set<Face>, faces': set<Face>, f: Face, log: seq<Action>, used: set<nat>)
    requires BatchInv(faces, log, used) && f in faces && f.batch.Some?
    requires Replaces(faces, faces', f, f.batch.value.(failed := f.batch.value.failed + 1))
    ensures BatchInv(faces', log + [Missed(f.id)], used)
  {
    var b, a := f.batch.value, Missed(f.id);
    FitsMissed(f.id, b, log, used);
    forall id | id != f.id ensures SameBook(log, log + [a], id) { SameBookAppend(log, a, id); }
    forall g | g in faces' && g.parent == Some(f.id) ensures Owed(f.id, b.(failed := b.failed + 1), g.id, log + [a]) {
      var g' := if g == Rebatched(f, b.(failed := b.failed + 1)) then f else g;
      assert g' in faces && Owed(f.id, b, g'.id, log);
    }
    ReplaceKeeps(faces, faces', f, b.(failed := b.failed + 1), log, log + [a], used);
  }

  lemma ChildCounts(faces: set<Face>, faces': set<Face>, f: Face, at: nat, child: nat, log: seq<Action>, used: set<nat>)
    requires BatchInv(faces, log, used) && f in faces && f.batch.Some? && child !in used
    requires var b := f.batch.value; at < |b.entries| && b.entries[at].jobId.None? && !b.downloadSettled
    requires var b := f.batch.value;
             Replaces(faces, faces', f, b.(entries := b.entries[at := b.entries[at].(jobId := Some(child))]))
    ensures BatchInv(faces' + {Face(child, Some(f.id), None)}, log, used + {child})
  {
    var b := f.batch.value;
    var entries := b.entries[at := b.entries[at].(jobId := Some(child))];
    var b' := b.(entries := entries);
    FitsSpawned(f.id, b, at, child, log, used);
    PlainKeeps(faces, log, used, faces, log, used + {child});
    forall g | g in faces' && g.parent == Some(f.id) ensures Owed(f.id, b', g.id, log) {
      var g' := if g == Rebatched(f, b') then f else g;
      assert g' in faces && Owed(f.id, b, g'.id, log);
      var i :| 0 <= i < |b.entries| && b.entries[i].jobId == Some(g'.id);
      assert entries[i] == b.entries[i];
    }
    forall id | id != f.id ensures SameBook(log, log, id) {
    }
    ReplaceKeeps(faces, faces', f, b', log, log, used + {child});
    assert entries[at].jobId == Some(child);
    assert ChildDone(f.id, child) !in log;
    AddFace(faces', Face(child, Some(f.id), None), log, used + {child});
  }

  lemma SpawnCounts(s: State, pos: nat, fileIndex: nat, h: HandOff)
    requires UniqueIds(s.queue) && pos < |s.queue| && (h.Child? ==> h.id !in s.used)
    requires s.queue[pos].batch.Some? ==> !s.queue[pos].batch.value.downloadSettled
    requires BatchesFit(s)
    ensures BatchesFit(SpawnBatchChild(s, pos, fileIndex, h))
  {
    var parent := s.queue[pos];
    var t := SpawnBatchChild(s, pos, fileIndex, h);
    assert parent in s.queue;
    if t != s {
      var b := parent.batch.value;
      var at := EntryFor(b.entries, fileIndex).value;
      if h.NoChild? {
        SetBatchViews(s.queue, pos, b.(failed := b.failed + 1));
        MissCounts(Faces(s.queue), Faces(t.queue), FaceOf(parent), s.log, s.used);
      } else {
        var b' := b.(entries := b.entries[at := b.entries[at].(jobId := Some(h.id))]);
        SetBatchViews(s.queue, pos, b');
        ChildCounts(Faces(s.queue), Faces(SetBatch(s.queue, pos, b')), FaceOf(parent), at, h.id, s.log, s.used);
        SpawnedFaces(SetBatch(s.queue, pos, b'), parent, h);
      }
    }
  }

  lemma SpawnedFaces(queue: seq<Job>, parent: Job, h: HandOff)
    requires h.Child?
    ensures Faces(queue + [BatchChild(parent, h)]) == Faces(queue) + {Face(h.id, Some(parent.id), None)}
    ensures Out(queue + [BatchChild(parent, h)]) == Out(queue)
  {
    var child := BatchChild(parent, h);
    var more := queue + [child];
    assert child in more && FaceOf(child) == Face(h.id, Some(parent.id), None);
    assert forall j :: j in more <==> j in queue || j == child;
  }

  lemma SpawnOut(s: State, pos: nat, fileIndex: nat, h: HandOff)
    requires UniqueIds(s.queue) && pos < |s.queue|
    ensures var t := SpawnBatchChild(s, pos, fileIndex, h);
            Out(t.queue) <= Out(s.queue) && t.sinceBatch == s.sinceBatch && Unhurried(s.log, t.log)
  {
    var parent := s.queue[pos];
    var t := SpawnBatchChild(s, pos, fileIndex, h);
    NoDispatch(s.log, t.log);
    if t != s {
      var b := t.queue[pos].batch.value;
      SetBatchViews(s.queue, pos, b);
      if h.Child? { SpawnedFaces(SetBatch(s.queue, pos, b), parent, h); }
    }
  }

  // ---- Submission ---------------------------------------------------------------------------

  lemma EnteringFace(queue: seq<Job>, job: Job, setup: Setup)
    requires FreshJob(job) && Entering(queue, job, setup).Some?
    ensures var j := Entering(queue, job, setup).value; FaceOf(j) == FaceOf(job) && j.kind == job.kind
  {
  }

  lemma {:induction false} NoMissYet(log: seq<Action>, id: nat)
    requires Missed(id) !in log
    ensures Misses(log, id) == 0
  {
    if log != [] {
      assert log[|log| - 1] in log && forall a :: a in log[..|log| - 1] ==> a in log;
      NoMissYet(log[..|log| - 1], id);
    }
  }

  lemma FreshFits(job: Job, log: seq<Action>, used: set<nat>)
    requires FreshJob(job) && job.batch.Some? && job.id !in used && LogUsed(log, used)
    ensures Fits(job.id, job.batch.value, log, used + {job.id})
  {
    NoMissYet(log, job.id);
    assert Counted(log, job.id, job.batch.value) == {};
  }

  lemma SubmitViews(s: State, job: Job, setup: Setup)
    requires FreshJob(job)
    ensures var t := Submit(s, job, setup);
            && (Faces(t.queue) == Faces(s.queue) || Faces(t.queue) == Faces(s.queue) + {FaceOf(job)})
            && Out(t.queue) == Out(s.queue) && PlainLog(s.log, t.log) && t.sinceBatch == s.sinceBatch
  {
    var entering := Entering(s.queue, job, setup);
    if entering.Some? {
      EnteringFace(s.queue, job, setup);
      var j := entering.value;
      var more := s.queue + [j];
      assert j in more && forall k :: k in more <==> k in s.queue || k == j;
    }
  }

  lemma SubmitCounts(s: State, job: Job, setup: Setup)
    requires FreshJob(job) && job.id !in s.used && BatchesFit(s)
    ensures BatchesFit(Submit(s, job, setup))
  {
    var t := Submit(s, job, setup);
    SubmitViews(s, job, setup);
    PlainKeeps(Faces(s.queue), s.log, s.used, Faces(s.queue), t.log, s.used);
    if job.batch.Some? { FreshFits(job, t.log, s.used); }
    PlainKeeps(Faces(s.queue), t.log, s.used, Faces(s.queue), t.log, t.used);
    AddFace(Faces(s.queue), FaceOf(job), t.log, t.used);
  }

  // ---- The end of the download and of the batch ---------------------------------------------

  lemma {:induction false} SettleLogContents(queue: seq<Job>, a: Action)
    ensures a in SettleLog(queue) <==>
              exists j :: j in queue && NeedsSettling(j) && a == Settled(j.id, OpenEntries(j.batch.value))
  {
    if queue != [] {
      var n := |queue| - 1;
      SettleLogContents(queue[..n], a);
      assert forall j :: j in queue <==> j in queue[..n] || j == queue[n];
    }
  }

  lemma {:induction false} NoMoreMisses(log: seq<Action>, more: seq<Action>, id: nat)
    requires forall k :: 0 <= k < |more| ==> !more[k].Missed?
    ensures Misses(log + more, id) == Misses(log, id)
  {
    if more == [] {
      assert log + more == log;
    } else {
      var n := |more| - 1;
      NoMoreMisses(log, more[..n], id);
      assert log + more == log + more[..n] + [more[n]];
      MissesAppend(log + more[..n], more[n], id);
    }
  }

  lemma {:induction false} SettleLogKinds(queue: seq<Job>)
    ensures forall k :: 0 <= k < |SettleLog(queue)| ==> SettleLog(queue)[k].Settled?
    ensures forall k :: 0 <= k < |DoneLog(queue)| ==> DoneLog(queue)[k].BatchDone?
  {
    if queue != [] { SettleLogKinds(queue[..|queue| - 1]); }
  }

  // The bookkeeping of one job over the settling.
  lemma SettleBook(queue: seq<Job>, log: seq<Action>, j: Job)
    requires UniqueIds(queue) && j in queue
    ensures var log' := log + SettleLog(queue);
            && (forall child :: ChildDone(j.id, child) in log' <==> ChildDone(j.id, child) in log)
            && Misses(log', j.id) == Misses(log, j.id)
            && forall entries :: Settled(j.id, entries) in log' <==>
                 Settled(j.id, entries) in log || (NeedsSettling(j) && entries == OpenEntries(j.batch.value))
  {
    SettleLogKinds(queue);
    NoMoreMisses(log, SettleLog(queue), j.id);
    forall entries
      ensures Settled(j.id, entries) in SettleLog(queue) <==> NeedsSettling(j) && entries == OpenEntries(j.batch.value)
    {
      SettleLogContents(queue, Settled(j.id, entries));
      assert forall k :: k in queue && k.id == j.id ==> k == j;
    }
    assert forall child :: ChildDone(j.id, child) !in SettleLog(queue);
  }

  lemma SettledFits(queue: seq<Job>, log: seq<Action>, used: set<nat>, j: Job)
    requires UniqueIds(queue) && BatchInv(Faces(queue), log, used) && j in queue && j.batch.Some?
    ensures Fits(j.id, SettleJob(j).batch.value, log + SettleLog(queue), used)
  {
    assert FaceOf(j) in Faces(queue);
    SettleBook(queue, log, j);
    if NeedsSettling(j) {
      FitsSettled(j.id, j.batch.value, log, log + SettleLog(queue), used);
    } else {
      SameBookFits(j.id, j.batch.value, log, log + SettleLog(queue), used, used);
    }
  }

  lemma SettledOwed(queue: seq<Job>, log: seq<Action>, used: set<nat>, j: Job, k: Job)
    requires UniqueIds(queue) && BatchInv(Faces(queue), log, used) && j in queue && k in queue
    requires j.batch.Some? && k.batchParent == Some(j.id)
    ensures Owed(j.id, SettleJob(j).batch.value, k.id, log + SettleLog(queue))
  {
    assert FaceOf(j) in Faces(queue) && FaceOf(k) in Faces(queue);
    SettleBook(queue, log, j);
  }

  ghost predicate SettledFace(queue: seq<Job>, f: Face, j: Job)
  {
    j in queue && f == FaceOf(SettleJob(j))
  }

  lemma SettledFaces(queue: seq<Job>)
    ensures forall f :: f in Faces(Map(queue, SettleJob)) ==> exists j :: SettledFace(queue, f, j)
  {
    var settled := Map(queue, SettleJob);
    MapMembers(queue, SettleJob);
    forall f | f in Faces(settled) ensures exists j :: SettledFace(queue, f, j) {
      var j' :| j' in settled && f == FaceOf(j');
      var j :| j in queue && SettleJob(j) == j';
      assert SettledFace(queue, f, j);
    }
  }

  lemma SettledIds(queue: seq<Job>, log: seq<Action>, used: set<nat>)
    requires UniqueIds(queue) && BatchInv(Faces(queue), log, used)
    ensures forall f :: f in Faces(Map(queue, SettleJob)) ==>
                f.id in used && (f.parent.Some? ==> f.parent.value in used)
    ensures forall f, g :: f in Faces(Map(queue, SettleJob)) && g in Faces(Map(queue, SettleJob)) && f.id == g.id ==>
                f == g
  {
    var faces := Faces(Map(queue, SettleJob));
    SettledFaces(queue);
    forall f | f in faces ensures f.id in used && (f.parent.Some? ==> f.parent.value in used) {
      var j :| SettledFace(queue, f, j);
      assert FaceOf(j) in Faces(queue);
    }
    forall f, g | f in faces && g in faces && f.id == g.id ensures f == g {
      var j :| SettledFace(queue, f, j);
      var k :| SettledFace(queue, g, k);
      SameIdSameJob(queue, j, k);
    }
  }

  lemma SettledBatches(queue: seq<Job>, log: seq<Action>, used: set<nat>)
    requires UniqueIds(queue) && BatchInv(Faces(queue), log, used)
    ensures forall f :: f in Faces(Map(queue, SettleJob)) && f.batch.Some? ==>
                Fits(f.id, f.batch.value, log + SettleLog(queue), used)
    ensures OwedAll(Faces(Map(queue, SettleJob)), log + SettleLog(queue))
  {
    var faces, log' := Faces(Map(queue, SettleJob)), log + SettleLog(queue);
    SettledFaces(queue);
    forall f | f in faces && f.batch.Some? ensures Fits(f.id, f.batch.value, log', used) {
      var j :| SettledFace(queue, f, j);
      SettledFits(queue, log, used, j);
    }
    forall f, g | f in faces && g in faces && f.batch.Some? && g.parent == Some(f.id)
      ensures Owed(f.id, f.batch.value, g.id, log')
    {
      var j :| SettledFace(queue, f, j);
      var k :| SettledFace(queue, g, k);
      SettledOwed(queue, log, used, j, k);
    }
  }

  lemma SettleCounts(queue: seq<Job>, log: seq<Action>, used: set<nat>)
    requires UniqueIds(queue) && BatchInv(Faces(queue), log, used)
    ensures BatchInv(Faces(Map(queue, SettleJob)), log + SettleLog(queue), used)
  {
    SettledIds(queue, log, used);
    SettledBatches(queue, log, used);
    forall j | j in queue ensures j.id in used { assert FaceOf(j) in Faces(queue); }
    SettledUsed(queue, log, used);
  }

  lemma SettledUsed(queue: seq<Job>, log: seq<Action>, used: set<nat>)
    requires LogUsed(log, used) && forall j :: j in queue ==> j.id in used
    ensures LogUsed(log + SettleLog(queue), used)
  {
    forall a | a in SettleLog(queue) ensures a.Settled? && a.batchId in used {
      SettleLogContents(queue, a);
    }
  }

  lemma FinishCounts(s: State)
    requires UniqueIds(s.queue) && BatchesFit(s)
    ensures BatchesFit(FinishBatches(s))
  {
    var settled := Map(s.queue, SettleJob);
    SettleCounts(s.queue, s.log, s.used);
    FilterViews(settled, (j: Job) => !BatchFinished(j));
    SettleLogKinds(settled);
    var log' := s.log + SettleLog(s.queue);
    PlainKeeps(Faces(settled), log', s.used, Faces(FinishBatches(s).queue), log' + DoneLog(settled), s.used);
  }

  lemma FinishOut(s: State)
    requires UniqueIds(s.queue)
    ensures var t := FinishBatches(s);
            Out(t.queue) <= Out(s.queue) && t.sinceBatch == s.sinceBatch && Unhurried(s.log, t.log)
  {
    var settled := Map(s.queue, SettleJob);
    MapMembers(s.queue, SettleJob);
    FilterViews(settled, (j: Job) => !BatchFinished(j));
    SettleLogKinds(s.queue);
    SettleLogKinds(settled);
    NoDispatch(s.log, FinishBatches(s).log);
  }

  // ---- The progression pass -----------------------------------------------------------------

  lemma UncountedMore(log: seq<Action>, more: seq<Action>)
    requires |more| <= 2 && forall k :: 0 <= k < |more| ==> Uncounted(more[k])
    ensures UncountedLog(log, log + more)
  {
  }

  // What a job's turn adds to the log.
  function TurnLog(j: Job, j': Job, p: Pass, p': Pass): seq<Action>
  {
    if p'.nextOrder == p.nextOrder
        then (if j'.forwardParent == j.forwardParent then [] else [Linked(j.id, j'.forwardParent.GetOr(0))])
    else if j.kind == Keycode && j.ready == Queued then [Sent(j.id, p'.reboots)]
    else [Sent(j.id, p'.reboots), Dispatched(j.id, j.batchParent.Some?, p.othersWaiting)]
  }

  lemma EncodeAdds(j: Job, c: Circumstance, p: Pass)
    requires j.forwardParent.None? && j.ready == Downloaded
    ensures var (j', p') := AdvanceEncode(j, c, p); p'.log == p.log + TurnLog(j, j', p, p')
  {
  }

  lemma KeycodeAdds(j: Job, c: Circumstance, p: Pass)
    requires j.kind == Keycode && j.ready == Queued
    ensures var (j', p') := DispatchKeycode(j, c, p); p'.log == p.log + TurnLog(j, j', p, p')
  {
  }

  lemma OtherAdds(j: Job, c: Circumstance, p: Pass)
    requires !WantsEncoder(j) && !WantsKeywords(j)
    ensures var (j', p') := Advance(j, c, p); p'.log == p.log + TurnLog(j, j', p, p')
  {
  }

  lemma AdvanceAdds(j: Job, c: Circumstance, p: Pass)
    ensures var (j', p') := Advance(j, c, p); p'.log == p.log + TurnLog(j, j', p, p')
  {
    if WantsEncoder(j) {
      EncodeAdds(j, c, p);
      AdvanceEncodes(j, c, p);
    } else if WantsKeywords(j) {
      KeycodeAdds(j, c, p);
      AdvanceKeycode(j, c, p);
    } else {
      OtherAdds(j, c, p);
    }
  }

  lemma AdvanceUncounted(j: Job, c: Circumstance, p: Pass)
    ensures UncountedLog(p.log, Advance(j, c, p).1.log)
  {
    var (j', p') := Advance(j, c, p);
    AdvanceAdds(j, c, p);
    UncountedMore(p.log, TurnLog(j, j', p, p'));
  }

  lemma UncountedTrans(a: seq<Action>, b: seq<Action>, c: seq<Action>)
    requires UncountedLog(a, b) && UncountedLog(b, c)
    ensures UncountedLog(a, c)
  {
    assert c[..|a|] == c[..|b|][..|a|];
    forall k | |a| <= k < |c| ensures Uncounted(c[k]) {
      if k < |b| { assert c[..|b|][k] == c[k]; }
    }
  }

  ghost predicate PassCount(faces: set<Face>, log: seq<Action>, queue: seq<Job>, p: Pass)
  {
    UniqueIds(queue) && KidKinds(queue) && Faces(queue) <= faces && UncountedLog(log, p.log)
  }

  lemma PassCountStep(faces: set<Face>, log: seq<Action>, queue: seq<Job>, i: nat, c: Circumstance, p: Pass)
    requires PassCount(faces, log, queue, p) && i < |queue|
    ensures var (j, p') := Advance(queue[i], c, p); PassCount(faces, log, queue[i := j], p')
  {
    var (j, p') := Advance(queue[i], c, p);
    assert queue[i] in queue && FaceOf(queue[i]) in Faces(queue);
    AdvanceUncounted(queue[i], c, p);
    AdvanceTurn(queue[i], c, p);
    UncountedTrans(log, p.log, p'.log);
    AdvanceLinks(queue[i], c, p);
    UpdateMembers(queue, i, j);
  }

  lemma PassCountKept(faces: set<Face>, log: seq<Action>)
    ensures KeptByPass((queue: seq<Job>, i: nat, p: Pass) => PassCount(faces, log, queue, p))
  {
    forall queue: seq<Job>, i: nat, c: Circumstance, p: Pass | i < |queue| && PassCount(faces, log, queue, p)
      ensures PassCount(faces, log, queue[i := Advance(queue[i], c, p).0], Advance(queue[i], c, p).1)
    {
      PassCountStep(faces, log, queue, i, c, p);
    }
  }

  lemma WholePassCount(faces: set<Face>, log: seq<Action>, queue: seq<Job>, cs: seq<Circumstance>, p: Pass)
    requires |cs| == |queue| && PassCount(faces, log, queue, p)
    ensures var (queue', p') := AdvanceFrom(queue, cs, 0, p); PassCount(faces, log, queue', p')
  {
    var holds := (q: seq<Job>, i: nat, r: Pass) => PassCount(faces, log, q, r);
    PassCountKept(faces, log);
    PassInduction(holds, queue, cs, 0, p);
    var (queue', p') := AdvanceFrom(queue, cs, 0, p);
    assert holds(queue', |queue|, p');
  }

  lemma ProgressCounts(s: State, cs: seq<Circumstance>)
    requires UniqueIds(s.queue) && KidKinds(s.queue) && |cs| == |s.queue| && BatchesFit(s)
    ensures BatchesFit(Progress(s, cs))
  {
    WholePassCount(Faces(s.queue), s.log, s.queue, cs, StartPass(s));
    var (queue, p) := AdvanceFrom(s.queue, cs, 0, StartPass(s));
    UploadsViews(queue, p.uploads);
    FilterViews(SyncUploads(queue, p.uploads), (j: Job) => j.id !in p.dead);
    PlainKeeps(Faces(s.queue), s.log, s.used, Faces(Progress(s, cs).queue), p.log, s.used);
  }

  // ---- Runs ---------------------------------------------------------------------------------

  // What a step keeps of the turns.
  ghost predicate KeepsTurns(s: State, t: State)
  {
    Out(t.queue) <= Out(s.queue) && t.sinceBatch == s.sinceBatch && Unhurried(s.log, t.log)
  }

  lemma PlainTurns(s: State, e: Event)
    requires Possible(s, e) && IsPlain(e)
    ensures KeepsTurns(s, Step(s, e))
  {
    PlainStep(s, e);
    NoDispatch(s.log, Step(s, e).log);
  }

  lemma ReportTurns(s: State, id: nat, stage: Option<Stage>)
    requires UniqueIds(s.queue)
    ensures KeepsTurns(s, Receive(s, id, Report(stage)))
  {
    NoDispatch(s.log, s.log);
    if Position(s.queue, id).Some? { ReportOut(s, Position(s.queue, id).value, stage); }
  }

  lemma StallTurns(s: State, ids: seq<nat>)
    requires UniqueIds(s.queue)
    ensures KeepsTurns(s, FailStalled(s, ids))
  {
    NoDispatch(s.log, s.log);
    FailAllOut(s.(reboots := s.reboots + 1), ids);
  }

  lemma RoutineTurns(s: State, e: Event)
    requires TurnInv(s) && UniqueIds(s.queue) && Possible(s, e) && Routine(e)
    ensures TurnInv(Step(s, e))
  {
    RoutineMoves(s, e);
    if IsPlain(e) {
      PlainTurns(s, e);
    } else {
      match e
      case Received(id, message) => ReportTurns(s, id, message.stage);
      case StallFound(ids) => StallTurns(s, ids);
      case BatchesChecked => FinishOut(s);
    }
    TurnsKept(s, Step(s, e));
  }

  lemma SubmitKids(s: State, job: Job, setup: Setup)
    requires FreshJob(job) && KidKinds(s.queue)
    ensures KidKinds(Submit(s, job, setup).queue)
  {
    if Entering(s.queue, job, setup).Some? { EnteringFace(s.queue, job, setup); }
  }

  lemma SubmitTurns(s: State, job: Job, setup: Setup)
    requires TurnInv(s) && FreshJob(job)
    ensures TurnInv(Submit(s, job, setup))
  {
    SubmitViews(s, job, setup);
    SubmitKids(s, job, setup);
    NoDispatch(s.log, Submit(s, job, setup).log);
  }

  lemma FileTurns(s: State, id: nat, fileIndex: nat, h: HandOff)
    requires TurnInv(s) && UniqueIds(s.queue)
    ensures TurnInv(Receive(s, id, FileDone(fileIndex, h)))
  {
    var found := Position(s.queue, id);
    if found.Some? {
      SpawnOut(s, found.value, fileIndex, h);
      SpawnKids(s, found.value, fileIndex, h);
    }
  }

  lemma ArrivalTurns(s: State, e: Event)
    requires TurnInv(s) && LinkInv(s) && Possible(s, e) && !Routine(e) && !e.Progressed? && !e.KeysGrown?
    ensures TurnInv(Step(s, e))
  {
    match e
    case Submitted(job, setup) => SubmitTurns(s, job, setup);
    case Received(id, message) => FileTurns(s, id, message.fileIndex, message.handOff);
  }

  lemma SpawnKids(s: State, pos: nat, fileIndex: nat, h: HandOff)
    requires UniqueIds(s.queue) && KidKinds(s.queue) && pos < |s.queue|
    ensures KidKinds(SpawnBatchChild(s, pos, fileIndex, h).queue)
  {
    var parent := s.queue[pos];
    var t := SpawnBatchChild(s, pos, fileIndex, h);
    assert parent in s.queue;
    if t != s {
      var updated := s.queue[pos := parent.(batch := t.queue[pos].batch)];
      UpdateMembers(s.queue, pos, updated[pos]);
      if h.Child? { AppendMembers(updated, BatchChild(parent, h)); }
    }
  }

  lemma StepTurns(s: State, e: Event)
    requires TurnInv(s) && LinkInv(s) && Epochs.EpochInv(s) && Possible(s, e)
    ensures TurnInv(Step(s, e))
  {
    if Routine(e) {
      RoutineTurns(s, e);
    } else if e.Progressed? {
      ProgressTurns(s, e.circumstances);
    } else if e.KeysGrown? {
      PlainStep(s, e);
      NoDispatch(s.log, s.log);
      GrownKids(s, e.id, e.keys);
    } else {
      ArrivalTurns(s, e);
    }
  }

  lemma GrownKids(s: State, id: nat, keys: seq<nat>)
    requires UniqueIds(s.queue) && KidKinds(s.queue)
    ensures KidKinds(GrowKeys(s, id, keys).queue)
  {
    var found := Position(s.queue, id);
    if found.Some? {
      UpdateMembers(s.queue, found.value, GrowKeys(s, id, keys).queue[found.value]);
      assert s.queue[found.value] in s.queue;
    }
  }

  lemma {:induction false} RunTurns(states: seq<State>, events: seq<Event>, n: nat)
    requires IsRun(states, events) && n < |states|
    ensures TurnInv(states[n])
  {
    if n > 0 {
      RunTurns(states, events, n - 1);
      RunLinks(states, events, n - 1);
      Epochs.RunKeeps(states, events, n - 1);
      StepTurns(states[n - 1], events[n - 1]);
    }
  }

  // In every reachable state at most one batch child, across all batches, is with the encoder.
  lemma OneBatchChildInFlight(states: seq<State>, events: seq<Event>, n: nat, j: Job, k: Job)
    requires IsRun(states, events) && n < |states| && j in states[n].queue && k in states[n].queue
    requires BatchInFlight(j) && BatchInFlight(k)
    ensures j == k
  {
    RunTurns(states, events, n);
    RunLinks(states, events, n);
    assert j.id in Out(states[n].queue) && k.id in Out(states[n].queue);
    SameIdSameJob(states[n].queue, j, k);
  }

  // Every batch child ever dispatched went out with no other encode waiting when its pass
  // began, or after two ordinary encodes had gone out since the previous batch child.
  lemma BatchChildrenYield(states: seq<State>, events: seq<Event>, n: nat, k: nat)
    requires IsRun(states, events) && n < |states| && k < |states[n].log|
    requires states[n].log[k].Dispatched? && states[n].log[k].isBatchChild
    ensures !states[n].log[k].othersWaiting || SinceBatch(states[n].log[..k]) >= 2
  {
    RunTurns(states, events, n);
    assert Yields(states[n].log[..k], states[n].log[k]);
  }

  // No file is reported done after the end of its batch's download.
  ghost predicate Timely(s: State, e: Event)
  {
    match e
    case Received(id, FileDone(_, _)) =>
      forall j :: j in s.queue && j.id == id && j.batch.Some? ==> !j.batch.value.downloadSettled
    case _ => true
  }

  ghost predicate IsTimelyRun(states: seq<State>, events: seq<Event>)
  {
    IsRun(states, events) && forall k :: 0 <= k < |events| ==> Timely(states[k], events[k])
  }

  lemma ReportCounts(s: State, pos: nat, stage: Option<Stage>)
    requires UniqueIds(s.queue) && pos < |s.queue| && stage != Some(Declined) && BatchesFit(s)
    ensures BatchesFit(ReportStep(s, pos, stage))
  {
    if stage.Some? && Finished(stage.value) {
      FinishedReportCounts(s, pos, stage.value);
    } else {
      OtherReportCounts(s, pos, stage);
    }
  }

  lemma ReceiveCounts(s: State, id: nat, message: Message)
    requires LinkInv(s) && BatchesFit(s) && (message.Report? || message.FileDone?)
    requires Possible(s, Received(id, message)) && Timely(s, Received(id, message))
    ensures BatchesFit(Receive(s, id, message))
  {
    var found := Position(s.queue, id);
    if found.Some? {
      assert s.queue[found.value] in s.queue;
      if message.Report? {
        ReportCounts(s, found.value, message.stage);
      } else {
        SpawnCounts(s, found.value, message.fileIndex, message.handOff);
      }
    }
  }

  lemma StallCounts(s: State, ids: seq<nat>)
    requires UniqueIds(s.queue) && BatchesFit(s)
    ensures BatchesFit(FailStalled(s, ids))
  {
    var rebooted := s.(reboots := s.reboots + 1);
    assert BatchesFit(rebooted);
    FailAllCounts(rebooted, ids);
  }

  lemma StepCounts(s: State, e: Event)
    requires LinkInv(s) && KidKinds(s.queue) && BatchesFit(s) && Possible(s, e) && Timely(s, e)
    ensures BatchesFit(Step(s, e))
  {
    var t := Step(s, e);
    if IsPlain(e) {
      PlainStep(s, e);
      PlainKeeps(Faces(s.queue), s.log, s.used, Faces(t.queue), t.log, t.used);
    } else {
      match e
      case Submitted(job, setup) => SubmitCounts(s, job, setup);
      case Progressed(cs) => ProgressCounts(s, cs);
      case BatchesChecked => FinishCounts(s);
      case StallFound(ids) => StallCounts(s, ids);
      case Received(id, message) => ReceiveCounts(s, id, message);
    }
  }

  lemma {:induction false} RunCounts(states: seq<State>, events: seq<Event>, n: nat)
    requires IsTimelyRun(states, events) && n < |states|
    ensures BatchesFit(states[n])
  {
    if n > 0 {
      RunCounts(states, events, n - 1);
      RunLinks(states, events, n - 1);
      RunTurns(states, events, n - 1);
      StepCounts(states[n - 1], events[n - 1]);
    }
  }

  // The counters of a queued batch count its accounted entries, each once, plus one for every
  // failed hand-off; so they stay within the number of entries when hand-offs succeed.
  lemma CountersCountEntries(states: seq<State>, events: seq<Event>, n: nat, j: Job)
    requires IsTimelyRun(states, events) && n < |states| && j in states[n].queue && j.batch.Some?
    ensures var b, log := j.batch.value, states[n].log;
            && b.finished + b.failed == |Counted(log, j.id, b)| + Misses(log, j.id)
            && |Counted(log, j.id, b)| <= |b.entries|
  {
    RunCounts(states, events, n);
    assert FaceOf(j) in Faces(states[n].queue);
    CountedWithin(states[n].log, j.id, j.batch.value);
  }

  lemma CountedWithin(log: seq<Action>, id: nat, b: Batch)
    ensures |Counted(log, id, b)| <= |b.entries|
    ensures |Counted(log, id, b)| == |b.entries| ==> Counted(log, id, b) == Range(|b.entries|)
  {
    var all := Range(|b.entries|);
    SubsetSize(Counted(log, id, b), all);
    if Counted(log, id, b) != all {
      var i :| i in all && i !in Counted(log, id, b);
      SubsetSize(Counted(log, id, b), all - {i});
    }
  }

  // Complete without failed hand-offs, a batch accounts for every entry and so has no child left.
  lemma CompleteHasNoChild(faces: set<Face>, log: seq<Action>, used: set<nat>, f: Face, g: Face)
    requires BatchInv(faces, log, used) && f in faces && g in faces && f.batch.Some?
    requires Complete(f.batch.value) && Misses(log, f.id) == 0
    ensures g.parent != Some(f.id)
  {
    var b := f.batch.value;
    CountedWithin(log, f.id, b);
    if g.parent == Some(f.id) {
      assert Owed(f.id, b, g.id, log);
      var i: nat :| i < |b.entries| && b.entries[i].jobId == Some(g.id);
      assert i in Range(|b.entries|);
      OpenHasNoChild(log, f.id, b, i);
    }
  }

  lemma OpenHasNoChild(log: seq<Action>, id: nat, b: Batch, i: nat)
    requires SettledOnce(log, id, b) && i < |b.entries| && i in Counted(log, id, b) && b.entries[i].jobId.Some?
    ensures ChildDone(id, b.entries[i].jobId.value) in log
  {
    assert i !in OpenEntries(b);
  }

  lemma {:induction false} DoneLogContents(queue: seq<Job>, a: Action)
    ensures a in DoneLog(queue) <==> exists j :: j in queue && BatchFinished(j) && a == BatchDone(j.id)
  {
    if queue != [] {
      var n := |queue| - 1;
      DoneLogContents(queue[..n], a);
      assert forall j :: j in queue <==> j in queue[..n] || j == queue[n];
    }
  }

  // A batch is reported done only when none of its children is in the queue any more.
  lemma DoneMeansNoChildren(states: seq<State>, events: seq<Event>, n: nat, k: nat, child: Job)
    requires IsTimelyRun(states, events) && n < |events| && events[n] == BatchesChecked
    requires |states[n].log| <= k < |states[n + 1].log| && states[n + 1].log[k].BatchDone?
    requires Misses(states[n + 1].log, states[n + 1].log[k].batchId) == 0 && child in states[n + 1].queue
    ensures child.batchParent != Some(states[n + 1].log[k].batchId)
  {
    var s, id := states[n], states[n + 1].log[k].batchId;
    var settled := Map(s.queue, SettleJob);
    RunCounts(states, events, n);
    RunLinks(states, events, n);
    SettleCounts(s.queue, s.log, s.used);
    SettleLogKinds(s.queue);
    SettleLogKinds(settled);
    assert states[n + 1].log == s.log + SettleLog(s.queue) + DoneLog(settled);
    assert BatchDone(id) in DoneLog(settled);
    DoneLogContents(settled, BatchDone(id));
    var j :| j in settled && BatchFinished(j) && j.id == id;
    NoMoreMisses(s.log + SettleLog(s.queue), DoneLog(settled), id);
    FilterMembers(settled, (j: Job) => !BatchFinished(j));
    assert FaceOf(j) in Faces(settled) && FaceOf(child) in Faces(settled);
    CompleteHasNoChild(Faces(settled), s.log + SettleLog(s.queue), s.used, FaceOf(j), FaceOf(child));
  }

  // A batch of one file, on the way.
  function OneFile(ready: Stage, worker: string, failed: nat): Job
  {
    Job(1, 0, BatchDownload, ready, worker, [], [], false, None, None, false, None, 0, None,
        Some(Batch([Entry(0, None)], 0, failed, false)), None)
  }

  lemma OneFileSubmitted()
    ensures exists s :: Reached(s) && s.queue == [OneFile(Downloading, "dwl-pending", 0)]
  {
    var job, setup := OneFile(Queued, "", 0), Setup(false, true, Fetch, 0);
    StartReached();
    StepReached(Initial(0, {}), Submitted(job, setup));
    assert Submit(Initial(0, {}), job, setup).queue == [OneFile(Downloading, "dwl-pending", 0)];
  }

  lemma OneFileMissed(s: State)
    requires Reached(s) && s.queue == [OneFile(Downloading, "dwl-pending", 0)]
    ensures exists t :: Reached(t) && t.queue == [OneFile(Downloading, "dwl-pending", 1)]
  {
    StepReached(s, Received(1, FileDone(0, NoChild)));
    assert Position(s.queue, 1) == Some(0);
    assert SpawnBatchChild(s, 0, 0, NoChild).queue == [OneFile(Downloading, "dwl-pending", 1)];
  }

  lemma OneFileLanded(s: State)
    requires Reached(s) && s.queue == [OneFile(Downloading, "dwl-pending", 1)]
    ensures exists t :: Reached(t) && t.queue == [OneFile(Downloaded, "dwl-pending", 1)]
  {
    StepReached(s, Received(1, Report(Some(Downloaded))));
    assert Position(s.queue, 1) == Some(0);
    assert ReportStep(s, 0, Some(Downloaded)).queue == [OneFile(Downloaded, "dwl-pending", 1)];
  }

  // Without the condition the counters can pass the total: the one file of a batch fails to be
  // handed over, and the end of the download counts its open entry once more.
  lemma MissedEntryCountsTwice()
    ensures exists s, j :: Reached(s) && j in s.queue && NeedsSettling(j) && |j.batch.value.entries| == 1
                           && SettleJob(j).batch.value.failed == 2
  {
    OneFileSubmitted();
    var s1 :| Reached(s1) && s1.queue == [OneFile(Downloading, "dwl-pending", 0)];
    OneFileMissed(s1);
    var s2 :| Reached(s2) && s2.queue == [OneFile(Downloading, "dwl-pending", 1)];
    OneFileLanded(s2);
    var s3 :| Reached(s3) && s3.queue == [OneFile(Downloaded, "dwl-pending", 1)];
    OneFileSettles(s3);
  }

  lemma OneFileSettles(s: State)
    requires s.queue == [OneFile(Downloaded, "dwl-pending", 1)]
    ensures exists j ::
              && j in s.queue && NeedsSettling(j) && |j.batch.value.entries| == 1
              && SettleJob(j).batch.value.failed == 2
  {
    var j := s.queue[0];
    assert j in s.queue;
    assert OpenEntries(j.batch.value) == {0};
  }
}

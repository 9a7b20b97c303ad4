// The forward links of a run form a forest: a job is linked at most once, always to a job that
// is itself unlinked at that moment, so links never change and never close a cycle.
module Links {
  import opened Wrappers
  import opened Jobs
  import opened QueueFacts

  // ---- The log of links ---------------------------------------------------------------------

  // The job a job was linked to.
  ghost function ParentOf(log: seq<Action>, id: nat): Option<nat>
  {
    if log == [] then None
    else
      var rest := ParentOf(log[..|log| - 1], id);
      match log[|log| - 1]
      case Linked(child, parent) => if child == id then Some(parent) else rest
      case _ => rest
  }

  lemma ParentOfAppend(log: seq<Action>, a: Action, id: nat)
    ensures ParentOf(log + [a], id) == if a.Linked? && a.child == id then Some(a.parent) else ParentOf(log, id)
  {
    assert (log + [a])[..|log|] == log;
  }

  // Each link joins two different jobs, neither of them linked to anything before.
  ghost predicate GoodLink(log: seq<Action>, a: Action)
  {
    a.Linked? ==> a.child != a.parent && ParentOf(log, a.child).None? && ParentOf(log, a.parent).None?
  }

  ghost predicate GoodLinks(log: seq<Action>)
  {
    forall k :: 0 <= k < |log| ==> GoodLink(log[..k], log[k])
  }

  lemma GoodLinksAppend(log: seq<Action>, a: Action)
    requires GoodLinks(log) && GoodLink(log, a)
    ensures GoodLinks(log + [a])
  {
    var more := log + [a];
    forall k | 0 <= k < |more| ensures GoodLink(more[..k], more[k]) {
      assert more[..k] == log[..k];
      if k == |log| { assert log[..k] == log; }
    }
  }

  lemma {:induction false} LinkStays(log: seq<Action>, a: nat, b: nat)
    requires a < b <= |log| && log[a].Linked?
    ensures ParentOf(log[..b], log[a].child).Some?
  {
    assert log[..b] == log[..b - 1] + [log[b - 1]];
    ParentOfAppend(log[..b - 1], log[b - 1], log[a].child);
    if a < b - 1 { LinkStays(log, a, b - 1); }
  }

  // A linked job is never linked again, and never becomes a parent afterwards.
  lemma LinkedOnce(log: seq<Action>, a: nat, b: nat)
    requires GoodLinks(log) && a < b < |log| && log[a].Linked? && log[b].Linked?
    ensures log[b].child != log[a].child && log[b].parent != log[a].child
  {
    LinkStays(log, a, b);
    assert GoodLink(log[..b], log[b]);
  }

  // Following links from job to job.
  ghost predicate IsChain(log: seq<Action>, path: seq<nat>)
  {
    forall i :: 0 <= i < |path| - 1 ==> Linked(path[i], path[i + 1]) in log
  }

  lemma {:induction false} LinksAscend(log: seq<Action>, path: seq<nat>, first: nat, last: nat)
    requires GoodLinks(log) && IsChain(log, path) && |path| >= 2 && first < |log| && last < |log|
    requires log[first] == Linked(path[0], path[1]) && log[last] == Linked(path[|path| - 2], path[|path| - 1])
    ensures first <= last && (|path| > 2 ==> first < last)
  {
    if |path| == 2 {
      if first < last { LinkedOnce(log, first, last); } else if last < first { LinkedOnce(log, last, first); }
    } else {
      assert Linked(path[1], path[2]) in log;
      var next :| 0 <= next < |log| && log[next] == Linked(path[1], path[2]);
      if next < first { LinkedOnce(log, next, first); }
      assert GoodLink(log[..first], log[first]);
      var rest := path[1..];
      forall i | 0 <= i < |rest| - 1 ensures Linked(rest[i], rest[i + 1]) in log {
        assert Linked(path[i + 1], path[i + 2]) in log;
      }
      LinksAscend(log, rest, next, last);
    }
  }

  lemma NoCycle(log: seq<Action>, path: seq<nat>)
    requires GoodLinks(log) && IsChain(log, path) && |path| >= 2
    ensures path[0] != path[|path| - 1]
  {
    var n := |path|;
    assert Linked(path[0], path[1]) in log && Linked(path[n - 2], path[n - 2 + 1]) in log;
    var first :| 0 <= first < |log| && log[first] == Linked(path[0], path[1]);
    var last :| 0 <= last < |log| && log[last] == Linked(path[n - 2], path[n - 1]);
    LinksAscend(log, path, first, last);
    if first < last { LinkedOnce(log, first, last); }
    assert GoodLink(log[..first], log[first]);
  }

  // ---- What a step does to the jobs ---------------------------------------------------------

  // The same job, with the same identity, keys and link.
  ghost predicate Kept(j: Job, j': Job)
  {
    && j'.id == j.id && j'.kind == j.kind && j'.keep == j.keep && j'.forwardKeys == j.forwardKeys
    && j'.forwardParent == j.forwardParent && j'.batchParent == j.batchParent && j'.probeJob == j.probeJob
    && j'.batch.Some? == j.batch.Some?
  }

  ghost predicate Descends(queue: seq<Job>, queue': seq<Job>)
  {
    UniqueIds(queue') && forall j' :: j' in queue' ==> exists j :: j in queue && Kept(j, j')
  }

  lemma DescendsTrans(a: seq<Job>, b: seq<Job>, c: seq<Job>)
    requires Descends(a, b) && Descends(b, c)
    ensures Descends(a, c)
  {
    forall j'' | j'' in c ensures exists j :: j in a && Kept(j, j'') {
      var j' :| j' in b && Kept(j', j'');
      var j :| j in a && Kept(j, j');
      assert Kept(j, j'');
    }
  }

  lemma DescendsSelf(queue: seq<Job>)
    requires UniqueIds(queue)
    ensures Descends(queue, queue)
  {
    assert forall j :: j in queue ==> Kept(j, j);
  }

  lemma DescendsMap(queue: seq<Job>, f: Job -> Job)
    requires UniqueIds(queue) && forall j :: j in queue ==> Kept(j, f(j))
    ensures Descends(queue, Map(queue, f))
  {
    MapMembers(queue, f);
  }

  lemma DescendsFilter(queue: seq<Job>, keep: Job -> bool)
    requires UniqueIds(queue)
    ensures Descends(queue, Filter(queue, keep))
  {
    FilterMembers(queue, keep);
    assert forall j :: j in queue ==> Kept(j, j);
  }

  lemma DescendsUpdate(queue: seq<Job>, pos: nat, job: Job)
    requires UniqueIds(queue) && pos < |queue| && Kept(queue[pos], job)
    ensures Descends(queue, queue[pos := job])
  {
    UpdateMembers(queue, pos, job);
    var queue' := queue[pos := job];
    forall j' | j' in queue' ensures exists j :: j in queue && Kept(j, j') {
      if j' == job { assert queue[pos] in queue; } else { assert Kept(j', j'); }
    }
  }

  lemma DescendsRemove(queue: seq<Job>, pos: nat)
    requires UniqueIds(queue) && pos < |queue|
    ensures Descends(queue, queue[..pos] + queue[pos + 1..])
  {
    RemoveMembers(queue, pos);
    assert forall j :: j in queue ==> Kept(j, j);
  }

  lemma DescendsSync(queue: seq<Job>, id: nat, stage: Option<Stage>, worker: Option<string>)
    requires UniqueIds(queue)
    ensures Descends(queue, SyncState(queue, id, stage, worker))
  {
    DescendsMap(queue, (j: Job) => SyncedJob(j, id, stage, worker));
  }

  lemma DescendsSyncJobs(queue: seq<Job>, id: nat, stage: Option<Stage>, worker: string)
    requires UniqueIds(queue)
    ensures Descends(queue, SyncJobs(queue, id, stage, worker))
  {
    if stage.Some? && IsTerminal(stage.value) {
      DescendsFilter(queue, (j: Job) => j.forwardParent != Some(id));
    } else {
      DescendsSync(queue, id, stage, Some(ForwardedWorker(worker)));
    }
  }

  lemma DescendsNotify(s: State, job: Job, stage: Stage)
    requires UniqueIds(s.queue)
    ensures Descends(s.queue, NotifyBatch(s, job, stage).queue)
  {
    DescendsSelf(s.queue);
    if job.batchParent.Some? {
      var found := Position(s.queue, job.batchParent.value);
      if found.Some? && s.queue[found.value].batch.Some? && IsTerminal(stage) {
        var b := s.queue[found.value].batch.value;
        DescendsUpdate(s.queue, found.value, s.queue[found.value].(batch :=
          Some(if stage == Uploaded then b.(finished := b.finished + 1) else b.(failed := b.failed + 1))));
      }
    }
  }

  // The log grows without new links.
  ghost predicate SameLinks(log: seq<Action>, log': seq<Action>)
  {
    && (forall id :: ParentOf(log', id) == ParentOf(log, id))
    && (GoodLinks(log) ==> GoodLinks(log'))
  }

  lemma {:induction false} NoNewLinks(log: seq<Action>, more: seq<Action>)
    requires forall k :: 0 <= k < |more| ==> !more[k].Linked?
    ensures SameLinks(log, log + more)
  {
    if more == [] {
      assert log + more == log;
    } else {
      var n := |more| - 1;
      NoNewLinks(log, more[..n]);
      var before := log + more[..n];
      assert log + more == before + [more[n]];
      forall id ensures ParentOf(log + more, id) == ParentOf(log, id) {
        ParentOfAppend(before, more[n], id);
      }
      if GoodLinks(log) { GoodLinksAppend(before, more[n]); }
    }
  }

  lemma NoNewLink(log: seq<Action>, a: Action)
    requires !a.Linked?
    ensures SameLinks(log, log + [a])
  {
    NoNewLinks(log, [a]);
  }

  // ---- The invariant ------------------------------------------------------------------------

  // The recorded parent of every queued job is the one it was linked to.
  ghost predicate LinkInv(s: State)
  {
    && UniqueIds(s.queue) && GoodLinks(s.log)
    && (forall j :: j in s.queue ==> j.id in s.used && j.forwardParent == ParentOf(s.log, j.id))
    && (forall id :: ParentOf(s.log, id).Some? ==> id in s.used)
  }

  // A step that makes no link.
  ghost predicate Moves(s: State, t: State)
  {
    Descends(s.queue, t.queue) && SameLinks(s.log, t.log) && s.used <= t.used
  }

  lemma MovesKeep(s: State, t: State)
    requires LinkInv(s) && Moves(s, t)
    ensures LinkInv(t)
  {
    forall j' | j' in t.queue ensures j'.id in t.used && j'.forwardParent == ParentOf(t.log, j'.id) {
      var j :| j in s.queue && Kept(j, j');
    }
  }

  // ---- Every step but submission, spawning and the progression pass -------------------------

  lemma NotifyLog(s: State, job: Job, stage: Stage)
    requires UniqueIds(s.queue)
    ensures SameLinks(s.log, NotifyBatch(s, job, stage).log)
  {
    NotifyMembers(s, job, stage);
    NoNewLink(s.log, ChildDone(job.batchParent.GetOr(0), job.id));
  }

  lemma NotedMoves(s: State, pos: nat, stage: Option<Stage>)
    requires UniqueIds(s.queue) && pos < |s.queue|
    ensures Moves(s, Noted(s, pos, stage))
  {
    var job, s1 := ReportedJob(s.queue[pos], stage), Marked(s, pos, stage);
    DescendsUpdate(s.queue, pos, job);
    NoNewLink(s.log, Reported(job.id));
    NoNewLinks(s.log, []);
    assert s.log + [] == s.log;
    if stage.Some? {
      DescendsNotify(s1, job, stage.value);
      NotifyLog(s1, job, stage.value);
      NotifyMembers(s1, job, stage.value);
      DescendsTrans(s.queue, s1.queue, NotifyBatch(s1, job, stage.value).queue);
    }
  }

  lemma ReportMoves(s: State, pos: nat, stage: Option<Stage>)
    requires UniqueIds(s.queue) && pos < |s.queue|
    ensures Moves(s, ReportStep(s, pos, stage))
  {
    var t := Noted(s, pos, stage);
    var job := ReportedJob(s.queue[pos], stage);
    NotedMoves(s, pos, stage);
    ReportTailDescends(t.queue, job, stage);
    DescendsTrans(s.queue, t.queue, ReportTail(t.queue, job, stage));
    ReportIsTail(s, pos, stage);
  }

  lemma ReportTailDescends(queue: seq<Job>, job: Job, stage: Option<Stage>)
    requires UniqueIds(queue)
    ensures Descends(queue, ReportTail(queue, job, stage))
  {
    var synced := SyncJobs(queue, job.id, stage, job.worker);
    DescendsSyncJobs(queue, job.id, stage, job.worker);
    if Finished(job.ready) {
      var dropped := DropProbe(synced, job.probeJob);
      DescendsSelf(synced);
      if job.probeJob.Some? && Position(synced, job.probeJob.value).Some? {
        DescendsRemove(synced, Position(synced, job.probeJob.value).value);
      }
      DescendsTrans(queue, synced, dropped);
      DescendsFilter(dropped, (j: Job) => j.id != job.id);
      DescendsTrans(queue, dropped, Without(dropped, job.id));
    }
  }

  lemma ReceiveMoves(s: State, id: nat, message: Message)
    requires UniqueIds(s.queue) && !message.FileDone?
    ensures Moves(s, Receive(s, id, message))
  {
    NoNewLinks(s.log, []);
    assert s.log + [] == s.log;
    DescendsSelf(s.queue);
    var found := Position(s.queue, id);
    if found.Some? {
      var pos := found.value;
      match message
      case Assign(worker) =>
        var queue := s.queue[pos := s.queue[pos].(worker := worker)];
        DescendsUpdate(s.queue, pos, s.queue[pos].(worker := worker));
        DescendsSync(queue, id, None, Some(ForwardedWorker(worker)));
        DescendsTrans(s.queue, queue, Receive(s, id, message).queue);
      case Warning =>
      case DuplicateWait(owner) => DescendsUpdate(s.queue, pos, s.queue[pos].(duplicateSource := Some(owner)));
      case Report(stage) => ReportMoves(s, pos, stage);
    }
  }

  lemma CancelMoves(s: State, id: nat, author: nat)
    requires UniqueIds(s.queue)
    ensures Moves(s, CancelJob(s, id, author))
  {
    NoNewLinks(s.log, []);
    assert s.log + [] == s.log;
    DescendsSelf(s.queue);
    var found := OwnedPosition(s.queue, id, author);
    if found.Some? {
      var synced := SyncJobs(s.queue, id, Some(Cancelled), s.queue[found.value].worker);
      DescendsSyncJobs(s.queue, id, Some(Cancelled), s.queue[found.value].worker);
      DescendsFilter(synced, (j: Job) => j.id != id);
      DescendsTrans(s.queue, synced, Without(synced, id));
    }
  }

  lemma FailOneMoves(s: State, id: nat)
    requires UniqueIds(s.queue)
    ensures Moves(s, FailOne(s, id))
  {
    NoNewLinks(s.log, []);
    assert s.log + [] == s.log;
    DescendsSelf(s.queue);
    var found := Position(s.queue, id);
    if found.Some? {
      var job := s.queue[found.value].(ready := Failed, dispatched := false, order := None);
      var updated := s.queue[found.value := job];
      DescendsUpdate(s.queue, found.value, job);
      DescendsSyncJobs(updated, id, Some(Failed), ForwardedWorker(job.worker));
      var s1 := s.(queue := SyncJobs(updated, id, Some(Failed), ForwardedWorker(job.worker)));
      DescendsTrans(s.queue, updated, s1.queue);
      FailTailMoves(s, s1, job);
    }
  }

  lemma FailTailMoves(s: State, s1: State, job: Job)
    requires Moves(s, s1)
    ensures var s2 := if Position(s1.queue, job.id).None? then s1 else NotifyBatch(s1, job, Failed);
            Moves(s, s2.(queue := Without(s2.queue, job.id)))
  {
    DescendsNotify(s1, job, Failed);
    NotifyLog(s1, job, Failed);
    NotifyMembers(s1, job, Failed);
    DescendsSelf(s1.queue);
    var s2 := if Position(s1.queue, job.id).None? then s1 else NotifyBatch(s1, job, Failed);
    DescendsTrans(s.queue, s1.queue, s2.queue);
    DescendsFilter(s2.queue, (j: Job) => j.id != job.id);
    DescendsTrans(s.queue, s2.queue, Without(s2.queue, job.id));
  }

  lemma MovesTrans(s: State, t: State, u: State)
    requires Moves(s, t) && Moves(t, u)
    ensures Moves(s, u)
  {
    DescendsTrans(s.queue, t.queue, u.queue);
  }

  lemma {:induction false} FailAllMoves(s: State, ids: seq<nat>)
    requires UniqueIds(s.queue)
    ensures Moves(s, FailAll(s, ids))
  {
    if ids == [] {
      NoNewLinks(s.log, []);
      assert s.log + [] == s.log;
      DescendsSelf(s.queue);
    } else {
      var before := FailAll(s, ids[..|ids| - 1]);
      FailAllMoves(s, ids[..|ids| - 1]);
      FailOneMoves(before, ids[|ids| - 1]);
      MovesTrans(s, before, FailAll(s, ids));
    }
  }

  lemma {:induction false} BatchLogsLinkless(queue: seq<Job>)
    ensures forall k :: 0 <= k < |SettleLog(queue)| ==> !SettleLog(queue)[k].Linked?
    ensures forall k :: 0 <= k < |DoneLog(queue)| ==> !DoneLog(queue)[k].Linked?
  {
    if queue != [] { BatchLogsLinkless(queue[..|queue| - 1]); }
  }

  lemma FinishMoves(s: State)
    requires UniqueIds(s.queue)
    ensures Moves(s, FinishBatches(s))
  {
    var settled := Map(s.queue, SettleJob);
    DescendsMap(s.queue, SettleJob);
    DescendsFilter(settled, (j: Job) => !BatchFinished(j));
    DescendsTrans(s.queue, settled, FinishBatches(s).queue);
    BatchLogsLinkless(s.queue);
    BatchLogsLinkless(settled);
    NoNewLinks(s.log, SettleLog(s.queue) + DoneLog(settled));
    assert s.log + SettleLog(s.queue) + DoneLog(settled) == s.log + (SettleLog(s.queue) + DoneLog(settled));
  }

  lemma RoundsMove(s: State, id: nat, outcome: WaitOutcome, plan: Plan)
    requires UniqueIds(s.queue)
    ensures Moves(s, ProbeTimeout(s, id)) && Moves(s, DuplicateRound(s, id, outcome))
            && Moves(s, RetryDownload(s, id, plan))
  {
    NoNewLinks(s.log, []);
    assert s.log + [] == s.log;
    DescendsSelf(s.queue);
    var found := Position(s.queue, id);
    if found.Some? {
      DescendsRemove(s.queue, found.value);
      DescendsUpdate(s.queue, found.value, WaitedJob(s.queue[found.value], outcome));
      DescendsUpdate(s.queue, found.value, StartDownload(s.queue[found.value], plan));
    }
  }

  // Steps that neither bring a job in nor run the progression pass.
  predicate Routine(e: Event)
  {
    !e.Submitted? && !e.Progressed? && !e.KeysGrown? && !(e.Received? && e.message.FileDone?)
  }

  lemma Resting(s: State, t: State)
    requires UniqueIds(s.queue) && t.log == s.log && t.used == s.used && Descends(s.queue, t.queue)
    ensures Moves(s, t)
  {
    NoNewLinks(s.log, []);
    assert s.log + [] == s.log;
  }

  lemma ResetDescends(queue: seq<Job>, epoch: nat)
    requires UniqueIds(queue)
    ensures Descends(queue, ResetDispatches(queue, epoch))
  {
    forall j | j in queue ensures Kept(j, ResetJob(j, epoch)) {
    }
    DescendsMap(queue, (j: Job) => ResetJob(j, epoch));
  }

  lemma CheckMoves(s: State)
    requires UniqueIds(s.queue)
    ensures Moves(s, CheckEpoch(s))
  {
    DescendsSelf(s.queue);
    ResetDescends(s.queue, s.reboots);
    Resting(s, CheckEpoch(s));
  }

  lemma RebootMoves(s: State)
    requires UniqueIds(s.queue)
    ensures Moves(s, s.(reboots := s.reboots + 1))
  {
    DescendsSelf(s.queue);
    Resting(s, s.(reboots := s.reboots + 1));
  }

  lemma StallMoves(s: State, ids: seq<nat>)
    requires UniqueIds(s.queue)
    ensures Moves(s, FailStalled(s, ids))
  {
    RebootMoves(s);
    var more := s.(reboots := s.reboots + 1);
    FailAllMoves(more, ids);
    if ids == [] {
      DescendsSelf(s.queue);
      Resting(s, s);
    } else {
      MovesTrans(s, more, FailAll(more, ids));
    }
  }

  lemma RoutineMoves(s: State, e: Event)
    requires UniqueIds(s.queue) && Possible(s, e) && Routine(e)
    ensures Moves(s, Step(s, e))
  {
    match e
    case Received(id, message) => ReceiveMoves(s, id, message);
    case EpochChecked => CheckMoves(s);
    case Rebooted => RebootMoves(s);
    case CancelAsked(id, author) => CancelMoves(s, id, author);
    case StallFound(ids) => StallMoves(s, ids);
    case ProbeTimedOut(id) => RoundsMove(s, id, StillWaiting, Fetch);
    case DuplicateChecked(id, outcome) => RoundsMove(s, id, outcome, Fetch);
    case DownloadRetried(id, plan) => RoundsMove(s, id, StillWaiting, plan);
    case BatchesChecked => FinishMoves(s);
  }

  // ---- Steps that bring a job in ------------------------------------------------------------

  lemma {:induction false} FirstParentFound(job: Job, queue: seq<Job>)
    ensures FirstParent(job, queue).Some? ==>
      exists p :: p in queue && MayParent(job, p) && FirstParent(job, queue).value.id == p.id
                  && FirstParent(job, queue).value.stage == p.ready
    ensures FirstParent(job, queue).None? ==> forall p :: p in queue ==> !MayParent(job, p)
  {
    if queue != [] {
      FirstParentFound(job, queue[1..]);
      assert forall p :: p in queue <==> p == queue[0] || p in queue[1..];
    }
  }

  lemma AddJob(s: State, job: Job, log: seq<Action>)
    requires LinkInv(s) && job.id !in s.used && job.forwardParent.None? && SameLinks(s.log, log)
    ensures LinkInv(s.(queue := s.queue + [job], used := s.used + {job.id}, log := log))
  {
    AppendMembers(s.queue, job);
  }

  // A new job linked to a queued, unlinked one.
  lemma AddLinkedJob(s: State, job: Job, parent: Job)
    requires LinkInv(s) && job.id !in s.used && parent in s.queue && parent.forwardParent.None?
    requires job.forwardParent == Some(parent.id)
    ensures LinkInv(s.(queue := s.queue + [job], used := s.used + {job.id}, log := s.log + [Linked(job.id, parent.id)]))
  {
    var a := Linked(job.id, parent.id);
    AppendMembers(s.queue, job);
    GoodLinksAppend(s.log, a);
    forall id ensures ParentOf(s.log + [a], id) == if id == job.id then Some(parent.id) else ParentOf(s.log, id) {
      ParentOfAppend(s.log, a, id);
    }
  }

  // What enters the queue: the submitted job, linked only as a forwardable encode to a job
  // that may be its parent, and unlinked only if there is none.
  ghost predicate EntersLinked(queue: seq<Job>, job: Job, j: Job)
  {
    && IsForwardable(job)
    && exists p :: p in queue && MayParent(job, p) && j.forwardParent == Some(p.id) && j.ready == p.ready
  }

  ghost predicate EntersFree(queue: seq<Job>, job: Job, j: Job)
  {
    && j.forwardParent.None? && !IsTerminal(j.ready) && j.ready != Probed
    && (IsForwardable(job) ==> forall p :: p in queue ==> !MayParent(job, p))
  }

  lemma EnteringLink(queue: seq<Job>, job: Job, setup: Setup)
    requires FreshJob(job) && Entering(queue, job, setup).Some?
    ensures var j := Entering(queue, job, setup).value;
            && Kept(job.(forwardParent := j.forwardParent), j)
            && (EntersLinked(queue, job, j) || EntersFree(queue, job, j))
  {
    if job.kind == Encode {
      var prepared := job.(worker := "dwl-pending");
      FirstParentFound(prepared, queue);
      assert forall p :: MayParent(prepared, p) == MayParent(job, p);
    }
  }

  lemma LinkedEntry(s: State, job: Job, j: Job)
    requires LinkInv(s) && job.id !in s.used && j.id == job.id && EntersLinked(s.queue, job, j)
    ensures LinkInv(s.(queue := s.queue + [j], used := s.used + {j.id}, log := s.log
                       + [Linked(j.id, j.forwardParent.value)]))
  {
    var p :| p in s.queue && MayParent(job, p) && j.forwardParent == Some(p.id);
    AddLinkedJob(s, j, p);
  }

  lemma FreeEntry(s: State, j: Job, a: Action)
    requires LinkInv(s) && j.id !in s.used && j.forwardParent.None? && !a.Linked?
    ensures LinkInv(s.(queue := s.queue + [j], used := s.used + {j.id}))
    ensures LinkInv(s.(queue := s.queue + [j], used := s.used + {j.id}, log := s.log + [a]))
  {
    NoNewLink(s.log, a);
    NoNewLinks(s.log, []);
    assert s.log + [] == s.log;
    AddJob(s, j, s.log);
    AddJob(s, j, s.log + [a]);
  }

  lemma SubmitLinks(s: State, job: Job, setup: Setup)
    requires LinkInv(s) && FreshJob(job) && job.id !in s.used
    ensures LinkInv(Submit(s, job, setup))
  {
    var good := (x: State) => LinkInv(x);
    var entering := Entering(s.queue, job, setup);
    if entering.Some? {
      var j := entering.value;
      EnteringLink(s.queue, job, setup);
      if EntersLinked(s.queue, job, j) {
        LinkedEntry(s, job, j);
      } else {
        FreeEntry(s, j, Sent(job.id, s.reboots + setup.bumps));
        FreeEntry(s.(reboots := s.reboots + setup.bumps), j, Sent(job.id, s.reboots + setup.bumps));
      }
    }
    SubmitCases(s, job, setup, good);
    assert good(Submit(s, job, setup));
  }

  lemma SpawnLinks(s: State, pos: nat, fileIndex: nat, h: HandOff)
    requires LinkInv(s) && pos < |s.queue| && (h.Child? ==> h.id !in s.used)
    ensures LinkInv(SpawnBatchChild(s, pos, fileIndex, h))
  {
    var parent := s.queue[pos];
    var t := SpawnBatchChild(s, pos, fileIndex, h);
    if t != s {
      var updated := s.(queue := s.queue[pos := parent.(batch := t.queue[pos].batch)]);
      DescendsUpdate(s.queue, pos, updated.queue[pos]);
      NoNewLinks(s.log, []);
      assert s.log + [] == s.log;
      MovesKeep(s, updated);
      if h.NoChild? {
        NoNewLink(s.log, Missed(parent.id));
        MovesKeep(s, t);
      } else {
        AddJob(updated, BatchChild(parent, h), s.log);
      }
    }
  }

  // ---- The progression pass -----------------------------------------------------------------

  // The parent offered under a key is a queued, unlinked job with that key; from position i
  // on, the pass will not link it either.
  ghost predicate Offers(queue: seq<Job>, i: nat, key: nat, id: nat)
  {
    exists k: nat :: k < |queue| && OffersAt(queue, i, key, id, k)
  }

  ghost predicate OffersAt(queue: seq<Job>, i: nat, key: nat, id: nat, k: nat)
    requires k < |queue|
  {
    && queue[k].id == id && queue[k].forwardParent.None? && key in queue[k].forwardKeys
    && (k < i || queue[k].ready != Downloaded || queue[k].dispatched)
  }

  ghost predicate OffersHold(queue: seq<Job>, i: nat, parents: map<nat, Parent>)
  {
    forall key :: key in parents ==> Offers(queue, i, key, parents[key].id) && Runs(parents[key].stage)
  }

  predicate Runs(stage: Stage)
  {
    !IsTerminal(stage) && stage != Probed
  }

  lemma {:induction false} AddParentsEntries(parents: map<nat, Parent>, keys: seq<nat>, parent: Parent, key: nat)
    requires key in AddParents(parents, keys, parent)
    ensures var v := AddParents(parents, keys, parent)[key];
            (key in parents && v == parents[key]) || (key in keys && v == parent)
  {
    if keys != [] {
      var last := keys[|keys| - 1];
      var rest := AddParents(parents, keys[..|keys| - 1], parent);
      if key in rest { AddParentsEntries(parents, keys[..|keys| - 1], parent, key); }
    }
  }

  lemma {:induction false} ActiveParentsHold(queue: seq<Job>)
    ensures OffersHold(queue, 0, ActiveParents(queue))
  {
    if queue != [] {
      var n := |queue| - 1;
      ActiveParentsHold(queue[..n]);
      var rest := ActiveParents(queue[..n]);
      forall key | key in ActiveParents(queue)
        ensures Offers(queue, 0, key, ActiveParents(queue)[key].id) && Runs(ActiveParents(queue)[key].stage)
      {
        if ActiveParent(queue[n]) {
          AddParentsEntries(rest, queue[n].forwardKeys,
                            Parent(queue[n].id, queue[n].ready, ForwardedWorker(queue[n].worker)), key);
        }
        if key in rest && ActiveParents(queue)[key] == rest[key] {
          var k: nat :| k < n && OffersAt(queue[..n], 0, key, rest[key].id, k);
          assert OffersAt(queue, 0, key, rest[key].id, k);
        } else {
          assert OffersAt(queue, 0, key, queue[n].id, n);
        }
      }
    }
  }

  lemma {:induction false} FindParentFound(parents: map<nat, Parent>, keys: seq<nat>)
    ensures FindParent(parents, keys).Some? ==>
      exists key :: key in keys && key in parents && parents[key] == FindParent(parents, keys).value
  {
    if keys != [] && keys[0] !in parents { FindParentFound(parents, keys[1..]); }
  }

  // What the pass may do to one job: keep its link, or link an unlinked one to an offered parent.
  ghost predicate KeepsLink(j: Job, j': Job, p: Pass, p': Pass)
  {
    Kept(j, j') && SameLinks(p.log, p'.log)
  }

  ghost predicate MakesLink(j: Job, j': Job, p: Pass, p': Pass)
  {
    && j.forwardParent.None? && j'.forwardParent.Some? && Kept(j.(forwardParent := j'.forwardParent), j')
    && p'.parents == p.parents && p'.log == p.log + [Linked(j.id, j'.forwardParent.value)]
    && exists key :: key in j.forwardKeys && key in p.parents && j'.forwardParent == Some(p.parents[key].id)
                     && p.parents[key].id != j.id && j'.ready == p.parents[key].stage
  }

  // A parent the pass adds is the job it has just dispatched.
  ghost predicate GrowsParents(j: Job, j': Job, p: Pass, p': Pass)
  {
    p'.parents == p.parents
    || (j'.dispatched && p'.parents
        == AddParents(p.parents, j.forwardKeys, Parent(j.id, Downloaded, ForwardedWorker("enc-main"))))
  }

  lemma DispatchLinks(j: Job, c: Circumstance, p: Pass)
    ensures var (j', p') := DispatchEncode(j, c, p); KeepsLink(j, j', p, p') && GrowsParents(j, j', p, p')
  {
    var (_, p') := DispatchEncode(j, c, p);
    NoNewLinks(p.log, [Sent(j.id, p'.reboots), Dispatched(j.id, j.batchParent.Some?, p.othersWaiting)]);
  }

  lemma AdvanceEncodeLinks(j: Job, c: Circumstance, p: Pass)
    requires j.forwardParent.None?
    ensures var (j', p') := AdvanceEncode(j, c, p);
            (KeepsLink(j, j', p, p') || (MakesLink(j, j', p, p') && !j.dispatched)) && GrowsParents(j, j', p, p')
  {
    NoNewLinks(p.log, []);
    assert p.log + [] == p.log;
    DispatchLinks(j, c, p);
    FindParentFound(p.parents, j.forwardKeys);
  }

  lemma KeycodeKeeps(j: Job, c: Circumstance, p: Pass)
    ensures var (j', p') := DispatchKeycode(j, c, p);
            && Kept(j, j') && p'.parents == p.parents
            && (p'.log == p.log || p'.log == p.log + [Sent(j.id, p.reboots + c.bumps)])
  {
  }

  lemma KeycodeLinks(j: Job, c: Circumstance, p: Pass)
    ensures var (j', p') := DispatchKeycode(j, c, p); KeepsLink(j, j', p, p') && p'.parents == p.parents
  {
    KeycodeKeeps(j, c, p);
    NoNewLinks(p.log, []);
    assert p.log + [] == p.log;
    NoNewLink(p.log, Sent(j.id, p.reboots + c.bumps));
  }

  // The job is up for the encoder: neither forwarded, nor a batch, nor of a kind that skips it.
  predicate WantsEncoder(j: Job)
  {
    && j.forwardParent.None? && j.batch.None? && j.ready == Downloaded
    && j.kind != Subs && j.kind != Preview && j.kind != Backup && j.kind != BackupAll
  }

  predicate WantsKeywords(j: Job)
  {
    j.forwardParent.None? && j.batch.None? && j.kind == Keycode && j.ready == Queued && !j.dispatched
  }

  lemma AdvanceEncodes(j: Job, c: Circumstance, p: Pass)
    requires WantsEncoder(j)
    ensures Advance(j, c, p) == AdvanceEncode(j, c, p)
  {
  }

  lemma AdvanceKeycode(j: Job, c: Circumstance, p: Pass)
    requires WantsKeywords(j)
    ensures Advance(j, c, p) == DispatchKeycode(j, c, p)
  {
  }

  // Any other job's turn makes no link, adds no parent and logs nothing.
  lemma OtherTurns(j: Job, c: Circumstance, p: Pass)
    requires !WantsEncoder(j) && !WantsKeywords(j)
    ensures var (j', p') := Advance(j, c, p); Kept(j, j') && p'.log == p.log && p'.parents == p.parents
  {
  }

  lemma AdvanceLinks(j: Job, c: Circumstance, p: Pass)
    ensures var (j', p') := Advance(j, c, p);
            && (KeepsLink(j, j', p, p') || (MakesLink(j, j', p, p') && j.ready == Downloaded && !j.dispatched))
            && GrowsParents(j, j', p, p')
  {
    if WantsEncoder(j) {
      AdvanceEncodeLinks(j, c, p);
      AdvanceEncodes(j, c, p);
    } else if WantsKeywords(j) {
      KeycodeLinks(j, c, p);
      AdvanceKeycode(j, c, p);
    } else {
      OtherTurns(j, c, p);
      NoNewLinks(p.log, []);
      assert p.log + [] == p.log;
    }
  }

  // Offers survive the treatment of job i.
  lemma OffersStep(queue: seq<Job>, i: nat, c: Circumstance, p: Pass)
    requires i < |queue| && OffersHold(queue, i, p.parents)
    ensures var (j, p') := Advance(queue[i], c, p); OffersHold(queue[i := j], i + 1, p'.parents)
  {
    var (j, p') := Advance(queue[i], c, p);
    var queue' := queue[i := j];
    AdvanceLinks(queue[i], c, p);
    forall key | key in p'.parents ensures Offers(queue', i + 1, key, p'.parents[key].id)
        && Runs(p'.parents[key].stage) {
      if p'.parents != p.parents {
        AddParentsEntries(p.parents, queue[i].forwardKeys,
                          Parent(queue[i].id, Downloaded, ForwardedWorker("enc-main")), key);
      }
      if key in p.parents && p'.parents[key] == p.parents[key] {
        var k: nat :| k < |queue| && OffersAt(queue, i, key, p.parents[key].id, k);
        assert OffersAt(queue', i + 1, key, p.parents[key].id, k);
      } else {
        assert OffersAt(queue', i + 1, key, queue[i].id, i);
      }
    }
  }

  // Linking an unlinked queued job to another unlinked queued job.
  lemma LinkKeeps(s: State, pos: nat, job: Job, parent: Job)
    requires LinkInv(s) && pos < |s.queue| && s.queue[pos].forwardParent.None?
    requires parent in s.queue && parent.forwardParent.None? && parent.id != s.queue[pos].id
    requires job.id == s.queue[pos].id && job.forwardParent == Some(parent.id)
    ensures LinkInv(s.(queue := s.queue[pos := job], log := s.log + [Linked(job.id, parent.id)]))
  {
    var a := Linked(job.id, parent.id);
    assert s.queue[pos] in s.queue;
    UpdateMembers(s.queue, pos, job);
    GoodLinksAppend(s.log, a);
    forall id ensures ParentOf(s.log + [a], id) == if id == job.id then Some(parent.id) else ParentOf(s.log, id) {
      ParentOfAppend(s.log, a, id);
    }
  }

  lemma LinkFromOffer(s: State, queue: seq<Job>, i: nat, j: Job, p: Pass, p': Pass)
    requires LinkInv(During(s, queue, p)) && i < |queue| && OffersHold(queue, i, p.parents)
    requires MakesLink(queue[i], j, p, p')
    ensures LinkInv(During(s, queue[i := j], p'))
  {
    var key :| key in queue[i].forwardKeys && key in p.parents && j.forwardParent == Some(p.parents[key].id)
               && p.parents[key].id != queue[i].id;
    var k: nat :| k < |queue| && OffersAt(queue, i, key, p.parents[key].id, k);
    LinkKeeps(During(s, queue, p), i, j, queue[k]);
    var linked := During(s, queue, p).(queue := queue[i := j], log := p'.log);
    assert LinkInv(linked);
  }

  lemma AdvanceKeepsLinks(s: State, queue: seq<Job>, i: nat, c: Circumstance, p: Pass)
    requires LinkInv(During(s, queue, p)) && i < |queue| && OffersHold(queue, i, p.parents)
    ensures var (j, p') := Advance(queue[i], c, p);
            LinkInv(During(s, queue[i := j], p')) && OffersHold(queue[i := j], i + 1, p'.parents)
  {
    var (j, p') := Advance(queue[i], c, p);
    AdvanceLinks(queue[i], c, p);
    OffersStep(queue, i, c, p);
    if KeepsLink(queue[i], j, p, p') {
      DescendsUpdate(queue, i, j);
      MovesKeep(During(s, queue, p), During(s, queue[i := j], p'));
    } else {
      LinkFromOffer(s, queue, i, j, p, p');
    }
  }

  ghost predicate PassLinks(s: State, queue: seq<Job>, i: nat, p: Pass)
  {
    LinkInv(During(s, queue, p)) && OffersHold(queue, i, p.parents)
  }

  lemma PassKeepsLinks(s: State)
    ensures KeptByPass((queue: seq<Job>, i: nat, p: Pass) => PassLinks(s, queue, i, p))
  {
    forall queue: seq<Job>, i: nat, c: Circumstance, p: Pass | i < |queue| && PassLinks(s, queue, i, p)
      ensures PassLinks(s, queue[i := Advance(queue[i], c, p).0], i + 1, Advance(queue[i], c, p).1)
    {
      AdvanceKeepsLinks(s, queue, i, c, p);
    }
  }

  lemma AdvanceFromKeepsLinks(s: State, queue: seq<Job>, cs: seq<Circumstance>, p: Pass)
    requires |cs| == |queue| && PassLinks(s, queue, 0, p)
    ensures var (queue', p') := AdvanceFrom(queue, cs, 0, p); LinkInv(During(s, queue', p'))
  {
    var holds := (q: seq<Job>, i: nat, r: Pass) => PassLinks(s, q, i, r);
    PassKeepsLinks(s);
    PassInduction(holds, queue, cs, 0, p);
    var (queue', p') := AdvanceFrom(queue, cs, 0, p);
    assert holds(queue', |queue|, p');
  }

  lemma {:induction false} UploadsDescend(queue: seq<Job>, uploads: seq<(nat, string)>)
    requires UniqueIds(queue)
    ensures Descends(queue, SyncUploads(queue, uploads))
  {
    DescendsSelf(queue);
    if uploads != [] {
      var init := uploads[..|uploads| - 1];
      var (id, worker) := uploads[|uploads| - 1];
      UploadsDescend(queue, init);
      DescendsSync(SyncUploads(queue, init), id, Some(Uploading), Some(worker));
      DescendsTrans(queue, SyncUploads(queue, init), SyncUploads(queue, uploads));
    }
  }

  lemma ProgressLinks(s: State, cs: seq<Circumstance>)
    requires LinkInv(s) && |cs| == |s.queue|
    ensures LinkInv(Progress(s, cs))
  {
    assert During(s, s.queue, StartPass(s)) == s;
    ActiveParentsHold(s.queue);
    AdvanceFromKeepsLinks(s, s.queue, cs, StartPass(s));
    var (queue, p) := AdvanceFrom(s.queue, cs, 0, StartPass(s));
    var uploaded := SyncUploads(queue, p.uploads);
    UploadsDescend(queue, p.uploads);
    DescendsFilter(uploaded, (j: Job) => j.id !in p.dead);
    DescendsTrans(queue, uploaded, Progress(s, cs).queue);
    NoNewLinks(p.log, []);
    assert p.log + [] == p.log;
    MovesKeep(During(s, queue, p), Progress(s, cs));
  }

  // ---- Runs ---------------------------------------------------------------------------------

  lemma GrowLinks(s: State, id: nat, keys: seq<nat>)
    requires LinkInv(s)
    ensures LinkInv(GrowKeys(s, id, keys))
  {
    var found := Position(s.queue, id);
    if found.Some? {
      UpdateMembers(s.queue, found.value, GrowKeys(s, id, keys).queue[found.value]);
      assert s.queue[found.value] in s.queue;
    }
  }

  lemma StepLinks(s: State, e: Event)
    requires LinkInv(s) && Possible(s, e)
    ensures LinkInv(Step(s, e))
  {
    if Routine(e) {
      RoutineMoves(s, e);
      MovesKeep(s, Step(s, e));
    } else {
      match e
      case Submitted(job, setup) => SubmitLinks(s, job, setup);
      case Progressed(cs) => ProgressLinks(s, cs);
      case KeysGrown(id, keys) => GrowLinks(s, id, keys);
      case Received(id, message) =>
        var found := Position(s.queue, id);
        if found.Some? { SpawnLinks(s, found.value, message.fileIndex, message.handOff); }
    }
  }

  lemma {:induction false} RunLinks(states: seq<State>, events: seq<Event>, k: nat)
    requires IsRun(states, events) && k < |states|
    ensures LinkInv(states[k])
  {
    if k > 0 {
      RunLinks(states, events, k - 1);
      StepLinks(states[k - 1], events[k - 1]);
    }
  }

  // On every run the links form a forest: no chain of links returns to where it started.
  lemma ForwardLinksFormForest(states: seq<State>, events: seq<Event>, n: nat, path: seq<nat>)
    requires IsRun(states, events) && n < |states|
    requires |path| >= 2 && IsChain(states[n].log, path)
    ensures path[0] != path[|path| - 1]
  {
    RunLinks(states, events, n);
    NoCycle(states[n].log, path);
  }

  // And the recorded parent of a queued job is the only one it was ever linked to.
  lemma ForwardParentIsTheLink(states: seq<State>, events: seq<Event>, n: nat, j: Job, k: nat)
    requires IsRun(states, events) && n < |states| && j in states[n].queue
    requires k < |states[n].log| && states[n].log[k].Linked? && states[n].log[k].child == j.id
    ensures j.forwardParent == Some(states[n].log[k].parent)
  {
    RunLinks(states, events, n);
    OnlyLink(states[n].log, |states[n].log|, k);
    assert states[n].log[..|states[n].log|] == states[n].log;
  }

  lemma {:induction false} OnlyLink(log: seq<Action>, n: nat, k: nat)
    requires GoodLinks(log) && k < n <= |log| && log[k].Linked?
    ensures ParentOf(log[..n], log[k].child) == Some(log[k].parent)
  {
    assert log[..n] == log[..n - 1] + [log[n - 1]];
    ParentOfAppend(log[..n - 1], log[n - 1], log[k].child);
    if k < n - 1 {
      OnlyLink(log, n - 1, k);
      if log[n - 1].Linked? { LinkedOnce(log, k, n - 1); }
    }
  }
}

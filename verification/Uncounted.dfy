// Exactly when a step takes a batch child out of the queue without its batch being told: the
// counters of the batch then never account for it, and the batch cannot complete.
module Uncounted {
  import opened Wrappers
  import opened Jobs
  import opened QueueFacts
  import opened Links
  import opened Forwards
  import opened Effects
  import opened Stranding
  import opened Departures

  // What the step has logged.
  ghost predicate Logs(s: State, t: State, a: Action)
  {
    |s.log| <= |t.log| && a in t.log[|s.log|..]
  }

  // The child is gone, and its batch was not told.
  ghost predicate LostChild(s: State, t: State, j: Job)
  {
    j.batchParent.Some? && !HasId(t.queue, j.id) && !Logs(s, t, ChildDone(j.batchParent.value, j.id))
  }

  // The batch is still there when stalled job a has its turn, and is no follower of it.
  ghost predicate ParentStands(queue: seq<Job>, ids: seq<nat>, a: nat, batchId: nat)
    requires a < |ids|
  {
    exists p :: p in queue && p.id == batchId && p.batch.Some? && !Families(ids[..a])(p)
                && p.forwardParent != Some(ids[a])
  }

  ghost predicate CountsInTurn(queue: seq<Job>, ids: seq<nat>, a: nat, j: Job)
  {
    a < |ids| && ids[a] == j.id && j.batchParent.Some? && ParentStands(queue, ids, a, j.batchParent.value)
  }

  ghost predicate CountsSomeTurn(queue: seq<Job>, ids: seq<nat>, j: Job)
  {
    exists a: nat :: CountsInTurn(queue, ids, a, j)
  }

  // The child's batch is told: by its own terminal report, or its own stall, if the batch is queued.
  ghost predicate CountedAt(s: State, e: Event, j: Job)
  {
    match e
    case Received(id, Report(Some(stage))) =>
      j.id == id && IsTerminal(stage) && j.batchParent.Some? && HasBatch(s.queue, j.batchParent.value)
    case StallFound(ids) => CountsSomeTurn(s.queue, ids, j)
    case _ => false
  }

  // ---- What is logged -----------------------------------------------------------------------

  // Nothing about children.
  ghost predicate Childless(log: seq<Action>, log': seq<Action>)
  {
    log <= log' && forall a :: a in log'[|log|..] ==> !a.ChildDone?
  }

  lemma ChildlessMore(log: seq<Action>, log': seq<Action>, more: seq<Action>)
    requires Childless(log, log') && forall a :: a in more ==> !a.ChildDone?
    ensures Childless(log, log' + more)
  {
    assert (log' + more)[|log|..] == log'[|log|..] + more;
  }

  lemma ChildlessSame(log: seq<Action>)
    ensures Childless(log, log)
  {
  }

  lemma TurnChildless(j: Job, c: Circumstance, p: Pass, log: seq<Action>)
    requires Childless(log, p.log)
    ensures Childless(log, Advance(j, c, p).1.log)
  {
    if WantsEncoder(j) {
      AdvanceEncodes(j, c, p);
      EncodeChildless(j, c, p, log);
    } else if WantsKeywords(j) {
      AdvanceKeycode(j, c, p);
      KeycodeKeeps(j, c, p);
      ChildlessMore(log, p.log, [Sent(j.id, p.reboots + c.bumps)]);
    } else {
      OtherTurns(j, c, p);
    }
  }

  lemma EncodeChildless(j: Job, c: Circumstance, p: Pass, log: seq<Action>)
    requires Childless(log, p.log)
    ensures Childless(log, AdvanceEncode(j, c, p).1.log)
  {
    var epoch := p.reboots + c.bumps;
    var parent := FindParent(p.parents, j.forwardKeys);
    ChildlessMore(log, p.log, [Sent(j.id, epoch), Dispatched(j.id, j.batchParent.Some?, p.othersWaiting)]);
    if parent.Some? { ChildlessMore(log, p.log, [Linked(j.id, parent.value.id)]); }
  }

  lemma PassChildless(s: State, cs: seq<Circumstance>)
    requires |cs| == |s.queue|
    ensures Childless(s.log, Progress(s, cs).log)
  {
    var holds := (queue: seq<Job>, i: nat, p: Pass) => Childless(s.log, p.log);
    forall queue: seq<Job>, i: nat, c: Circumstance, p: Pass | i < |queue| && holds(queue, i, p)
      ensures holds(queue[i := Advance(queue[i], c, p).0], i + 1, Advance(queue[i], c, p).1)
    {
      TurnChildless(queue[i], c, p, s.log);
    }
    ChildlessSame(s.log);
    PassInduction(holds, s.queue, cs, 0, StartPass(s));
    var (queue, p) := AdvanceFrom(s.queue, cs, 0, StartPass(s));
    assert holds(queue, |s.queue|, p);
  }

  lemma {:induction false} BatchLogsChildless(queue: seq<Job>)
    ensures forall a :: a in SettleLog(queue) ==> a.Settled?
    ensures forall a :: a in DoneLog(queue) ==> a.BatchDone?
  {
    if queue != [] { BatchLogsChildless(queue[..|queue| - 1]); }
  }

  lemma FinishChildless(s: State)
    ensures Childless(s.log, FinishBatches(s).log)
  {
    var settled := Map(s.queue, SettleJob);
    BatchLogsChildless(s.queue);
    BatchLogsChildless(settled);
    ChildlessSame(s.log);
    ChildlessMore(s.log, s.log, SettleLog(s.queue));
    ChildlessMore(s.log, s.log + SettleLog(s.queue), DoneLog(settled));
  }

  lemma SubmitChildless(s: State, job: Job, setup: Setup)
    ensures Childless(s.log, Submit(s, job, setup).log)
  {
    var entering := Entering(s.queue, job, setup);
    ChildlessSame(s.log);
    ChildlessMore(s.log, s.log, [Sent(job.id, s.reboots + setup.bumps)]);
    if entering.Some? && entering.value.forwardParent.Some? {
      ChildlessMore(s.log, s.log, [Linked(job.id, entering.value.forwardParent.value)]);
    }
  }

  lemma SpawnChildless(s: State, pos: nat, fileIndex: nat, h: HandOff)
    requires pos < |s.queue|
    ensures Childless(s.log, SpawnBatchChild(s, pos, fileIndex, h).log)
  {
    ChildlessSame(s.log);
    ChildlessMore(s.log, s.log, [Missed(s.queue[pos].id)]);
  }

  // Events other than reports and stalls.
  lemma OthersChildless(s: State, e: Event)
    requires Possible(s, e) && !e.StallFound? && !(e.Received? && e.message.Report?)
    ensures Childless(s.log, Step(s, e).log)
  {
    ChildlessSame(s.log);
    match e
    case Submitted(job, setup) => SubmitChildless(s, job, setup);
    case Received(id, message) =>
      var found := Position(s.queue, id);
      if found.Some? && message.FileDone? { SpawnChildless(s, found.value, message.fileIndex, message.handOff); }
    case Progressed(cs) => PassChildless(s, cs);
    case BatchesChecked => FinishChildless(s);
    case _ =>
  }

  lemma ChildlessLogs(s: State, t: State, a: Action)
    requires Childless(s.log, t.log) && a.ChildDone?
    ensures !Logs(s, t, a)
  {
  }

  // ---- Reports ------------------------------------------------------------------------------

  lemma MarkedHasBatch(s: State, pos: nat, stage: Option<Stage>, batchId: nat)
    requires UniqueIds(s.queue) && pos < |s.queue|
    ensures HasBatch(Marked(s, pos, stage).queue, batchId) <==> HasBatch(s.queue, batchId)
  {
    var job := ReportedJob(s.queue[pos], stage);
    UpdateMembers(s.queue, pos, job);
    assert s.queue[pos] in s.queue && job in Marked(s, pos, stage).queue;
    if HasBatch(s.queue, batchId) {
      var k :| k in s.queue && k.id == batchId && k.batch.Some?;
      if k.id == job.id { SameIdSameJob(s.queue, k, s.queue[pos]); }
    }
  }

  // Only a terminal report of a child whose batch is queued is passed on.
  lemma ReportLog(s: State, pos: nat, stage: Stage)
    requires UniqueIds(s.queue) && pos < |s.queue|
    ensures var job := s.queue[pos];
            ReportStep(s, pos, Some(stage)).log
            == s.log + [Reported(job.id)]
               + if job.batchParent.Some? && IsTerminal(stage) && HasBatch(s.queue, job.batchParent.value)
                 then [ChildDone(job.batchParent.value, job.id)] else []
  {
    var job, s1 := s.queue[pos], Marked(s, pos, Some(stage));
    ReportIsTail(s, pos, Some(stage));
    if job.batchParent.Some? {
      UpdateMembers(s.queue, pos, ReportedJob(job, Some(stage)));
      ParentHasEffect(s1, job.batchParent.value, job.id, stage);
      MarkedHasBatch(s, pos, Some(stage), job.batchParent.value);
    }
  }

  lemma ReportCounts(s: State, id: nat, stage: Option<Stage>, j: Job)
    requires UniqueIds(s.queue) && j in s.queue && j.batchParent.Some?
    ensures Logs(s, Receive(s, id, Report(stage)), ChildDone(j.batchParent.value, j.id))
            <==> CountedAt(s, Received(id, Report(stage)), j)
  {
    var found, t := Position(s.queue, id), Receive(s, id, Report(stage));
    if found.Some? && stage.Some? {
      ReporterCounts(s, found.value, stage.value, j);
      assert t == ReportStep(s, found.value, stage);
    } else {
      NothingLogged(s, t, ChildDone(j.batchParent.value, j.id));
    }
  }

  lemma NothingLogged(s: State, t: State, a: Action)
    requires t.log == s.log
    ensures !Logs(s, t, a)
  {
  }

  lemma LogsTail(s: State, t: State, more: seq<Action>, a: Action)
    requires t.log == s.log + more
    ensures Logs(s, t, a) <==> a in more
  {
    assert t.log[|s.log|..] == more;
  }

  lemma ReporterCounts(s: State, pos: nat, stage: Stage, j: Job)
    requires UniqueIds(s.queue) && pos < |s.queue| && j in s.queue && j.batchParent.Some?
    ensures Logs(s, ReportStep(s, pos, Some(stage)), ChildDone(j.batchParent.value, j.id))
            <==> j.id == s.queue[pos].id && IsTerminal(stage) && HasBatch(s.queue, j.batchParent.value)
  {
    var job, a := s.queue[pos], ChildDone(j.batchParent.value, j.id);
    ReportLog(s, pos, stage);
    var told := if job.batchParent.Some? && IsTerminal(stage) && HasBatch(s.queue, job.batchParent.value)
                then [ChildDone(job.batchParent.value, job.id)] else [];
    LogsTail(s, ReportStep(s, pos, Some(stage)), [Reported(job.id)] + told, a);
    assert job in s.queue;
    if j.id == job.id { SameIdSameJob(s.queue, j, job); }
  }

  // ---- Stalls -------------------------------------------------------------------------------

  // A batch that is no follower of the failing job.
  ghost predicate HasBatchBut(queue: seq<Job>, batchId: nat, id: nat)
  {
    exists k :: k in queue && k.id == batchId && k.batch.Some? && k.forwardParent != Some(id)
  }

  lemma SyncedHasBatch(s: State, pos: nat, batchId: nat)
    requires UniqueIds(s.queue) && pos < |s.queue| && s.queue[pos].forwardParent.None?
    ensures var queue, id := FailSynced(s, pos).queue, s.queue[pos].id;
            && UniqueIds(queue) && Position(queue, id).Some?
            && (HasBatch(queue, batchId) <==> HasBatchBut(s.queue, batchId, id))
  {
    var job, queue, id := FailedJob(s.queue[pos]), FailSynced(s, pos).queue, s.queue[pos].id;
    var updated := s.queue[pos := job];
    UpdateMembers(s.queue, pos, job);
    FilterMembers(updated, (j: Job) => j.forwardParent != Some(job.id));
    assert s.queue[pos] in s.queue && job in updated && job in queue;
    if HasBatchBut(s.queue, batchId, id) {
      var k :| k in s.queue && k.id == batchId && k.batch.Some? && k.forwardParent != Some(id);
      if k.id == id { SameIdSameJob(s.queue, k, s.queue[pos]); }
      assert (if k.id == id then job else k) in queue;
    }
  }

  lemma FailOneLog(s: State, pos: nat)
    requires UniqueIds(s.queue) && pos < |s.queue| && s.queue[pos].forwardParent.None?
    ensures var job := s.queue[pos];
            FailOne(s, job.id).log
            == s.log + if job.batchParent.Some? && HasBatchBut(s.queue, job.batchParent.value, job.id)
                       then [ChildDone(job.batchParent.value, job.id)] else []
  {
    var job := s.queue[pos];
    assert Position(s.queue, job.id) == Some(pos);
    SyncedHasBatch(s, pos, job.batchParent.GetOr(0));
    if job.batchParent.Some? {
      ParentHasEffect(FailSynced(s, pos), job.batchParent.value, job.id, Failed);
    }
  }

  // The batch stands when the last job of the list has its turn.
  lemma StandsInTurn(s: State, ids: seq<nat>, batchId: nat)
    requires UniqueIds(s.queue) && Stallable(s.queue, ids) && ids != []
    ensures var init, last := ids[..|ids| - 1], ids[|ids| - 1];
            HasBatchBut(FailAll(s, init).queue, batchId, last) <==> ParentStands(s.queue, ids, |ids| - 1, batchId)
  {
    var init, last := ids[..|ids| - 1], ids[|ids| - 1];
    FailAllDeparts(s, init);
    BatchDeparts(s.queue, FailAll(s, init).queue, Families(init), batchId, last);
  }

  // A batch that is left, from before.
  lemma BatchDeparts(queue: seq<Job>, queue': seq<Job>, leaves: Job -> bool, batchId: nat, id: nat)
    requires UniqueIds(queue) && LeavesExactly(queue, queue', leaves)
    ensures HasBatchBut(queue', batchId, id) <==>
            exists p :: p in queue && p.id == batchId && p.batch.Some? && !leaves(p) && p.forwardParent != Some(id)
  {
    if HasBatchBut(queue', batchId, id) {
      var k :| k in queue' && k.id == batchId && k.batch.Some? && k.forwardParent != Some(id);
      var p :| p in queue && Kept(p, k);
      assert HasId(queue', p.id);
    }
    if p :| p in queue && p.id == batchId && p.batch.Some? && !leaves(p) && p.forwardParent != Some(id) {
      var k := Descendant(queue, queue', p);
    }
  }

  // The last job of the list, as it is when its turn comes.
  lemma LastInTurn(s: State, ids: seq<nat>) returns (pos: nat)
    requires UniqueIds(s.queue) && Stallable(s.queue, ids) && ids != []
    ensures var init, last := ids[..|ids| - 1], ids[|ids| - 1];
            && UniqueIds(FailAll(s, init).queue) && pos < |FailAll(s, init).queue|
            && FailAll(s, init).queue[pos].id == last && FailAll(s, init).queue[pos].forwardParent.None?
            && forall j :: j in s.queue && j.id == last ==> Kept(j, FailAll(s, init).queue[pos])
  {
    var init, last := ids[..|ids| - 1], ids[|ids| - 1];
    var queue := FailAll(s, init).queue;
    FailAllDeparts(s, init);
    StillThere(s, init, last);
    pos := Position(queue, last).value;
    assert queue[pos] in queue;
    var o :| o in s.queue && Kept(o, queue[pos]);
    var u :| u in s.queue && u.id == last && u.forwardParent.None?;
    SameIdSameJob(s.queue, o, u);
    forall j | j in s.queue && j.id == last ensures Kept(j, queue[pos]) {
      SameIdSameJob(s.queue, j, o);
    }
  }

  lemma {:induction false} StallCounts(s: State, ids: seq<nat>, j: Job)
    requires UniqueIds(s.queue) && Stallable(s.queue, ids) && j in s.queue && j.batchParent.Some?
    ensures s.log <= FailAll(s, ids).log
    ensures Logs(s, FailAll(s, ids), ChildDone(j.batchParent.value, j.id))
            <==> CountsSomeTurn(s.queue, ids, j)
  {
    if ids != [] {
      var init, last := ids[..|ids| - 1], ids[|ids| - 1];
      var t, a := FailAll(s, init), ChildDone(j.batchParent.value, j.id);
      StallCounts(s, init, j);
      var pos := LastInTurn(s, ids);
      FailOneLog(t, pos);
      StandsInTurn(s, ids, j.batchParent.value);
      TurnsBefore(s.queue, ids, j);
      LogsOneMore(s, t, FailAll(s, ids), a);
    }
  }

  lemma LogsOneMore(s: State, t: State, u: State, a: Action)
    requires s.log <= t.log <= u.log
    ensures Logs(s, u, a) <==> Logs(s, t, a) || Logs(t, u, a)
  {
    assert u.log[|s.log|..] == t.log[|s.log|..] + u.log[|t.log|..];
  }

  lemma TurnsBefore(queue: seq<Job>, ids: seq<nat>, j: Job)
    requires ids != []
    ensures CountsSomeTurn(queue, ids, j)
            <==> CountsSomeTurn(queue, ids[..|ids| - 1], j) || CountsInTurn(queue, ids, |ids| - 1, j)
  {
    var init := ids[..|ids| - 1];
    forall a: nat | a < |init| ensures CountsInTurn(queue, ids, a, j) <==> CountsInTurn(queue, init, a, j) {
      assert init[..a] == ids[..a] && init[a] == ids[a];
    }
    if CountsSomeTurn(queue, ids, j) {
      var a: nat :| CountsInTurn(queue, ids, a, j);
      if a < |init| { assert CountsInTurn(queue, init, a, j); }
    }
    if CountsSomeTurn(queue, init, j) {
      var a: nat :| CountsInTurn(queue, init, a, j);
      assert CountsInTurn(queue, ids, a, j);
    }
  }

  // ---- All events ---------------------------------------------------------------------------

  lemma StallStepCounts(s: State, ids: seq<nat>, j: Job)
    requires UniqueIds(s.queue) && Stallable(s.queue, ids) && j in s.queue && j.batchParent.Some?
    ensures Logs(s, FailStalled(s, ids), ChildDone(j.batchParent.value, j.id)) <==> CountsSomeTurn(s.queue, ids, j)
  {
    if ids == [] {
      NothingLogged(s, s, ChildDone(j.batchParent.value, j.id));
    } else {
      StallCounts(s.(reboots := s.reboots + 1), ids, j);
    }
  }

  lemma StepCounts(s: State, e: Event, j: Job)
    requires UniqueIds(s.queue) && Possible(s, e) && j in s.queue && j.batchParent.Some?
    ensures Logs(s, Step(s, e), ChildDone(j.batchParent.value, j.id)) <==> CountedAt(s, e, j)
  {
    if e.StallFound? {
      StallableWhenPossible(s, e.ids);
      StallStepCounts(s, e.ids, j);
    } else if e.Received? && e.message.Report? {
      ReportCounts(s, e.id, e.message.stage, j);
    } else {
      OthersChildless(s, e);
      ChildlessLogs(s, Step(s, e), ChildDone(j.batchParent.value, j.id));
    }
  }

  // A step loses a batch child if and only if it takes the child out, and neither the child's own
  // terminal report nor its own stall with its batch queued does so. So a child that is cancelled
  // at once, that leaves as a follower or as a probe, or whose batch is gone, is lost.
  lemma StepLosesExactly(s: State, e: Event, j: Job)
    requires UniqueIds(s.queue) && Possible(s, e) && j in s.queue && j.batchParent.Some?
    ensures LostChild(s, Step(s, e), j) <==> LeavesAt(s, e, j) && !CountedAt(s, e, j)
  {
    StepDeparts(s, e);
    StepCounts(s, e, j);
  }
}

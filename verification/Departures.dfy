// Every event of the loop: exactly which jobs it takes out of the queue, which jobs it strands,
// and which batch children it takes out without their batch being told.
module Departures {
  import opened Wrappers
  import opened Jobs
  import opened QueueFacts
  import opened Links
  import opened Forwards
  import opened Effects
  import opened Stranding

  // Read off the state before the event.
  ghost predicate LeavesAt(s: State, e: Event, j: Job)
    requires Possible(s, e)
  {
    match e
    case Received(id, Report(stage)) => exists r :: r in s.queue && r.id == id && Leaves(j, r, stage)
    case CancelAsked(id, author) => MayCancel(s.queue, id, author) && Family(id)(j)
    case StallFound(ids) => Families(ids)(j)
    case ProbeTimedOut(id) => j.id == id && j.ready == Probed
    case Progressed(cs) => exists k: nat :: k < |s.queue| && DiesAt(s.queue, cs, k, j.id)
    case BatchesChecked => BatchFinished(SettleJob(j))
    case _ => false
  }

  // The listed jobs and their followers.
  function Families(ids: seq<nat>): Job -> bool
  {
    (j: Job) => j.id in ids || (j.forwardParent.Some? && j.forwardParent.value in ids)
  }

  ghost function Leaving(s: State, e: Event): Job -> bool
    requires Possible(s, e)
  {
    (j: Job) => LeavesAt(s, e, j)
  }

  ghost predicate Departs(queue: seq<Job>, queue': seq<Job>, leaves: Job -> bool)
  {
    forall j :: j in queue ==> (HasId(queue', j.id) <==> !leaves(j))
  }

  // ---- Reports and cancelling ---------------------------------------------------------------

  lemma ReportDeparts(s: State, pos: nat, stage: Option<Stage>)
    requires UniqueIds(s.queue) && pos < |s.queue|
    ensures LeavesExactly(s.queue, ReportStep(s, pos, stage).queue, Quitting(s.queue[pos], stage))
  {
    ReportMoves(s, pos, stage);
    ReportHasEffect(s, pos, stage);
    forall j | j in s.queue
      ensures HasId(ReportStep(s, pos, stage).queue, j.id) <==> !Leaves(j, s.queue[pos], stage)
    {
      ReportKeeps(s, ReportStep(s, pos, stage), pos, stage, j);
    }
  }

  function Quitting(reporter: Job, stage: Option<Stage>): Job -> bool
  {
    (j: Job) => Leaves(j, reporter, stage)
  }

  lemma ReportKeeps(s: State, t: State, pos: nat, stage: Option<Stage>, j: Job)
    requires UniqueIds(s.queue) && pos < |s.queue| && ReportEffect(s, t, pos, stage) && j in s.queue
    ensures HasId(t.queue, j.id) <==> !Leaves(j, s.queue[pos], stage)
  {
    var reporter := s.queue[pos];
    if !Leaves(j, reporter, stage) {
      assert Successor(t.queue, reporter, stage, j);
    }
    if HasId(t.queue, j.id) {
      var j' :| j' in t.queue && j'.id == j.id;
      assert Origin(s.queue, reporter, stage, j');
      var o :| o in s.queue && !Leaves(o, reporter, stage) && AfterReport(o, reporter, stage, j');
      SameIdSameJob(s.queue, o, j);
    }
  }

  lemma NobodyDeparts(queue: seq<Job>)
    requires UniqueIds(queue)
    ensures LeavesExactly(queue, queue, (j: Job) => false)
  {
    DescendsSelf(queue);
    SameLength(queue, queue);
  }

  lemma SameLeaves(queue: seq<Job>, queue': seq<Job>, f: Job -> bool, g: Job -> bool)
    requires LeavesExactly(queue, queue', f) && forall j :: j in queue ==> f(j) == g(j)
    ensures LeavesExactly(queue, queue', g)
  {
  }

  lemma AlignedLeaves(queue: seq<Job>, queue': seq<Job>)
    requires Descends(queue, queue') && Aligned(queue, queue')
    ensures LeavesExactly(queue, queue', (j: Job) => false)
  {
    AlignedIds(queue, queue');
  }

  lemma ReceiveDeparts(s: State, id: nat, message: Message)
    requires UniqueIds(s.queue) && !message.FileDone? && Possible(s, Received(id, message))
    ensures LeavesExactly(s.queue, Receive(s, id, message).queue, Leaving(s, Received(id, message)))
  {
    var e, found := Received(id, message), Position(s.queue, id);
    if found.None? {
      NobodyDeparts(s.queue);
      SameLeaves(s.queue, s.queue, (j: Job) => false, Leaving(s, e));
    } else if message.Report? {
      var pos, stage := found.value, message.stage;
      ReportDeparts(s, pos, stage);
      ReporterFound(s, pos, stage);
      SameLeaves(s.queue, Receive(s, id, message).queue, Quitting(s.queue[pos], stage), Leaving(s, e));
    } else {
      ReceiveMoves(s, id, message);
      AlignedLeaves(s.queue, Receive(s, id, message).queue);
      SameLeaves(s.queue, Receive(s, id, message).queue, (j: Job) => false, Leaving(s, e));
    }
  }

  lemma ReporterFound(s: State, pos: nat, stage: Option<Stage>)
    requires UniqueIds(s.queue) && pos < |s.queue| && Possible(s, Received(s.queue[pos].id, Report(stage)))
    ensures forall j :: Leaves(j, s.queue[pos], stage) <==> LeavesAt(s, Received(s.queue[pos].id, Report(stage)), j)
  {
    var reporter := s.queue[pos];
    assert reporter in s.queue;
    forall r | r in s.queue && r.id == reporter.id ensures r == reporter {
      SameIdSameJob(s.queue, r, reporter);
    }
  }

  lemma MayCancelExactly(s: State, id: nat, author: nat)
    requires UniqueIds(s.queue)
    ensures Cancels(s, id, author) <==> MayCancel(s.queue, id, author)
  {
    OwnedFound(s.queue, id, author);
    var found := OwnedPosition(s.queue, id, author);
    if found.Some? {
      assert s.queue[found.value] in s.queue;
      forall j | j in s.queue && j.id == id ensures j == s.queue[found.value] {
        SameIdSameJob(s.queue, j, s.queue[found.value]);
      }
    }
  }

  lemma CancelDeparts(s: State, id: nat, author: nat)
    requires UniqueIds(s.queue)
    ensures LeavesExactly(s.queue, CancelJob(s, id, author).queue, Leaving(s, CancelAsked(id, author)))
  {
    var e := CancelAsked(id, author);
    MayCancelExactly(s, id, author);
    if Cancels(s, id, author) {
      CancelLeaves(s, id, author);
      SameLeaves(s.queue, CancelJob(s, id, author).queue, Family(id), Leaving(s, e));
    } else {
      NobodyDeparts(s.queue);
      SameLeaves(s.queue, s.queue, (j: Job) => false, Leaving(s, e));
    }
  }

  // ---- Stalls -------------------------------------------------------------------------------

  lemma LeavesCompose(a: seq<Job>, b: seq<Job>, c: seq<Job>, f: Job -> bool, g: Job -> bool, h: Job -> bool)
    requires UniqueIds(a) && LeavesExactly(a, b, f) && LeavesExactly(b, c, g)
    requires forall j, j' :: Kept(j, j') ==> g(j) == g(j')
    requires forall j :: j in a ==> h(j) == (f(j) || g(j))
    ensures LeavesExactly(a, c, h)
  {
    DescendsTrans(a, b, c);
    forall j | j in a ensures HasId(c, j.id) <==> !h(j) {
      if HasId(c, j.id) {
        var j'' :| j'' in c && j''.id == j.id;
        var j' :| j' in b && Kept(j', j'');
        assert HasId(b, j.id);
        var o := Descendant(a, b, j);
        SameIdSameJob(b, o, j');
      } else if !f(j) {
        var j' := Descendant(a, b, j);
      }
    }
  }

  // Distinct queued jobs that are not forwarded.
  ghost predicate Stallable(queue: seq<Job>, ids: seq<nat>)
  {
    && (forall a, b :: 0 <= a < b < |ids| ==> ids[a] != ids[b])
    && forall a :: 0 <= a < |ids| ==> Unforwarded(queue, ids[a])
  }

  ghost predicate Unforwarded(queue: seq<Job>, id: nat)
  {
    exists j :: j in queue && j.id == id && j.forwardParent.None?
  }

  lemma StallableWhenPossible(s: State, ids: seq<nat>)
    requires Possible(s, StallFound(ids))
    ensures Stallable(s.queue, ids)
  {
    forall a | 0 <= a < |ids| ensures Unforwarded(s.queue, ids[a]) {
      assert Possible(s, StallFound(ids)) && StallFound(ids).ids == ids;
      var k :| 0 <= k < |s.queue| && s.queue[k].id == ids[a] && MayStall(s.queue[k]);
      assert s.queue[k] in s.queue;
    }
  }

  lemma FailOneDeparts(s: State, id: nat)
    requires UniqueIds(s.queue) && Position(s.queue, id).Some?
    ensures LeavesExactly(s.queue, FailOne(s, id).queue, Family(id))
  {
    FailOneFamily(s, Position(s.queue, id).value);
    FailOneMoves(s, id);
    FamilyLeavesExactly(s.queue, FailOne(s, id).queue, id);
  }

  lemma FamiliesGrow(ids: seq<nat>)
    requires ids != []
    ensures var init, last := ids[..|ids| - 1], ids[|ids| - 1];
            forall j :: Families(ids)(j) == (Families(init)(j) || Family(last)(j))
  {
    assert ids == ids[..|ids| - 1] + [ids[|ids| - 1]];
  }

  lemma FamilyKept(id: nat)
    ensures forall j, j' :: Kept(j, j') ==> Family(id)(j) == Family(id)(j')
  {
  }

  lemma {:induction false} FailAllDeparts(s: State, ids: seq<nat>)
    requires UniqueIds(s.queue) && Stallable(s.queue, ids)
    ensures LeavesExactly(s.queue, FailAll(s, ids).queue, Families(ids))
  {
    if ids == [] {
      NobodyDeparts(s.queue);
      SameLeaves(s.queue, s.queue, (j: Job) => false, Families(ids));
    } else {
      var init, last := ids[..|ids| - 1], ids[|ids| - 1];
      FailAllDeparts(s, init);
      StillThere(s, init, last);
      FailOneDeparts(FailAll(s, init), last);
      FamiliesGrow(ids);
      FamilyKept(last);
      LeavesCompose(s.queue, FailAll(s, init).queue, FailAll(s, ids).queue, Families(init), Family(last),
                    Families(ids));
    }
  }

  // A listed job is there when its turn comes.
  lemma StillThere(s: State, init: seq<nat>, last: nat)
    requires UniqueIds(s.queue) && last !in init && Unforwarded(s.queue, last)
    requires LeavesExactly(s.queue, FailAll(s, init).queue, Families(init))
    ensures Position(FailAll(s, init).queue, last).Some?
  {
    var j :| j in s.queue && j.id == last && j.forwardParent.None?;
    assert HasId(FailAll(s, init).queue, j.id);
  }

  lemma StallDeparts(s: State, ids: seq<nat>)
    requires UniqueIds(s.queue) && Possible(s, StallFound(ids))
    ensures LeavesExactly(s.queue, FailStalled(s, ids).queue, Leaving(s, StallFound(ids)))
  {
    StallableWhenPossible(s, ids);
    FailAllDeparts(s.(reboots := s.reboots + 1), ids);
    FailAllDeparts(s, ids);
    SameLeaves(s.queue, FailStalled(s, ids).queue, Families(ids), Leaving(s, StallFound(ids)));
  }

  // ---- Batches and waiting rounds -----------------------------------------------------------

  lemma FinishDeparts(s: State)
    requires UniqueIds(s.queue)
    ensures LeavesExactly(s.queue, FinishBatches(s).queue, Leaving(s, BatchesChecked))
  {
    FinishMoves(s);
    forall j | j in s.queue ensures HasId(FinishBatches(s).queue, j.id) <==> !BatchFinished(SettleJob(j)) {
      FinishKeeps(s.queue, j);
    }
  }

  lemma FinishKeeps(queue: seq<Job>, j: Job)
    requires UniqueIds(queue) && j in queue
    ensures HasId(Filter(Map(queue, SettleJob), (k: Job) => !BatchFinished(k)), j.id) <==> !BatchFinished(SettleJob(j))
  {
    var settled := Map(queue, SettleJob);
    MapMembers(queue, SettleJob);
    FilterMembers(settled, (k: Job) => !BatchFinished(k));
    var rest := Filter(settled, (k: Job) => !BatchFinished(k));
    assert SettleJob(j) in settled && SettleJob(j).id == j.id;
    if HasId(rest, j.id) {
      var r :| r in rest && r.id == j.id;
      SameIdSameJob(settled, r, SettleJob(j));
    }
  }

  function Only(id: nat): Job -> bool
  {
    (j: Job) => j.id == id
  }

  lemma RemovedLeaves(queue: seq<Job>, pos: nat)
    requires UniqueIds(queue) && pos < |queue|
    ensures LeavesExactly(queue, queue[..pos] + queue[pos + 1..], Only(queue[pos].id))
  {
    DescendsRemove(queue, pos);
    RemoveMembers(queue, pos);
  }

  lemma ProbeDeparts(s: State, id: nat)
    requires UniqueIds(s.queue)
    ensures LeavesExactly(s.queue, ProbeTimeout(s, id).queue, Leaving(s, ProbeTimedOut(id)))
  {
    var found := Position(s.queue, id);
    if found.Some? && s.queue[found.value].ready == Probed {
      ProbeRemoved(s, found.value);
    } else {
      ProbeStays(s, id);
    }
  }

  lemma ProbeStays(s: State, id: nat)
    requires UniqueIds(s.queue) && ProbeTimeout(s, id) == s
    requires Position(s.queue, id).Some? ==> s.queue[Position(s.queue, id).value].ready != Probed
    ensures LeavesExactly(s.queue, s.queue, Leaving(s, ProbeTimedOut(id)))
  {
    ProbeLeaves(s, id);
    NobodyDeparts(s.queue);
    SameLeaves(s.queue, s.queue, (j: Job) => false, Leaving(s, ProbeTimedOut(id)));
  }

  lemma ProbeRemoved(s: State, pos: nat)
    requires UniqueIds(s.queue) && pos < |s.queue| && Position(s.queue, s.queue[pos].id) == Some(pos)
    requires s.queue[pos].ready == Probed
    ensures LeavesExactly(s.queue, ProbeTimeout(s, s.queue[pos].id).queue, Leaving(s, ProbeTimedOut(s.queue[pos].id)))
  {
    var id := s.queue[pos].id;
    ProbeLeaves(s, id);
    RemovedLeaves(s.queue, pos);
    SameLeaves(s.queue, ProbeTimeout(s, id).queue, Only(id), Leaving(s, ProbeTimedOut(id)));
  }

  lemma ProbeLeaves(s: State, id: nat)
    requires UniqueIds(s.queue)
    ensures var found := Position(s.queue, id);
            forall j :: j in s.queue ==>
              (LeavesAt(s, ProbeTimedOut(id), j) <==>
                found.Some? && s.queue[found.value].ready == Probed && j.id == s.queue[found.value].id)
  {
    var found := Position(s.queue, id);
    if found.Some? {
      forall j | j in s.queue && j.id == id ensures j == s.queue[found.value] {
        assert s.queue[found.value] in s.queue;
        SameIdSameJob(s.queue, j, s.queue[found.value]);
      }
    }
  }

  lemma CheckDeparts(s: State)
    requires UniqueIds(s.queue)
    ensures LeavesExactly(s.queue, CheckEpoch(s).queue, (j: Job) => false)
  {
    CheckMoves(s);
    AlignedLeaves(s.queue, CheckEpoch(s).queue);
  }

  lemma DuplicateDeparts(s: State, id: nat, outcome: WaitOutcome)
    requires UniqueIds(s.queue)
    ensures LeavesExactly(s.queue, DuplicateRound(s, id, outcome).queue, (j: Job) => false)
  {
    RoundsMove(s, id, outcome, Fetch);
    DuplicateAligned(s, id, outcome);
    AlignedLeaves(s.queue, DuplicateRound(s, id, outcome).queue);
  }

  lemma DuplicateAligned(s: State, id: nat, outcome: WaitOutcome)
    ensures Aligned(s.queue, DuplicateRound(s, id, outcome).queue)
  {
  }

  lemma RetryDeparts(s: State, id: nat, plan: Plan)
    requires UniqueIds(s.queue)
    ensures LeavesExactly(s.queue, RetryDownload(s, id, plan).queue, (j: Job) => false)
  {
    RoundsMove(s, id, StillWaiting, plan);
    RetryAligned(s, id, plan);
    AlignedLeaves(s.queue, RetryDownload(s, id, plan).queue);
  }

  lemma RetryAligned(s: State, id: nat, plan: Plan)
    ensures Aligned(s.queue, RetryDownload(s, id, plan).queue)
  {
  }

  lemma QuietDeparts(s: State, e: Event)
    requires UniqueIds(s.queue) && Possible(s, e)
    requires e.EpochChecked? || e.Rebooted? || e.DuplicateChecked? || e.DownloadRetried?
    ensures LeavesExactly(s.queue, Step(s, e).queue, Leaving(s, e))
  {
    match e {
      case EpochChecked => CheckDeparts(s);
      case Rebooted => NobodyDeparts(s.queue);
      case DuplicateChecked(id, outcome) => DuplicateDeparts(s, id, outcome);
      case DownloadRetried(id, plan) => RetryDeparts(s, id, plan);
    }
    SameLeaves(s.queue, Step(s, e).queue, (j: Job) => false, Leaving(s, e));
  }

  lemma RoutineDeparts(s: State, e: Event)
    requires UniqueIds(s.queue) && Possible(s, e) && Routine(e)
    ensures LeavesExactly(s.queue, Step(s, e).queue, Leaving(s, e))
  {
    match e
    case Received(id, message) => ReceiveDeparts(s, id, message);
    case CancelAsked(id, author) => CancelDeparts(s, id, author);
    case StallFound(ids) => StallDeparts(s, ids);
    case ProbeTimedOut(id) => ProbeDeparts(s, id);
    case BatchesChecked => FinishDeparts(s);
    case _ => QuietDeparts(s, e);
  }

  // ---- Events that bring a job in, or keys --------------------------------------------------

  lemma GrownDeparts(s: State, e: Event)
    requires Possible(s, e) && (e.Submitted? || e.KeysGrown? || (e.Received? && e.message.FileDone?))
    ensures SameIds(s.queue, Step(s, e).queue)
  {
    var queue' := Step(s, e).queue;
    if e.Received? {
      var found := Position(s.queue, e.id);
      if found.Some? { SpawnHasEffect(s, found.value, e.message.fileIndex, e.message.handOff); }
    }
    forall j | j in s.queue ensures HasId(queue', j.id) {
      var k :| 0 <= k < |s.queue| && s.queue[k] == j;
      assert queue'[k] in queue';
    }
  }

  // ---- All events ---------------------------------------------------------------------------

  // Exactly the jobs read off the state leave.
  lemma StepDeparts(s: State, e: Event)
    requires UniqueIds(s.queue) && Possible(s, e)
    ensures Departs(s.queue, Step(s, e).queue, Leaving(s, e))
  {
    if Routine(e) {
      RoutineDeparts(s, e);
    } else if e.Progressed? {
      ProgressDeparts(s, e.circumstances);
    } else {
      GrownDeparts(s, e);
    }
  }

  lemma ProgressDeparts(s: State, cs: seq<Circumstance>)
    requires UniqueIds(s.queue) && |cs| == |s.queue|
    ensures Departs(s.queue, Progress(s, cs).queue, Leaving(s, Progressed(cs)))
  {
    var (queue, p) := AdvanceFrom(s.queue, cs, 0, StartPass(s));
    PassKills(s.queue, cs, 0, StartPass(s));
    PassKeepsIds(s, cs);
    SurvivorsStay(s.queue, queue, SyncUploads(queue, p.uploads), p.dead);
    forall j | j in s.queue ensures j.id in p.dead <==> LeavesAt(s, Progressed(cs), j) {
    }
  }

  lemma PassKeepsIds(s: State, cs: seq<Circumstance>)
    requires |cs| == |s.queue|
    ensures var (queue, p) := AdvanceFrom(s.queue, cs, 0, StartPass(s));
            SameIds(s.queue, queue) && SameIds(queue, SyncUploads(queue, p.uploads))
  {
    var (queue, p) := AdvanceFrom(s.queue, cs, 0, StartPass(s));
    PassAligned(s.queue, cs, 0, StartPass(s));
    AlignedIds(s.queue, queue);
    UploadsAligned(queue, p.uploads);
    AlignedIds(queue, SyncUploads(queue, p.uploads));
  }

  lemma SurvivorsStay(queue: seq<Job>, turned: seq<Job>, uploaded: seq<Job>, dead: set<nat>)
    requires SameIds(queue, turned) && SameIds(turned, uploaded)
    ensures forall j :: j in queue ==>
              (HasId(Filter(uploaded, (k: Job) => k.id !in dead), j.id) <==> j.id !in dead)
  {
    FilterMembers(uploaded, (k: Job) => k.id !in dead);
    SameIdsTrans(queue, turned, uploaded);
    forall j | j in queue && j.id !in dead ensures HasId(Filter(uploaded, (k: Job) => k.id !in dead), j.id) {
      var k :| k in uploaded && k.id == j.id;
      assert k in Filter(uploaded, (k: Job) => k.id !in dead);
    }
  }

  // An event strands a job if and only if, before it, one that stays follows one that leaves.
  lemma StepStrandsExactly(s: State, e: Event)
    requires UniqueIds(s.queue) && Possible(s, e)
    ensures Strands(s.queue, Step(s, e).queue) <==> Cuts(s.queue, Leaving(s, e))
  {
    if Routine(e) {
      RoutineDeparts(s, e);
      StrandsIffCuts(s.queue, Step(s, e).queue, Leaving(s, e));
    } else if e.Progressed? {
      PassStrandsExactly(s, e.circumstances);
      DyingCuts(s, e.circumstances);
    } else {
      GrownDeparts(s, e);
    }
  }

  lemma DyingCuts(s: State, cs: seq<Circumstance>)
    requires UniqueIds(s.queue) && |cs| == |s.queue|
    ensures FollowsDying(s.queue, cs) <==> Cuts(s.queue, Leaving(s, Progressed(cs)))
  {
    var leaves := Leaving(s, Progressed(cs));
    if FollowsDying(s.queue, cs) {
      var k: nat, m: nat :| k < |s.queue| && m < |s.queue| && Dies(s.queue[k], cs[k])
                            && s.queue[m].forwardParent == Some(s.queue[k].id);
      assert DiesAt(s.queue, cs, k, s.queue[k].id);
      FollowerStays(s, cs, m);
      assert s.queue[m] in s.queue && s.queue[k] in s.queue && leaves(s.queue[k]) && !leaves(s.queue[m]);
    }
    if Cuts(s.queue, leaves) {
      var j, d :| j in s.queue && d in s.queue && j.forwardParent == Some(d.id) && leaves(d) && !leaves(j);
      var m: nat :| m < |s.queue| && s.queue[m] == j;
      var k: nat :| k < |s.queue| && DiesAt(s.queue, cs, k, d.id);
    }
  }

  lemma FollowerStays(s: State, cs: seq<Circumstance>, m: nat)
    requires UniqueIds(s.queue) && |cs| == |s.queue| && m < |s.queue| && s.queue[m].forwardParent.Some?
    ensures !LeavesAt(s, Progressed(cs), s.queue[m])
  {
  }
}

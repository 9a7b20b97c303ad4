// Why module Forwards asks that forward keys be shared by forwardable jobs only: three short
// runs on which a forwarded job loses its parent and is never told. The shared keys can occur:
// a forward key names the source, the file index and the settings, but not the keep flag, so a
// kept encode shares it with an ordinary one, and pancodes of one file share it among themselves.
module ForwardLimits {
  import opened Wrappers
  import opened Jobs
  import opened QueueFacts
  import opened Links
  import opened Forwards

  function Fresh(id: nat, kind: JobType, keep: bool): Job
  {
    Job(id, 0, kind, Queued, "", [7], [8], keep, None, None, false, None, 0, None, None, None)
  }

  function Cached(): Setup
  {
    Setup(false, true, FromCache, 0)
  }

  function Normal(): Circumstance
  {
    Circumstance(KeywordsReady, true, false, 0)
  }

  function Landed(id: nat, kind: JobType, keep: bool): Job
  {
    Fresh(id, kind, keep).(ready := Downloaded, worker := "dwl-cache")
  }

  function Sending(id: nat, kind: JobType, keep: bool): Job
  {
    Landed(id, kind, keep).(worker := "enc-main", dispatched := true, order := Some(1), epoch := 0)
  }

  // Forwarded to a job that has not started encoding yet.
  function Following(id: nat, kind: JobType, parent: nat, worker: string): Job
  {
    Fresh(id, kind, false).(ready := Downloaded, worker := worker, forwardParent := Some(parent))
  }

  ghost predicate Orphaned(queue: seq<Job>, kind: JobType, id: nat, parent: nat)
  {
    && (exists j :: j in queue && j.kind == kind && j.id == id && j.forwardParent == Some(parent))
    && forall j :: j in queue ==> j.id != parent
  }

  // ---- The pieces of a pass -----------------------------------------------------------------

  lemma {:induction false} NothingOffered(queue: seq<Job>)
    requires forall j :: j in queue ==> !ActiveParent(j) && !ActiveSource(j)
    ensures ActiveParents(queue) == map[] && ActiveSources(queue) == map[]
  {
    if queue != [] {
      assert queue[|queue| - 1] in queue;
      NothingOffered(queue[..|queue| - 1]);
    }
  }

  // A landed job of key 7 that nobody has dispatched.
  predicate Ready(j: Job)
  {
    && (j.kind == Encode || j.kind == Pancode) && j.ready == Downloaded && !j.dispatched
    && j.forwardParent.None? && j.batch.None? && j.batchParent.None? && j.forwardKeys == [7]
  }

  function Offer(id: nat): map<nat, Parent>
  {
    map[7 := Parent(id, Downloaded, "enc-forward")]
  }

  // A dispatched job offers itself as the parent for its key.
  lemma DispatchOffers(j: Job, p: Pass)
    requires Ready(j) && p.parents == map[] && p.sources == map[]
    ensures var (j', p') := Advance(j, Normal(), p);
            && j' == j.(worker := "enc-main", dispatched := true, order := Some(p.nextOrder), epoch := p.reboots)
            && p'.dead == p.dead && p'.uploads == p.uploads && p'.parents == Offer(j.id)
            && p'.reboots == p.reboots && p'.nextOrder == p.nextOrder + 1
  {
    var offer := Parent(j.id, Downloaded, "enc-forward");
    assert j.forwardKeys[..0] == [];
    assert AddParents(map[], j.forwardKeys, offer) == map[7 := offer];
    assert !HasPrefix("enc-main", "dwl-") by { assert "dwl-"[0] != "enc-main"[0]; }
    assert !HasPrefix("enc-main", "upl-") by { assert "upl-"[0] != "enc-main"[0]; }
    NothingFound(j.forwardKeys, j.cacheKeys);
  }

  lemma {:induction false} NothingFound(keys: seq<nat>, cacheKeys: seq<nat>)
    ensures FindParent(map[], keys).None? && FindSource(map[], cacheKeys).None?
    decreases |keys| + |cacheKeys|
  {
    if keys != [] { NothingFound(keys[1..], cacheKeys); }
    if cacheKeys != [] { NothingFound(keys, cacheKeys[1..]); }
  }

  lemma FollowsOffer(j: Job, parent: nat, p: Pass)
    requires Ready(j) && j.id != parent && p.parents == Offer(parent)
    ensures var (j', p') := Advance(j, Normal(), p);
            j' == MarkForwarded(j, Parent(parent, Downloaded, "enc-forward")) && p' == p.(log := p'.log)
  {
  }

  // Keeping everybody, and no uploads to follow.
  lemma QuietEnd(queue: seq<Job>, dead: set<nat>)
    requires forall j :: j in queue ==> j.id !in dead
    ensures Filter(queue, (j: Job) => j.id !in dead) == queue
    decreases |queue|
  {
    if queue != [] {
      var n := |queue| - 1;
      assert queue[n] in queue;
      QuietEnd(queue[..n], dead);
      assert queue == queue[..n] + [queue[n]];
    }
  }

  // The ends of a pass whose turns are known.
  lemma PassOf(s: State, cs: seq<Circumstance>, queue: seq<Job>, p: Pass)
    requires |cs| == |s.queue| && AdvanceFrom(s.queue, cs, 0, StartPass(s)) == (queue, p)
    requires p.uploads == [] && p.dead == {}
    ensures Progress(s, cs) == s.(queue := queue, reboots := p.reboots, nextOrder := p.nextOrder,
                                  sinceBatch := p.sinceBatch, log := p.log)
  {
    QuietEnd(queue, {});
  }

  // The first job takes the encoder, the second follows it, and the third has its parent.
  lemma ThreeTurns(s: State, a: Job, b: Job, c: Job)
    requires s.queue == [a, b, c] && Ready(a) && Ready(b) && c.forwardParent.Some? && b.id != a.id
    requires !ActiveParent(a) && !ActiveParent(b) && !ActiveParent(c)
    requires !ActiveSource(a) && !ActiveSource(b) && !ActiveSource(c)
    ensures Progress(s, [Normal(), Normal(), Normal()]).queue
            == [a.(worker := "enc-main", dispatched := true, order := Some(s.nextOrder), epoch := s.reboots),
                MarkForwarded(b, Parent(a.id, Downloaded, "enc-forward")), c]
  {
    var cs := [Normal(), Normal(), Normal()];
    var p := StartPass(s);
    NothingOffered(s.queue);
    DispatchOffers(a, p);
    var (j1, p1) := Advance(a, cs[0], p);
    FollowsOffer(b, a.id, p1);
    var (j2, p2) := Advance(b, cs[1], p1);
    TurnsOfThree(s.queue, cs, p, j1, p1, j2, p2, c, p2);
    PassOf(s, cs, [j1, j2, c], p2);
  }

  lemma TurnsOfThree(queue: seq<Job>, cs: seq<Circumstance>, p: Pass, j1: Job, p1: Pass, j2: Job, p2: Pass, j3: Job,
                     p3: Pass)
    requires |queue| == |cs| == 3 && Advance(queue[0], cs[0], p) == (j1, p1)
    requires Advance(queue[1], cs[1], p1) == (j2, p2) && Advance(queue[2], cs[2], p2) == (j3, p3)
    ensures AdvanceFrom(queue, cs, 0, p) == ([j1, j2, j3], p3)
  {
    var q1, q2, q3 := queue[0 := j1], queue[0 := j1][1 := j2], [j1, j2, j3];
    assert q2[2 := j3] == q3;
    assert AdvanceFrom(q3, cs, 3, p3) == (q3, p3);
    assert AdvanceFrom(q2, cs, 2, p2) == (q3, p3);
    assert AdvanceFrom(q1, cs, 1, p1) == (q3, p3);
  }

  // ---- A chain of two through a kept encode -------------------------------------------------

  // A job that nobody can lead lands from the cache at the end of a short queue.
  lemma LandsAtOnce(s: State, job: Job)
    requires |s.queue| <= 4 && (job.kind == Encode || job.kind == Pancode)
    requires QueuedEncodeParent(job.(worker := "dwl-pending"), s.queue).None?
    ensures var t := Submit(s, job, Cached());
            && t.queue == s.queue + [job.(ready := Downloaded, worker := "dwl-cache")]
            && t.used == s.used + {job.id}
            && t.nextOrder == s.nextOrder && t.reboots == s.reboots && t.known == s.known
  {
    SmallQueue(s.queue);
  }

  lemma {:induction false} NoParentAmong(queue: seq<Job>, job: Job)
    requires forall j :: j in queue ==> !IsForwardable(j)
    ensures QueuedEncodeParent(job, queue).None? && FirstParent(job, queue).None?
  {
    if queue != [] {
      assert queue[0] in queue;
      NoParentAmong(queue[1..], job);
    }
  }

  // An ordinary encode with a queued parent follows it.
  lemma FollowsAtOnce(s: State, job: Job, parent: Parent)
    requires |s.queue| <= 4 && IsForwardable(job)
    requires FirstParent(job.(worker := "dwl-pending"), s.queue) == Some(parent)
    ensures Submit(s, job, Cached()).queue == s.queue + [MarkForwarded(job.(worker := "dwl-pending"), parent)]
  {
    SmallQueue(s.queue);
  }

  lemma ChainSubmissions()
    ensures var s1 := Submit(Initial(0, {}), Fresh(1, Encode, true), Cached());
            var s2 := Submit(s1, Fresh(2, Encode, false), Cached());
            var s3 := Submit(s2, Fresh(3, Encode, false), Cached());
            s3.queue == [Landed(1, Encode, true), Landed(2, Encode, false), Following(3, Encode, 2, "dwl-forward")]
  {
    KeptSubmissions();
    var s1 := Submit(Initial(0, {}), Fresh(1, Encode, true), Cached());
    var s2 := Submit(s1, Fresh(2, Encode, false), Cached());
    SecondIsParent(s2.queue);
    FollowsAtOnce(s2, Fresh(3, Encode, false), Parent(2, Downloaded, "dwl-forward"));
  }

  lemma SecondIsParent(queue: seq<Job>)
    requires queue == [Landed(1, Encode, true), Landed(2, Encode, false)]
    ensures FirstParent(Fresh(3, Encode, false).(worker := "dwl-pending"), queue)
            == Some(Parent(2, Downloaded, "dwl-forward"))
  {
    var job := Fresh(3, Encode, false).(worker := "dwl-pending");
    assert queue[1..] == [Landed(2, Encode, false)];
    assert MayParent(job, Landed(2, Encode, false)) by {
      assert Landed(2, Encode, false).forwardKeys[0] in job.forwardKeys;
    }
  }

  lemma SmallQueue(queue: seq<Job>)
    requires |queue| <= 4
    ensures CountTopLevel(queue) <= 4
  {
    FilterShrinks(queue, (j: Job) => j.batchParent.None?);
  }

  lemma {:induction false} FilterShrinks(queue: seq<Job>, keep: Job -> bool)
    ensures |Filter(queue, keep)| <= |queue|
  {
    if queue != [] { FilterShrinks(queue[..|queue| - 1], keep); }
  }

  // What a finished job without a batch leaves behind.
  lemma Ends(s: State, job: Job, stage: Stage)
    requires |s.queue| >= 1 && UniqueIds(s.queue) && s.queue[0] == job && Finished(stage)
    requires job.batchParent.None? && job.probeJob.None?
    ensures forall j :: j in s.queue && j.id != job.id && j.forwardParent != Some(job.id) ==>
              j in Receive(s, job.id, Report(Some(stage))).queue
    ensures NobodyLeft(Receive(s, job.id, Report(Some(stage))).queue, job.id)
  {
    TerminalReportClears(s, job.id, stage);
    NotedUnique(s, 0, stage);
    var noted := Noted(s, 0, Some(stage));
    FinishedTail(noted.queue, ReportedJob(job, Some(stage)), stage);
    ReportIsTail(s, 0, Some(stage));
    forall j | j in s.queue && j.id != job.id ensures j in noted.queue {
      var k :| 0 <= k < |s.queue| && s.queue[k] == j;
      assert noted.queue[k] == j;
    }
  }

  // Whoever was forwarded to the job is gone with it.
  lemma FollowerGone(queue: seq<Job>, queue': seq<Job>, follower: nat, id: nat)
    requires Descends(queue, queue') && NobodyLeft(queue', id)
    requires forall j :: j in queue && j.id == follower ==> j.forwardParent == Some(id)
    ensures forall j' :: j' in queue' ==> j'.id != follower
  {
    forall j' | j' in queue' ensures j'.id != follower {
      var j :| j in queue && Kept(j, j');
    }
  }

  lemma LeftBehind(queue: seq<Job>, queue': seq<Job>, follower: Job, gone: nat, id: nat)
    requires Descends(queue, queue') && NobodyLeft(queue', id)
    requires forall j :: j in queue && j.id == gone ==> j.forwardParent == Some(id)
    requires follower in queue' && follower.forwardParent == Some(gone)
    ensures Orphaned(queue', follower.kind, follower.id, gone)
  {
    FollowerGone(queue, queue', gone, id);
  }

  // The end of the first job takes the second out, and the third is left waiting for it.
  lemma ChainEnds(s: State, a: Job, b: Job, c: Job, stage: Stage)
    requires s.queue == [a, b, c] && a.id == 1 && b.id == 2 && c.id == 3 && Finished(stage)
    requires b.forwardParent == Some(1) && c.forwardParent == Some(2) && a.batchParent.None? && a.probeJob.None?
    ensures Orphaned(Receive(s, 1, Report(Some(stage))).queue, c.kind, 3, 2)
  {
    var queue' := Receive(s, 1, Report(Some(stage))).queue;
    Ends(s, a, stage);
    ReceiveMoves(s, 1, Report(Some(stage)));
    assert c in s.queue;
    OnlySecond(s.queue, a, b, c);
    LeftBehind(s.queue, queue', c, 2, 1);
  }

  lemma OnlySecond(queue: seq<Job>, a: Job, b: Job, c: Job)
    requires queue == [a, b, c] && a.id == 1 && b.id == 2 && c.id == 3
    ensures forall j :: j in queue && j.id == 2 ==> j == b
  {
  }

  lemma SubmitReached(s: State, job: Job, setup: Setup)
    requires Reached(s) && FreshJob(job) && job.id !in s.used && job.probeJob.None?
    ensures Reached(Submit(s, job, setup))
  {
    StepReached(s, Submitted(job, setup));
  }

  lemma ProgressReached(s: State, cs: seq<Circumstance>)
    requires Reached(s) && |cs| == |s.queue|
    ensures Reached(Progress(s, cs))
  {
    StepReached(s, Progressed(cs));
  }

  lemma ReceiveReached(s: State, id: nat, stage: Stage)
    requires Reached(s) && stage != Declined && stage != Probed
    ensures Reached(Receive(s, id, Report(Some(stage))))
  {
    StepReached(s, Received(id, Report(Some(stage))));
  }

  // Three jobs submitted one after the other.
  lemma ThreeSubmitted(a: Job, b: Job, c: Job, first: Setup)
    requires FreshJob(a) && FreshJob(b) && FreshJob(c) && a.id == 1 && b.id == 2 && c.id == 3
    requires a.probeJob.None? && b.probeJob.None? && c.probeJob.None?
    ensures var s1 := Submit(Initial(0, {}), a, first);
            var s2 := Submit(s1, b, Cached());
            Reached(Submit(s2, c, Cached()))
  {
    StartReached();
    SubmitReached(Initial(0, {}), a, first);
    var s1 := Submit(Initial(0, {}), a, first);
    SubmitUses(Initial(0, {}), a, first);
    SubmitReached(s1, b, Cached());
    SubmitUses(s1, b, Cached());
    SubmitReached(Submit(s1, b, Cached()), c, Cached());
  }

  lemma SubmitUses(s: State, job: Job, setup: Setup)
    ensures Submit(s, job, setup).used == s.used + {job.id}
  {
  }

  // A kept encode and two ordinary ones of one source, the kept one first: the second encode
  // follows the kept one, the third follows the second, and a failure of the kept one leaves the
  // third waiting for a job that is gone.
  lemma ChainOfTwoOrphans()
    ensures exists s :: Reached(s) && Orphaned(s.queue, Encode, 3, 2)
  {
    ChainSubmissions();
    var a, b, c := Landed(1, Encode, true), Landed(2, Encode, false), Following(3, Encode, 2, "dwl-forward");
    var s := QueueReached(Fresh(1, Encode, true), Fresh(2, Encode, false), Fresh(3, Encode, false),
                          Cached(), [a, b, c]);
    KeptChainStarts();
    ChainReached(s, a, b, c, Failed);
  }

  lemma QueueReached(a: Job, b: Job, c: Job, first: Setup, queue: seq<Job>) returns (s: State)
    requires FreshJob(a) && FreshJob(b) && FreshJob(c) && a.id == 1 && b.id == 2 && c.id == 3
    requires a.probeJob.None? && b.probeJob.None? && c.probeJob.None?
    requires Submit(Submit(Submit(Initial(0, {}), a, first), b, Cached()), c, Cached()).queue == queue
    ensures Reached(s) && s.queue == queue
  {
    ThreeSubmitted(a, b, c, first);
    s := Submit(Submit(Submit(Initial(0, {}), a, first), b, Cached()), c, Cached());
  }

  // A ready first job that takes the encoder, a ready second one, and a third that follows it.
  ghost predicate ChainStarts(a: Job, b: Job, c: Job)
  {
    && a.id == 1 && b.id == 2 && c.id == 3 && Ready(a) && Ready(b) && !ActiveParent(a) && !ActiveParent(b)
    && c.forwardParent == Some(2) && a.probeJob.None?
  }

  lemma KeptChainStarts()
    ensures ChainStarts(Landed(1, Encode, true), Landed(2, Encode, false), Following(3, Encode, 2, "dwl-forward"))
  {
  }

  // Once a third job follows a ready second one, a pass and the end of the first strand it.
  lemma ChainReached(s: State, a: Job, b: Job, c: Job, stage: Stage)
    requires Reached(s) && s.queue == [a, b, c] && ChainStarts(a, b, c) && (stage == Failed || stage == Uploaded)
    ensures exists t :: Reached(t) && Orphaned(t.queue, c.kind, 3, 2)
  {
    var cs := [Normal(), Normal(), Normal()];
    ThreeTurns(s, a, b, c);
    ProgressReached(s, cs);
    var t := Progress(s, cs);
    ChainEnds(t, t.queue[0], t.queue[1], t.queue[2], stage);
    ReceiveReached(t, 1, stage);
  }

  // ---- A chain of two among pancodes --------------------------------------------------------

  function Slow(): Setup
  {
    Cached().(plan := Fetch)
  }

  // The first of three pancodes of one file, while it downloads and once it has landed.
  function Fetching(): Job
  {
    Fresh(1, Pancode, false).(ready := Downloading, worker := "dwl-pending")
  }

  lemma PancodeSubmissions()
    ensures var s1 := Submit(Initial(0, {}), Fresh(1, Pancode, false), Slow());
            var s2 := Submit(s1, Fresh(2, Pancode, false), Cached());
            var s3 := Submit(s2, Fresh(3, Pancode, false), Cached());
            && s3.queue == [Fetching(), Landed(2, Pancode, false), Landed(3, Pancode, false)]
            && s3.nextOrder == 1 && s3.reboots == s3.known == 0 && s1.used == {1} && s2.used == {1, 2}
  {
    var s1 := Submit(Initial(0, {}), Fresh(1, Pancode, false), Slow());
    assert s1.queue == [Fetching()];
    SmallQueue(s1.queue);
    var s2 := Submit(s1, Fresh(2, Pancode, false), Cached());
    assert s2.queue == [Fetching(), Landed(2, Pancode, false)];
    SmallQueue(s2.queue);
  }

  // While the first still downloads, the second is sent and the third follows it.
  lemma PancodePass(s: State)
    requires s.queue == [Fetching(), Landed(2, Pancode, false), Landed(3, Pancode, false)]
    requires s.nextOrder == 1 && s.reboots == 0
    ensures var t := Progress(s, [Normal(), Normal(), Normal()]);
            && t.queue == [Fetching(), Sending(2, Pancode, false), Following(3, Pancode, 2, "enc-forward")]
            && t.reboots == 0 && t.known == s.known
  {
    var cs := [Normal(), Normal(), Normal()];
    var p := StartPass(s);
    NothingOffered(s.queue);
    assert Advance(Fetching(), cs[0], p) == (Fetching(), p);
    DispatchOffers(Landed(2, Pancode, false), p);
    var (j2, p2) := Advance(Landed(2, Pancode, false), cs[1], p);
    FollowsOffer(Landed(3, Pancode, false), 2, p2);
    var (j3, p3) := Advance(Landed(3, Pancode, false), cs[2], p2);
    TurnsOfThree(s.queue, cs, p, Fetching(), p, j2, p2, j3, p3);
    PassOf(s, cs, [Fetching(), j2, j3], p3);
  }

  // A reboot frees the second before it has reported, and the download of the first lands.
  lemma PancodeRebooted(s: State)
    requires s.queue == [Fetching(), Sending(2, Pancode, false), Following(3, Pancode, 2, "enc-forward")]
    requires s.reboots == s.known == 0
    ensures var t := CheckEpoch(s.(reboots := 1));
            t.queue == [Fetching(), Landed(2, Pancode, false).(worker := "enc-main"),
                        Following(3, Pancode, 2, "enc-forward")]
  {
  }

  lemma PancodeLands(s: State, b: Job, c: Job)
    requires s.queue == [Fetching(), b, c] && b.forwardParent != Some(1) && c.forwardParent != Some(1)
    ensures Receive(s, 1, Report(Some(Downloaded))).queue == [Fetching().(ready := Downloaded), b, c]
  {
    assert Position(s.queue, 1) == Some(0);
  }

  lemma PancodeReached(s: State)
    requires Reached(s) && s.reboots == s.known == 0
    requires s.queue == [Fetching(), Sending(2, Pancode, false), Following(3, Pancode, 2, "enc-forward")]
    ensures exists t :: Reached(t) && Orphaned(t.queue, Pancode, 3, 2)
  {
    var b, c := Landed(2, Pancode, false).(worker := "enc-main"), Following(3, Pancode, 2, "enc-forward");
    StepReached(s, Rebooted);
    var s1 := s.(reboots := 1);
    PancodeRebooted(s);
    StepReached(s1, EpochChecked);
    var s2 := CheckEpoch(s1);
    PancodeLands(s2, b, c);
    ReceiveReached(s2, 1, Downloaded);
    ChainReached(Receive(s2, 1, Report(Some(Downloaded))), Fetching().(ready := Downloaded), b, c, Uploaded);
  }

  // Three pancodes of one file: the encoder reboots between the dispatch of the second, which the
  // third follows, and its first report; the first lands and is dispatched, the second follows it,
  // and the end of the first leaves the third waiting for a job that is gone.
  lemma PancodeChainOrphans()
    ensures exists s :: Reached(s) && Orphaned(s.queue, Pancode, 3, 2)
  {
    PancodeSubmissions();
    ThreeSubmitted(Fresh(1, Pancode, false), Fresh(2, Pancode, false), Fresh(3, Pancode, false), Slow());
    var s1 := Submit(Initial(0, {}), Fresh(1, Pancode, false), Slow());
    var s2 := Submit(s1, Fresh(2, Pancode, false), Cached());
    var s3 := Submit(s2, Fresh(3, Pancode, false), Cached());
    PancodePass(s3);
    ProgressReached(s3, [Normal(), Normal(), Normal()]);
    PancodeReached(Progress(s3, [Normal(), Normal(), Normal()]));
  }

  // ---- A kept parent ------------------------------------------------------------------------

  // The same pass with a kept encode in front: an encode of the same source follows it.
  lemma KeptPass(s: State)
    requires s.queue == [Landed(1, Encode, true), Landed(2, Encode, false)]
    requires s.nextOrder == 1 && s.reboots == 0
    ensures Progress(s, [Normal(), Normal()]).queue
            == [Sending(1, Encode, true), Following(2, Encode, 1, "enc-forward")]
  {
    var cs := [Normal(), Normal()];
    var p := StartPass(s);
    var a, b := Landed(1, Encode, true), Landed(2, Encode, false);
    NothingOffered(s.queue);
    DispatchOffers(a, p);
    var (j1, p1) := Advance(a, cs[0], p);
    FollowsOffer(b, 1, p1);
    var (j2, p2) := Advance(b, cs[1], p1);
    TurnsOfTwo(s.queue, cs, p, j1, p1, j2, p2);
    PassOf(s, cs, [j1, j2], p2);
  }

  lemma TurnsOfTwo(queue: seq<Job>, cs: seq<Circumstance>, p: Pass, j1: Job, p1: Pass, j2: Job, p2: Pass)
    requires |queue| == |cs| == 2
    requires Advance(queue[0], cs[0], p) == (j1, p1) && Advance(queue[1], cs[1], p1) == (j2, p2)
    ensures AdvanceFrom(queue, cs, 0, p) == ([j1, j2], p2)
  {
    var q1, q2 := queue[0 := j1], [j1, j2];
    assert q1[1 := j2] == q2;
    assert AdvanceFrom(q2, cs, 2, p2) == (q2, p2);
    assert AdvanceFrom(q1, cs, 1, p1) == (q2, p2);
  }

  // Encoded, a kept job is taken out by the pass, and nobody tells its followers.
  lemma KeptLeaves(s: State, j1: Job, j2: Job)
    requires s.queue == [j1, j2] && j1.id == 1 && j2.id == 2 && j2.forwardParent == Some(1)
    requires j1.kind == Encode && j1.keep && j1.ready == Encoded && j1.forwardParent.None? && j1.batch.None?
    ensures Orphaned(Progress(s, [Normal(), Normal()]).queue, j2.kind, 2, 1)
  {
    var cs := [Normal(), Normal()];
    var p := StartPass(s);
    var p1 := p.(dead := p.dead + {1});
    assert Advance(j1, cs[0], p) == (j1, p1);
    assert Advance(j2, cs[1], p1) == (j2, p1);
    assert s.queue[0 := j1] == s.queue && s.queue[1 := j2] == s.queue;
    assert AdvanceFrom(s.queue, cs, 0, p) == (s.queue, p1) by {
      assert AdvanceFrom(s.queue, cs, 2, p1) == (s.queue, p1);
      assert AdvanceFrom(s.queue, cs, 1, p1) == (s.queue, p1);
    }
    var rest := Progress(s, cs).queue;
    FilterMembers(s.queue, (j: Job) => j.id !in p1.dead);
    assert rest == Filter(s.queue, (j: Job) => j.id !in p1.dead);
    assert j2 in s.queue && j2 in rest;
  }

  lemma KeptSubmissions()
    ensures var s1 := Submit(Initial(0, {}), Fresh(1, Encode, true), Cached());
            var s2 := Submit(s1, Fresh(2, Encode, false), Cached());
            && s2.queue == [Landed(1, Encode, true), Landed(2, Encode, false)]
            && s2.nextOrder == 1 && s2.reboots == 0 && s1.used == {1}
  {
    LandsAtOnce(Initial(0, {}), Fresh(1, Encode, true));
    var s1 := Submit(Initial(0, {}), Fresh(1, Encode, true), Cached());
    assert s1.queue == [Landed(1, Encode, true)];
    NoParentAmong(s1.queue, Fresh(2, Encode, false).(worker := "dwl-pending"));
    LandsAtOnce(s1, Fresh(2, Encode, false));
  }

  lemma KeptReports(s: State)
    requires s.queue == [Sending(1, Encode, true), Following(2, Encode, 1, "enc-forward")]
    ensures var t := Receive(s, 1, Report(Some(Encoded)));
            t.queue == [Sending(1, Encode, true).(ready := Encoded, dispatched := false, order := None),
                        Following(2, Encode, 1, "enc-forward").(ready := Encoded)]
  {
    assert !HasPrefix("enc-main", "dwl-") by { assert "dwl-"[0] != "enc-main"[0]; }
    assert !HasPrefix("enc-main", "upl-") by { assert "upl-"[0] != "enc-main"[0]; }
    assert Position(s.queue, 1) == Some(0);
  }

  // A kept encode and an ordinary one of the same source: the kept one is taken out once
  // encoded, and the other is left waiting for it.
  lemma KeptParentOrphans()
    ensures exists s :: Reached(s) && Orphaned(s.queue, Encode, 2, 1)
  {
    StartReached();
    var s0 := Initial(0, {});
    KeptSubmissions();
    var s1 := Submit(s0, Fresh(1, Encode, true), Cached());
    SubmitReached(s0, Fresh(1, Encode, true), Cached());
    var s2 := Submit(s1, Fresh(2, Encode, false), Cached());
    SubmitReached(s1, Fresh(2, Encode, false), Cached());
    KeptReached(s2);
  }

  lemma KeptReached(s: State)
    requires Reached(s) && s.nextOrder == 1 && s.reboots == 0
    requires s.queue == [Landed(1, Encode, true), Landed(2, Encode, false)]
    ensures exists t :: Reached(t) && Orphaned(t.queue, Encode, 2, 1)
  {
    var cs := [Normal(), Normal()];
    KeptPass(s);
    ProgressReached(s, cs);
    var t := Progress(s, cs);
    KeptReports(t);
    ReceiveReached(t, 1, Encoded);
    var u := Receive(t, 1, Report(Some(Encoded)));
    KeptLeaves(u, u.queue[0], u.queue[1]);
    ProgressReached(u, cs);
  }
}

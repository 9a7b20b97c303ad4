// What the queue operations of module Jobs do to membership and to the uniqueness of ids.
module QueueFacts {
  import opened Wrappers
  import opened Jobs

  ghost predicate UniqueIds(queue: seq<Job>)
  {
    forall i, j :: 0 <= i < j < |queue| ==> queue[i].id != queue[j].id
  }

  lemma SameIdSameJob(queue: seq<Job>, j: Job, k: Job)
    requires UniqueIds(queue) && j in queue && k in queue && j.id == k.id
    ensures j == k
  {
  }

  lemma {:induction false} FilterContents(queue: seq<Job>, keep: Job -> bool, j: Job)
    ensures j in Filter(queue, keep) <==> j in queue && keep(j)
  {
    if queue != [] {
      var n := |queue| - 1;
      FilterContents(queue[..n], keep, j);
      assert j in queue <==> j in queue[..n] || j == queue[n];
    }
  }

  lemma {:induction false} FilterUnique(queue: seq<Job>, keep: Job -> bool)
    requires UniqueIds(queue)
    ensures UniqueIds(Filter(queue, keep))
  {
    if queue != [] {
      var n := |queue| - 1;
      FilterUnique(queue[..n], keep);
      var rest := Filter(queue[..n], keep);
      forall i | 0 <= i < |rest| ensures rest[i].id != queue[n].id {
        FilterContents(queue[..n], keep, rest[i]);
      }
    }
  }

  lemma FilterMembers(queue: seq<Job>, keep: Job -> bool)
    ensures forall j :: j in Filter(queue, keep) <==> j in queue && keep(j)
    ensures UniqueIds(queue) ==> UniqueIds(Filter(queue, keep))
  {
    forall j ensures j in Filter(queue, keep) <==> j in queue && keep(j) {
      FilterContents(queue, keep, j);
    }
    if UniqueIds(queue) { FilterUnique(queue, keep); }
  }

  lemma MapMembers(queue: seq<Job>, f: Job -> Job)
    ensures forall j' :: j' in Map(queue, f) <==> exists j :: j in queue && f(j) == j'
    ensures UniqueIds(queue) && (forall j :: j in queue ==> f(j).id == j.id) ==> UniqueIds(Map(queue, f))
  {
    var mapped := Map(queue, f);
    forall j' ensures j' in mapped <==> exists j :: j in queue && f(j) == j' {
      if j :| j in queue && f(j) == j' {
        var i :| 0 <= i < |queue| && queue[i] == j;
        assert mapped[i] == j';
      }
    }
  }

  lemma {:induction false} FilterTwice(queue: seq<Job>, keep: Job -> bool, also: Job -> bool, both: Job -> bool)
    requires forall j :: both(j) == (keep(j) && also(j))
    ensures Filter(Filter(queue, keep), also) == Filter(queue, both)
  {
    if queue != [] {
      var n := |queue| - 1;
      FilterTwice(queue[..n], keep, also, both);
      var kept := Filter(queue[..n], keep);
      var more := kept + [queue[n]];
      assert more[..|more| - 1] == kept;
      assert Filter(more, also) == Filter(kept, also) + if also(queue[n]) then [queue[n]] else [];
      assert Filter(queue, keep) == if keep(queue[n]) then more else kept;
    }
  }

  lemma UpdateMembers(queue: seq<Job>, pos: nat, job: Job)
    requires pos < |queue| && UniqueIds(queue) && job.id == queue[pos].id
    ensures UniqueIds(queue[pos := job])
    ensures forall j :: j in queue[pos := job] <==> j == job || (j in queue && j.id != job.id)
  {
    var updated := queue[pos := job];
    forall j ensures j in updated <==> j == job || (j in queue && j.id != job.id) {
      if j in queue && j.id != job.id {
        var i :| 0 <= i < |queue| && queue[i] == j;
        assert updated[i] == j;
      }
      assert updated[pos] == job;
    }
  }

  lemma AppendMembers(queue: seq<Job>, job: Job)
    ensures forall j :: j in queue + [job] <==> j in queue || j == job
    ensures UniqueIds(queue) && (forall j :: j in queue ==> j.id != job.id) ==> UniqueIds(queue + [job])
  {
  }

  // Removing one position is filtering its id away.
  lemma RemoveMembers(queue: seq<Job>, pos: nat)
    requires pos < |queue| && UniqueIds(queue)
    ensures var rest := queue[..pos] + queue[pos + 1..];
            && UniqueIds(rest)
            && forall j :: j in rest <==> j in queue && j.id != queue[pos].id
  {
    var rest := queue[..pos] + queue[pos + 1..];
    forall j ensures j in rest <==> j in queue && j.id != queue[pos].id {
      if j in queue && j.id != queue[pos].id {
        var i :| 0 <= i < |queue| && queue[i] == j;
        if i < pos { assert rest[i] == j; } else { assert rest[i - 1] == j; }
      }
    }
  }

  // Jobs of both queues stand in the same order.
  ghost predicate SameOrder(queue: seq<Job>, queue': seq<Job>)
  {
    forall a: nat, b: nat, i: nat, j: nat | a < |queue'| && b < |queue'| && i < j < |queue| ::
      queue'[a].id == queue[i].id && queue'[b].id == queue[j].id ==> a < b
  }

  lemma {:induction false} FilterInOrder(queue: seq<Job>, keep: Job -> bool)
    requires UniqueIds(queue)
    ensures SameOrder(queue, Filter(queue, keep))
  {
    if queue != [] {
      var n := |queue| - 1;
      FilterInOrder(queue[..n], keep);
      FilterMembers(queue[..n], keep);
      var rest := Filter(queue[..n], keep);
      forall a | 0 <= a < |rest| ensures rest[a].id != queue[n].id { assert rest[a] in rest; }
    }
  }

  // Two jobs that agree on all but their batch record.
  ghost predicate SameButBatch(j: Job, j': Job)
  {
    j' == j.(batch := j'.batch)
  }

  lemma SetBatchMembers(queue: seq<Job>, pos: nat, b: Batch)
    requires pos < |queue| && UniqueIds(queue)
    ensures UniqueIds(SetBatch(queue, pos, b))
    ensures forall j' :: j' in SetBatch(queue, pos, b) ==> exists j :: j in queue && SameButBatch(j, j')
  {
    var queue' := SetBatch(queue, pos, b);
    UpdateMembers(queue, pos, queue'[pos]);
    forall j' | j' in queue' ensures exists j :: j in queue && SameButBatch(j, j') {
      if j' == queue'[pos] {
        assert queue[pos] in queue && SameButBatch(queue[pos], j');
      } else {
        assert SameButBatch(j', j');
      }
    }
  }

  // Telling a batch changes at most the batch record of one job and one log entry.
  lemma NotifyMembers(s: State, job: Job, stage: Stage)
    requires UniqueIds(s.queue)
    ensures var t := NotifyBatch(s, job, stage);
            && UniqueIds(t.queue)
            && (forall j' :: j' in t.queue ==> exists j :: j in s.queue && SameButBatch(j, j'))
            && t == s.(queue := t.queue, log := t.log)
            && (t.log == s.log || t.log == s.log + [ChildDone(job.batchParent.GetOr(0), job.id)])
  {
    var t := NotifyBatch(s, job, stage);
    assert forall j :: j in s.queue ==> SameButBatch(j, j);
    if job.batchParent.Some? {
      var found := Position(s.queue, job.batchParent.value);
      if found.Some? && s.queue[found.value].batch.Some? && IsTerminal(stage) {
        var b := s.queue[found.value].batch.value;
        SetBatchMembers(s.queue, found.value, if stage == Uploaded then b.(finished := b.finished + 1)
                        else b.(failed := b.failed + 1));
      }
    }
  }

  // The state as the loop sees it in the middle of the pass.
  function During(s: State, queue: seq<Job>, p: Pass): State
  {
    s.(queue := queue, reboots := p.reboots, nextOrder := p.nextOrder, sinceBatch := p.sinceBatch, log := p.log)
  }

  // Submission drops the job, or pushes it as a studio render, as a linked or as a plain job.
  lemma SubmitCases(s: State, job: Job, setup: Setup, good: State -> bool)
    requires FreshJob(job) && good(s.(used := s.used + {job.id}))
    requires Entering(s.queue, job, setup).Some? ==>
               var j := Entering(s.queue, job, setup).value;
               var pushed := s.(queue := s.queue + [j], used := s.used + {job.id});
               if job.kind == Studio then
                 good(pushed.(reboots := s.reboots + setup.bumps, log := s.log
                              + [Sent(job.id, s.reboots + setup.bumps)]))
               else if j.forwardParent.Some? then good(pushed.(log := s.log + [Linked(job.id, j.forwardParent.value)]))
               else good(pushed)
    ensures good(Submit(s, job, setup))
  {
  }

  // ---- The stages of a report ---------------------------------------------------------------

  // The report is written into the job.
  function Marked(s: State, pos: nat, stage: Option<Stage>): State
    requires pos < |s.queue|
  {
    var job := ReportedJob(s.queue[pos], stage);
    s.(queue := s.queue[pos := job], log := if stage.Some? then s.log + [Reported(job.id)] else s.log)
  }

  // And the batch is told.
  function Noted(s: State, pos: nat, stage: Option<Stage>): State
    requires pos < |s.queue|
  {
    if stage.Some? then NotifyBatch(Marked(s, pos, stage), ReportedJob(s.queue[pos], stage), stage.value)
    else Marked(s, pos, stage)
  }

  // Then the forwarded jobs follow, and a finished job and its probe leave.
  function ReportTail(queue: seq<Job>, job: Job, stage: Option<Stage>): seq<Job>
  {
    var synced := SyncJobs(queue, job.id, stage, job.worker);
    if Finished(job.ready) then Without(DropProbe(synced, job.probeJob), job.id) else synced
  }

  lemma ReportIsTail(s: State, pos: nat, stage: Option<Stage>)
    requires pos < |s.queue|
    ensures var t := Noted(s, pos, stage);
            ReportStep(s, pos, stage) == t.(queue := ReportTail(t.queue, ReportedJob(s.queue[pos], stage), stage))
  {
  }

  // Induction over the pass: what each treated job keeps, the whole pass keeps.
  ghost predicate KeptByPass(holds: (seq<Job>, nat, Pass) -> bool)
  {
    forall queue: seq<Job>, i: nat, c: Circumstance, p: Pass :: i < |queue| && holds(queue, i, p) ==>
      holds(queue[i := Advance(queue[i], c, p).0], i + 1, Advance(queue[i], c, p).1)
  }

  lemma {:induction false} PassInduction(holds: (seq<Job>, nat, Pass) -> bool, queue: seq<Job>, cs: seq<Circumstance>,
                                         i: nat, p: Pass)
    requires KeptByPass(holds) && i <= |queue| == |cs| && holds(queue, i, p)
    ensures var (queue', p') := AdvanceFrom(queue, cs, i, p); |queue'| == |queue| && holds(queue', |queue|, p')
    decreases |queue| - i
  {
    if i < |queue| {
      var (j, p') := Advance(queue[i], cs[i], p);
      PassInduction(holds, queue[i := j], cs, i + 1, p');
    }
  }

  // ---- Reading the log ----------------------------------------------------------------------

  // Epoch of the last message sent for a job since its last stage report.
  ghost function LastSend(log: seq<Action>, id: nat): Option<nat>
  {
    if log == [] then None
    else
      match log[|log| - 1]
      case Sent(i, epoch) => if i == id then Some(epoch) else LastSend(log[..|log| - 1], id)
      case Reported(i) => if i == id then None else LastSend(log[..|log| - 1], id)
      case _ => LastSend(log[..|log| - 1], id)
  }

  lemma LastSendAppend(log: seq<Action>, a: Action, id: nat)
    ensures LastSend(log + [a], id)
            == if a.Sent? && a.id == id then Some(a.epoch)
               else if a.Reported? && a.id == id then None
               else LastSend(log, id)
  {
    assert (log + [a])[..|log|] == log;
  }

  // ---- Reaching a state ---------------------------------------------------------------------

  ghost predicate Reached(s: State)
  {
    exists states: seq<State>, events: seq<Event> :: IsRun(states, events) && states[|states| - 1] == s
  }

  lemma StartReached()
    ensures Reached(Initial(0, {}))
  {
    var states: seq<State>, events: seq<Event> := [Initial(0, {})], [];
    assert IsRun(states, events) && states[|states| - 1] == Initial(0, {});
  }

  lemma StepReached(s: State, e: Event)
    requires Reached(s) && Possible(s, e)
    ensures Reached(Step(s, e))
  {
    var states: seq<State>, events: seq<Event> :| IsRun(states, events) && states[|states| - 1] == s;
    RunOneMore(states, events, e);
    assert (states + [Step(s, e)])[|states|] == Step(s, e);
  }

  lemma RunOneMore(states: seq<State>, events: seq<Event>, e: Event)
    requires IsRun(states, events) && Possible(states[|states| - 1], e)
    ensures IsRun(states + [Step(states[|states| - 1], e)], events + [e])
  {
    var states', events' := states + [Step(states[|states| - 1], e)], events + [e];
    forall k | 0 <= k < |events'|
      ensures Possible(states'[k], events'[k]) && states'[k + 1] == Step(states'[k], events'[k])
    {
      assert states'[k] == states[k];
      if k < |events| { assert events'[k] == events[k] && states'[k + 1] == states[k + 1]; }
    }
  }
}

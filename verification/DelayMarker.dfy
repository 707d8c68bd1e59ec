/** The marker of the delayed jobs: "1", scored with the time a worker that pops it should wake. It
    is never late; it is early when the job it stood for has left the delayed set another way; and
    it is lost when the call of the worker that popped it finds something else to do. */
module DelayMarker {
  import opened Redis
  import opened Scores
  import opened Limiter
  import opened Queue
  import opened Machine
  import opened Fencing
  import opened Ranks
  import Partition

  /** The marker is not after the first delayed job. */
  predicate NeverLate(q: Queue) {
    q.marks.delay.Some? && q.at.delayed != [] ==> q.marks.delay.value <= q.at.delayed[0].score
  }

  /** Delayed jobs that no marker announces. */
  predicate Unannounced(q: Queue) {
    q.at.delayed != [] && q.marks.delay.None?
  }

  // ---------------------------------------------------------------- what a step does to the marker

  /** addDelayMarkerIfNeeded came last. */
  predicate Marked(q: Queue, r: Queue) {
    r.marks.delay == if r.at.delayed == [] then q.marks.delay else Some(r.at.delayed[0].score)
  }

  /** Jobs left the set at most, and the marker stayed as it was. */
  predicate Thinned(q: Queue, r: Queue) {
    r.marks.delay == q.marks.delay
    && (r.at.delayed != [] ==> q.at.delayed != [] && q.at.delayed[0].score <= r.at.delayed[0].score)
  }

  lemma {:induction false} ZremHead(z: Zset, m: nat)
    requires Ranked(z)
    ensures Zrem(z, m) != [] ==> z != [] && z[0].score <= Zrem(z, m)[0].score
  {
    if Zrem(z, m) != [] {
      var e := Zrem(z, m)[0];
      ZremEntries(z, m, e);
      var i :| 0 <= i < |z| && z[i] == e;
      assert i > 0 ==> Before(z[0], z[i]);
    }
  }

  lemma TailHead(z: Zset, n: nat)
    requires Ranked(z) && n <= |z|
    ensures z[n..] != [] ==> z != [] && z[0].score <= z[n..][0].score
  {
    if 0 < n < |z| { assert Before(z[0], z[n]); }
  }

  lemma {:induction false} PromoteEachKeepsMarks(q: Queue, ids: seq<JobId>)
    ensures var r := PromoteEach(q, ids); r.marks == q.marks && r.at.delayed == q.at.delayed
  {
    hide Zadd;
    if ids != [] {
      PromoteEachKeepsMarks(q, ids[..|ids| - 1]);
      var m := PromoteEach(q, ids[..|ids| - 1]);
      if HashOf(m, ids[|ids| - 1]).priority == 0 { return; }
    }
  }

  lemma PromoteThins(q: Queue, now: nat)
    requires Ranked(q.at.delayed)
    ensures Thinned(q, PromoteDelayed(q, now)) && PromoteDelayed(q, now).isPaused == q.isPaused
  {
    hide PromoteEach, Ranked;
    var n := DueCount(q, now);
    var d := q.(at := q.at.(delayed := q.at.delayed[n..]));
    TailHead(q.at.delayed, n);
    PromoteEachKeepsMarks(d, Members(q.at.delayed[..n]));
    Partition.PromoteEachFrame(d, Members(q.at.delayed[..n]));
    if n == 0 { return; }
  }

  /** A fetch sets the marker exactly if it finds a running queue with nothing to do, and otherwise
      leaves it. */
  lemma FetchMarks(q: Queue, s: Step)
    requires s.Fetch? && Ranked(q.at.delayed)
    ensures var r := Apply(q, s);
      if Fetching(q, s).Nothing? && !q.isPaused then Marked(q, r) else Thinned(q, r)
  {
    hide PromoteDelayed, Ranked;
    var p := PromoteDelayed(q, s.now);
    PromoteThins(q, s.now);
    var v := RateLimitTtl(s.limit, p.limiter, s.clock);
    if v.ttl > 0 { return; }
    if p.isPaused { return; }
    var r := p.(limiter := v.key);
    if NextJob(r).None? { return; }
    if r.at.wait != [] { return; }
  }

  lemma AddMarks(q: Queue, s: Step)
    requires s.AddStandard? || s.AddPrioritized? || s.AddDelayed? || s.AddParent?
    ensures Marked(q, Apply(q, s)) || Thinned(q, Apply(q, s))
  {
    hide Zadd, DelayedScore;
    match s {
      case AddStandard(id, opts, _, _) => if id in q.jobs || Holder(q, opts.deid).Some? { return; } return;
      case AddPrioritized(id, opts, _, _) => if id in q.jobs || Holder(q, opts.deid).Some? { return; } return;
      case AddDelayed(id, opts, _, _) => if id in q.jobs || Holder(q, opts.deid).Some? { return; } return;
      case AddParent(id, _, _, _) => if id in q.jobs { return; } return;
    }
  }

  lemma ExitMarks(q: Queue, s: Step)
    requires IsExit(s)
    ensures Marked(q, Apply(q, s)) || Thinned(q, Apply(q, s))
  {
    hide Zadd, DelayedScore, RemoveFirst;
    if Guard(q, s.id, s.token) != OK { return; }
    match s {
      case Finish(_, _, _, result, _) => if result.Completed? { return; } return;
      case Delay(_, _, _, _, _) => return;
      case Retry(_, _, right, _, priority) =>
        if priority == 0 && !right { return; }
        if priority > 0 { return; }
        return;
      case Return(id, _) =>
        if id !in q.at.active { return; }
        if HashOf(q, id).priority > 0 { return; }
        return;
    }
  }

  lemma ReleaseMarks(q: Queue, parent: JobId, child: JobKey, value: Payload, now: nat)
    ensures var r := ReleaseParent(q, parent, child, value, now); Marked(q, r) || Thinned(q, r)
  {
    hide Zadd, Zrem, DelayedScore;
    if child !in PendingChildren(q, parent) { return; }
    if PendingChildren(q, parent) == {child} && parent in q.jobs && Has(q.at.waitingChildren, parent) {
      if HashOf(RecordChild(q, parent, child, value), parent).delay > 0 { return; }
      if HashOf(RecordChild(q, parent, child, value), parent).priority > 0 { return; }
      return;
    }
  }

  lemma {:induction false} SweepEachKeepsMarks(q: Queue, ids: seq<JobId>, maxStalled: nat, now: nat)
    ensures var r := SweepEach(q, ids, maxStalled, now); r.marks == q.marks && r.at.delayed == q.at.delayed
  {
    hide Zadd, RemoveFirst;
    if ids != [] {
      var m, id := SweepEach(q, ids[..|ids| - 1], maxStalled, now), ids[|ids| - 1];
      SweepEachKeepsMarks(q, ids[..|ids| - 1], maxStalled, now);
      if id !in m.jobs { return; }
      if m.jobs[id].stc >= maxStalled { return; }
      if m.jobs[id].priority > 0 { return; }
    }
  }

  lemma SweepThins(q: Queue, order: seq<JobId>, maxStalled: nat, now: nat)
    ensures Thinned(q, SweepStalled(q, order, maxStalled, now))
  {
    hide SweepEach, Requeued;
    SweepEachKeepsMarks(Scanned(q), order, maxStalled, now);
  }

  lemma ReprioritizeThins(q: Queue, id: JobId, priority: nat)
    ensures Thinned(q, ChangePriority(q, id, priority).q)
  {
    hide Zadd, Zrem, RemoveAll;
    if id !in q.jobs { return; }
    if priority == 0 && q.jobs[id].priority == 0 { return; }
    if priority > 0 { return; }
  }

  lemma PromoteNowThins(q: Queue, id: JobId)
    requires Ranked(q.at.delayed)
    ensures Thinned(q, PromoteJob(q, id).q)
  {
    hide Zadd, Zrem, Ranked, Has;
    ZremHead(q.at.delayed, id);
    if !Has(q.at.delayed, id) { return; }
    if HashOf(q, id).priority > 0 { return; }
  }

  lemma MoveJobsThins(q: Queue, from: Source, count: nat, upTo: Option<nat>)
    requires Ranked(q.at.delayed)
    ensures Thinned(q, MoveJobsToWait(q, from, count, upTo).q)
  {
    hide ClearEach, Ranked, Matching, Reverse, Members;
    var z := SourceSet(q, from);
    var n := Min(Matching(z, upTo), count);
    if n == 0 { return; }
    Partition.ClearEachFrame(q, from, Members(z[..n]));
    match from {
      case FromFailed => return;
      case FromCompleted => return;
      case FromDelayed => TailHead(z, n); return;
    }
  }

  lemma StepMarks(q: Queue, s: Step)
    requires Ranked(q.at.delayed) && !s.PopDelayMarker?
    ensures Marked(q, Apply(q, s)) || Thinned(q, Apply(q, s))
  {
    hide AddStandardJob, AddPrioritizedJob, AddDelayedJob, AddParentJob, FetchNext, FinishJob, MoveToDelayed, RetryJob;
    hide ReleaseParent, SweepStalled, ChangePriority, PromoteJob, MoveJobsToWait, MoveActiveToWait, Ranked;
    if s.AddStandard? || s.AddPrioritized? || s.AddDelayed? || s.AddParent? { AddMarks(q, s); return; }
    if IsExit(s) { ExitMarks(q, s); return; }
    if s.Fetch? { FetchMarks(q, s); return; }
    match s {
      case AddChildren(_, _) => return;
      case Release(parent, child, value, now) => ReleaseMarks(q, parent, child, value, now); return;
      case Record(result, maxPoints, _) => if maxPoints.None? { return; } if result.Completed? { return; } return;
      case Extend(id, token) => if id in q.locks && q.locks[id] == token { return; } return;
      case ExpireLock(_) => return;
      case Sweep(order, maxStalled, now) => SweepThins(q, order, maxStalled, now); return;
      case Pause => return;
      case Resume => return;
      case Reprioritize(id, priority) => ReprioritizeThins(q, id, priority); return;
      case PromoteNow(id) => PromoteNowThins(q, id); return;
      case MoveJobs(from, count, upTo) => MoveJobsThins(q, from, count, upTo); return;
      case PopBaseMarker => return;
      case PutBaseMarker => return;
    }
  }

  // ---------------------------------------------------------------- never late

  lemma PopMarks(q: Queue, s: Step)
    requires s.PopDelayMarker?
    ensures Apply(q, s) == q.(marks := q.marks.(delay := None))
  {
  }

  lemma StepNeverLate(q: Queue, s: Step)
    requires Ranked(q.at.delayed) && NeverLate(q)
    ensures NeverLate(Apply(q, s))
  {
    hide Apply;
    if s.PopDelayMarker? { PopMarks(q, s); return; }
    StepMarks(q, s);
  }

  lemma {:induction false} RunNeverLate(q: Queue, steps: seq<Step>)
    requires AllRanked(q.at) && NeverLate(q)
    ensures AllRanked(Run(q, steps).at) && NeverLate(Run(q, steps))
  {
    hide Apply, NeverLate;
    RunStaysRanked(q, steps);
    if steps != [] {
      var init := steps[..|steps| - 1];
      RunNeverLate(q, init);
      StepNeverLate(Run(q, init), steps[|steps| - 1]);
    }
  }

  lemma DueHead(q: Queue, now: nat)
    requires q.at.delayed != []
    ensures DueCount(q, now) > 0 <==> q.at.delayed[0].score / SLOTS <= now
  {
    MarkerWakesOnTimeIff(q.at.delayed[0].score, now);
  }

  /** Main result: after every run, a worker that pops the marker does not sleep past the time any
      delayed job is due; and when it wakes at the marker, a job is due if and only if the marker and
      the first delayed job lie in the same millisecond. */
  lemma WakesInTime(q: Queue, steps: seq<Step>, now: nat)
    requires AllRanked(q.at) && NeverLate(q)
    requires var r := Run(q, steps); r.marks.delay.Some? && r.at.delayed != []
    ensures var r := Run(q, steps);
      var wake := r.marks.delay.value / SLOTS;
      && (DueCount(r, now) > 0 ==> wake <= now)
      && (DueCount(r, wake) > 0 <==> r.at.delayed[0].score / SLOTS == wake)
  {
    hide Run, AllRanked, DueCount;
    var r := Run(q, steps);
    RunNeverLate(q, steps);
    DueHead(r, now);
    DueHead(r, r.marks.delay.value / SLOTS);
    SlotsRise(r.marks.delay.value, r.at.delayed[0].score);
  }

  lemma SlotsRise(a: nat, b: nat)
    requires a <= b
    ensures a / SLOTS <= b / SLOTS
  {
  }

  // ---------------------------------------------------------------- early

  const LATER: Opts := Opts(10, 0, 1, None)
  const MUCH_LATER: Opts := Opts(20, 0, 1, None)

  /** Two delayed jobs; the first one is promoted by hand. */
  const PROMOTING: seq<Step> := [AddDelayed(1, LATER, 0, None), AddDelayed(2, MUCH_LATER, 0, None), PromoteNow(1)]

  lemma AddTwoDelayed()
    ensures var one := AddDelayedJob(EmptyQueue, 1, LATER, 0, None).q;
      var two := AddDelayedJob(one, 2, MUCH_LATER, 0, None).q;
      && one.at.delayed == [Entry(10 * SLOTS, 1)]
      && two.at.delayed == [Entry(10 * SLOTS, 1), Entry(20 * SLOTS, 2)] && two.marks.delay == Some(10 * SLOTS)
  {
    var z := [Entry(10 * SLOTS, 1)];
    assert Zrem(z, 2) == z by { assert Zrem([], 2) == []; }
    assert DelayedScore([], 10) == 10 * SLOTS;
    assert DelayedScore(z, 20) == 20 * SLOTS by { assert BucketTop([], 20 * SLOTS, 21 * SLOTS - 1) == None; }
    assert Insert([], Entry(20 * SLOTS, 2)) == [Entry(20 * SLOTS, 2)];
  }

  lemma PromoteFirst(two: Queue)
    requires two.at.delayed == [Entry(10 * SLOTS, 1), Entry(20 * SLOTS, 2)]
    ensures var r := PromoteJob(two, 1).q;
      r.at.delayed == [Entry(20 * SLOTS, 2)] && r.marks.delay == two.marks.delay
  {
    var z := two.at.delayed;
    assert Members(z) == [1] + Members([Entry(20 * SLOTS, 2)]);
    assert Zrem(z, 1) == [Entry(20 * SLOTS, 2)] by { assert Zrem([Entry(20 * SLOTS, 2)], 1) == [Entry(20 * SLOTS, 2)]; }
    hide Zadd;
    if HashOf(two, 1).priority > 0 { return; }
  }

  lemma ThreeSteps(q: Queue, a: Step, b: Step, c: Step)
    ensures Run(q, [a, b, c]) == Apply(Apply(Apply(q, a), b), c)
  {
    hide Apply;
    assert [a, b, c][..2] == [a, b] && [a, b][..1] == [a] && [a][..0] == [];
    assert Run(q, [a]) == Apply(q, a);
    assert Run(q, [a, b]) == Apply(Apply(q, a), b);
  }

  /** At the end of the run the marker still stands for the promoted job: waking at its time finds
      nothing due. */
  lemma PromotionLeavesEarlyMarker()
    ensures var q := Run(EmptyQueue, PROMOTING);
      && q.marks.delay == Some(10 * SLOTS) && q.at.delayed == [Entry(20 * SLOTS, 2)]
      && DueCount(q, 10) == 0
  {
    hide AddDelayedJob, PromoteJob, Run;
    var one := AddDelayedJob(EmptyQueue, 1, LATER, 0, None).q;
    var two := AddDelayedJob(one, 2, MUCH_LATER, 0, None).q;
    AddTwoDelayed();
    PromoteFirst(two);
    ThreeSteps(EmptyQueue, AddDelayed(1, LATER, 0, None), AddDelayed(2, MUCH_LATER, 0, None), PromoteNow(1));
    DueHead(Run(EmptyQueue, PROMOTING), 10);
  }

  // ---------------------------------------------------------------- lost

  /** A fetch for a popped marker loses it if and only if delayed jobs remain and the queue is paused
      or the fetch was limited or claimed a job. */
  lemma FetchLosesMarkerIff(q: Queue, s: Step)
    requires s.Fetch? && Ranked(q.at.delayed) && q.marks.delay.None?
    ensures Unannounced(Apply(q, s))
       <==> Apply(q, s).at.delayed != [] && (q.isPaused || !Fetching(q, s).Nothing?)
  {
    hide Apply, Fetching, Ranked;
    FetchMarks(q, s);
  }

  /** A delayed job, a waiting job, and a worker that pops the delayed job's marker and claims the
      waiting one. */
  const LOSING: seq<Step> :=
    [AddDelayed(1, LATER, 0, None), AddStandard(2, Opts(0, 0, 1, None), 0, None), PopDelayMarker, Fetch(5, 0, 0, None)]

  lemma PoppedState()
    ensures var q := Run(EmptyQueue, LOSING[..3]);
      && q.at.delayed == [Entry(10 * SLOTS, 1)] && q.at.wait == [2] && q.marks.delay == None
      && !q.isPaused && q.limiter == None
  {
    hide AddDelayedJob, Run;
    AddTwoDelayed();
    var one := AddDelayedJob(EmptyQueue, 1, LATER, 0, None).q;
    assert one.at.wait == [] && !one.isPaused && one.limiter == None && 2 !in one.jobs by { AddOneDelayed(); }
    assert LOSING[..3] == [LOSING[0], LOSING[1], LOSING[2]];
    ThreeSteps(EmptyQueue, LOSING[0], LOSING[1], LOSING[2]);
  }

  lemma AddOneDelayed()
    ensures var one := AddDelayedJob(EmptyQueue, 1, LATER, 0, None).q;
      one.at.wait == [] && !one.isPaused && one.limiter == None && 2 !in one.jobs
  {
    hide Zadd, DelayedScore;
  }

  /** At the end of the run nothing announces the delayed job. */
  lemma ClaimLosesMarker()
    ensures Unannounced(Run(EmptyQueue, LOSING)) && LOSING[2].PopDelayMarker?
  {
    hide Run;
    PoppedState();
    var q, s := Run(EmptyQueue, LOSING[..3]), LOSING[3];
    assert Run(EmptyQueue, LOSING) == Apply(q, s) by { LastStep(EmptyQueue, LOSING); }
    DueHead(q, 0);
    assert PromoteDelayed(q, 0) == q;
    FetchLosesMarkerIff(q, s);
  }

  lemma LastStep(q: Queue, steps: seq<Step>)
    requires steps != []
    ensures Run(q, steps) == Apply(Run(q, steps[..|steps| - 1]), steps[|steps| - 1])
  {
    hide Apply;
  }

  /** The fetch, if it is one, did not put the marker back. */
  predicate Passes(q: Queue, s: Step) {
    s.Fetch? ==> q.isPaused || !Fetching(q, s).Nothing?
  }

  /** The marker popped at step `k` was not put back since. */
  ghost predicate LostAt(q: Queue, steps: seq<Step>, k: nat) {
    && k < |steps| && steps[k].PopDelayMarker?
    && (forall j :: k < j < |steps| ==> Passes(Run(q, steps[..j]), steps[j]))
    && (forall j :: k < j <= |steps| ==> Unannounced(Run(q, steps[..j])))
  }

  lemma StepAnnounces(q: Queue, s: Step)
    requires Ranked(q.at.delayed) && Unannounced(Apply(q, s))
    ensures s.PopDelayMarker? || (Unannounced(q) && Passes(q, s))
  {
    hide Apply, Fetching, Ranked;
    if s.PopDelayMarker? { return; }
    StepMarks(q, s);
    if s.Fetch? { FetchMarks(q, s); }
  }

  /** Main result: delayed jobs are unannounced only since some worker popped the marker and every
      fetch from then on found a paused queue, was limited, or claimed a job. */
  lemma {:induction false} SilenceHasCause(q: Queue, steps: seq<Step>)
    requires AllRanked(q.at) && !Unannounced(q) && Unannounced(Run(q, steps))
    ensures exists k :: LostAt(q, steps, k)
  {
    hide Apply, Unannounced, Passes, AllRanked, Fetching;
    if steps != [] {
      var n := |steps| - 1;
      var init, s := steps[..n], steps[n];
      RunStaysRanked(q, init);
      RankedDelayed(Run(q, init).at);
      StepAnnounces(Run(q, init), s);
      assert steps[..|steps|] == steps;
      if s.PopDelayMarker? {
        assert LostAt(q, steps, n);
      } else {
        SilenceHasCause(q, init);
        var k :| LostAt(q, init, k);
        LostLonger(q, steps, k);
      }
    }
  }

  lemma RankedDelayed(p: Places)
    requires AllRanked(p)
    ensures Ranked(p.delayed)
  {
    hide Ranked;
  }

  lemma LostLonger(q: Queue, steps: seq<Step>, k: nat)
    requires steps != [] && LostAt(q, steps[..|steps| - 1], k)
    requires Unannounced(Run(q, steps)) && Passes(Run(q, steps[..|steps| - 1]), steps[|steps| - 1])
    ensures LostAt(q, steps, k)
  {
    hide Run, Unannounced, Passes;
    var n := |steps| - 1;
    var init := steps[..n];
    assert steps[..|steps|] == steps;
    forall j | k < j < |steps| ensures Passes(Run(q, steps[..j]), steps[j]) {
      if j < n {
        assert init[..j] == steps[..j];
        assert Passes(Run(q, init[..j]), init[j]);
      }
    }
    forall j | k < j <= |steps| ensures Unannounced(Run(q, steps[..j])) {
      if j <= n {
        assert init[..j] == steps[..j];
        assert Unannounced(Run(q, init[..j]));
      }
    }
  }
}

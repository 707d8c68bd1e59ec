/** Deduplication: at most one unfinished job per deduplication id, and adding another one
    changes nothing. Keys without a TTL; flows do not deduplicate. */
module Dedup {
  import opened Redis
  import opened Scores
  import opened Limiter
  import opened Queue
  import opened Machine
  import Partition
  import Frames

  /** Stored, and neither completed nor failed: this includes jobs the sweep gave up on. */
  predicate Unfinished(q: Queue, x: JobId) {
    x in q.jobs && !Has(q.at.completed, x) && !Has(q.at.failed, x)
  }

  /** An unfinished job holds the key of its deduplication id. */
  predicate HoldsKey(q: Queue, x: JobId) {
    Unfinished(q, x) && q.jobs[x].deid.Some? ==>
      q.jobs[x].deid.value in q.side.dedup && q.side.dedup[q.jobs[x].deid.value] == x
  }

  ghost predicate KeysHeld(q: Queue) {
    forall x :: HoldsKey(q, x)
  }

  /** No bulk retry of finished jobs, and no parent job with a deduplication id. */
  predicate Deduplicating(s: Step) {
    (s.MoveJobs? ==> s.from == FromDelayed) && (s.AddParent? ==> s.opts.deid.None?)
  }

  // ---------------------------------------------------------------- steps that leave the keys alone

  lemma UntouchedKeeps(q: Queue, r: Queue, x: JobId)
    requires HoldsKey(q, x) && r.side.dedup == q.side.dedup && HashOf(r, x).deid == HashOf(q, x).deid
    requires (Has(q.at.completed, x) ==> Has(r.at.completed, x)) && (Has(q.at.failed, x) ==> Has(r.at.failed, x))
    requires x in q.jobs ==> x in r.jobs
    ensures HoldsKey(r, x)
  {
    hide Has;
  }

  lemma ReleaseHolds(q: Queue, parent: JobId, child: JobKey, value: Payload, now: nat, x: JobId)
    requires HoldsKey(q, x)
    ensures HoldsKey(ReleaseParent(q, parent, child, value, now), x)
  {
    hide Zadd, Zrem, DelayedScore;
    if child !in PendingChildren(q, parent) { return; }
    if PendingChildren(q, parent) == {child} && parent in q.jobs && Has(q.at.waitingChildren, parent) {
      if HashOf(RecordChild(q, parent, child, value), parent).delay > 0 { return; }
      if HashOf(RecordChild(q, parent, child, value), parent).priority > 0 { return; }
      return;
    }
  }

  lemma MoveDelayedHolds(q: Queue, count: nat, upTo: Option<nat>, x: JobId)
    requires HoldsKey(q, x)
    ensures HoldsKey(MoveJobsToWait(q, FromDelayed, count, upTo).q, x)
  {
    hide ClearEach, Has;
    var n := Min(Matching(q.at.delayed, upTo), count);
    if n == 0 { return; }
    Partition.ClearNothing(q, Members(q.at.delayed[..n]));
  }

  lemma OtherHolds(q: Queue, s: Step, x: JobId)
    requires HoldsKey(q, x) && Deduplicating(s)
    requires s.AddParent? || s.AddChildren? || s.Release? || s.MoveJobs?
    ensures HoldsKey(Apply(q, s), x)
  {
    hide ReleaseParent, MoveJobsToWait, Zadd;
    match s {
      case AddParent(id, _, _, _) => if id in q.jobs { return; } return;
      case AddChildren(_, _) => return;
      case Release(parent, child, value, now) => ReleaseHolds(q, parent, child, value, now, x); return;
      case MoveJobs(_, count, upTo) => MoveDelayedHolds(q, count, upTo, x); return;
    }
  }

  lemma AddHolds(q: Queue, s: Step, x: JobId)
    requires s.AddStandard? || s.AddPrioritized? || s.AddDelayed?
    requires HoldsKey(q, x)
    ensures HoldsKey(Apply(q, s), x)
  {
    hide Zadd, DelayedScore;
    match s {
      case AddStandard(id, opts, _, _) => if id in q.jobs || Holder(q, opts.deid).Some? { return; } return;
      case AddPrioritized(id, opts, _, _) => if id in q.jobs || Holder(q, opts.deid).Some? { return; } return;
      case AddDelayed(id, opts, _, _) => if id in q.jobs || Holder(q, opts.deid).Some? { return; } return;
    }
  }

  lemma FinishHolds(q: Queue, id: JobId, token: Token, now: nat, result: Result, atm: nat, x: JobId)
    requires HoldsKey(q, x)
    ensures HoldsKey(FinishJob(q, id, token, now, result, atm).q, x)
  {
    hide Zadd, RemoveFirst, Has;
    if Guard(q, id, token) != OK { return; }
    ZaddHas(q.at.completed, now, id, x);
    ZaddHas(q.at.failed, now, id, x);
    if result.Completed? { return; }
  }

  lemma StepHolds(q: Queue, s: Step, x: JobId)
    requires KeysHeld(q) && Deduplicating(s)
    ensures HoldsKey(Apply(q, s), x)
  {
    hide FinishJob, HoldsKey;
    assert HoldsKey(q, x);
    if s.AddStandard? || s.AddPrioritized? || s.AddDelayed? { AddHolds(q, s, x); return; }
    if s.Finish? { FinishHolds(q, s.id, s.token, s.now, s.result, s.atm, x); return; }
    if s.AddParent? || s.AddChildren? || s.Release? || s.MoveJobs? { OtherHolds(q, s, x); return; }
    hide Apply;
    Frames.PassiveUntouched(q, s, x);
    UntouchedKeeps(q, Apply(q, s), x);
  }

  /** Over every run, an unfinished job holds the key of its deduplication id. */
  lemma {:induction false} RunHoldsKeys(q: Queue, steps: seq<Step>)
    requires KeysHeld(q) && forall i :: 0 <= i < |steps| ==> Deduplicating(steps[i])
    ensures KeysHeld(Run(q, steps))
  {
    hide Apply, HoldsKey, Deduplicating;
    if steps != [] {
      var init := steps[..|steps| - 1];
      RunHoldsKeys(q, init);
      forall x ensures HoldsKey(Run(q, steps), x) { StepHolds(Run(q, init), steps[|steps| - 1], x); }
    }
  }

  // ---------------------------------------------------------------- the promise to callers

  /** In a list or set that still leads to a run of the job. */
  predicate Open(q: Queue, x: JobId) {
    x in q.at.wait || x in q.at.paused || x in q.at.active || Has(q.at.prioritized, x) || Has(q.at.delayed, x)
  }

  lemma OpenIsUnfinished(q: Queue, x: JobId)
    requires Partition.Fits(q, x) && Open(q, x)
    ensures Unfinished(q, x)
  {
    hide Partition.Count, Partition.InList, Partition.InSet;
    Partition.CountParts(q.at, x);
    Partition.Present(q.at.wait, x); Partition.Present(q.at.paused, x); Partition.Present(q.at.active, x);
    Partition.PresentInSet(q.at.prioritized, x); Partition.PresentInSet(q.at.delayed, x);
    Partition.PresentInSet(q.at.completed, x); Partition.PresentInSet(q.at.failed, x);
  }

  predicate Carries(q: Queue, x: JobId, d: DedupId) {
    x in q.jobs && q.jobs[x].deid == Some(d)
  }

  lemma CarrierHolds(q: Queue, x: JobId, d: DedupId)
    requires HoldsKey(q, x) && Unfinished(q, x) && Carries(q, x, d)
    ensures Holder(q, Some(d)) == Some(x)
  {
    hide Unfinished;
  }

  /** Main result: after every safe run from an empty queue, at most one job per deduplication id
      is waiting, delayed or running, and any add of a new job with that id, of any kind,
      answers this job's id and leaves the whole queue as it is. */
  lemma {:induction false} OneOpenJobPerId(steps: seq<Step>, x: JobId, y: JobId, d: DedupId, newcomer: JobId,
      opts: Opts, ts: nat)
    requires forall i :: 0 <= i < |steps| ==> Deduplicating(steps[i])
    requires forall i :: 0 <= i < |steps| ==> Partition.Safe(Run(EmptyQueue, steps[..i]), steps[i])
    requires var q := Run(EmptyQueue, steps);
      Open(q, x) && Carries(q, x, d) && newcomer !in q.jobs && opts.deid == Some(d)
    ensures var q := Run(EmptyQueue, steps);
      && (Open(q, y) && Carries(q, y, d) ==> y == x)
      && AddStandardJob(q, newcomer, opts, ts, None) == Added(q, x)
      && AddPrioritizedJob(q, newcomer, opts, ts, None) == Added(q, x)
      && AddDelayedJob(q, newcomer, opts, ts, None) == Added(q, x)
  {
    hide Run, Partition.Safe, Partition.Fits, Open, Deduplicating, Unfinished, HoldsKey, Carries;
    var q := Run(EmptyQueue, steps);
    Partition.EmptyIsPartitioned();
    Partition.RunKeepsPartition(EmptyQueue, steps);
    EmptyHoldsKeys();
    RunHoldsKeys(EmptyQueue, steps);
    assert Partition.Fits(q, x) && Partition.Fits(q, y) && HoldsKey(q, x) && HoldsKey(q, y);
    OpenIsUnfinished(q, x);
    CarrierHolds(q, x, d);
    if Open(q, y) && Carries(q, y, d) {
      OpenIsUnfinished(q, y);
      CarrierHolds(q, y, d);
    }
  }

  lemma EmptyHoldsKeys()
    ensures KeysHeld(EmptyQueue)
  {
  }

  // ---------------------------------------------------------------- jobs the sweep gave up on

  /** Every kind of add of a new job with the id `d` is answered with `x` and changes nothing. */
  predicate Blocks(q: Queue, x: JobId, d: DedupId, newcomer: JobId, opts: Opts, ts: nat, parent: Option<JobKey>) {
    && AddStandardJob(q, newcomer, opts, ts, parent) == Added(q, x)
    && AddPrioritizedJob(q, newcomer, opts, ts, parent) == Added(q, x)
    && AddDelayedJob(q, newcomer, opts, ts, parent) == Added(q, x)
  }

  /** Stored with the id, and in no list or set. */
  predicate Gone(q: Queue, x: JobId, d: DedupId) {
    Carries(q, x, d) && Partition.Count(q.at, x) == 0
  }

  lemma GoneBlocks(q: Queue, x: JobId, d: DedupId, newcomer: JobId, opts: Opts, ts: nat, parent: Option<JobKey>)
    requires Gone(q, x, d) && HoldsKey(q, x) && newcomer !in q.jobs && opts.deid == Some(d)
    ensures Blocks(q, x, d, newcomer, opts, ts, parent)
  {
    hide Partition.InList, Partition.InSet;
    Partition.CountParts(q.at, x);
    Partition.PresentInSet(q.at.completed, x);
    Partition.PresentInSet(q.at.failed, x);
    hide Partition.Count;
    CarrierHolds(q, x, d);
  }

  /** The sweep gives up on a job without releasing its key: the job is in no list or set any
      more, and yet adds with its deduplication id are answered with the dead job. */
  lemma SweptOutJobBlocksItsId(q: Queue, order: seq<JobId>, maxStalled: nat, now: nat, id: JobId, d: DedupId,
                               newcomer: JobId, opts: Opts, ts: nat, parent: Option<JobKey>)
    requires Partition.Partitioned(q) && KeysHeld(q) && ListsOnce(order, q.stalled + Unlocked(q))
    requires id in order && Carries(q, id, d) && q.jobs[id].stc >= maxStalled && opts.deid == Some(d)
    requires newcomer !in q.jobs
    ensures var r := SweepStalled(q, order, maxStalled, now);
      Gone(r, id, d) && Blocks(r, id, d, newcomer, opts, ts, parent)
  {
    hide Partition.Count, SweepStalled, Blocks, HoldsKey;
    var r := SweepStalled(q, order, maxStalled, now);
    Partition.SweepPlaces(q, order, maxStalled, now, id);
    Partition.SweepPlaces(q, order, maxStalled, now, newcomer);
    Frames.SweepUntouched(q, order, maxStalled, now, id);
    assert HoldsKey(q, id);
    UntouchedKeeps(q, r, id);
    GoneBlocks(r, id, d, newcomer, opts, ts, parent);
  }

  /** A stored job keeps its hash and its deduplication id. */
  predicate KeepsId(q: Queue, r: Queue, x: JobId) {
    x in q.jobs ==> x in r.jobs && r.jobs[x].deid == q.jobs[x].deid
  }

  lemma AddKeepsId(q: Queue, s: Step, x: JobId)
    requires s.AddStandard? || s.AddPrioritized? || s.AddDelayed? || s.AddParent? || s.AddChildren?
    requires x in q.jobs
    ensures KeepsId(q, Apply(q, s), x) && Partition.Count(Apply(q, s).at, x) == Partition.Count(q.at, x)
  {
    hide Partition.Count, PushLeft, Prioritize, DelayUntil, Partition.InSet, Zadd;
    match s {
      case AddStandard(id, opts, ts, parent) =>
        if id in q.jobs || Holder(q, opts.deid).Some? { return; }
        Partition.PushPlaces(Stored(q, id, opts, ts, parent), id, x);
        Partition.PushLeftFrame(Stored(q, id, opts, ts, parent), id);
        return;
      case AddPrioritized(id, opts, ts, parent) =>
        if id in q.jobs || Holder(q, opts.deid).Some? { return; }
        Partition.PrioritizePlaces(Stored(q, id, opts, ts, parent), id, opts.priority, x);
        PrioritizeKeepsJobs(Stored(q, id, opts, ts, parent), id, opts.priority);
        return;
      case AddDelayed(id, opts, ts, parent) =>
        if id in q.jobs || Holder(q, opts.deid).Some? { return; }
        Partition.DelayPlaces(Stored(q, id, opts, ts, parent), id, DueTime(ts, opts.delay), x);
        DelayKeepsJobs(Stored(q, id, opts, ts, parent), id, DueTime(ts, opts.delay));
        return;
      case AddParent(id, _, ts, _) =>
        if id in q.jobs { return; }
        Partition.ZaddCount(q.at.waitingChildren, ts, id, x);
        Partition.CountUpdate(q.at, [], Zadd(q.at.waitingChildren, ts, id), x);
        return;
      case AddChildren(_, _) => return;
    }
  }

  lemma PrioritizeKeepsJobs(q: Queue, id: JobId, priority: nat)
    ensures Prioritize(q, id, priority).jobs == q.jobs
  {
    hide Zadd;
  }

  lemma DelayKeepsJobs(q: Queue, id: JobId, due: nat)
    ensures DelayUntil(q, id, due).jobs == q.jobs
  {
    hide Zadd, DelayedScore;
  }

  lemma {:induction false} ClearEachKeepsId(q: Queue, from: Source, ids: seq<JobId>, x: JobId)
    ensures KeepsId(q, ClearEach(q, from, ids), x)
  {
    if ids != [] {
      ClearEachKeepsId(q, from, ids[..|ids| - 1], x);
      if ids[|ids| - 1] !in ClearEach(q, from, ids[..|ids| - 1]).jobs { return; }
      match from {
        case FromFailed => return;
        case FromCompleted => return;
        case FromDelayed => return;
      }
    }
  }

  lemma MoveJobsKeepsId(q: Queue, from: Source, count: nat, upTo: Option<nat>, x: JobId)
    ensures KeepsId(q, MoveJobsToWait(q, from, count, upTo).q, x)
  {
    hide ClearEach, PushAllLeft, WithSource;
    var z := SourceSet(q, from);
    var n := Min(Matching(z, upTo), count);
    if n == 0 { return; }
    var c := ClearEach(q, from, Members(z[..n]));
    ClearEachKeepsId(q, from, Members(z[..n]), x);
    Partition.WithSourceFrame(c, from, z[n..]);
    Partition.PushAllLeftFrame(WithSource(c, from, z[n..]), Members(z[..n]));
  }

  lemma FinishKeepsId(q: Queue, id: JobId, token: Token, now: nat, result: Result, atm: nat, x: JobId)
    ensures KeepsId(q, FinishJob(q, id, token, now, result, atm).q, x)
  {
    hide Zadd, RemoveFirst;
    if Guard(q, id, token) != OK { return; }
    if result.Completed? { return; }
  }

  lemma ReleaseKeepsId(q: Queue, parent: JobId, child: JobKey, value: Payload, now: nat, x: JobId)
    ensures KeepsId(q, ReleaseParent(q, parent, child, value, now), x)
  {
    hide Zadd, Zrem, DelayedScore;
    if child !in PendingChildren(q, parent) { return; }
    if PendingChildren(q, parent) == {child} && parent in q.jobs && Has(q.at.waitingChildren, parent) {
      if HashOf(RecordChild(q, parent, child, value), parent).delay > 0 { return; }
      if HashOf(RecordChild(q, parent, child, value), parent).priority > 0 { return; }
      return;
    }
  }

  lemma StepKeepsId(q: Queue, s: Step, x: JobId)
    requires x in q.jobs
    ensures KeepsId(q, Apply(q, s), x)
  {
    hide Partition.Count, FinishJob, ReleaseParent, MoveJobsToWait, KeepsId;
    if s.AddStandard? || s.AddPrioritized? || s.AddDelayed? || s.AddParent? || s.AddChildren? {
      AddKeepsId(q, s, x);
      return;
    }
    if s.Finish? { FinishKeepsId(q, s.id, s.token, s.now, s.result, s.atm, x); return; }
    if s.Release? { ReleaseKeepsId(q, s.parentId, s.child, s.value, s.now, x); return; }
    if s.MoveJobs? { MoveJobsKeepsId(q, s.from, s.count, s.upTo, x); return; }
    hide Apply;
    Frames.PassiveUntouched(q, s, x);
    UntouchedKeepsId(q, Apply(q, s), x);
  }

  lemma UntouchedKeepsId(q: Queue, r: Queue, x: JobId)
    requires Frames.Untouched(q, r, x)
    ensures KeepsId(q, r, x)
  {
    hide Has;
  }

  lemma ExitKeepsCount(q: Queue, s: Step, x: JobId)
    requires Partition.Partitioned(q) && Partition.Safe(q, s) && IsExit(s)
    ensures Partition.Count(Apply(q, s).at, x) == Partition.Count(q.at, x)
  {
    hide Partition.Count, Partition.Fits, FinishJob, MoveToDelayed, RetryJob, MoveActiveToWait;
    assert Partition.Fits(q, x) && Partition.Fits(q, s.id);
    match s {
      case Finish(id, token, now, result, atm) => Partition.FinishFits(q, id, token, now, result, atm, x); return;
      case Delay(id, token, now, due, atm) => Partition.DelayFits(q, id, token, now, due, atm, x); return;
      case Retry(id, token, right, atm, priority) =>
        Partition.RetryFits(q, id, token, right, atm, priority, x);
        return;
      case Return(id, token) => Partition.ReturnFits(q, id, token, x); return;
    }
  }

  lemma ReprioritizeCounts(q: Queue, id: JobId, priority: nat, x: JobId)
    requires Partition.Partitioned(q) && Partition.InExpectedPlace(q, id, priority)
    ensures var n, m := Partition.Count(q.at, x), Partition.Count(ChangePriority(q, id, priority).q.at, x);
      (x != id ==> m == n) && (n == 1 ==> m == 1)
  {
    hide Partition.Count, ChangePriority, Partition.InExpectedPlace;
    if id !in q.jobs { Partition.MissingJobIsKept(q, id, priority); return; }
    assert Partition.Fits(q, id) && Partition.Fits(q, x);
    Partition.ChangePriorityPlaces(q, id, priority, x);
  }

  /** The step is a sweep that gives up on `x`. */
  predicate GivesUp(q: Queue, s: Step, x: JobId) {
    s.Sweep? && x in s.order && x in q.jobs && q.jobs[x].stc >= s.maxStalled
  }

  predicate Reprioritizes(s: Step, x: JobId) {
    s.Reprioritize? && s.id == x
  }

  /** Only a sweep that gives up on a stored job takes it out of its place for good, and only a
      change of its priority puts a job that is nowhere back into line. */
  lemma StepCounts(q: Queue, s: Step, x: JobId)
    requires Partition.Partitioned(q) && Partition.Safe(q, s) && x in q.jobs
    ensures var n, m := Partition.Count(q.at, x), Partition.Count(Apply(q, s).at, x);
      if GivesUp(q, s, x) then n == 1 && m == 0
      else (n == 1 ==> m == 1) && (n == 0 && !Reprioritizes(s, x) ==> m == 0)
  {
    hide Partition.Count, Partition.Fits, AddStandardJob, AddPrioritizedJob, AddDelayedJob, AddParentJob;
    hide FetchNext, FinishJob;
    hide ReleaseParent, MoveToDelayed, RetryJob, MoveActiveToWait, PauseQueue, ResumeQueue, PromoteJob, MoveJobsToWait;
    hide SweepStalled, ChangePriority, KeepsId, Partition.InExpectedPlace, Partition.SweepFindsLocked;
    assert Partition.Fits(q, x);
    if s.AddStandard? || s.AddPrioritized? || s.AddDelayed? || s.AddParent? || s.AddChildren? {
      AddKeepsId(q, s, x);
      return;
    }
    if IsExit(s) { ExitKeepsCount(q, s, x); return; }
    match s {
      case Fetch(token, now, clock, limit) => Partition.FetchFits(q, token, now, clock, limit, x); return;
      case Release(parent, child, value, now) =>
        assert Partition.Fits(q, parent);
        Partition.ReleaseFits(q, parent, child, value, now, x);
        return;
      case Sweep(order, maxStalled, now) => Partition.SweepPlaces(q, order, maxStalled, now, x); return;
      case Pause => Partition.PauseFits(q, x); return;
      case Resume => Partition.PauseFits(q, x); return;
      case Reprioritize(id, priority) => ReprioritizeCounts(q, id, priority, x); return;
      case PromoteNow(id) => assert Partition.Fits(q, id); Partition.PromoteNowFits(q, id, x); return;
      case MoveJobs(from, count, upTo) => Partition.MoveJobsFits(q, from, count, upTo, x); return;
      case _ => return;
    }
  }

  // ---------------------------------------------------------------- when a key outlives its job

  /** A sweep, safe or not, leaves a key to a job that is nowhere if and only if it gives up on the
      job. */
  lemma SweepOrphansIff(q: Queue, order: seq<JobId>, maxStalled: nat, now: nat, id: JobId, d: DedupId)
    requires Partition.Partitioned(q) && ListsOnce(order, q.stalled + Unlocked(q))
    requires Carries(q, id, d) && Partition.Count(q.at, id) == 1
    ensures Gone(SweepStalled(q, order, maxStalled, now), id, d)
       <==> id in order && q.jobs[id].stc >= maxStalled
  {
    hide Partition.Partitioned, Partition.Count, SweepStalled;
    Partition.SweepPlaces(q, order, maxStalled, now, id);
    Frames.SweepUntouched(q, order, maxStalled, now, id);
  }

  ghost predicate GivenUpAt(q: Queue, steps: seq<Step>, k: nat, x: JobId) {
    k < |steps| && GivesUp(Run(q, steps[..k]), steps[k], x)
  }

  /** Some sweep of the run gives up on `x`. */
  ghost predicate IsGivenUp(q: Queue, steps: seq<Step>, x: JobId) {
    exists k :: GivenUpAt(q, steps, k, x)
  }

  lemma GivenUpEarlier(q: Queue, steps: seq<Step>, x: JobId)
    requires steps != []
    ensures var init := steps[..|steps| - 1];
      IsGivenUp(q, steps, x) <==> IsGivenUp(q, init, x) || GivesUp(Run(q, init), steps[|steps| - 1], x)
  {
    hide GivesUp, Run;
    var n := |steps| - 1;
    var init := steps[..n];
    forall k | 0 <= k < n ensures GivenUpAt(q, steps, k, x) <==> GivenUpAt(q, init, k, x) {
      assert init[..k] == steps[..k];
    }
    if GivesUp(Run(q, init), steps[n], x) { assert GivenUpAt(q, steps, n, x); }
    if k :| GivenUpAt(q, init, k, x) { assert GivenUpAt(q, steps, k, x); }
    if k :| GivenUpAt(q, steps, k, x) { assert k == n || GivenUpAt(q, init, k, x); }
  }

  /** Main result: along every safe run that leaves its priority alone, a job in its place ends up
      nowhere, still carrying its id, if and only if some sweep of the run gave up on it. */
  lemma {:induction false} OrphanedIffGivenUp(q: Queue, steps: seq<Step>, x: JobId, d: DedupId)
    requires Partition.Partitioned(q) && Carries(q, x, d) && Partition.Count(q.at, x) == 1
    requires forall i :: 0 <= i < |steps| ==>
               Partition.Safe(Run(q, steps[..i]), steps[i]) && !Reprioritizes(steps[i], x)
    ensures Gone(Run(q, steps), x, d) <==> IsGivenUp(q, steps, x)
    ensures var r := Run(q, steps);
      Partition.Partitioned(r) && Carries(r, x, d) && Partition.Count(r.at, x) <= 1
  {
    hide Partition.Partitioned, Partition.Safe, Partition.Count, Apply, GivesUp, Reprioritizes;
    if steps != [] {
      var init, s := steps[..|steps| - 1], steps[|steps| - 1];
      forall i | 0 <= i < |init|
        ensures Partition.Safe(Run(q, init[..i]), init[i]) && !Reprioritizes(init[i], x)
      {
        assert init[..i] == steps[..i];
        assert Partition.Safe(Run(q, steps[..i]), steps[i]) && !Reprioritizes(steps[i], x);
      }
      OrphanedIffGivenUp(q, init, x, d);
      assert Partition.Safe(Run(q, steps[..|steps| - 1]), steps[|steps| - 1]) && !Reprioritizes(s, x);
      GivenUpEarlier(q, steps, x);
      StepCounts(Run(q, init), s, x);
      StepKeepsId(Run(q, init), s, x);
      Partition.StepKeepsPartition(Run(q, init), s);
    }
  }

  /** The steps of a run that deduplicates and does not change the priority of `x`. */
  predicate Ignores(s: Step, x: JobId) {
    Deduplicating(s) && !Reprioritizes(s, x)
  }

  lemma {:induction false} RunKeepsGone(q: Queue, steps: seq<Step>, x: JobId, d: DedupId)
    requires Partition.Partitioned(q) && KeysHeld(q) && Gone(q, x, d)
    requires forall i :: 0 <= i < |steps| ==> Partition.Safe(Run(q, steps[..i]), steps[i]) && Ignores(steps[i], x)
    ensures Partition.Partitioned(Run(q, steps)) && KeysHeld(Run(q, steps)) && Gone(Run(q, steps), x, d)
  {
    hide Partition.Partitioned, Partition.Safe, Partition.Count, KeysHeld, Apply, Ignores;
    if steps != [] {
      var init, s := steps[..|steps| - 1], steps[|steps| - 1];
      forall i | 0 <= i < |init| ensures Partition.Safe(Run(q, init[..i]), init[i]) && Ignores(init[i], x) {
        assert init[..i] == steps[..i];
        assert Partition.Safe(Run(q, steps[..i]), steps[i]);
      }
      RunKeepsGone(q, init, x, d);
      assert Partition.Safe(Run(q, steps[..|steps| - 1]), steps[|steps| - 1]) && Ignores(steps[|steps| - 1], x);
      OneStepKeepsGone(Run(q, init), s, x, d);
    }
  }

  lemma OneStepKeepsGone(q: Queue, s: Step, x: JobId, d: DedupId)
    requires Partition.Partitioned(q) && KeysHeld(q) && Gone(q, x, d) && Partition.Safe(q, s) && Ignores(s, x)
    ensures Partition.Partitioned(Apply(q, s)) && KeysHeld(Apply(q, s)) && Gone(Apply(q, s), x, d)
  {
    hide Partition.Partitioned, Partition.Safe, Partition.Count, HoldsKey, Apply;
    Partition.StepKeepsPartition(q, s);
    forall y ensures HoldsKey(Apply(q, s), y) { StepHolds(q, s, y); }
    StepCounts(q, s, x);
    StepKeepsId(q, s, x);
  }

  /** Main result: once the sweep has given up on a job, every later add of a new job with its
      deduplication id, of any kind and along every safe run, is answered with the dead job, unless
      somebody changes that job's priority. */
  lemma GivenUpJobBlocksForever(q: Queue, sweep: Step, later: seq<Step>, id: JobId, d: DedupId,
                                newcomer: JobId, opts: Opts, ts: nat, parent: Option<JobKey>)
    requires Partition.Partitioned(q) && KeysHeld(q) && sweep.Sweep? && Partition.Safe(q, sweep)
    requires id in sweep.order && Carries(q, id, d) && q.jobs[id].stc >= sweep.maxStalled && opts.deid == Some(d)
    requires forall i :: 0 <= i < |later| ==>
               Partition.Safe(Run(Apply(q, sweep), later[..i]), later[i]) && Ignores(later[i], id)
    requires newcomer !in Run(Apply(q, sweep), later).jobs
    ensures Gone(Run(Apply(q, sweep), later), id, d)
    ensures Blocks(Run(Apply(q, sweep), later), id, d, newcomer, opts, ts, parent)
  {
    hide Run, Partition.Partitioned, Partition.Count, Partition.SweepFindsLocked, Blocks, HoldsKey, Ignores;
    hide SweepStalled;
    var r := Apply(q, sweep);
    assert Possible(q, sweep);
    assert r == SweepStalled(q, sweep.order, sweep.maxStalled, sweep.now);
    Partition.StepKeepsPartition(q, sweep);
    forall y ensures HoldsKey(r, y) { StepHolds(q, sweep, y); }
    hide Partition.Safe;
    SweptOutIsGone(q, sweep, id, d);
    RunKeepsGone(r, later, id, d);
    assert HoldsKey(Run(r, later), id);
    GoneBlocks(Run(r, later), id, d, newcomer, opts, ts, parent);
  }

  lemma SweptOutIsGone(q: Queue, sweep: Step, id: JobId, d: DedupId)
    requires Partition.Partitioned(q) && sweep.Sweep? && Possible(q, sweep)
    requires id in sweep.order && Carries(q, id, d) && q.jobs[id].stc >= sweep.maxStalled
    ensures Gone(Apply(q, sweep), id, d)
  {
    hide Partition.Partitioned, Partition.Count, SweepStalled;
    Partition.SweepPlaces(q, sweep.order, sweep.maxStalled, sweep.now, id);
    Frames.SweepUntouched(q, sweep.order, sweep.maxStalled, sweep.now, id);
  }
}

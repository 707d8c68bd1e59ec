/** The metrics over runs of the queue: finished jobs are counted in the metrics of their outcome,
    and each of the two is the histogram of its own finish times. */
module Recording {
  import opened Redis
  import opened Limiter
  import opened Queue
  import opened Machine
  import opened Fencing
  import M = Metrics
  import Flow
  import Rates

  /** One finished job raises the total of its outcome by one, and nothing else changes. */
  lemma RecordCounts(q: Queue, result: Result, maxPoints: nat, now: nat)
    ensures var r := RecordMetrics(q, result, Some(maxPoints), now);
      && (result.Completed? ==>
            r.side.completedMetrics.count == q.side.completedMetrics.count + 1
            && r.side.failedMetrics == q.side.failedMetrics)
      && (result.Failed? ==>
            r.side.failedMetrics.count == q.side.failedMetrics.count + 1
            && r.side.completedMetrics == q.side.completedMetrics)
      && r == q.(side := q.side.(completedMetrics := r.side.completedMetrics, failedMetrics := r.side.failedMetrics))
    ensures RecordMetrics(q, result, None, now) == q
  {
    if result.Completed? { return; }
  }

  lemma FetchKeepsMetrics(q: Queue, token: Token, now: nat, clock: nat, limit: Option<Limit>)
    ensures var r := FetchNext(q, token, now, clock, limit).q;
      r.side.completedMetrics == q.side.completedMetrics && r.side.failedMetrics == q.side.failedMetrics
  {
    hide PromoteDelayed;
    var p := PromoteDelayed(q, now);
    Rates.PromoteKeepsCounters(q, now);
    var v := RateLimitTtl(limit, p.limiter, clock);
    if v.ttl > 0 { return; }
    if p.isPaused { return; }
    var r := p.(limiter := v.key);
    if NextJob(r).None? { return; }
    if r.at.wait != [] { return; }
  }

  // ---------------------------------------------------------------- runs

  /** When the jobs of one outcome were recorded. */
  function Times(steps: seq<Step>, completed: bool): seq<nat> {
    if steps == [] then []
    else
      var s := steps[|steps| - 1];
      Times(steps[..|steps| - 1], completed) + (if s.Record? && s.result.Completed? == completed then [s.now] else [])
  }

  /** Every finished job is recorded with the same number of data points. */
  predicate Uniform(s: Step, maxPoints: nat) {
    s.Record? ==> s.maxPoints == Some(maxPoints)
  }

  predicate MetricsAre(q: Queue, completed: M.Metrics, failed: M.Metrics) {
    q.side.completedMetrics == completed && q.side.failedMetrics == failed
  }

  lemma StepCollects(q: Queue, s: Step, maxPoints: nat, done: seq<nat>, failed: seq<nat>)
    requires Uniform(s, maxPoints)
    requires MetricsAre(q, M.CollectAll(maxPoints, done), M.CollectAll(maxPoints, failed))
    ensures var done' := done + (if s.Record? && s.result.Completed? then [s.now] else []);
      var failed' := failed + (if s.Record? && s.result.Failed? then [s.now] else []);
      MetricsAre(Apply(q, s), M.CollectAll(maxPoints, done'), M.CollectAll(maxPoints, failed'))
  {
    assert done + [] == done && failed + [] == failed;
    if s.Record? {
      CollectMore(maxPoints, done, s.now);
      CollectMore(maxPoints, failed, s.now);
      RecordApplies(q, s, maxPoints);
      hide Apply, M.CollectAll, M.Collect;
      if s.result.Completed? { return; }
      return;
    }
    if s.Fetch? { FetchKeepsMetrics(q, s.token, s.now, s.clock, s.limit); FetchStepApplies(q, s); hide Apply; return; }
    hide Apply, M.CollectAll;
    Rates.OthersKeepCounters(q, s);
  }

  lemma RecordApplies(q: Queue, s: Step, maxPoints: nat)
    requires s.Record? && s.maxPoints == Some(maxPoints)
    ensures var r, side := Apply(q, s), q.side;
      if s.result.Completed?
      then MetricsAre(r, M.Collect(side.completedMetrics, maxPoints, s.now), side.failedMetrics)
      else MetricsAre(r, side.completedMetrics, M.Collect(side.failedMetrics, maxPoints, s.now))
  {
    hide M.Collect;
    if s.result.Completed? { return; }
  }

  lemma FetchStepApplies(q: Queue, s: Step)
    requires s.Fetch?
    ensures Apply(q, s) == FetchNext(q, s.token, s.now, s.clock, s.limit).q
  {
    hide FetchNext;
  }

  lemma CollectMore(maxPoints: nat, times: seq<nat>, now: nat)
    ensures M.CollectAll(maxPoints, times + [now]) == M.Collect(M.CollectAll(maxPoints, times), maxPoints, now)
  {
    assert (times + [now])[..|times|] == times;
  }

  lemma {:induction false} RunCollects(steps: seq<Step>, maxPoints: nat)
    requires forall i :: 0 <= i < |steps| ==> Uniform(steps[i], maxPoints)
    ensures MetricsAre(Run(EmptyQueue, steps), M.CollectAll(maxPoints, Times(steps, true)),
                       M.CollectAll(maxPoints, Times(steps, false)))
  {
    hide Apply, Uniform, M.Collect;
    if steps != [] {
      var init, s := steps[..|steps| - 1], steps[|steps| - 1];
      RunCollects(init, maxPoints);
      assert Uniform(s, maxPoints);
      StepCollects(Run(EmptyQueue, init), s, maxPoints, Times(init, true), Times(init, false));
    }
  }

  /** In order, and no two successive ones more than `maxPoints` minutes apart. */
  predicate Steady(times: seq<nat>, maxPoints: nat) {
    && M.NonDecreasing(times)
    && (forall i :: 0 < i < |times| ==> times[i] / M.MINUTE - times[i - 1] / M.MINUTE <= maxPoints)
  }

  /** Main result: over every run whose finished jobs are recorded in order, the completed metrics
      are the histogram of the completed jobs, and the failed metrics that of the failed ones. */
  lemma MetricsAreHistograms(steps: seq<Step>, maxPoints: nat)
    requires forall i :: 0 <= i < |steps| ==> Uniform(steps[i], maxPoints)
    requires Steady(Times(steps, true), maxPoints) && Steady(Times(steps, false), maxPoints)
    ensures var side := Run(EmptyQueue, steps).side;
      && M.Histogram(side.completedMetrics, maxPoints, Times(steps, true))
      && M.Histogram(side.failedMetrics, maxPoints, Times(steps, false))
  {
    hide Run, M.CollectAll, M.Histogram, Times, Uniform;
    RunCollects(steps, maxPoints);
    M.MetricsAreHistogram(maxPoints, Times(steps, true));
    M.MetricsAreHistogram(maxPoints, Times(steps, false));
  }

  // ---------------------------------------------------------------- the whole of moveToFinished

  predicate SameMetrics(q: Queue, r: Queue) {
    r.side.completedMetrics == q.side.completedMetrics && r.side.failedMetrics == q.side.failedMetrics
  }

  lemma FinishKeepsMetrics(q: Queue, id: JobId, token: Token, now: nat, result: Result, atm: nat)
    ensures SameMetrics(q, FinishJob(q, id, token, now, result, atm).q)
  {
    Rates.ExitKeepsCounters(q, Finish(id, token, now, result, atm));
    hide FinishJob;
  }

  /** The world once the parent, if there is one to tell, was told. */
  function Told(w: Flow.World, job: JobKey, result: Result, now: nat): Flow.World {
    if result.Completed? && Flow.ParentOf(w, job).Some?
    then Flow.TellParent(w, Flow.ParentOf(w, job).value, job, result.value, now) else w
  }

  lemma ToldKeepsMetrics(w: Flow.World, job: JobKey, result: Result, now: nat, k: QueueId)
    ensures SameMetrics(Flow.At(w, k), Flow.At(Told(w, job, result, now), k))
  {
    hide ReleaseParent, Flow.ParentOf;
    if result.Completed? && Flow.ParentOf(w, job).Some? {
      var p := Flow.ParentOf(w, job).value;
      Rates.ReleaseKeepsCounters(Flow.At(w, p.queue), p.id, job, result.value, now);
    }
  }

  /** `n` more of the outcome of `result`, none of the other. */
  predicate Counts(q: Queue, r: Queue, result: Result, n: nat) {
    && r.side.completedMetrics.count == q.side.completedMetrics.count + (if result.Completed? then n else 0)
    && r.side.failedMetrics.count == q.side.failedMetrics.count + (if result.Failed? then n else 0)
  }

  lemma RecordedOnce(q: Queue, result: Result, maxPoints: Option<nat>, now: nat)
    ensures Counts(q, RecordMetrics(q, result, maxPoints, now), result, if maxPoints.Some? then 1 else 0)
  {
    RecordCounts(q, result, if maxPoints.Some? then maxPoints.value else 0, now);
    hide RecordMetrics;
    if maxPoints.Some? { return; }
  }

  lemma CountsAlike(q: Queue, left: Queue, told: Queue, counted: Queue, r: Queue, result: Result, n: nat)
    requires SameMetrics(q, left) && SameMetrics(left, told) && Counts(told, counted, result, n)
    requires SameMetrics(counted, r)
    ensures Counts(q, r, result, n)
  {
  }

  /** Finishing a job, with its parent told and the next job fetched, counts exactly this job, once,
      in the metrics of its queue and outcome, and in those of no other queue. */
  lemma FinishedJobIsCounted(w: Flow.World, m: Flow.Move, k: QueueId)
    requires m.Finished? && Guard(Flow.At(w, m.job.queue), m.job.id, m.token) == OK
    ensures Counts(Flow.At(w, k), Flow.At(Flow.Act(w, m), k), m.result,
                   if k == m.job.queue && m.maxPoints.Some? then 1 else 0)
  {
    var job, h := m.job, m.job.queue;
    var o := FinishJob(Flow.At(w, h), job.id, m.token, m.now, m.result, m.atm);
    assert o.code == OK;
    hide FinishJob, Flow.TellParent, FetchNext, RecordMetrics, Flow.ParentOf, Counts, SameMetrics, Guard;
    var left := w[h := o.q];
    FinishKeepsMetrics(Flow.At(w, h), job.id, m.token, m.now, m.result, m.atm);
    var told := Told(left, job, m.result, m.now);
    ToldKeepsMetrics(left, job, m.result, m.now, k);
    var counted := told[h := RecordMetrics(Flow.At(told, h), m.result, m.maxPoints, m.now)];
    RecordedOnce(Flow.At(told, h), m.result, m.maxPoints, m.now);
    assert Flow.At(counted, h) == RecordMetrics(Flow.At(told, h), m.result, m.maxPoints, m.now);
    Unchanged(Flow.At(w, k), m.result);
    Unchanged(Flow.At(told, k), m.result);
    Unchanged(Flow.At(counted, k), m.result);
    var r := Flow.Act(w, m);
    assert r == if m.fetch.None? then counted
                else counted[h := FetchNext(Flow.At(counted, h), m.token, m.now, m.fetch.value.clock,
                                            m.fetch.value.limit).q] by { hide Flow.At; }
    assert SameMetrics(Flow.At(counted, k), Flow.At(r, k)) by {
      if m.fetch.Some? && k == h {
        FetchSame(Flow.At(counted, h), m.token, m.now, m.fetch.value.clock, m.fetch.value.limit);
      }
    }
    hide Flow.Act, Told;
    CountsAlike(Flow.At(w, k), Flow.At(left, k), Flow.At(told, k), Flow.At(counted, k), Flow.At(r, k), m.result,
                if k == h && m.maxPoints.Some? then 1 else 0);
  }

  lemma Unchanged(q: Queue, result: Result)
    ensures SameMetrics(q, q) && Counts(q, q, result, 0)
  {
  }

  lemma FetchSame(q: Queue, token: Token, now: nat, clock: nat, limit: Option<Limit>)
    ensures SameMetrics(q, FetchNext(q, token, now, clock, limit).q)
  {
    hide FetchNext;
    FetchKeepsMetrics(q, token, now, clock, limit);
  }
}

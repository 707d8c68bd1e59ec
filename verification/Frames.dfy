/** What most scripts leave alone: deduplication keys, dependency keys, waiting-children, and
    what a job's hash says about its parent and its deduplication id. */
module Frames {
  import opened Redis
  import opened Scores
  import opened Limiter
  import opened Queue
  import opened Machine

  /** As seen from `x`. A hash that a script creates by writing a field has neither parent nor
      deduplication id. */
  predicate Untouched(q: Queue, r: Queue, x: JobId) {
    && r.side.dedup == q.side.dedup && r.side.dependencies == q.side.dependencies
    && r.side.processed == q.side.processed
    && r.at.waitingChildren == q.at.waitingChildren
    && HashOf(r, x).deid == HashOf(q, x).deid && HashOf(r, x).parent == HashOf(q, x).parent
    && (x in q.jobs ==> x in r.jobs)
    && (Has(q.at.completed, x) ==> Has(r.at.completed, x))
    && (Has(q.at.failed, x) ==> Has(r.at.failed, x))
  }

  /** Every step but adding, finishing, releasing a parent and moving in bulk. */
  predicate Passive(s: Step) {
    s.Fetch? || s.Record? || s.Delay? || s.Retry? || s.Return? || s.Extend? || s.ExpireLock? || s.Sweep? || s.Pause?
    || s.Resume? || s.Reprioritize? || s.PromoteNow? || s.PopBaseMarker? || s.PopDelayMarker? || s.PutBaseMarker?
  }

  lemma {:induction false} PromoteEachUntouched(q: Queue, ids: seq<JobId>, x: JobId)
    ensures Untouched(q, PromoteEach(q, ids), x)
  {
    hide PromoteOne, Has;
    if ids != [] {
      PromoteEachUntouched(q, ids[..|ids| - 1], x);
      PromoteOneUntouched(PromoteEach(q, ids[..|ids| - 1]), ids[|ids| - 1], x);
    }
  }

  lemma PromoteOneUntouched(q: Queue, id: JobId, x: JobId)
    ensures Untouched(q, PromoteOne(q, id), x)
  {
    hide Zadd, Has;
    if HashOf(q, id).priority == 0 { return; }
  }

  lemma PromoteUntouched(q: Queue, now: nat, x: JobId)
    ensures Untouched(q, PromoteDelayed(q, now), x)
  {
    hide PromoteEach, Has;
    var n := DueCount(q, now);
    PromoteEachUntouched(q.(at := q.at.(delayed := q.at.delayed[n..])), Members(q.at.delayed[..n]), x);
    if n == 0 { return; }
  }

  lemma FetchUntouched(q: Queue, token: Token, now: nat, clock: nat, limit: Option<Limit>, x: JobId)
    ensures Untouched(q, FetchNext(q, token, now, clock, limit).q, x)
  {
    hide PromoteDelayed, Has;
    PromoteUntouched(q, now, x);
    var p := PromoteDelayed(q, now);
    var v := RateLimitTtl(limit, p.limiter, clock);
    if v.ttl > 0 { return; }
    if p.isPaused { return; }
    var r := p.(limiter := v.key);
    if NextJob(r).None? { return; }
    if r.at.wait != [] { return; }
  }

  lemma {:induction false} SweepEachUntouched(q: Queue, ids: seq<JobId>, maxStalled: nat, now: nat, x: JobId)
    ensures Untouched(q, SweepEach(q, ids, maxStalled, now), x)
  {
    hide SweepOne, Has;
    if ids != [] {
      SweepEachUntouched(q, ids[..|ids| - 1], maxStalled, now, x);
      SweepOneUntouched(SweepEach(q, ids[..|ids| - 1], maxStalled, now), ids[|ids| - 1], maxStalled, now, x);
    }
  }

  lemma SweepOneUntouched(q: Queue, id: JobId, maxStalled: nat, now: nat, x: JobId)
    ensures Untouched(q, SweepOne(q, id, maxStalled, now), x)
  {
    hide Zadd, Has;
    if id !in q.jobs { return; }
    if q.jobs[id].stc >= maxStalled { return; }
    if q.jobs[id].priority > 0 { return; }
  }

  lemma DelayUntouched(q: Queue, id: JobId, token: Token, now: nat, due: nat, atm: nat, x: JobId)
    ensures Untouched(q, MoveToDelayed(q, id, token, now, due, atm).q, x)
  {
    hide Zadd, DelayedScore, RemoveFirst, Has;
    if Guard(q, id, token) != OK { return; }
  }

  lemma RetryUntouched(q: Queue, id: JobId, token: Token, right: bool, atm: nat, priority: nat, x: JobId)
    ensures Untouched(q, RetryJob(q, id, token, right, atm, priority).q, x)
  {
    hide Zadd, RemoveFirst, Has;
    if Guard(q, id, token) != OK { return; }
    if priority == 0 && !right { return; }
    if priority > 0 { return; }
  }

  lemma ReturnUntouched(q: Queue, id: JobId, token: Token, x: JobId)
    ensures Untouched(q, MoveActiveToWait(q, id, token).q, x)
  {
    hide Zadd, RemoveFirst, Has;
    if Guard(q, id, token) != OK { return; }
    if id !in q.at.active { return; }
    if HashOf(q, id).priority > 0 { return; }
  }

  lemma ReprioritizeUntouched(q: Queue, id: JobId, priority: nat, x: JobId)
    ensures Untouched(q, ChangePriority(q, id, priority).q, x)
  {
    hide Zadd, Zrem, RemoveAll, Has;
    if id !in q.jobs { return; }
    if priority == 0 && q.jobs[id].priority == 0 { return; }
    if priority > 0 { return; }
  }

  lemma PromoteNowUntouched(q: Queue, id: JobId, x: JobId)
    ensures Untouched(q, PromoteJob(q, id).q, x)
  {
    hide Zadd, Zrem, Has;
    if !Has(q.at.delayed, id) { return; }
    if HashOf(q, id).priority > 0 { return; }
  }

  lemma SweepUntouched(q: Queue, order: seq<JobId>, maxStalled: nat, now: nat, x: JobId)
    ensures Untouched(q, SweepStalled(q, order, maxStalled, now), x)
  {
    hide SweepEach, Requeued, Has;
    SweepEachUntouched(Scanned(q), order, maxStalled, now, x);
  }

  /** Steps that move no job. */
  lemma StillUntouched(q: Queue, s: Step, x: JobId)
    requires s.Record? || s.Extend? || s.ExpireLock? || s.Pause? || s.Resume? || s.PopBaseMarker? || s.PopDelayMarker?
        || s.PutBaseMarker?
    ensures Untouched(q, Apply(q, s), x)
  {
    hide Has, FetchNext, SweepStalled, MoveToDelayed, RetryJob, MoveActiveToWait, ChangePriority, PromoteJob;
    hide ReleaseParent;
    hide AddStandardJob, AddPrioritizedJob, AddDelayedJob, AddParentJob, FinishJob, MoveJobsToWait;
    match s {
      case Record(result, maxPoints, _) => if maxPoints.None? { return; } if result.Completed? { return; } return;
      case Extend(id, token) => if id in q.locks && q.locks[id] == token { return; } return;
      case ExpireLock(_) => return;
      case Pause => return;
      case Resume => return;
      case PopBaseMarker => return;
      case PopDelayMarker => return;
      case PutBaseMarker => return;
    }
  }

  lemma PassiveUntouched(q: Queue, s: Step, x: JobId)
    requires Passive(s)
    ensures Untouched(q, Apply(q, s), x)
  {
    hide Untouched, FetchNext, SweepStalled, MoveToDelayed, RetryJob, MoveActiveToWait, ChangePriority, PromoteJob;
    hide RecordMetrics, ExtendLock, PauseQueue, ResumeQueue;
    match s {
      case Delay(id, token, now, due, atm) => DelayUntouched(q, id, token, now, due, atm, x); return;
      case Retry(id, token, right, atm, priority) => RetryUntouched(q, id, token, right, atm, priority, x); return;
      case Return(id, token) => ReturnUntouched(q, id, token, x); return;
      case Fetch(token, now, clock, limit) => FetchUntouched(q, token, now, clock, limit, x); return;
      case Sweep(order, maxStalled, now) => SweepUntouched(q, order, maxStalled, now, x); return;
      case Reprioritize(id, priority) => ReprioritizeUntouched(q, id, priority, x); return;
      case PromoteNow(id) => PromoteNowUntouched(q, id, x); return;
      case _ => StillUntouched(q, s, x); return;
    }
  }
}

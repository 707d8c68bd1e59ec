/** First in, first out, through any number of pauses and resumes: with standard jobs only, the
    jobs claimed so far followed by the pending ones, oldest first, are the jobs added so far. */
module Fifo {
  import opened Redis
  import opened Scores
  import opened Limiter
  import opened Queue
  import opened Machine

  /** A queue together with the jobs added and the jobs claimed so far, in order. */
  datatype Tale = Tale(q: Queue, added: seq<JobId>, claimed: seq<JobId>)

  /** Adds, claims, pauses and resumes, and the steps that leave the pending jobs alone. */
  predicate Plain(s: Step) {
    s.AddStandard? || s.Fetch? || s.Pause? || s.Resume? || s.Finish? || s.Record? || s.Extend? || s.ExpireLock?
    || s.PopBaseMarker? || s.PopDelayMarker? || s.PutBaseMarker?
  }

  function NewlyAdded(q: Queue, s: Step): seq<JobId> {
    if s.AddStandard? && s.id !in q.jobs && Holder(q, s.opts.deid).None? then [s.id] else []
  }

  function NewlyClaimed(q: Queue, s: Step): seq<JobId> {
    if s.Fetch? && FetchNext(q, s.token, s.now, s.clock, s.limit).result.Claimed?
    then [FetchNext(q, s.token, s.now, s.clock, s.limit).result.id] else []
  }

  function Narrate(t: Tale, s: Step): Tale {
    Tale(Apply(t.q, s), t.added + NewlyAdded(t.q, s), t.claimed + NewlyClaimed(t.q, s))
  }

  function NarrateAll(t: Tale, steps: seq<Step>): Tale {
    if steps == [] then t else Narrate(NarrateAll(t, steps[..|steps| - 1]), steps[|steps| - 1])
  }

  /** The oldest pending job first. */
  function Pending(q: Queue): seq<JobId> {
    Reverse(q.at.wait + q.at.paused)
  }

  predicate InOrder(t: Tale) {
    && t.claimed + Pending(t.q) == t.added
    && t.q.at.prioritized == [] && t.q.at.delayed == []
    && (if t.q.isPaused then t.q.at.wait == [] else t.q.at.paused == [])
  }

  lemma AddInOrder(t: Tale, s: Step)
    requires InOrder(t) && s.AddStandard?
    ensures InOrder(Narrate(t, s))
  {
    var q := t.q;
    if s.id in q.jobs || Holder(q, s.opts.deid).Some? { return; }
    var line := q.at.wait + q.at.paused;
    assert Apply(q, s).at.wait + Apply(q, s).at.paused == [s.id] + line;
    ReverseConcat([s.id], line);
    assert Pending(Apply(q, s)) == Pending(q) + [s.id];
  }

  /** What a fetch does to a queue without delayed jobs. */
  lemma FetchTakesNext(q: Queue, token: Token, now: nat, clock: nat, limit: Option<Limit>)
    requires q.at.delayed == []
    ensures var r := FetchNext(q, token, now, clock, limit);
      && (r.result.Claimed? ==>
            !q.isPaused && NextJob(q) == Some(r.result.id) && r.q.jobs.Keys == q.jobs.Keys + {r.result.id})
      && r.q.at == (if r.result.Claimed? then PopNext(q).at else q.at)
      && r.q.isPaused == q.isPaused && r.q.pc == q.pc
      && (!r.result.Claimed? ==> r.q.jobs == q.jobs)
  {
    assert PromoteDelayed(q, now) == q;
    hide PromoteDelayed;
    var v := RateLimitTtl(limit, q.limiter, clock);
    if v.ttl > 0 { return; }
    if q.isPaused { return; }
    if NextJob(q).None? { return; }
    if q.at.wait != [] { return; }
  }

  lemma FetchInOrder(t: Tale, s: Step)
    requires InOrder(t) && s.Fetch?
    ensures InOrder(Narrate(t, s))
  {
    var q := t.q;
    FetchTakesNext(q, s.token, s.now, s.clock, s.limit);
    hide FetchNext, Reverse;
    hide SweepStalled, MoveToDelayed, RetryJob, MoveActiveToWait, ChangePriority, PromoteJob, ReleaseParent;
    hide AddStandardJob;
    hide AddPrioritizedJob, AddDelayedJob, AddParentJob, MoveJobsToWait;
    var r := FetchNext(q, s.token, s.now, s.clock, s.limit);
    if !r.result.Claimed? { return; }
    var rest := q.at.wait[..|q.at.wait| - 1];
    assert q.at.wait + q.at.paused == rest + [r.result.id];
    ReverseLast(rest, r.result.id);
    assert rest + [] == rest;
    assert Pending(q) == [r.result.id] + Pending(r.q);
  }

  /** A step that leaves the line alone. */
  predicate Idle(s: Step) {
    s.Finish? || s.Record? || s.Extend? || s.ExpireLock? || s.PopBaseMarker? || s.PopDelayMarker? || s.PutBaseMarker?
  }

  predicate SameLine(q: Queue, r: Queue) {
    && r.at.wait == q.at.wait && r.at.paused == q.at.paused && r.at.prioritized == q.at.prioritized
    && r.at.delayed == q.at.delayed && r.isPaused == q.isPaused && r.pc == q.pc && q.jobs.Keys <= r.jobs.Keys
  }

  lemma FinishKeepsLine(q: Queue, id: JobId, token: Token, now: nat, result: Result, atm: nat)
    ensures SameLine(q, FinishJob(q, id, token, now, result, atm).q)
  {
    hide Zadd, RemoveFirst;
    if Guard(q, id, token) != OK { return; }
    if result.Completed? { return; }
  }

  lemma IdleKeepsLine(q: Queue, s: Step)
    requires Idle(s)
    ensures SameLine(q, Apply(q, s))
  {
    hide FinishJob, FetchNext, SweepStalled, MoveToDelayed, RetryJob, MoveActiveToWait, ChangePriority;
    hide PromoteJob, ReleaseParent;
    hide AddStandardJob, AddPrioritizedJob, AddDelayedJob, AddParentJob, MoveJobsToWait;
    match s {
      case Finish(id, token, now, result, atm) => FinishKeepsLine(q, id, token, now, result, atm); return;
      case Record(result, maxPoints, _) => if maxPoints.None? { return; } if result.Completed? { return; } return;
      case Extend(id, token) => if id in q.locks && q.locks[id] == token { return; } return;
      case ExpireLock(_) => return;
      case PopBaseMarker => return;
      case PopDelayMarker => return;
      case PutBaseMarker => return;
    }
  }

  /** Pausing and resuming only move the line between its two lists. */
  lemma PauseMovesLine(q: Queue)
    requires if q.isPaused then q.at.wait == [] else q.at.paused == []
    ensures Pending(PauseQueue(q)) == Pending(q) && Pending(ResumeQueue(q)) == Pending(q)
  {
    hide Reverse;
    assert [] + (q.at.wait + q.at.paused) == q.at.wait + q.at.paused;
    assert q.at.paused + q.at.wait + [] == q.at.wait + q.at.paused;
  }

  lemma PauseInOrder(t: Tale, s: Step)
    requires InOrder(t) && (s.Pause? || s.Resume?)
    ensures InOrder(Narrate(t, s))
  {
    hide Pending, FetchNext;
    PauseMovesLine(t.q);
    PauseApplies(t.q, s);
    hide Apply;
  }

  lemma PauseApplies(q: Queue, s: Step)
    requires s.Pause? || s.Resume?
    ensures Apply(q, s) == if s.Pause? then PauseQueue(q) else ResumeQueue(q)
  {
    hide PauseQueue, ResumeQueue;
  }

  lemma IdleInOrder(t: Tale, s: Step)
    requires InOrder(t) && Idle(s)
    ensures InOrder(Narrate(t, s))
  {
    hide Reverse, FetchNext, Apply;
    IdleKeepsLine(t.q, s);
  }

  lemma StepInOrder(t: Tale, s: Step)
    requires InOrder(t) && Plain(s)
    ensures InOrder(Narrate(t, s))
  {
    hide InOrder, Narrate;
    if s.AddStandard? { AddInOrder(t, s); return; }
    if s.Fetch? { FetchInOrder(t, s); return; }
    if s.Pause? || s.Resume? { PauseInOrder(t, s); return; }
    IdleInOrder(t, s);
  }

  /** Main result. */
  lemma {:induction false} FifoThroughPauses(steps: seq<Step>)
    requires forall i :: 0 <= i < |steps| ==> Plain(steps[i])
    ensures var t := NarrateAll(Tale(EmptyQueue, [], []), steps);
      && InOrder(t) && t.claimed <= t.added && t.q == Run(EmptyQueue, steps)
  {
    hide Narrate, Apply, Plain, Pending;
    if steps == [] {
      EmptyInOrder();
    } else {
      var t := NarrateAll(Tale(EmptyQueue, [], []), steps[..|steps| - 1]);
      FifoThroughPauses(steps[..|steps| - 1]);
      assert Plain(steps[|steps| - 1]);
      StepInOrder(t, steps[|steps| - 1]);
      NarrateApplies(t, steps[|steps| - 1]);
    }
  }

  lemma EmptyInOrder()
    ensures InOrder(Tale(EmptyQueue, [], []))
  {
  }

  lemma NarrateApplies(t: Tale, s: Step)
    ensures Narrate(t, s).q == Apply(t.q, s)
  {
    hide Apply;
  }

  /** Pausing and resuming an unpaused queue restores it, but for the marker that wakes a worker. */
  lemma ResumeUndoesPause(q: Queue)
    requires !q.isPaused && q.at.paused == []
    ensures ResumeQueue(PauseQueue(q)) == MarkBase(q, false)
  {
    assert q.at.wait + [] + [] == q.at.wait;
  }
}

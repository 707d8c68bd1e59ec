/** In every reachable queue the sorted sets are in rank order, so what is proved about ranked
    sets holds of every run. */
module Ranks {
  import opened Redis
  import opened Scores
  import opened Limiter
  import opened Queue
  import opened Machine
  import Promotion
  import Partition

  predicate AllRanked(p: Places) {
    Ranked(p.prioritized) && Ranked(p.delayed) && Ranked(p.completed) && Ranked(p.failed) && Ranked(p.waitingChildren)
  }

  lemma RankedTail(z: Zset, k: nat)
    requires Ranked(z) && k <= |z|
    ensures Ranked(z[k..])
  {
  }

  lemma EnqueueRanked(q: Queue, id: JobId, priority: nat)
    requires AllRanked(q.at)
    ensures AllRanked(Enqueue(q, id, priority).at) && AllRanked(Prioritize(q, id, priority).at)
  {
    hide Ranked, Zadd;
    ZaddRanked(q.at.prioritized, PriorityScore(priority, q.pc + 1), id);
    if priority > 0 { return; }
  }

  lemma DelayRanked(q: Queue, id: JobId, due: nat)
    requires AllRanked(q.at)
    ensures AllRanked(DelayUntil(q, id, due).at)
  {
    hide Ranked, Zadd, DelayedScore;
    ZaddRanked(q.at.delayed, DelayedScore(q.at.delayed, due), id);
  }

  lemma {:induction false} PromoteEachRanked(q: Queue, ids: seq<JobId>)
    requires AllRanked(q.at)
    ensures AllRanked(PromoteEach(q, ids).at)
  {
    hide AllRanked, Prioritize;
    if ids != [] {
      var p, id := PromoteEach(q, ids[..|ids| - 1]), ids[|ids| - 1];
      PromoteEachRanked(q, ids[..|ids| - 1]);
      EnqueueRanked(p, id, HashOf(p, id).priority);
      ListsDoNotMatter(p.at, [id] + p.at.wait, p.at.paused, p.at.active);
      if HashOf(p, id).priority == 0 { return; }
    }
  }

  lemma ListsDoNotMatter(p: Places, w: seq<JobId>, l: seq<JobId>, a: seq<JobId>)
    requires AllRanked(p)
    ensures AllRanked(p.(wait := w)) && AllRanked(p.(wait := w, paused := l)) && AllRanked(p.(active := a))
    ensures AllRanked(p.(wait := w, active := a)) && AllRanked(p.(paused := l))
  {
    hide Ranked;
  }

  lemma FetchRanked(q: Queue, token: Token, now: nat, clock: nat, limit: Option<Limit>)
    requires AllRanked(q.at)
    ensures AllRanked(FetchNext(q, token, now, clock, limit).q.at)
  {
    hide Ranked, PromoteEach;
    var n := DueCount(q, now);
    RankedTail(q.at.delayed, n);
    PromoteEachRanked(q.(at := q.at.(delayed := q.at.delayed[n..])), Members(q.at.delayed[..n]));
    var p := PromoteDelayed(q, now);
    assert AllRanked(p.at) by { if n == 0 {} else {} }
    hide PromoteDelayed;
    var v := RateLimitTtl(limit, p.limiter, clock);
    if v.ttl > 0 { return; }
    if p.isPaused { return; }
    var r := p.(limiter := v.key);
    if NextJob(r).None? { return; }
    if r.at.wait != [] { return; }
    RankedTail(r.at.prioritized, 1);
  }

  lemma {:induction false} SweepEachRanked(q: Queue, ids: seq<JobId>, maxStalled: nat, now: nat)
    requires AllRanked(q.at)
    ensures AllRanked(SweepEach(q, ids, maxStalled, now).at)
  {
    hide Ranked, Enqueue;
    if ids != [] {
      var p, id := SweepEach(q, ids[..|ids| - 1], maxStalled, now), ids[|ids| - 1];
      SweepEachRanked(q, ids[..|ids| - 1], maxStalled, now);
      if id !in p.jobs { return; }
      if p.jobs[id].stc >= maxStalled { return; }
      EnqueueRanked(Stall(p, id), id, p.jobs[id].priority);
    }
  }

  lemma ReleaseRanked(q: Queue, parent: JobId, child: JobKey, value: Payload, now: nat)
    requires AllRanked(q.at)
    ensures AllRanked(ReleaseParent(q, parent, child, value, now).at)
  {
    hide Ranked, Enqueue, DelayUntil, Zrem;
    if child !in PendingChildren(q, parent) { return; }
    var r := RecordChild(q, parent, child, value);
    if PendingChildren(q, parent) == {child} && parent in q.jobs && Has(q.at.waitingChildren, parent) {
      ZremRanked(r.at.waitingChildren, parent);
      var u := r.(at := r.at.(waitingChildren := Zrem(r.at.waitingChildren, parent)));
      DelayRanked(u, parent, DueTime(now, HashOf(r, parent).delay));
      EnqueueRanked(u, parent, HashOf(r, parent).priority);
      if HashOf(r, parent).delay > 0 { return; }
    }
  }

  lemma FinishRanked(q: Queue, id: JobId, token: Token, now: nat, result: Result, atm: nat)
    requires AllRanked(q.at)
    ensures AllRanked(FinishJob(q, id, token, now, result, atm).q.at)
  {
    hide Ranked, Zadd, RemoveFirst;
    ZaddRanked(q.at.completed, now, id);
    ZaddRanked(q.at.failed, now, id);
    if Guard(q, id, token) != OK { return; }
    if result.Completed? { return; }
  }

  lemma ExitRanked(q: Queue, s: Step)
    requires AllRanked(q.at) && (s.Delay? || s.Retry? || s.Return?)
    ensures AllRanked(Apply(q, s).at)
  {
    hide Ranked, Zadd, RemoveFirst, DelayedScore;
    if Guard(q, s.id, s.token) != OK { return; }
    match s {
      case Delay(id, token, _, due, _) => DelayRanked(LeaveActive(q, id, token), id, due); return;
      case Retry(id, token, right, atm, priority) =>
        EnqueueRanked(LeaveForRetry(q, id, token, atm), id, priority);
        if priority == 0 && !right { return; }
        return;
      case Return(id, token) =>
        if id !in q.at.active { return; }
        ZaddRanked(q.at.prioritized, PushBackScore(HashOf(q, id).priority), id);
        if HashOf(q, id).priority > 0 { return; }
        return;
    }
  }

  lemma AddRanked(q: Queue, s: Step)
    requires AllRanked(q.at) && (s.AddStandard? || s.AddPrioritized? || s.AddDelayed? || s.AddParent?)
    ensures AllRanked(Apply(q, s).at)
  {
    hide Ranked, Zadd, DelayedScore;
    match s {
      case AddStandard(id, opts, _, _) => if id in q.jobs || Holder(q, opts.deid).Some? { return; } return;
      case AddPrioritized(id, opts, ts, parent) =>
        EnqueueRanked(Stored(q, id, opts, ts, parent), id, opts.priority);
        if id in q.jobs || Holder(q, opts.deid).Some? { return; }
        return;
      case AddDelayed(id, opts, ts, parent) =>
        DelayRanked(Stored(q, id, opts, ts, parent), id, DueTime(ts, opts.delay));
        if id in q.jobs || Holder(q, opts.deid).Some? { return; }
        return;
      case AddParent(id, _, ts, _) =>
        ZaddRanked(q.at.waitingChildren, ts, id);
        if id in q.jobs { return; }
        return;
    }
  }

  lemma ReprioritizeRanked(q: Queue, id: JobId, priority: nat)
    requires AllRanked(q.at)
    ensures AllRanked(ChangePriority(q, id, priority).q.at)
  {
    hide Ranked, Zrem, RemoveAll, Enqueue;
    if id !in q.jobs { return; }
    if priority == 0 && q.jobs[id].priority == 0 { return; }
    ZremRanked(q.at.prioritized, id);
    var o := OutOfLine(q, id, q.jobs[id].priority);
    assert AllRanked(o.at) by { if q.jobs[id].priority > 0 {} else {} }
    EnqueueRanked(o, id, priority);
  }

  lemma PromoteNowRanked(q: Queue, id: JobId)
    requires AllRanked(q.at)
    ensures AllRanked(PromoteJob(q, id).q.at)
  {
    hide Ranked, Zrem, Enqueue;
    ZremRanked(q.at.delayed, id);
    if !Has(q.at.delayed, id) { return; }
    EnqueueRanked(TakenFromDelayed(q, id), id, HashOf(q, id).priority);
  }

  lemma MoveJobsRanked(q: Queue, from: Source, count: nat, upTo: Option<nat>)
    requires AllRanked(q.at)
    ensures AllRanked(MoveJobsToWait(q, from, count, upTo).q.at)
  {
    hide Ranked, ClearEach, Reverse;
    var z := SourceSet(q, from);
    var n := Min(Matching(z, upTo), count);
    if n == 0 { return; }
    Partition.ClearEachFrame(q, from, Members(z[..n]));
    assert Ranked(z) by { match from { case FromFailed => case FromCompleted => case FromDelayed => } }
    RankedTail(z, n);
    match from {
      case FromFailed => return;
      case FromCompleted => return;
      case FromDelayed => return;
    }
  }

  lemma StepRanked(q: Queue, s: Step)
    requires AllRanked(q.at)
    ensures AllRanked(Apply(q, s).at)
  {
    hide AllRanked, FetchNext, FinishJob, ReleaseParent, ChangePriority, PromoteJob, MoveJobsToWait;
    hide SweepEach, Requeued;
    hide AddStandardJob, AddPrioritizedJob, AddDelayedJob, AddParentJob, MoveToDelayed, RetryJob, MoveActiveToWait;
    if s.Delay? || s.Retry? || s.Return? { ExitRanked(q, s); return; }
    if s.AddStandard? || s.AddPrioritized? || s.AddDelayed? || s.AddParent? { AddRanked(q, s); return; }
    match s {
      case Fetch(token, now, clock, limit) => FetchRanked(q, token, now, clock, limit); return;
      case Finish(id, token, now, result, atm) => FinishRanked(q, id, token, now, result, atm); return;
      case Release(parent, child, value, now) => ReleaseRanked(q, parent, child, value, now); return;
      case Sweep(order, maxStalled, now) => SweepEachRanked(Scanned(q), order, maxStalled, now); return;
      case Reprioritize(id, priority) => ReprioritizeRanked(q, id, priority); return;
      case PromoteNow(id) => PromoteNowRanked(q, id); return;
      case MoveJobs(from, count, upTo) => MoveJobsRanked(q, from, count, upTo); return;
      case Record(result, maxPoints, _) => if maxPoints.None? { return; } if result.Completed? { return; } return;
      case Extend(id, token) => if id in q.locks && q.locks[id] == token { return; } return;
      case Pause => ListsDoNotMatter(q.at, [], q.at.wait + q.at.paused, []); return;
      case Resume => ListsDoNotMatter(q.at, q.at.paused + q.at.wait, [], []); return;
      case _ => return;
    }
  }

  /** Over every run whatsoever the sorted sets stay in rank order. */
  lemma {:induction false} RunStaysRanked(q: Queue, steps: seq<Step>)
    requires AllRanked(q.at)
    ensures AllRanked(Run(q, steps).at)
  {
    hide Apply, AllRanked;
    if steps != [] {
      RunStaysRanked(q, steps[..|steps| - 1]);
      StepRanked(Run(q, steps[..|steps| - 1]), steps[|steps| - 1]);
    }
  }

  lemma EmptyIsRanked()
    ensures AllRanked(EmptyQueue.at)
  {
  }

  /** So after every safe run, promotion takes exactly the first due jobs, in score order. */
  lemma {:induction false} ReachablePromotion(steps: seq<Step>, now: nat)
    requires forall i :: 0 <= i < |steps| ==> Partition.Safe(Run(EmptyQueue, steps[..i]), steps[i])
    ensures var q := Run(EmptyQueue, steps);
      var r := PromoteDelayed(q, now);
      var n := |q.at.delayed| - |r.at.delayed|;
      && n >= 0 && r.at.delayed == q.at.delayed[n..]
      && (forall i :: 0 <= i < |q.at.delayed| ==>
        (i < n <==> i < PROMOTE_LIMIT && q.at.delayed[i].score / SLOTS <= now))
      && r.at.wait == Reverse(Promotion.Standard(q, Members(q.at.delayed[..n]))) + q.at.wait
  {
    hide Run, Partition.Safe, PromoteDelayed, Ranked, Partition.Fits;
    var q := Run(EmptyQueue, steps);
    EmptyIsRanked();
    RunStaysRanked(EmptyQueue, steps);
    Partition.EmptyIsPartitioned();
    Partition.RunKeepsPartition(EmptyQueue, steps);
    DelayedOnce(q);
    Promotion.PromotesFirstDueInOrder(q, now, Entry(0, 0));
  }

  lemma DelayedOnce(q: Queue)
    requires Partition.Partitioned(q)
    ensures forall i, j :: 0 <= i < j < |q.at.delayed| ==> q.at.delayed[i].member != q.at.delayed[j].member
  {
    hide Partition.Count, Partition.InSet, Partition.InList;
    var z := q.at.delayed;
    forall i, j | 0 <= i < j < |z| ensures z[i].member != z[j].member {
      assert Partition.Fits(q, z[i].member);
      Partition.CountParts(q.at, z[i].member);
      if z[i].member == z[j].member { TwiceInSet(z, i, j); }
    }
  }

  lemma TwiceInSet(z: Zset, i: nat, j: nat)
    requires i < j < |z| && z[i].member == z[j].member
    ensures Partition.InSet(z, z[i].member) >= 2
  {
    var m := Members(z);
    MembersAt(z, i);
    MembersAt(z, j);
    assert m == m[..j] + m[j..];
    assert m[..j][i] == m[i] && m[j..][0] == m[j];
  }
}

/** The rate limit over runs of the queue: whatever else happens, both claim paths together claim
    within the limiter's bounds when all claims carry one limit. */
module Rates {
  import opened Redis
  import opened Scores
  import opened Limiter
  import opened Queue
  import opened Machine
  import opened Fencing
  import Partition

  /** A queue with the claims made from it: the clock of each, and the number of the limiter window
      that counted it. A claim that leaves the limiter's count at 1 has opened a window. */
  datatype Rated = Rated(q: Queue, claims: seq<Grant>, windows: nat)

  function Rate(r: Rated, s: Step): Rated {
    var q := Apply(r.q, s);
    if s.Fetch? && Fetching(r.q, s).Claimed? then
      var opening := q.limiter.Some? && q.limiter.value.count == 1;
      var windows := if opening then r.windows + 1 else r.windows;
      Rated(q, r.claims + [Grant(s.clock, if windows == 0 then 0 else windows - 1, opening)], windows)
    else r.(q := q)
  }

  function RateAll(r: Rated, steps: seq<Step>): Rated {
    if steps == [] then r else Rate(RateAll(r, steps[..|steps| - 1]), steps[|steps| - 1])
  }

  /** Every claim carries the same limit. */
  predicate Uniform(limit: Limit, s: Step) {
    s.Fetch? ==> s.limit == Some(limit)
  }

  /** The clock of the claims does not run backwards. */
  predicate InTime(steps: seq<Step>) {
    forall i, j :: 0 <= i < j < |steps| && steps[i].Fetch? && steps[j].Fetch? ==> steps[i].clock <= steps[j].clock
  }

  // ---------------------------------------------------------------- the fetch and the limiter

  /** The limiter and the metrics are as they were. */
  predicate KeepsCounters(q: Queue, r: Queue) {
    && r.limiter == q.limiter && r.side.completedMetrics == q.side.completedMetrics
    && r.side.failedMetrics == q.side.failedMetrics
  }

  predicate Available(q: Queue, now: nat) {
    !q.isPaused && NextJob(PromoteDelayed(q, now)).Some?
  }

  lemma {:induction false} PromoteEachKeepsCounters(q: Queue, ids: seq<JobId>)
    ensures var r := PromoteEach(q, ids); KeepsCounters(q, r) && r.isPaused == q.isPaused
  {
    hide Zadd;
    if ids != [] {
      PromoteEachKeepsCounters(q, ids[..|ids| - 1]);
      var m := PromoteEach(q, ids[..|ids| - 1]);
      if HashOf(m, ids[|ids| - 1]).priority == 0 { return; }
    }
  }

  lemma PromoteKeepsCounters(q: Queue, now: nat)
    ensures var r := PromoteDelayed(q, now); KeepsCounters(q, r) && r.isPaused == q.isPaused
  {
    hide PromoteEach;
    var n := DueCount(q, now);
    PromoteEachKeepsCounters(q.(at := q.at.(delayed := q.at.delayed[n..])), Members(q.at.delayed[..n]));
    if n == 0 { return; }
  }

  /** A fetch treats the limiter as one attempt does, and claims exactly when the attempt does. */
  lemma FetchTries(q: Queue, token: Token, now: nat, clock: nat, limit: Limit, l: Log)
    requires q.limiter == l.key
    ensures var f := FetchNext(q, token, now, clock, Some(limit));
      var t := Try(l, limit, Attempt(clock, Available(q, now)));
      f.q.limiter == t.key && (f.result.Claimed? <==> |t.claims| > |l.claims|)
  {
    hide PromoteDelayed, CountClaim, RateLimitTtl;
    PromoteKeepsCounters(q, now);
    var p := PromoteDelayed(q, now);
    var v := RateLimitTtl(Some(limit), p.limiter, clock);
    if v.ttl > 0 { TtlKeepsKey(limit, p.limiter, clock); return; }
    if p.isPaused { return; }
    var r := p.(limiter := v.key);
    if NextJob(r).None? { return; }
    if r.at.wait != [] { return; }
  }

  lemma TtlKeepsKey(limit: Limit, key: Key, clock: nat)
    ensures RateLimitTtl(Some(limit), key, clock).ttl > 0 ==> RateLimitTtl(Some(limit), key, clock).key == key
  {
  }

  /** A fetch answers how long the limiter holds, if and only if it does, and then claims nothing. */
  lemma FetchIsLimitedIff(q: Queue, s: Step)
    requires s.Fetch?
    ensures var f := Fetching(q, s);
      && (f.Limited? <==> s.limit.Some? && q.limiter.Some? && s.clock < q.limiter.value.expiresAt
                          && s.limit.value.max <= q.limiter.value.count)
      && (f.Limited? ==> s.clock + f.ttl == q.limiter.value.expiresAt
                         && Apply(q, s).locks == q.locks && Apply(q, s).at.active == q.at.active)
  {
    hide PromoteDelayed, RateLimitTtl, CountClaim;
    var p := PromoteDelayed(q, s.now);
    PromoteKeepsCounters(q, s.now);
    PromoteKeepsActive(q, s.now);
    if s.limit.Some? { TtlIsTimeLeft(s.limit.value, q.limiter, s.clock); }
    else { TtlIsTimeLeft(Limit(0, 0), q.limiter, s.clock); }
    var v := RateLimitTtl(s.limit, p.limiter, s.clock);
    if v.ttl > 0 { return; }
    if p.isPaused { return; }
    var r := p.(limiter := v.key);
    if NextJob(r).None? { return; }
    if r.at.wait != [] { return; }
  }

  lemma PromoteKeepsActive(q: Queue, now: nat)
    ensures var r := PromoteDelayed(q, now); r.at.active == q.at.active && r.locks == q.locks
  {
    hide PromoteEach;
    var n := DueCount(q, now);
    Partition.PromoteEachFrame(q.(at := q.at.(delayed := q.at.delayed[n..])), Members(q.at.delayed[..n]));
    if n == 0 { return; }
  }

  // ---------------------------------------------------------------- every other step leaves it alone

  lemma AddKeepsCounters(q: Queue, s: Step)
    requires s.AddStandard? || s.AddPrioritized? || s.AddDelayed? || s.AddParent?
    ensures KeepsCounters(q, Apply(q, s))
  {
    hide Zadd, DelayedScore;
    match s {
      case AddStandard(id, opts, _, _) => if id in q.jobs || Holder(q, opts.deid).Some? { return; } return;
      case AddPrioritized(id, opts, _, _) => if id in q.jobs || Holder(q, opts.deid).Some? { return; } return;
      case AddDelayed(id, opts, _, _) => if id in q.jobs || Holder(q, opts.deid).Some? { return; } return;
      case AddParent(id, _, _, _) => if id in q.jobs { return; } return;
    }
  }

  lemma ExitKeepsCounters(q: Queue, s: Step)
    requires IsExit(s)
    ensures KeepsCounters(q, Apply(q, s))
  {
    hide Zadd, DelayedScore, RemoveFirst;
    if Guard(q, s.id, s.token) != OK { return; }
    match s {
      case Finish(_, _, _, result, _) => if result.Completed? { return; } return;
      case Delay(_, _, _, _, _) => return;
      case Retry(_, _, right, _, priority) =>
        if priority == 0 && !right { return; }
        if priority > 0 { return; }
        return;
      case Return(id, _) =>
        if id !in q.at.active { return; }
        if HashOf(q, id).priority > 0 { return; }
        return;
    }
  }

  lemma ReleaseKeepsCounters(q: Queue, parent: JobId, child: JobKey, value: Payload, now: nat)
    ensures KeepsCounters(q, ReleaseParent(q, parent, child, value, now))
  {
    hide Zadd, Zrem, DelayedScore;
    if child !in PendingChildren(q, parent) { return; }
    if PendingChildren(q, parent) == {child} && parent in q.jobs && Has(q.at.waitingChildren, parent) {
      if HashOf(RecordChild(q, parent, child, value), parent).delay > 0 { return; }
      if HashOf(RecordChild(q, parent, child, value), parent).priority > 0 { return; }
      return;
    }
  }

  lemma {:induction false} SweepEachKeepsCounters(q: Queue, ids: seq<JobId>, maxStalled: nat, now: nat)
    ensures KeepsCounters(q, SweepEach(q, ids, maxStalled, now))
  {
    hide Zadd, RemoveFirst;
    if ids != [] {
      var m, id := SweepEach(q, ids[..|ids| - 1], maxStalled, now), ids[|ids| - 1];
      SweepEachKeepsCounters(q, ids[..|ids| - 1], maxStalled, now);
      if id !in m.jobs { return; }
      if m.jobs[id].stc >= maxStalled { return; }
      if m.jobs[id].priority > 0 { return; }
    }
  }

  lemma SweepKeepsCounters(q: Queue, order: seq<JobId>, maxStalled: nat, now: nat)
    ensures KeepsCounters(q, SweepStalled(q, order, maxStalled, now))
  {
    hide SweepEach, Requeued;
    SweepEachKeepsCounters(Scanned(q), order, maxStalled, now);
  }

  lemma {:induction false} ClearEachKeepsCounters(q: Queue, from: Source, ids: seq<JobId>)
    ensures KeepsCounters(q, ClearEach(q, from, ids))
  {
    if ids != [] { ClearEachKeepsCounters(q, from, ids[..|ids| - 1]); }
  }

  lemma AdministrationKeepsCounters(q: Queue, s: Step)
    requires s.Reprioritize? || s.PromoteNow? || s.MoveJobs?
    ensures KeepsCounters(q, Apply(q, s))
  {
    hide Zadd, Zrem, RemoveAll, ClearEach;
    match s {
      case Reprioritize(id, priority) =>
        if id !in q.jobs { return; }
        if priority == 0 && q.jobs[id].priority == 0 { return; }
        if priority > 0 { return; }
        return;
      case PromoteNow(id) =>
        if !Has(q.at.delayed, id) { return; }
        if HashOf(q, id).priority > 0 { return; }
        return;
      case MoveJobs(from, count, upTo) =>
        var n := Min(Matching(SourceSet(q, from), upTo), count);
        if n == 0 { return; }
        ClearEachKeepsCounters(q, from, Members(SourceSet(q, from)[..n]));
        match from {
          case FromFailed => return;
          case FromCompleted => return;
          case FromDelayed => return;
        }
    }
  }

  lemma OthersKeepCounters(q: Queue, s: Step)
    requires !s.Fetch?
    ensures Apply(q, s).limiter == q.limiter && (!s.Record? ==> KeepsCounters(q, Apply(q, s)))
  {
    if s.AddStandard? || s.AddPrioritized? || s.AddDelayed? || s.AddParent? { AddKeepsCounters(q, s); return; }
    if IsExit(s) { ExitKeepsCounters(q, s); return; }
    if s.Reprioritize? || s.PromoteNow? || s.MoveJobs? { AdministrationKeepsCounters(q, s); return; }
    hide ReleaseParent, SweepStalled, FetchNext, AddStandardJob, AddPrioritizedJob, AddDelayedJob;
    hide AddParentJob, FinishJob;
    hide MoveToDelayed, RetryJob, MoveActiveToWait, ChangePriority, PromoteJob, MoveJobsToWait;
    match s {
      case Release(parent, child, value, now) => ReleaseKeepsCounters(q, parent, child, value, now); return;
      case Sweep(order, maxStalled, now) => SweepKeepsCounters(q, order, maxStalled, now); return;
      case Record(result, maxPoints, _) => if maxPoints.None? { return; } if result.Completed? { return; } return;
      case Extend(id, token) => if id in q.locks && q.locks[id] == token { return; } return;
      case _ => return;
    }
  }

  // ---------------------------------------------------------------- runs

  /** The attempts a run makes. */
  function Attempts(q: Queue, steps: seq<Step>): seq<Attempt> {
    if steps == [] then []
    else
      var s := steps[|steps| - 1];
      Attempts(q, steps[..|steps| - 1])
      + (if s.Fetch? then [Attempt(s.clock, Available(Run(q, steps[..|steps| - 1]), s.now))] else [])
  }

  predicate IsFetchClock(steps: seq<Step>, clock: nat) {
    exists j :: 0 <= j < |steps| && steps[j].Fetch? && steps[j].clock == clock
  }

  lemma {:induction false} AttemptsInTime(q: Queue, steps: seq<Step>)
    requires InTime(steps)
    ensures Clocked(Attempts(q, steps))
    ensures forall i :: 0 <= i < |Attempts(q, steps)| ==> IsFetchClock(steps, Attempts(q, steps)[i].clock)
  {
    hide Run, Available;
    if steps != [] {
      var init, s := steps[..|steps| - 1], steps[|steps| - 1];
      AttemptsInTime(q, init);
      var a, all := Attempts(q, init), Attempts(q, steps);
      if !s.Fetch? {
        assert all == a;
      } else {
        var last := Attempt(s.clock, Available(Run(q, init), s.now));
        assert all == a + [last];
        forall i | 0 <= i < |a| ensures a[i].clock <= s.clock {
          assert IsFetchClock(init, a[i].clock);
          var j :| 0 <= j < |init| && init[j].Fetch? && init[j].clock == a[i].clock;
          assert steps[j] == init[j];
        }
      }
      forall i | 0 <= i < |all| ensures IsFetchClock(steps, all[i].clock) {
        if i < |a| {
          assert all[i] == a[i] && IsFetchClock(init, a[i].clock);
          var j :| 0 <= j < |init| && init[j].Fetch? && init[j].clock == a[i].clock;
          assert steps[j] == init[j];
        } else {
          assert steps[|steps| - 1] == s;
        }
      }
    }
  }

  /** The queue's claims and the attempts' grants run side by side. */
  predicate Follows(r: Rated, l: Log) {
    r.q.limiter == l.key && r.claims == l.claims && r.windows == |l.starts|
  }

  lemma FetchFollows(r: Rated, s: Step, limit: Limit, l: Log)
    requires Follows(r, l) && s.Fetch? && Uniform(limit, s)
    requires limit.max >= 1 && limit.duration >= 1 && WellCounted(l, limit) && l.clock <= s.clock
    ensures Follows(Rate(r, s), Try(l, limit, Attempt(s.clock, Available(r.q, s.now))))
  {
    hide FetchNext, Available, WellCounted;
    FetchApplies(r.q, s);
    FetchTries(r.q, s.token, s.now, s.clock, limit, l);
    CountsFromOne(l, limit);
  }

  lemma CountsFromOne(l: Log, limit: Limit)
    requires WellCounted(l, limit)
    ensures l.key.Some? ==> l.key.value.count >= 1
  {
    hide StartsApartOnce, ClaimsInWindows, Counted;
  }

  lemma {:induction false} RunFollows(steps: seq<Step>, limit: Limit)
    requires limit.max >= 1 && limit.duration >= 1 && InTime(steps)
    requires forall i :: 0 <= i < |steps| ==> Uniform(limit, steps[i])
    ensures var r := RateAll(Rated(EmptyQueue, [], 0), steps);
      r.q == Run(EmptyQueue, steps) && Follows(r, TryAll(Start, limit, Attempts(EmptyQueue, steps)))
  {
    hide Apply, Rate, Try, Available, Uniform;
    if steps == [] {
      StartFollows(limit);
    } else {
      var init, s := steps[..|steps| - 1], steps[|steps| - 1];
      RunFollows(init, limit);
      assert Uniform(limit, s);
      var r := RateAll(Rated(EmptyQueue, [], 0), init);
      var a := Attempts(EmptyQueue, init);
      RateApplies(r, s);
      if s.Fetch? {
        AttemptsInTime(EmptyQueue, init);
        RunKeepsCounts(limit, a);
        LastClock(steps, limit);
        FetchFollows(r, s, limit, TryAll(Start, limit, a));
        TryMore(limit, a, Attempt(s.clock, Available(r.q, s.now)));
      } else {
        OthersKeepCounters(r.q, s);
        OthersClaimNothing(r, s);
        assert a + [] == a;
      }
    }
  }

  lemma StartFollows(limit: Limit)
    ensures Follows(Rated(EmptyQueue, [], 0), TryAll(Start, limit, []))
  {
  }

  lemma RateApplies(r: Rated, s: Step)
    ensures Rate(r, s).q == Apply(r.q, s)
  {
    hide Apply;
  }

  lemma OthersClaimNothing(r: Rated, s: Step)
    requires !s.Fetch?
    ensures Rate(r, s) == r.(q := Apply(r.q, s))
  {
    hide Apply;
  }

  /** The last attempt so far was not later than a fetch that ends the run. */
  lemma LastClock(steps: seq<Step>, limit: Limit)
    requires limit.max >= 1 && limit.duration >= 1 && InTime(steps) && steps != [] && steps[|steps| - 1].Fetch?
    ensures TryAll(Start, limit, Attempts(EmptyQueue, steps[..|steps| - 1])).clock <= steps[|steps| - 1].clock
  {
    hide Run, Available, Try;
    var init := steps[..|steps| - 1];
    var a := Attempts(EmptyQueue, init);
    AttemptsInTime(EmptyQueue, init);
    RunKeepsCounts(limit, a);
    if a != [] {
      assert IsFetchClock(init, a[|a| - 1].clock);
      var j :| 0 <= j < |init| && init[j].Fetch? && init[j].clock == a[|a| - 1].clock;
      assert steps[j] == init[j];
    }
  }

  /** Main result: over every run from an empty queue in which all claims, on both claim paths,
      carry one limit, each limiter window counts at most `max` claims, and any half-open interval
      of one duration sees at most 2 max - 1. */
  lemma {:induction false} ClaimsAreLimited(steps: seq<Step>, limit: Limit, window: nat, from: nat)
    requires limit.max >= 1 && limit.duration >= 1 && InTime(steps)
    requires forall i :: 0 <= i < |steps| ==> Uniform(limit, steps[i])
    ensures var claims := RateAll(Rated(EmptyQueue, [], 0), steps).claims;
      && InWindow(claims, window) <= limit.max
      && Between(claims, from, from + limit.duration) <= 2 * limit.max - 1
  {
    hide RateAll, TryAll, InWindow, Between, Uniform;
    RunFollows(steps, limit);
    AttemptsInTime(EmptyQueue, steps);
    AtMostMaxPerWindow(limit, Attempts(EmptyQueue, steps), window);
    AtMostTwiceMaxPerInterval(limit, Attempts(EmptyQueue, steps), from);
  }
}

/** Locks fence out every worker but the last claimer of a job, whatever locks expire and
    whatever the stalled sweep requeues in between. */
module Fencing {
  import opened Redis
  import opened Scores
  import opened Limiter
  import opened Queue
  import opened Machine

  datatype Held = Held(id: JobId, token: Token)

  /** A queue with the history of its claims and of its successful exits from active. */
  datatype Story = Story(q: Queue, last: map<JobId, Token>, claims: multiset<Held>, exits: multiset<Held>)

  function Fetching(q: Queue, s: Step): Fetch
    requires s.Fetch?
  {
    FetchNext(q, s.token, s.now, s.clock, s.limit).result
  }

  function Tell(t: Story, s: Step): Story {
    var q := Apply(t.q, s);
    if s.Fetch? && Fetching(t.q, s).Claimed? then
      var id := Fetching(t.q, s).id;
      Story(q, t.last[id := s.token], t.claims + multiset{Held(id, s.token)}, t.exits)
    else if IsExit(s) && Succeeds(t.q, s) then t.(q := q, exits := t.exits + multiset{Held(s.id, s.token)})
    else t.(q := q)
  }

  function TellAll(t: Story, steps: seq<Step>): Story {
    if steps == [] then t else Tell(TellAll(t, steps[..|steps| - 1]), steps[|steps| - 1])
  }

  /** Workers use real tokens; "0" would bypass the locks. */
  predicate Tokened(s: Step) {
    s.Fetch? || IsExit(s) ==> s.token != NO_LOCK
  }

  function LockedBy(q: Queue, h: Held): nat {
    if h.id in q.locks && q.locks[h.id] == h.token then 1 else 0
  }

  ghost predicate Fenced(t: Story) {
    && (forall id :: id in t.q.locks ==> id in t.last && t.q.locks[id] == t.last[id])
    && (forall h :: t.exits[h] + LockedBy(t.q, h) <= t.claims[h])
  }

  // ---------------------------------------------------------------- who touches the locks

  lemma {:induction false} PromoteEachKeepsLocks(q: Queue, ids: seq<JobId>)
    ensures PromoteEach(q, ids).locks == q.locks
  {
    hide PromoteOne;
    if ids != [] {
      var m := PromoteEach(q, ids[..|ids| - 1]);
      PromoteEachKeepsLocks(q, ids[..|ids| - 1]);
      PromoteOneKeepsLocks(m, ids[|ids| - 1]);
    }
  }

  lemma PromoteOneKeepsLocks(q: Queue, id: JobId)
    ensures PromoteOne(q, id).locks == q.locks
  {
    if HashOf(q, id).priority == 0 { return; }
  }

  lemma FetchLocks(q: Queue, token: Token, now: nat, clock: nat, limit: Option<Limit>)
    ensures var f := FetchNext(q, token, now, clock, limit);
      f.q.locks == if f.result.Claimed? then q.locks[f.result.id := token] else q.locks
  {
    hide PromoteEach;
    var n := DueCount(q, now);
    PromoteEachKeepsLocks(q.(at := q.at.(delayed := q.at.delayed[n..])), Members(q.at.delayed[..n]));
    var p := PromoteDelayed(q, now);
    assert p.locks == q.locks by { if n == 0 {} else {} }
    hide PromoteDelayed;
    var v := RateLimitTtl(limit, p.limiter, clock);
    if v.ttl > 0 { return; }
    if p.isPaused { return; }
    var r := p.(limiter := v.key);
    if NextJob(r).None? { return; }
    if r.at.wait != [] { return; }
  }

  lemma {:induction false} SweepEachKeepsLocks(q: Queue, ids: seq<JobId>, maxStalled: nat, now: nat)
    ensures SweepEach(q, ids, maxStalled, now).locks == q.locks
  {
    hide SweepOne;
    if ids != [] {
      SweepEachKeepsLocks(q, ids[..|ids| - 1], maxStalled, now);
      SweepOneKeepsLocks(SweepEach(q, ids[..|ids| - 1], maxStalled, now), ids[|ids| - 1], maxStalled, now);
    }
  }

  lemma SweepOneKeepsLocks(q: Queue, id: JobId, maxStalled: nat, now: nat)
    ensures SweepOne(q, id, maxStalled, now).locks == q.locks
  {
    if id !in q.jobs { return; }
    if q.jobs[id].stc >= maxStalled { return; }
    if q.jobs[id].priority > 0 { return; }
  }

  lemma {:induction false} ClearEachKeepsLocks(q: Queue, from: Source, ids: seq<JobId>)
    ensures ClearEach(q, from, ids).locks == q.locks
  {
    if ids != [] { ClearEachKeepsLocks(q, from, ids[..|ids| - 1]); }
  }

  lemma ReleaseKeepsLocks(q: Queue, parent: JobId, child: JobKey, value: Payload, now: nat)
    ensures ReleaseParent(q, parent, child, value, now).locks == q.locks
  {
    hide Zadd, Zrem, DelayedScore;
    if child !in PendingChildren(q, parent) { return; }
    if PendingChildren(q, parent) == {child} && parent in q.jobs && Has(q.at.waitingChildren, parent) {
      if HashOf(RecordChild(q, parent, child, value), parent).delay > 0 { return; }
      if HashOf(RecordChild(q, parent, child, value), parent).priority > 0 { return; }
      return;
    }
  }

  /** A successful exit removes the lock, and nothing else an exit does touches locks. */
  lemma ExitLocks(q: Queue, s: Step)
    requires IsExit(s) && s.token != NO_LOCK
    ensures Apply(q, s).locks == if Succeeds(q, s) then q.locks - {s.id} else q.locks
    ensures Succeeds(q, s) ==> s.id in q.locks && q.locks[s.id] == s.token
  {
    hide Zadd, DelayedScore, RemoveFirst, AddStandardJob, AddPrioritizedJob, AddDelayedJob, AddParentJob, ReleaseParent;
    hide SweepStalled, ChangePriority, PromoteJob, MoveJobsToWait, FetchNext;
    if !Succeeds(q, s) {
      match s {
        case Finish(_, _, _, _, _) => return;
        case Delay(_, _, _, _, _) => return;
        case Retry(_, _, _, _, _) => return;
        case Return(_, _) => return;
      }
    }
    match s {
      case Finish(_, _, _, result, _) => if result.Completed? { return; } return;
      case Delay(_, _, _, _, _) => return;
      case Retry(_, _, right, _, priority) =>
        if priority == 0 && !right { return; }
        if priority > 0 { return; }
        return;
      case Return(id, _) =>
        if id !in q.at.active { return; }
        if HashOf(q, id).priority > 0 { return; }
        return;
    }
  }

  lemma AddKeepsLocks(q: Queue, s: Step)
    requires s.AddStandard? || s.AddPrioritized? || s.AddDelayed? || s.AddParent?
    ensures Apply(q, s).locks == q.locks
  {
    hide Zadd, DelayedScore;
    match s {
      case AddStandard(id, opts, _, _) => if id in q.jobs || Holder(q, opts.deid).Some? { return; } return;
      case AddPrioritized(id, opts, _, _) => if id in q.jobs || Holder(q, opts.deid).Some? { return; } return;
      case AddDelayed(id, opts, _, _) => if id in q.jobs || Holder(q, opts.deid).Some? { return; } return;
      case AddParent(id, _, _, _) => if id in q.jobs { return; } return;
    }
  }

  lemma ReprioritizeKeepsLocks(q: Queue, id: JobId, priority: nat)
    ensures ChangePriority(q, id, priority).q.locks == q.locks
  {
    hide Zadd, Zrem, RemoveAll;
    if id !in q.jobs { return; }
    if priority == 0 && q.jobs[id].priority == 0 { return; }
    if priority > 0 { return; }
  }

  lemma PromoteNowKeepsLocks(q: Queue, id: JobId)
    ensures PromoteJob(q, id).q.locks == q.locks
  {
    hide Zadd, Zrem;
    if !Has(q.at.delayed, id) { return; }
    if HashOf(q, id).priority > 0 { return; }
  }

  lemma MoveJobsKeepsLocks(q: Queue, from: Source, count: nat, upTo: Option<nat>)
    ensures MoveJobsToWait(q, from, count, upTo).q.locks == q.locks
  {
    hide ClearEach;
    var n := Min(Matching(SourceSet(q, from), upTo), count);
    if n == 0 { return; }
    ClearEachKeepsLocks(q, from, Members(SourceSet(q, from)[..n]));
    match from {
      case FromFailed => return;
      case FromCompleted => return;
      case FromDelayed => return;
    }
  }

  lemma SweepKeepsLocks(q: Queue, order: seq<JobId>, maxStalled: nat, now: nat)
    ensures SweepStalled(q, order, maxStalled, now).locks == q.locks
  {
    hide SweepEach, Requeued;
    SweepEachKeepsLocks(Scanned(q), order, maxStalled, now);
  }

  lemma OtherLocks(q: Queue, s: Step)
    requires !IsExit(s) && !s.Fetch?
    ensures Apply(q, s).locks == if s.ExpireLock? then q.locks - {s.id} else q.locks
  {
    hide AddStandardJob, AddPrioritizedJob, AddDelayedJob, AddParentJob, ReleaseParent, SweepStalled, ChangePriority;
    hide PromoteJob, MoveJobsToWait, FinishJob, MoveToDelayed, RetryJob, MoveActiveToWait, FetchNext;
    if s.AddStandard? || s.AddPrioritized? || s.AddDelayed? || s.AddParent? { AddKeepsLocks(q, s); return; }
    match s {
      case Release(parent, child, value, now) => ReleaseKeepsLocks(q, parent, child, value, now); return;
      case Record(result, maxPoints, _) => if maxPoints.None? { return; } if result.Completed? { return; } return;
      case Extend(id, token) => if id in q.locks && q.locks[id] == token { return; } return;
      case Sweep(order, maxStalled, now) => SweepKeepsLocks(q, order, maxStalled, now); return;
      case Reprioritize(id, priority) => ReprioritizeKeepsLocks(q, id, priority); return;
      case PromoteNow(id) => PromoteNowKeepsLocks(q, id); return;
      case MoveJobs(from, count, upTo) => MoveJobsKeepsLocks(q, from, count, upTo); return;
      case _ => return;
    }
  }

  // ---------------------------------------------------------------- runs

  lemma FetchKeepsFence(t: Story, s: Step)
    requires Fenced(t) && Tokened(s) && s.Fetch?
    ensures Fenced(Tell(t, s))
  {
    hide Apply, FetchNext;
    var r := Tell(t, s);
    FetchApplies(t.q, s);
    FetchLocks(t.q, s.token, s.now, s.clock, s.limit);
    forall h ensures r.exits[h] + LockedBy(r.q, h) <= r.claims[h] {
      assert t.exits[h] + LockedBy(t.q, h) <= t.claims[h];
    }
  }

  lemma ExitKeepsFence(t: Story, s: Step)
    requires Fenced(t) && Tokened(s) && IsExit(s)
    ensures Fenced(Tell(t, s))
  {
    hide Apply, FetchNext, Guard;
    var r := Tell(t, s);
    ExitLocks(t.q, s);
    assert Succeeds(t.q, s) ==> LockedBy(t.q, Held(s.id, s.token)) == 1;
    forall h ensures r.exits[h] + LockedBy(r.q, h) <= r.claims[h] {
      assert t.exits[h] + LockedBy(t.q, h) <= t.claims[h];
    }
  }

  lemma TellKeepsFence(t: Story, s: Step)
    requires Fenced(t) && Tokened(s)
    ensures Fenced(Tell(t, s))
  {
    hide Apply, FetchNext, Guard;
    if s.Fetch? { FetchKeepsFence(t, s); return; }
    if IsExit(s) { ExitKeepsFence(t, s); return; }
    var r := Tell(t, s);
    OtherLocks(t.q, s);
    forall h ensures r.exits[h] + LockedBy(r.q, h) <= r.claims[h] {
      assert t.exits[h] + LockedBy(t.q, h) <= t.claims[h];
    }
  }

  lemma FetchApplies(q: Queue, s: Step)
    requires s.Fetch?
    ensures Apply(q, s) == FetchNext(q, s.token, s.now, s.clock, s.limit).q
  {
    hide FetchNext;
  }

  lemma {:induction false} RunKeepsFence(t: Story, steps: seq<Step>)
    requires Fenced(t) && forall i :: 0 <= i < |steps| ==> Tokened(steps[i])
    ensures Fenced(TellAll(t, steps))
  {
    hide Tell, Fenced, Tokened;
    if steps != [] {
      RunKeepsFence(t, steps[..|steps| - 1]);
      TellKeepsFence(TellAll(t, steps[..|steps| - 1]), steps[|steps| - 1]);
    }
  }

  const Beginning := Story(EmptyQueue, map[], multiset{}, multiset{})

  /** Main result, first half: at the end of every run, a lock's token is that of the job's most
      recent claim; so finish, delay, retry, return and renewal succeed for the last claimer or
      for nobody. */
  lemma {:induction false} OnlyLastClaimerSucceeds(steps: seq<Step>, s: Step)
    requires forall i :: 0 <= i < |steps| ==> Tokened(steps[i])
    requires (IsExit(s) && s.token != NO_LOCK) || s.Extend?
    ensures var t := TellAll(Beginning, steps);
      (if s.Extend? then ExtendLock(t.q, s.id, s.token).code == OK else Succeeds(t.q, s))
      ==> s.id in t.last && t.last[s.id] == s.token
  {
    hide TellAll;
    RunKeepsFence(Beginning, steps);
  }

  /** Second half: over every run, the exits that succeed with a token for a job number at most
      the claims of that job with that token. */
  lemma {:induction false} OneExitPerClaim(steps: seq<Step>, h: Held)
    requires forall i :: 0 <= i < |steps| ==> Tokened(steps[i])
    ensures TellAll(Beginning, steps).exits[h] <= TellAll(Beginning, steps).claims[h]
  {
    hide TellAll;
    RunKeepsFence(Beginning, steps);
  }
}

/** Every stored job is in exactly one of the eight lists and sets; the only jobs in none are
    those the stalled sweep gave up on. Locks and stalled entries belong to active jobs. */
module Partition {
  import opened Redis
  import opened Scores
  import opened Limiter
  import opened Queue
  import opened Machine

  /** Number of places that hold `x`. */
  function Count(p: Places, x: JobId): nat {
    multiset(p.wait)[x] + multiset(p.paused)[x] + multiset(p.active)[x]
    + multiset(Members(p.prioritized))[x] + multiset(Members(p.delayed))[x]
    + multiset(Members(p.completed))[x] + multiset(Members(p.failed))[x] + multiset(Members(p.waitingChildren))[x]
  }

  predicate SweptOut(job: Job) {
    job.failedReason == Some(StalledTooOften)
  }

  /** `x` is in exactly one place if it is stored and not swept out, else in none, and it is
      active if it has a lock or a stalled entry. */
  predicate Fits(q: Queue, x: JobId) {
    && (if x in q.jobs then Count(q.at, x) == 1 || (Count(q.at, x) == 0 && SweptOut(q.jobs[x]))
        else Count(q.at, x) == 0)
    && (x in q.locks || x in q.stalled ==> x in q.at.active)
  }

  ghost predicate Partitioned(q: Queue) {
    (forall x :: Fits(q, x)) && (!q.isPaused ==> q.at.paused == [])
  }

  /** A sweep is safe when no member of the stalled set is locked; the client-side operation
      that does not look at the job's state is safe when the job is where its priority says. */
  predicate Safe(q: Queue, s: Step) {
    && Possible(q, s)
    && (IsExit(s) ==> s.token != NO_LOCK)
    && (s.Sweep? ==> !SweepFindsLocked(q))
    && (s.Reprioritize? ==> InExpectedPlace(q, s.id, s.priority))
  }

  predicate SweepFindsLocked(q: Queue) {
    exists id :: id in q.stalled && id in q.locks
  }

  /** Nowhere, or where ChangePriority looks for the job. */
  predicate InExpectedPlace(q: Queue, id: JobId, priority: nat) {
    id in q.jobs ==>
      || Count(q.at, id) == 0
      || Has(q.at.prioritized, id)
      || (q.jobs[id].priority == 0 && (priority == 0 || id in q.at.wait || id in q.at.paused))
  }

  // ---------------------------------------------------------------- counting in one place

  function One(b: bool): nat { if b then 1 else 0 }

  function InList(s: seq<JobId>, x: JobId): nat { multiset(s)[x] }

  function InSet(z: Zset, x: JobId): nat { multiset(Members(z))[x] }

  /** Replacing one list or set changes the count by the difference in that place. */
  lemma CountUpdate(p: Places, list: seq<JobId>, z: Zset, x: JobId)
    ensures Count(p.(wait := list), x) == Count(p, x) - InList(p.wait, x) + InList(list, x)
    ensures Count(p.(paused := list), x) == Count(p, x) - InList(p.paused, x) + InList(list, x)
    ensures Count(p.(active := list), x) == Count(p, x) - InList(p.active, x) + InList(list, x)
    ensures Count(p.(prioritized := z), x) == Count(p, x) - InSet(p.prioritized, x) + InSet(z, x)
    ensures Count(p.(delayed := z), x) == Count(p, x) - InSet(p.delayed, x) + InSet(z, x)
    ensures Count(p.(completed := z), x) == Count(p, x) - InSet(p.completed, x) + InSet(z, x)
    ensures Count(p.(failed := z), x) == Count(p, x) - InSet(p.failed, x) + InSet(z, x)
    ensures Count(p.(waitingChildren := z), x) == Count(p, x) - InSet(p.waitingChildren, x) + InSet(z, x)
  {
  }

  lemma CountParts(p: Places, x: JobId)
    ensures Count(p, x) == InList(p.wait, x) + InList(p.paused, x) + InList(p.active, x) + InSet(p.prioritized, x)
                           + InSet(p.delayed, x) + InSet(p.completed, x) + InSet(p.failed, x)
                           + InSet(p.waitingChildren, x)
  {
  }

  lemma Present(s: seq<JobId>, x: JobId)
    ensures x in s <==> InList(s, x) > 0
  {
  }

  lemma PresentInSet(z: Zset, x: JobId)
    ensures Has(z, x) <==> InSet(z, x) > 0
  {
  }

  lemma ConcatCount(a: seq<JobId>, b: seq<JobId>, x: JobId)
    ensures InList(a + b, x) == InList(a, x) + InList(b, x)
  {
  }

  lemma SingleCount(id: JobId, x: JobId)
    ensures InList([id], x) == One(x == id)
  {
  }

  lemma RemoveFirstCount(s: seq<JobId>, id: JobId, x: JobId)
    ensures InList(RemoveFirst(s, id), x) == InList(s, x) - One(x == id && x in s)
  {
    RemoveFirstMembers(s, id);
  }

  lemma RemoveAllCount(s: seq<JobId>, id: JobId, x: JobId)
    ensures InList(RemoveAll(s, id), x) == if x == id then 0 else InList(s, x)
  {
    RemoveAllMembers(s, id);
  }

  lemma ZaddCount(z: Zset, score: nat, m: nat, x: nat)
    ensures InSet(Zadd(z, score, m), x) == if x == m then 1 else InSet(z, x)
  {
    ZaddMembers(z, score, m);
  }

  lemma ZremCount(z: Zset, m: nat, x: nat)
    ensures InSet(Zrem(z, m), x) == if x == m then 0 else InSet(z, x)
  {
    ZremMembers(z, m);
  }

  lemma SplitCount(z: Zset, k: nat, x: nat)
    requires k <= |z|
    ensures InSet(z, x) == InList(Members(z[..k]), x) + InSet(z[k..], x)
  {
    MembersSplit(z, k);
  }

  // ---------------------------------------------------------------- effects of the parts, seen from one id

  lemma PushPlaces(q: Queue, id: JobId, x: JobId)
    ensures Count(PushLeft(q, id).at, x) == Count(q.at, x) + One(x == id)
    ensures Count(PushRight(q, id).at, x) == Count(q.at, x) + One(x == id)
  {
    hide Count, InList;
    SingleCount(id, x);
    ConcatCount([id], q.at.wait, x); ConcatCount(q.at.wait, [id], x);
    ConcatCount([id], q.at.paused, x); ConcatCount(q.at.paused, [id], x);
    CountUpdate(q.at, [id] + q.at.wait, [], x); CountUpdate(q.at, q.at.wait + [id], [], x);
    CountUpdate(q.at, [id] + q.at.paused, [], x); CountUpdate(q.at, q.at.paused + [id], [], x);
    assert PushLeft(q, id).at
        == if q.isPaused then q.at.(paused := [id] + q.at.paused) else q.at.(wait := [id] + q.at.wait);
    assert PushRight(q, id).at
        == if q.isPaused then q.at.(paused := q.at.paused + [id]) else q.at.(wait := q.at.wait + [id]);
  }

  lemma EnqueuePlaces(q: Queue, id: JobId, priority: nat, x: JobId)
    requires x == id ==> !Has(q.at.prioritized, id)
    ensures Count(Enqueue(q, id, priority).at, x) == Count(q.at, x) + One(x == id)
  {
    hide Count, InSet;
    if priority > 0 {
      var z := Zadd(q.at.prioritized, PriorityScore(priority, q.pc + 1), id);
      PresentInSet(q.at.prioritized, x);
      ZaddCount(q.at.prioritized, PriorityScore(priority, q.pc + 1), id, x);
      CountUpdate(q.at, [], z, x);
    } else {
      PushPlaces(q, id, x);
    }
  }

  lemma EnqueueFrame(q: Queue, id: JobId, priority: nat)
    ensures var r := Enqueue(q, id, priority);
      r == q.(pc := r.pc, at := r.at) && r.at.active == q.at.active
      && r.at.completed == q.at.completed && r.at.failed == q.at.failed
      && (!q.isPaused ==> r.at.paused == q.at.paused)
  {
    if priority > 0 { return; }
  }

  lemma DelayPlaces(q: Queue, id: JobId, due: nat, x: JobId)
    requires x == id ==> !Has(q.at.delayed, id)
    ensures Count(DelayUntil(q, id, due).at, x) == Count(q.at, x) + One(x == id)
  {
    hide Count, InSet;
    PresentInSet(q.at.delayed, x);
    ZaddCount(q.at.delayed, DelayedScore(q.at.delayed, due), id, x);
    CountUpdate(q.at, [], Zadd(q.at.delayed, DelayedScore(q.at.delayed, due), id), x);
  }

  lemma NotPlaced(p: Places, x: JobId)
    requires Count(p, x) == 0
    ensures x !in p.wait && x !in p.paused && x !in p.active
    ensures !Has(p.prioritized, x) && !Has(p.delayed, x) && !Has(p.completed, x) && !Has(p.failed, x)
    ensures !Has(p.waitingChildren, x)
  {
  }

  lemma ActiveLeft(p: Places, id: JobId, x: JobId)
    requires id in p.active && Count(p, id) <= 1
    ensures var r := p.(active := RemoveFirst(p.active, id));
      Count(r, x) == Count(p, x) - One(x == id) && (x in r.active <==> x in p.active && x != id)
  {
    hide Count, InList, InSet;
    RemoveFirstCount(p.active, id, x);
    RemoveFirstCount(p.active, id, id);
    CountUpdate(p, RemoveFirst(p.active, id), [], x);
    CountParts(p, id);
    Present(p.active, x);
    Present(p.active, id);
    Present(RemoveFirst(p.active, id), x);
  }

  /** A lock holder's job is active, and once it has left active it is nowhere and not held. */
  lemma LeaveActiveClears(q: Queue, id: JobId, token: Token, x: JobId)
    requires Fits(q, id) && token != NO_LOCK && Guard(q, id, token) == OK
    ensures id in q.jobs && id in q.at.active && Count(q.at, id) == 1
    ensures var r := LeaveActive(q, id, token);
      && Count(r.at, id) == 0 && id !in r.locks && id !in r.stalled
      && Count(r.at, x) == Count(q.at, x) - One(x == id)
      && (x in r.at.active <==> x in q.at.active && x != id)
      && !Has(r.at.prioritized, id) && !Has(r.at.delayed, id) && !Has(r.at.completed, id) && !Has(r.at.failed, id)
  {
    hide Count;
    assert id in q.at.active;
    assert Count(q.at, id) <= 1;
    ActiveLeft(q.at, id, x);
    ActiveLeft(q.at, id, id);
    NotPlaced(LeaveActive(q, id, token).at, id);
    assert Count(q.at, id) == 1;
  }

  /** A job that is nowhere and not held gets one place: it fits again, and so do the others. */
  lemma Rehome(q: Queue, l: Queue, r: Queue, id: JobId, x: JobId)
    requires Fits(q, x)
    requires x != id ==> Count(l.at, x) == Count(q.at, x) && (x in l.jobs <==> x in q.jobs)
    requires x != id && x in q.jobs ==> l.jobs[x] == q.jobs[x]
    requires x != id ==> (x in l.locks ==> x in q.locks) && (x in l.stalled ==> x in q.stalled)
    requires x != id && x in q.at.active ==> x in l.at.active
    requires x == id ==> Count(l.at, x) == 0 && x !in l.locks && x !in l.stalled
    requires Count(r.at, x) == Count(l.at, x) + One(x == id)
    requires id in r.jobs && (x != id ==> (x in r.jobs <==> x in l.jobs) && (x in l.jobs ==> r.jobs[x] == l.jobs[x]))
    requires r.locks == l.locks && r.stalled == l.stalled && r.at.active == l.at.active
    ensures Fits(r, x)
  {
    hide Count;
  }

  // ---------------------------------------------------------------- each script, seen from one id

  lemma AddStandardFits(q: Queue, id: JobId, opts: Opts, ts: nat, parent: Option<JobKey>, x: JobId)
    requires Fits(q, id) && Fits(q, x)
    ensures Fits(AddStandardJob(q, id, opts, ts, parent).q, x)
  {
    hide Count, PushLeft;
    if id in q.jobs || Holder(q, opts.deid).Some? { return; }
    var s := Stored(q, id, opts, ts, parent);
    NotPlaced(q.at, id);
    PushPlaces(s, id, x);
    assert PushLeft(s, id) == s.(at := PushLeft(s, id).at) && PushLeft(s, id).at.active == s.at.active by {
      PushLeftFrame(s, id);
    }
    Rehome(q, s, AddStandardJob(q, id, opts, ts, parent).q, id, x);
  }

  lemma PushLeftFrame(q: Queue, id: JobId)
    ensures PushLeft(q, id) == q.(at := PushLeft(q, id).at) && PushLeft(q, id).at.active == q.at.active
    ensures !q.isPaused ==> PushLeft(q, id).at.paused == q.at.paused
  {
  }

  lemma AddPrioritizedFits(q: Queue, id: JobId, opts: Opts, ts: nat, parent: Option<JobKey>, x: JobId)
    requires Fits(q, id) && Fits(q, x)
    ensures Fits(AddPrioritizedJob(q, id, opts, ts, parent).q, x)
  {
    hide Count, Zadd;
    if id in q.jobs || Holder(q, opts.deid).Some? { return; }
    var s := Stored(q, id, opts, ts, parent);
    NotPlaced(q.at, id);
    PrioritizePlaces(s, id, opts.priority, x);
    Rehome(q, s, AddPrioritizedJob(q, id, opts, ts, parent).q, id, x);
  }

  lemma PrioritizePlaces(q: Queue, id: JobId, priority: nat, x: JobId)
    requires x == id ==> !Has(q.at.prioritized, id)
    ensures Count(Prioritize(q, id, priority).at, x) == Count(q.at, x) + One(x == id)
  {
    hide Count, InSet;
    PresentInSet(q.at.prioritized, x);
    ZaddCount(q.at.prioritized, PriorityScore(priority, q.pc + 1), id, x);
    CountUpdate(q.at, [], Zadd(q.at.prioritized, PriorityScore(priority, q.pc + 1), id), x);
  }

  lemma AddDelayedFits(q: Queue, id: JobId, opts: Opts, ts: nat, parent: Option<JobKey>, x: JobId)
    requires Fits(q, id) && Fits(q, x)
    ensures Fits(AddDelayedJob(q, id, opts, ts, parent).q, x)
  {
    hide Count, Zadd, DelayedScore;
    if id in q.jobs || Holder(q, opts.deid).Some? { return; }
    var s := Stored(q, id, opts, ts, parent);
    NotPlaced(q.at, id);
    DelayPlaces(s, id, DueTime(ts, opts.delay), x);
    Rehome(q, s, AddDelayedJob(q, id, opts, ts, parent).q, id, x);
  }

  lemma AddParentFits(q: Queue, id: JobId, opts: Opts, ts: nat, parent: Option<JobKey>, x: JobId)
    requires Fits(q, id) && Fits(q, x)
    ensures Fits(AddParentJob(q, id, opts, ts, parent), x)
  {
    hide Count, InSet, Zadd;
    if id in q.jobs { return; }
    NotPlaced(q.at, id);
    PresentInSet(q.at.waitingChildren, x);
    ZaddCount(q.at.waitingChildren, ts, id, x);
    CountUpdate(q.at, [], Zadd(q.at.waitingChildren, ts, id), x);
    Rehome(q, q, AddParentJob(q, id, opts, ts, parent), id, x);
  }

  lemma StoreResultPlaces(q: Queue, id: JobId, now: nat, result: Result, atm: nat, x: JobId)
    requires x == id ==> !Has(q.at.completed, id) && !Has(q.at.failed, id)
    ensures Count(StoreResult(q, id, now, result, atm).at, x) == Count(q.at, x) + One(x == id)
  {
    hide Count, InSet, Zadd;
    PresentInSet(q.at.completed, x);
    PresentInSet(q.at.failed, x);
    ZaddCount(q.at.completed, now, id, x);
    ZaddCount(q.at.failed, now, id, x);
    CountUpdate(q.at, [], Zadd(q.at.completed, now, id), x);
    CountUpdate(q.at, [], Zadd(q.at.failed, now, id), x);
    if result.Completed? { return; }
  }

  lemma StoreResultFrame(q: Queue, id: JobId, now: nat, result: Result, atm: nat)
    ensures var r := StoreResult(q, id, now, result, atm);
      r == q.(at := r.at, jobs := r.jobs) && r.at.active == q.at.active
      && r.jobs.Keys == q.jobs.Keys + {id} && forall x :: x in q.jobs && x != id ==> r.jobs[x] == q.jobs[x]
  {
    if result.Completed? { return; }
  }

  lemma FinishFits(q: Queue, id: JobId, token: Token, now: nat, result: Result, atm: nat, x: JobId)
    requires Fits(q, id) && Fits(q, x) && token != NO_LOCK
    ensures Fits(FinishJob(q, id, token, now, result, atm).q, x)
    ensures Count(FinishJob(q, id, token, now, result, atm).q.at, x) == Count(q.at, x)
  {
    hide Count, StoreResult;
    if Guard(q, id, token) != OK { return; }
    LeaveActiveClears(q, id, token, x);
    var l := LeaveActive(q, id, token);
    var d := ReleaseDedup(l, id);
    StoreResultPlaces(d, id, now, result, atm, x);
    StoreResultFrame(d, id, now, result, atm);
    Rehome(q, l, StoreResult(d, id, now, result, atm), id, x);
  }

  lemma DelayFits(q: Queue, id: JobId, token: Token, now: nat, due: nat, atm: nat, x: JobId)
    requires Fits(q, id) && Fits(q, x) && token != NO_LOCK
    ensures Fits(MoveToDelayed(q, id, token, now, due, atm).q, x)
    ensures Count(MoveToDelayed(q, id, token, now, due, atm).q.at, x) == Count(q.at, x)
  {
    hide Count, Zadd, DelayedScore;
    if Guard(q, id, token) != OK { return; }
    LeaveActiveClears(q, id, token, x);
    var l := LeaveActive(q, id, token);
    DelayPlaces(l, id, due, x);
    Rehome(q, l, MoveToDelayed(q, id, token, now, due, atm).q, id, x);
  }

  lemma RetryFits(q: Queue, id: JobId, token: Token, right: bool, atm: nat, priority: nat, x: JobId)
    requires Fits(q, id) && Fits(q, x) && token != NO_LOCK
    ensures Fits(RetryJob(q, id, token, right, atm, priority).q, x)
    ensures Count(RetryJob(q, id, token, right, atm, priority).q.at, x) == Count(q.at, x)
  {
    hide Count, PushLeft, Enqueue;
    if Guard(q, id, token) != OK { return; }
    LeaveActiveClears(q, id, token, x);
    var l := LeaveForRetry(q, id, token, atm);
    PushPlaces(l, id, x);
    PushLeftFrame(l, id);
    EnqueuePlaces(l, id, priority, x);
    EnqueueFrame(l, id, priority);
    Rehome(q, l, RetryJob(q, id, token, right, atm, priority).q, id, x);
  }

  lemma ReturnFits(q: Queue, id: JobId, token: Token, x: JobId)
    requires Fits(q, id) && Fits(q, x) && token != NO_LOCK
    ensures Fits(MoveActiveToWait(q, id, token).q, x)
    ensures Count(MoveActiveToWait(q, id, token).q.at, x) == Count(q.at, x)
  {
    hide Count, InSet, Zadd;
    if Guard(q, id, token) != OK { return; }
    LeaveActiveClears(q, id, token, x);
    var l := LeaveActive(q, id, token);
    if HashOf(q, id).priority > 0 {
      var score := PushBackScore(HashOf(q, id).priority);
      PresentInSet(q.at.prioritized, x);
      ZaddCount(q.at.prioritized, score, id, x);
      CountUpdate(l.at, [], Zadd(q.at.prioritized, score, id), x);
      Rehome(q, l, MoveActiveToWait(q, id, token).q, id, x);
      return;
    }
    PushPlaces(l, id, x);
    Rehome(q, l, MoveActiveToWait(q, id, token).q, id, x);
  }

  lemma ZremPlaces(p: Places, id: JobId, x: JobId)
    requires Count(p, id) <= 1
    ensures Has(p.waitingChildren, id) ==>
      Count(p.(waitingChildren := Zrem(p.waitingChildren, id)), x) == Count(p, x) - One(x == id) && id !in p.active
    ensures Has(p.delayed, id) ==>
      Count(p.(delayed := Zrem(p.delayed, id)), x) == Count(p, x) - One(x == id) && id !in p.active
  {
    hide Count, InSet, InList;
    CountParts(p, id);
    Present(p.active, id);
    PresentInSet(p.waitingChildren, id);
    PresentInSet(p.delayed, id);
    ZremCount(p.waitingChildren, id, x);
    ZremCount(p.delayed, id, x);
    CountUpdate(p, [], Zrem(p.waitingChildren, id), x);
    CountUpdate(p, [], Zrem(p.delayed, id), x);
  }

  lemma MoveParentFits(q: Queue, id: JobId, now: nat, x: JobId)
    requires Fits(q, id) && Fits(q, x) && id in q.jobs && Has(q.at.waitingChildren, id)
    ensures Fits(MoveParentToWait(q, id, now), x)
    ensures Count(MoveParentToWait(q, id, now).at, x) == Count(q.at, x)
  {
    hide Count, Zadd, Zrem, DelayedScore, Enqueue;
    var job := HashOf(q, id);
    var z := q.(at := q.at.(waitingChildren := Zrem(q.at.waitingChildren, id)));
    ZremPlaces(q.at, id, x);
    ZremPlaces(q.at, id, id);
    PresentInSet(q.at.waitingChildren, id);
    CountParts(q.at, id);
    NotPlaced(z.at, id);
    if job.delay > 0 {
      DelayPlaces(z, id, DueTime(now, job.delay), x);
      Rehome(q, z, MoveParentToWait(q, id, now), id, x);
      return;
    }
    EnqueuePlaces(z, id, job.priority, x);
    EnqueueFrame(z, id, job.priority);
    Rehome(q, z, MoveParentToWait(q, id, now), id, x);
  }

  lemma ReleaseFits(q: Queue, parent: JobId, child: JobKey, value: Payload, now: nat, x: JobId)
    requires Fits(q, parent) && Fits(q, x)
    ensures Fits(ReleaseParent(q, parent, child, value, now), x)
    ensures Count(ReleaseParent(q, parent, child, value, now).at, x) == Count(q.at, x)
  {
    hide MoveParentToWait, Count;
    if child !in PendingChildren(q, parent) { return; }
    var r := RecordChild(q, parent, child, value);
    if PendingChildren(q, parent) == {child} && parent in q.jobs && Has(q.at.waitingChildren, parent) {
      MoveParentFits(r, parent, now, x);
      return;
    }
  }

  // ---------------------------------------------------------------- claiming

  lemma PromoteOneFrame(q: Queue, id: JobId)
    ensures var r := PromoteOne(q, id);
      r == q.(at := r.at, jobs := r.jobs, pc := r.pc) && r.jobs.Keys == q.jobs.Keys + {id}
      && r.at == q.at.(wait := r.at.wait, prioritized := r.at.prioritized)
      && r.jobs == q.jobs[id := HashOf(q, id).(delay := 0)]
  {
    if HashOf(q, id).priority == 0 { return; }
  }

  lemma {:induction false} PromoteEachFrame(q: Queue, ids: seq<JobId>)
    ensures var r := PromoteEach(q, ids);
      r == q.(at := r.at, jobs := r.jobs, pc := r.pc)
      && r.at == q.at.(wait := r.at.wait, prioritized := r.at.prioritized)
  {
    hide PromoteOne;
    if ids != [] {
      PromoteEachFrame(q, ids[..|ids| - 1]);
      PromoteOneFrame(PromoteEach(q, ids[..|ids| - 1]), ids[|ids| - 1]);
    }
  }

  lemma PromoteOnePlaces(q: Queue, id: JobId, x: JobId)
    requires x == id ==> Count(q.at, x) == 0
    ensures Count(PromoteOne(q, id).at, x) == Count(q.at, x) + One(x == id)
  {
    hide Count, InList, InSet, Zadd;
    if x == id { NotPlaced(q.at, x); }
    if HashOf(q, id).priority == 0 {
      SingleCount(id, x);
      ConcatCount([id], q.at.wait, x);
      CountUpdate(q.at, [id] + q.at.wait, [], x);
      return;
    }
    PrioritizePlaces(q, id, HashOf(q, id).priority, x);
  }

  /** Promotion adds one place for each promoted id, and rewrites only the delay of its hash. */
  lemma {:induction false} PromoteEachPlaces(q: Queue, ids: seq<JobId>, x: JobId)
    requires Count(q.at, x) + InList(ids, x) <= 1
    requires x in ids ==> x in q.jobs
    ensures var r := PromoteEach(q, ids);
      && Count(r.at, x) == Count(q.at, x) + InList(ids, x)
      && (x in r.jobs <==> x in q.jobs)
      && (x in q.jobs ==> r.jobs[x].failedReason == q.jobs[x].failedReason)
  {
    hide PromoteOne, Count;
    if ids != [] {
      var init, last := ids[..|ids| - 1], ids[|ids| - 1];
      assert ids == init + [last];
      ConcatCount(init, [last], x);
      SingleCount(last, x);
      PromoteEachPlaces(q, init, x);
      PromoteOnePlaces(PromoteEach(q, init), last, x);
      PromoteOneFrame(PromoteEach(q, init), last);
    }
  }

  lemma PromoteFits(q: Queue, now: nat, x: JobId)
    requires Fits(q, x)
    ensures Fits(PromoteDelayed(q, now), x) && Count(PromoteDelayed(q, now).at, x) == Count(q.at, x)
  {
    hide Count, InSet, InList, PromoteEach;
    var n := DueCount(q, now);
    if n == 0 { return; }
    var ids := Members(q.at.delayed[..n]);
    var d := q.(at := q.at.(delayed := q.at.delayed[n..]));
    SplitCount(q.at.delayed, n, x);
    CountUpdate(q.at, [], q.at.delayed[n..], x);
    Present(ids, x);
    PromoteEachPlaces(d, ids, x);
    PromoteEachFrame(d, ids);
  }

  lemma PopPlaces(q: Queue, x: JobId)
    requires NextJob(q).Some?
    ensures Count(PopNext(q).at, x) == Count(q.at, x)
    ensures x in PopNext(q).at.active <==> x in q.at.active || x == NextJob(q).value
    ensures Count(q.at, NextJob(q).value) > 0
  {
    hide Count, InSet, InList;
    var id := NextJob(q).value;
    SingleCount(id, x); SingleCount(id, id);
    ConcatCount([id], q.at.active, x);
    CountParts(q.at, id);
    if q.at.wait != [] {
      var w := q.at.wait[..|q.at.wait| - 1];
      assert q.at.wait == w + [id];
      ConcatCount(w, [id], x); ConcatCount(w, [id], id);
      CountUpdate(q.at, w, [], x);
      CountUpdate(q.at.(wait := w), [id] + q.at.active, [], x);
      return;
    }
    SplitCount(q.at.prioritized, 1, x); SplitCount(q.at.prioritized, 1, id);
    assert Members(q.at.prioritized[..1]) == [id];
    CountUpdate(q.at, [], q.at.prioritized[1..], x);
    CountUpdate(q.at.(prioritized := q.at.prioritized[1..]), [id] + q.at.active, [], x);
  }

  lemma ClaimFits(q: Queue, token: Token, limiter: Limiter.Key, x: JobId)
    requires NextJob(q).Some? && Fits(q, NextJob(q).value) && Fits(q, x)
    ensures Fits(Claim(PopNext(q).(limiter := limiter), NextJob(q).value, token), x)
    ensures Count(Claim(PopNext(q).(limiter := limiter), NextJob(q).value, token).at, x) == Count(q.at, x)
  {
    hide Count;
    PopPlaces(q, x);
    if q.at.wait != [] { return; }
  }

  lemma FetchFits(q: Queue, token: Token, now: nat, clock: nat, limit: Option<Limit>, x: JobId)
    requires forall y :: Fits(q, y)
    ensures Fits(FetchNext(q, token, now, clock, limit).q, x)
    ensures Count(FetchNext(q, token, now, clock, limit).q.at, x) == Count(q.at, x)
  {
    hide Count, PromoteDelayed, PopNext, Claim;
    var p := PromoteDelayed(q, now);
    var v := RateLimitTtl(limit, p.limiter, clock);
    var r := p.(limiter := v.key);
    PromoteFits(q, now, x);
    if v.ttl > 0 { return; }
    if r.isPaused { return; }
    if NextJob(r).None? { return; }
    PromoteFits(q, now, NextJob(r).value);
    ClaimFits(r, token, CountClaim(limit, r.limiter, clock), x);
  }

  // ---------------------------------------------------------------- sweeping

  lemma SweepOneFrame(q: Queue, id: JobId, maxStalled: nat, now: nat)
    ensures var r := SweepOne(q, id, maxStalled, now);
      && r.isPaused == q.isPaused && r.at.completed == q.at.completed && r.at.failed == q.at.failed
      && (!q.isPaused ==> r.at.paused == q.at.paused)
      && r.locks == q.locks && r.stalled == q.stalled - {id}
      && r.jobs.Keys == q.jobs.Keys && (forall x :: x in q.jobs && x != id ==> r.jobs[x] == q.jobs[x])
  {
    hide Enqueue;
    if id !in q.jobs { return; }
    if q.jobs[id].stc >= maxStalled { return; }
    EnqueueFrame(Stall(q, id), id, q.jobs[id].priority);
  }

  lemma SweepOnePlaces(q: Queue, id: JobId, maxStalled: nat, now: nat, x: JobId)
    requires id in q.jobs && id in q.at.active && Count(q.at, id) == 1
    ensures var r := SweepOne(q, id, maxStalled, now);
      && Count(r.at, x) == Count(q.at, x) - One(x == id && q.jobs[id].stc >= maxStalled)
      && (x in r.at.active <==> x in q.at.active && x != id)
      && (q.jobs[id].stc >= maxStalled ==> SweptOut(r.jobs[id]))
  {
    hide Count, Enqueue;
    ActiveLeft(q.at, id, x);
    ActiveLeft(q.at, id, id);
    if q.jobs[id].stc >= maxStalled { return; }
    NotPlaced(Stall(q, id).at, id);
    EnqueuePlaces(Stall(q, id), id, q.jobs[id].priority, x);
    EnqueueFrame(Stall(q, id), id, q.jobs[id].priority);
  }

  lemma {:induction false} SweepEachFrame(q: Queue, ids: seq<JobId>, maxStalled: nat, now: nat)
    ensures var r := SweepEach(q, ids, maxStalled, now);
      && r.isPaused == q.isPaused && r.at.completed == q.at.completed && r.at.failed == q.at.failed
      && (!q.isPaused ==> r.at.paused == q.at.paused)
      && r.locks == q.locks && r.stalled == q.stalled - (set y | y in ids)
      && r.jobs.Keys == q.jobs.Keys && (forall x :: x in q.jobs && x !in ids ==> r.jobs[x] == q.jobs[x])
  {
    hide SweepOne;
    if ids != [] {
      var init, last := ids[..|ids| - 1], ids[|ids| - 1];
      assert ids == init + [last];
      SweepEachFrame(q, init, maxStalled, now);
      SweepOneFrame(SweepEach(q, init, maxStalled, now), last, maxStalled, now);
    }
  }

  lemma {:induction false} SweepEachPlaces(q: Queue, ids: seq<JobId>, maxStalled: nat, now: nat, x: JobId)
    requires forall i, j :: 0 <= i < j < |ids| ==> ids[i] != ids[j]
    requires forall y :: y in ids ==> y in q.jobs && y in q.at.active && Count(q.at, y) == 1
    ensures var r := SweepEach(q, ids, maxStalled, now);
      && Count(r.at, x) == Count(q.at, x) - One(x in ids && q.jobs[x].stc >= maxStalled)
      && (x in r.at.active <==> x in q.at.active && x !in ids)
      && (x in ids && q.jobs[x].stc >= maxStalled ==> x in r.jobs && SweptOut(r.jobs[x]))
  {
    hide SweepOne, Count;
    if ids != [] {
      var init, last := ids[..|ids| - 1], ids[|ids| - 1];
      assert ids == init + [last];
      assert last !in init;
      SweepEachPlaces(q, init, maxStalled, now, x);
      SweepEachPlaces(q, init, maxStalled, now, last);
      SweepEachFrame(q, init, maxStalled, now);
      var m := SweepEach(q, init, maxStalled, now);
      SweepOnePlaces(m, last, maxStalled, now, x);
      SweepOneFrame(m, last, maxStalled, now);
    }
  }

  /** What a sweep does to any partitioned queue, safe or not, as seen from `x`. */
  lemma SweepPlaces(q: Queue, order: seq<JobId>, maxStalled: nat, now: nat, x: JobId)
    requires Partitioned(q) && ListsOnce(order, q.stalled + Unlocked(q))
    ensures var r := SweepStalled(q, order, maxStalled, now);
      && (x in order <==> x in q.stalled + Unlocked(q))
      && (x in order ==> x in q.jobs && Count(q.at, x) == 1)
      && Count(r.at, x) == Count(q.at, x) - One(x in order && q.jobs[x].stc >= maxStalled)
      && (x in r.at.active <==> x in q.at.active && x !in order)
      && (x in r.jobs <==> x in q.jobs)
      && (x !in order && x in q.jobs ==> r.jobs[x] == q.jobs[x])
      && (x in order && q.jobs[x].stc >= maxStalled ==> SweptOut(r.jobs[x]))
      && r.locks == q.locks && r.stalled == {}
  {
    hide Count, SweepEach, Requeued;
    var s := Scanned(q);
    forall y | y in order ensures y in s.jobs && y in s.at.active && Count(s.at, y) == 1 {
      assert y in q.stalled + Unlocked(q);
      assert Fits(q, y);
      CountParts(q.at, y);
      Present(q.at.active, y);
    }
    assert (set y | y in order) == s.stalled;
    SweepEachPlaces(s, order, maxStalled, now, x);
    SweepEachFrame(s, order, maxStalled, now);
  }

  /** The sweep requeues or fails every member of the stalled set without looking at its lock:
      the partition survives exactly when none of them is locked. */
  lemma SweepKeepsPartitionIff(q: Queue, order: seq<JobId>, maxStalled: nat, now: nat)
    requires Partitioned(q) && ListsOnce(order, q.stalled + Unlocked(q))
    ensures Partitioned(SweepStalled(q, order, maxStalled, now)) <==> !SweepFindsLocked(q)
  {
    hide Count, SweepStalled;
    var r := SweepStalled(q, order, maxStalled, now);
    if id :| id in q.stalled && id in q.locks {
      SweepPlaces(q, order, maxStalled, now, id);
      assert !Fits(r, id);
    } else {
      forall x ensures Fits(r, x) {
        assert Fits(q, x);
        SweepPlaces(q, order, maxStalled, now, x);
        assert x in order ==> x in q.stalled || x in Unlocked(q);
      }
      SweepRoutes(q, order, maxStalled, now);
    }
  }

  lemma SweepRoutes(q: Queue, order: seq<JobId>, maxStalled: nat, now: nat)
    ensures var r := SweepStalled(q, order, maxStalled, now);
      r.isPaused == q.isPaused && (!q.isPaused ==> r.at.paused == q.at.paused)
      && r.at.completed == q.at.completed && r.at.failed == q.at.failed
  {
    hide SweepEach, Requeued;
    SweepEachFrame(Scanned(q), order, maxStalled, now);
  }

  /** The consequence of an unsafe sweep: the holder's finish still succeeds and leaves the
      requeued job in two places, waiting and finished. */
  lemma LockedSweepThenFinishDuplicates(q: Queue, order: seq<JobId>, maxStalled: nat, now: nat,
                                        id: JobId, at: nat, result: Result, atm: nat)
    requires Partitioned(q) && ListsOnce(order, q.stalled + Unlocked(q))
    requires id in q.stalled && id in q.locks && q.locks[id] != NO_LOCK
    requires id in q.jobs && q.jobs[id].stc < maxStalled
    ensures var r := FinishJob(SweepStalled(q, order, maxStalled, now), id, q.locks[id], at, result, atm);
      r.code == OK && Count(r.q.at, id) == 2
  {
    hide Count, SweepStalled, StoreResult, InList, InSet;
    assert Fits(q, id);
    CountParts(q.at, id);
    Present(q.at.active, id);
    PresentInSet(q.at.completed, id); PresentInSet(q.at.failed, id);
    SweepPlaces(q, order, maxStalled, now, id);
    SweepRoutes(q, order, maxStalled, now);
    var s := SweepStalled(q, order, maxStalled, now);
    var l := LeaveActive(s, id, q.locks[id]);
    RemoveFirstCount(s.at.active, id, id);
    CountUpdate(s.at, RemoveFirst(s.at.active, id), [], id);
    assert Count(l.at, id) == 1;
    StoreResultPlaces(ReleaseDedup(l, id), id, at, result, atm, id);
  }

  // ---------------------------------------------------------------- administration

  lemma TransferPlaces(p: Places, list: seq<JobId>, x: JobId)
    ensures list == p.wait + p.paused ==> Count(p.(paused := list, wait := []), x) == Count(p, x)
    ensures list == p.paused + p.wait ==> Count(p.(wait := list, paused := []), x) == Count(p, x)
  {
    hide Count;
    ConcatCount(p.wait, p.paused, x);
    ConcatCount(p.paused, p.wait, x);
    CountUpdate(p, list, [], x);
    CountUpdate(p.(paused := list), [], [], x);
    CountUpdate(p.(wait := list), [], [], x);
  }

  lemma PauseFits(q: Queue, x: JobId)
    requires Fits(q, x)
    ensures Fits(PauseQueue(q), x) && Fits(ResumeQueue(q), x)
    ensures Count(PauseQueue(q).at, x) == Count(ResumeQueue(q).at, x) == Count(q.at, x)
  {
    hide Count;
    TransferPlaces(q.at, q.at.wait + q.at.paused, x);
    TransferPlaces(q.at, q.at.paused + q.at.wait, x);
  }

  lemma OutOfLinePlaces(q: Queue, id: JobId, x: JobId)
    requires id in q.jobs && Count(q.at, id) <= 1
    requires !q.isPaused ==> q.at.paused == []
    ensures var r := OutOfLine(q, id, q.jobs[id].priority);
      && (x != id ==> Count(r.at, x) == Count(q.at, x))
      && (q.jobs[id].priority == 0 ==>
            (r.at.prioritized == q.at.prioritized
             && Count(r.at, id) == if id in q.at.wait || id in q.at.paused then 0 else Count(q.at, id)))
      && (q.jobs[id].priority > 0 ==>
            (!Has(r.at.prioritized, id)
             && Count(r.at, id) == if Has(q.at.prioritized, id) then 0 else Count(q.at, id)))
  {
    hide Count, InList, InSet;
    CountParts(q.at, id);
    Present(q.at.wait, id);
    Present(q.at.paused, id);
    PresentInSet(q.at.prioritized, id);
    if q.jobs[id].priority > 0 {
      var z := Zrem(q.at.prioritized, id);
      ZremCount(q.at.prioritized, id, x);
      ZremCount(q.at.prioritized, id, id);
      PresentInSet(z, id);
      CountUpdate(q.at, [], z, x);
      CountUpdate(q.at, [], z, id);
      assert OutOfLine(q, id, q.jobs[id].priority).at == q.at.(prioritized := z);
      return;
    }
    var w, p := RemoveAll(q.at.wait, id), RemoveAll(q.at.paused, id);
    RemoveAllCount(q.at.wait, id, x); RemoveAllCount(q.at.wait, id, id);
    RemoveAllCount(q.at.paused, id, x); RemoveAllCount(q.at.paused, id, id);
    CountUpdate(q.at, w, [], x); CountUpdate(q.at, w, [], id);
    CountUpdate(q.at.(wait := w), p, [], x); CountUpdate(q.at.(wait := w), p, [], id);
    if id !in q.at.wait && q.isPaused {
      assert OutOfLine(q, id, 0).at == q.at.(wait := w).(paused := p);
      return;
    }
    assert OutOfLine(q, id, 0).at == q.at.(wait := w);
  }

  lemma OutOfLineFrame(q: Queue, id: JobId, priority: nat)
    ensures var r := OutOfLine(q, id, priority); r == q.(at := r.at) && r.at.active == q.at.active
    ensures !q.isPaused ==> OutOfLine(q, id, priority).at.paused == q.at.paused
  {
  }

  /** Whatever its place before, the job ends in one place if it was where the script takes it
      from, or nowhere, and else in two. */
  lemma ChangePriorityPlaces(q: Queue, id: JobId, priority: nat, x: JobId)
    requires id in q.jobs && Count(q.at, id) <= 1
    requires !q.isPaused ==> q.at.paused == []
    ensures var r := ChangePriority(q, id, priority).q;
      && (x != id ==> Count(r.at, x) == Count(q.at, x))
      && (InExpectedPlace(q, id, priority) ==> (Count(r.at, id) == 1 || Count(r.at, id) == Count(q.at, id) == 0))
      && (!InExpectedPlace(q, id, priority) ==> Count(r.at, id) == 2)
  {
    hide Count, InList, InSet, Zadd, Enqueue, OutOfLine;
    var current := q.jobs[id].priority;
    CountParts(q.at, id);
    Present(q.at.wait, id);
    Present(q.at.paused, id);
    PresentInSet(q.at.prioritized, id);
    if priority == 0 && current == 0 { return; }
    OutOfLinePlaces(q, id, x);
    OutOfLinePlaces(q, id, id);
    var o := OutOfLine(q, id, current);
    if x != id { EnqueuePlaces(o, id, priority, x); }
    if !Has(o.at.prioritized, id) {
      EnqueuePlaces(o, id, priority, id);
      return;
    }
    EnqueueInPlace(o, id, priority);
  }

  lemma EnqueueInPlace(q: Queue, id: JobId, priority: nat)
    requires priority > 0 && Has(q.at.prioritized, id) && Count(q.at, id) <= 1
    ensures Count(Enqueue(q, id, priority).at, id) == Count(q.at, id)
  {
    hide Count, InList, InSet, Zadd;
    var score := PriorityScore(priority, q.pc + 1);
    CountParts(q.at, id);
    PresentInSet(q.at.prioritized, id);
    ZaddCount(q.at.prioritized, score, id, id);
    CountUpdate(q.at, [], Zadd(q.at.prioritized, score, id), id);
  }

  lemma ChangePriorityFrame(q: Queue, id: JobId, priority: nat)
    ensures var r := ChangePriority(q, id, priority).q;
      && r.at.active == q.at.active && r.locks == q.locks && r.stalled == q.stalled && r.isPaused == q.isPaused
      && (!q.isPaused ==> r.at.paused == q.at.paused)
      && r.jobs.Keys == q.jobs.Keys && (forall x :: x in q.jobs && x != id ==> r.jobs[x] == q.jobs[x])
      && (id in q.jobs ==> r.jobs[id] == q.jobs[id].(priority := priority))
  {
    hide Enqueue, OutOfLine;
    if id !in q.jobs { return; }
    if priority == 0 && q.jobs[id].priority == 0 { return; }
    OutOfLineFrame(q, id, q.jobs[id].priority);
    EnqueueFrame(OutOfLine(q, id, q.jobs[id].priority), id, priority);
  }

  /** ChangePriority moves the id without checking where it is: the partition survives exactly
      when the job is where the script looks for it, or nowhere. */
  lemma ChangePriorityKeepsPartitionIff(q: Queue, id: JobId, priority: nat)
    requires Partitioned(q)
    ensures Partitioned(ChangePriority(q, id, priority).q) <==> InExpectedPlace(q, id, priority)
  {
    hide Count, ChangePriority, InExpectedPlace;
    if id !in q.jobs {
      MissingJobIsKept(q, id, priority);
      return;
    }
    var r := ChangePriority(q, id, priority).q;
    assert Fits(q, id);
    ChangePriorityPlaces(q, id, priority, id);
    ChangePriorityFrame(q, id, priority);
    if InExpectedPlace(q, id, priority) {
      forall x ensures Fits(r, x) {
        assert Fits(q, x);
        ChangePriorityPlaces(q, id, priority, x);
      }
    } else {
      assert !Fits(r, id);
    }
  }

  lemma MissingJobIsKept(q: Queue, id: JobId, priority: nat)
    requires id !in q.jobs
    ensures ChangePriority(q, id, priority) == Outcome(q, MISSING_JOB) && InExpectedPlace(q, id, priority)
  {
  }

  lemma PromoteNowFits(q: Queue, id: JobId, x: JobId)
    requires Fits(q, id) && Fits(q, x)
    ensures Fits(PromoteJob(q, id).q, x) && Count(PromoteJob(q, id).q.at, x) == Count(q.at, x)
  {
    hide Count, Zrem, Enqueue;
    if !Has(q.at.delayed, id) { return; }
    CountParts(q.at, id);
    PresentInSet(q.at.delayed, id);
    ZremPlaces(q.at, id, x);
    ZremPlaces(q.at, id, id);
    var t := TakenFromDelayed(q, id);
    NotPlaced(t.at, id);
    EnqueuePlaces(t, id, HashOf(q, id).priority, x);
    EnqueueFrame(t, id, HashOf(q, id).priority);
    Rehome(q, t, PromoteJob(q, id).q, id, x);
  }

  lemma {:induction false} ClearEachFrame(q: Queue, from: Source, ids: seq<JobId>)
    ensures var r := ClearEach(q, from, ids);
      r == q.(jobs := r.jobs) && r.jobs.Keys == q.jobs.Keys
      && (forall x :: x in q.jobs && x !in ids ==> r.jobs[x] == q.jobs[x])
  {
    if ids != [] {
      assert ids == ids[..|ids| - 1] + [ids[|ids| - 1]];
      ClearEachFrame(q, from, ids[..|ids| - 1]);
    }
  }

  lemma {:induction false} ClearNothing(q: Queue, ids: seq<JobId>)
    ensures ClearEach(q, FromDelayed, ids) == q
  {
    if ids != [] { ClearNothing(q, ids[..|ids| - 1]); }
  }

  lemma WithSourcePlaces(q: Queue, from: Source, k: nat, x: JobId)
    requires k <= |SourceSet(q, from)|
    ensures var z := SourceSet(q, from);
      Count(WithSource(q, from, z[k..]).at, x) + InList(Members(z[..k]), x) == Count(q.at, x)
  {
    hide Count, InSet, InList;
    var z := SourceSet(q, from);
    SplitCount(z, k, x);
    CountUpdate(q.at, [], z[k..], x);
  }

  lemma PushAllLeftPlaces(q: Queue, ids: seq<JobId>, x: JobId)
    ensures Count(PushAllLeft(q, ids).at, x) == Count(q.at, x) + InList(ids, x)
  {
    hide Count;
    ReverseKeepsMembers(ids);
    ConcatCount(Reverse(ids), q.at.wait, x);
    ConcatCount(Reverse(ids), q.at.paused, x);
    CountUpdate(q.at, Reverse(ids) + q.at.wait, [], x);
    CountUpdate(q.at, Reverse(ids) + q.at.paused, [], x);
    assert PushAllLeft(q, ids).at
        == if q.isPaused then q.at.(paused := Reverse(ids) + q.at.paused) else q.at.(wait := Reverse(ids) + q.at.wait);
  }

  lemma MoveJobsFits(q: Queue, from: Source, count: nat, upTo: Option<nat>, x: JobId)
    requires Fits(q, x)
    ensures Fits(MoveJobsToWait(q, from, count, upTo).q, x)
    ensures Count(MoveJobsToWait(q, from, count, upTo).q.at, x) == Count(q.at, x)
  {
    hide Count, InSet, InList, ClearEach, PushAllLeft, WithSource;
    var z := SourceSet(q, from);
    var n := Min(Matching(z, upTo), count);
    if n == 0 { return; }
    var ids := Members(z[..n]);
    ClearEachFrame(q, from, ids);
    var c := ClearEach(q, from, ids);
    WithSourcePlaces(c, from, n, x);
    WithSourceFrame(c, from, z[n..]);
    PushAllLeftPlaces(WithSource(c, from, z[n..]), ids, x);
    PushAllLeftFrame(WithSource(c, from, z[n..]), ids);
    Present(ids, x);
  }

  lemma WithSourceFrame(q: Queue, from: Source, z: Zset)
    ensures var r := WithSource(q, from, z);
      r == q.(at := r.at) && r.at.active == q.at.active && r.at.paused == q.at.paused
  {
    match from
    case FromFailed => return;
    case FromCompleted => return;
    case FromDelayed => return;
  }

  lemma PushAllLeftFrame(q: Queue, ids: seq<JobId>)
    ensures var r := PushAllLeft(q, ids); r == q.(at := r.at) && r.at.active == q.at.active
    ensures !q.isPaused ==> PushAllLeft(q, ids).at.paused == q.at.paused
  {
  }

  // ---------------------------------------------------------------- runs

  /** The partition does not look at counters, markers and keys of other purposes, and losing a
      lock or a stalled entry does not break it. */
  lemma AsideFits(q: Queue, r: Queue, x: JobId)
    requires Fits(q, x) && r.at == q.at && r.jobs == q.jobs
    requires (x in r.locks ==> x in q.locks) && (x in r.stalled ==> x in q.stalled)
    ensures Fits(r, x)
  {
    hide Count;
  }

  lemma AddFits(q: Queue, s: Step, x: JobId)
    requires Partitioned(q) && (s.AddStandard? || s.AddPrioritized? || s.AddDelayed? || s.AddParent? || s.AddChildren?)
    ensures Fits(Apply(q, s), x)
  {
    hide Fits, AddStandardJob, AddPrioritizedJob, AddDelayedJob, AddParentJob;
    assert Fits(q, x);
    match s {
      case AddStandard(id, opts, ts, parent) => assert Fits(q, id); AddStandardFits(q, id, opts, ts, parent, x); return;
      case AddPrioritized(id, opts, ts, parent) =>
        assert Fits(q, id);
        AddPrioritizedFits(q, id, opts, ts, parent, x);
        return;
      case AddDelayed(id, opts, ts, parent) => assert Fits(q, id); AddDelayedFits(q, id, opts, ts, parent, x); return;
      case AddParent(id, opts, ts, parent) => assert Fits(q, id); AddParentFits(q, id, opts, ts, parent, x); return;
      case AddChildren(_, _) => AsideFits(q, Apply(q, s), x); return;
    }
  }

  lemma SafeExit(q: Queue, s: Step)
    requires Safe(q, s) && IsExit(s)
    ensures s.token != NO_LOCK
  {
  }

  lemma ExitFits(q: Queue, s: Step, x: JobId)
    requires Partitioned(q) && Safe(q, s) && IsExit(s)
    ensures Fits(Apply(q, s), x)
  {
    hide Fits, FinishJob, MoveToDelayed, RetryJob, MoveActiveToWait, Safe;
    assert Fits(q, x) && Fits(q, s.id);
    SafeExit(q, s);
    hide Partitioned;
    if s.Finish? { FinishFits(q, s.id, s.token, s.now, s.result, s.atm, x); return; }
    if s.Delay? { DelayFits(q, s.id, s.token, s.now, s.due, s.atm, x); return; }
    if s.Retry? { RetryFits(q, s.id, s.token, s.right, s.atm, s.priority, x); return; }
    ReturnFits(q, s.id, s.token, x);
  }

  lemma StepFits(q: Queue, s: Step, x: JobId)
    requires Partitioned(q) && Safe(q, s) && !s.Sweep? && !s.Reprioritize?
    ensures Fits(Apply(q, s), x)
  {
    hide Fits, FetchNext, ReleaseParent, PauseQueue, ResumeQueue, PromoteJob, MoveJobsToWait, AddStandardJob;
    hide AddPrioritizedJob;
    hide AddDelayedJob, AddParentJob, FinishJob, MoveToDelayed, RetryJob, MoveActiveToWait, SweepStalled;
    hide ChangePriority, Safe;
    if s.AddStandard? || s.AddPrioritized? || s.AddDelayed? || s.AddParent? || s.AddChildren? {
      AddFits(q, s, x);
      return;
    }
    if IsExit(s) { ExitFits(q, s, x); return; }
    assert Fits(q, x);
    match s {
      case Fetch(token, now, clock, limit) => FetchFits(q, token, now, clock, limit, x); return;
      case Release(parent, child, value, now) =>
        assert Fits(q, parent);
        ReleaseFits(q, parent, child, value, now, x);
        return;
      case Pause => PauseFits(q, x); return;
      case Resume => PauseFits(q, x); return;
      case PromoteNow(id) => assert Fits(q, id); PromoteNowFits(q, id, x); return;
      case MoveJobs(from, count, upTo) => MoveJobsFits(q, from, count, upTo, x); return;
      case _ => AsideFits(q, Apply(q, s), x); return;
    }
  }

  /** Nothing lies in the paused list of a running queue. */
  predicate Routed(q: Queue) {
    !q.isPaused ==> q.at.paused == []
  }

  lemma AddRoutes(q: Queue, s: Step)
    requires Routed(q) && (s.AddStandard? || s.AddPrioritized? || s.AddDelayed? || s.AddParent? || s.AddChildren?)
    ensures Routed(Apply(q, s))
  {
    hide PushLeft, Zadd, DelayedScore;
    match s {
      case AddStandard(id, opts, ts, parent) =>
        PushLeftFrame(Stored(q, id, opts, ts, parent), id);
        if id in q.jobs || Holder(q, opts.deid).Some? { return; }
        return;
      case AddPrioritized(id, opts, ts, parent) => if id in q.jobs || Holder(q, opts.deid).Some? { return; } return;
      case AddDelayed(id, opts, ts, parent) => if id in q.jobs || Holder(q, opts.deid).Some? { return; } return;
      case AddParent(id, opts, ts, parent) => if id in q.jobs { return; } return;
      case AddChildren(_, _) => return;
    }
  }

  lemma ExitRoutes(q: Queue, s: Step)
    requires Routed(q) && IsExit(s)
    ensures Routed(Apply(q, s))
  {
    hide StoreResult, Enqueue, PushLeft, Zadd, DelayedScore, RemoveFirst;
    if Guard(q, s.id, s.token) != OK { return; }
    match s {
      case Finish(id, token, now, result, atm) =>
        StoreResultFrame(ReleaseDedup(LeaveActive(q, id, token), id), id, now, result, atm);
        StoreResultRoutes(ReleaseDedup(LeaveActive(q, id, token), id), id, now, result, atm);
        return;
      case Delay(id, token, _, _, _) => return;
      case Retry(id, token, right, atm, priority) =>
        PushLeftFrame(LeaveForRetry(q, id, token, atm), id);
        EnqueueFrame(LeaveForRetry(q, id, token, atm), id, priority);
        if priority == 0 && !right { return; }
        return;
      case Return(id, token) =>
        if id !in q.at.active { return; }
        if HashOf(q, id).priority > 0 { return; }
        return;
    }
  }

  lemma PromoteNowRoutes(q: Queue, id: JobId)
    requires Routed(q)
    ensures Routed(PromoteJob(q, id).q)
  {
    hide Enqueue, Zrem;
    if !Has(q.at.delayed, id) { return; }
    EnqueueFrame(TakenFromDelayed(q, id), id, HashOf(q, id).priority);
  }

  lemma StepRoutes(q: Queue, s: Step)
    requires Routed(q)
    ensures Routed(Apply(q, s))
  {
    hide FetchNext, ReleaseParent, SweepStalled, ChangePriority, PromoteJob, MoveJobsToWait, AddStandardJob;
    hide AddPrioritizedJob;
    hide AddDelayedJob, AddParentJob, FinishJob, MoveToDelayed, RetryJob, MoveActiveToWait;
    if s.AddStandard? || s.AddPrioritized? || s.AddDelayed? || s.AddParent? || s.AddChildren? {
      AddRoutes(q, s);
      return;
    }
    if IsExit(s) { ExitRoutes(q, s); return; }
    match s {
      case Fetch(token, now, clock, limit) => FetchRoutes(q, token, now, clock, limit); return;
      case Release(parent, child, value, now) => ReleaseRoutes(q, parent, child, value, now); return;
      case Record(result, maxPoints, _) => if maxPoints.None? { return; } if result.Completed? { return; } return;
      case Extend(id, token) => if id in q.locks && q.locks[id] == token { return; } return;
      case Sweep(order, maxStalled, now) => SweepRoutes(q, order, maxStalled, now); return;
      case Reprioritize(id, priority) => ChangePriorityFrame(q, id, priority); return;
      case PromoteNow(id) => PromoteNowRoutes(q, id); return;
      case MoveJobs(from, count, upTo) => MoveJobsRoutes(q, from, count, upTo); return;
      case _ => return;
    }
  }

  lemma StoreResultRoutes(q: Queue, id: JobId, now: nat, result: Result, atm: nat)
    ensures StoreResult(q, id, now, result, atm).at.paused == q.at.paused
  {
    if result.Completed? { return; }
  }

  lemma FetchRoutes(q: Queue, token: Token, now: nat, clock: nat, limit: Option<Limit>)
    ensures var r := FetchNext(q, token, now, clock, limit).q; r.isPaused == q.isPaused && r.at.paused == q.at.paused
  {
    hide PromoteEach;
    var n := DueCount(q, now);
    PromoteEachFrame(q.(at := q.at.(delayed := q.at.delayed[n..])), Members(q.at.delayed[..n]));
    var p := PromoteDelayed(q, now);
    assert p.isPaused == q.isPaused && p.at.paused == q.at.paused by { if n == 0 {} else {} }
    hide PromoteDelayed;
    var v := RateLimitTtl(limit, p.limiter, clock);
    if v.ttl > 0 { return; }
    if p.isPaused { return; }
    var r := p.(limiter := v.key);
    if NextJob(r).None? { return; }
    if r.at.wait != [] { return; }
  }

  lemma ReleaseRoutes(q: Queue, parent: JobId, child: JobKey, value: Payload, now: nat)
    ensures var r := ReleaseParent(q, parent, child, value, now);
      r.isPaused == q.isPaused && (!q.isPaused ==> r.at.paused == q.at.paused)
  {
    hide Enqueue, Zadd, Zrem, DelayedScore;
    if child !in PendingChildren(q, parent) { return; }
    var r := RecordChild(q, parent, child, value);
    if PendingChildren(q, parent) == {child} && parent in q.jobs && Has(q.at.waitingChildren, parent) {
      if HashOf(r, parent).delay > 0 { return; }
      EnqueueFrame(r.(at := r.at.(waitingChildren := Zrem(r.at.waitingChildren, parent))), parent,
        HashOf(r, parent).priority);
      return;
    }
  }

  lemma MoveJobsRoutes(q: Queue, from: Source, count: nat, upTo: Option<nat>)
    ensures var r := MoveJobsToWait(q, from, count, upTo).q;
      r.isPaused == q.isPaused && (!q.isPaused ==> r.at.paused == q.at.paused)
  {
    hide ClearEach, PushAllLeft, WithSource;
    var z := SourceSet(q, from);
    var n := Min(Matching(z, upTo), count);
    if n == 0 { return; }
    ClearEachFrame(q, from, Members(z[..n]));
    var c := ClearEach(q, from, Members(z[..n]));
    WithSourceFrame(c, from, z[n..]);
    PushAllLeftFrame(WithSource(c, from, z[n..]), Members(z[..n]));
  }

  lemma StepKeepsPartition(q: Queue, s: Step)
    requires Partitioned(q) && Safe(q, s)
    ensures Partitioned(Apply(q, s))
  {
    hide Fits;
    StepRoutes(q, s);
    if s.Sweep? {
      SweepKeepsPartitionIff(q, s.order, s.maxStalled, s.now);
      return;
    }
    if s.Reprioritize? {
      ChangePriorityKeepsPartitionIff(q, s.id, s.priority);
      return;
    }
    hide Apply;
    forall x ensures Fits(Apply(q, s), x) { StepFits(q, s, x); }
  }

  /** The main result: over every run of safe steps, in any interleaving and with locks expiring
      at any time, each stored job stays in exactly one place, or in none once swept out. */
  lemma {:induction false} RunKeepsPartition(q: Queue, steps: seq<Step>)
    requires Partitioned(q)
    requires forall i :: 0 <= i < |steps| ==> Safe(Run(q, steps[..i]), steps[i])
    ensures Partitioned(Run(q, steps))
  {
    hide Partitioned, Safe, Apply;
    if steps != [] {
      var init := steps[..|steps| - 1];
      forall i | 0 <= i < |init| ensures Safe(Run(q, init[..i]), init[i]) {
        assert init[..i] == steps[..i];
        assert Safe(Run(q, steps[..i]), steps[i]);
      }
      RunKeepsPartition(q, init);
      assert Safe(Run(q, steps[..|steps| - 1]), steps[|steps| - 1]);
      StepKeepsPartition(Run(q, init), steps[|steps| - 1]);
    }
  }

  /** A queue without any job is partitioned, so a run may start from nothing. */
  lemma EmptyIsPartitioned()
    ensures Partitioned(EmptyQueue)
  {
  }
}

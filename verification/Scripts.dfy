/** The scripts as they run: one object holds a queue's keys, and each script is a method that
    changes them command by command, with its loops. Every method is tied to the function of the
    same purpose in Queue. */
module Scripts {
  import opened Redis
  import opened Scores
  import opened Limiter
  import opened Queue
  import opened Batches
  import opened BulkMove
  import Flow
  import M = Metrics

  class QueueStore {
    var at: Places
    var jobs: map<JobId, Job>
    var locks: map<JobId, Token>
    var stalled: set<JobId>
    var isPaused: bool
    var pc: nat
    var marks: Marks
    var limiter: Limiter.Key
    var side: Side

    constructor ()
      ensures Model() == EmptyQueue
    {
      at := Places([], [], [], [], [], [], [], []);
      jobs, locks, stalled := map[], map[], {};
      isPaused, pc, marks, limiter := false, 0, Marks(false, None), None;
      side := Side(map[], map[], map[], M.Empty, M.Empty);
    }

    /** All keys as a value. */
    function Model(): Queue
      reads this
    {
      Queue(at, jobs, locks, stalled, isPaused, pc, marks, limiter, side)
    }

    /** HGETALL */
    function Hash(id: JobId): (job: Job)
      reads this`jobs
    {
      if id in jobs then jobs[id] else Blank
    }

    // -------------------------------------------------------------- shared fragments

    /** addBaseMarkerIfNeeded */
    method AddBaseMarkerIfNeeded(isPausedOrMaxed: bool)
      modifies this`marks
      ensures Model() == MarkBase(old(Model()), isPausedOrMaxed)
    {
      if !isPausedOrMaxed {
        marks := marks.(base := true);
      }
    }

    /** addDelayMarkerIfNeeded */
    method AddDelayMarkerIfNeeded()
      modifies this`marks
      ensures Model() == MarkDelay(old(Model()))
    {
      if at.delayed != [] {
        marks := marks.(delay := Some(at.delayed[0].score));
      }
    }

    /** getTargetQueueList, then LPUSH or RPUSH */
    method PushOnTarget(id: JobId, right: bool)
      modifies this`at
      ensures Model() == if right then PushRight(old(Model()), id) else PushLeft(old(Model()), id)
    {
      if isPaused {
        at := at.(paused := if right then at.paused + [id] else [id] + at.paused);
      } else {
        at := at.(wait := if right then at.wait + [id] else [id] + at.wait);
      }
    }

    /** getPriorityScore, then ZADD */
    method AddToPrioritized(id: JobId, priority: nat)
      modifies this`pc, this`at
      ensures Model() == Prioritize(old(Model()), id, priority)
    {
      pc := pc + 1;
      var score := priority * BLOCK + pc % BLOCK;
      at := at.(prioritized := Zadd(at.prioritized, score, id));
    }

    /** The prioritized set, or else the right end of the target list. */
    method EnqueueJob(id: JobId, priority: nat)
      modifies this`pc, this`at
      ensures Model() == Enqueue(old(Model()), id, priority)
    {
      if priority > 0 {
        AddToPrioritized(id, priority);
      } else {
        PushOnTarget(id, true);
      }
    }

    /** getDelayedScore: the next free score of the millisecond, or its last one. */
    method GetDelayedScore(timestamp: nat, delay: int) returns (score: nat)
      ensures score == DelayedScore(at.delayed, DueTime(timestamp, delay))
    {
      var delayedTimestamp := if delay > 0 then timestamp + delay else timestamp;
      var minScore := delayedTimestamp * SLOTS;
      var maxScore := (delayedTimestamp + 1) * SLOTS - 1;
      var top := BucketTop(at.delayed, minScore, maxScore);
      if top.Some? {
        if top.value >= maxScore {
          return maxScore;
        }
        return top.value + 1;
      }
      return minScore;
    }

    method AddToDelayed(id: JobId, timestamp: nat, delay: int)
      modifies this`at
      ensures Model() == DelayUntil(old(Model()), id, DueTime(timestamp, delay))
    {
      var score := GetDelayedScore(timestamp, delay);
      at := at.(delayed := Zadd(at.delayed, score, id));
    }

    /** removeLock */
    method RemoveLock(id: JobId, token: Token) returns (code: int)
      requires id in jobs
      modifies this`locks, this`stalled
      ensures code == Guard(old(Model()), id, token)
      ensures code == OK && token != NO_LOCK ==> locks == old(locks) - {id} && stalled == old(stalled) - {id}
      ensures code != OK || token == NO_LOCK ==> locks == old(locks) && stalled == old(stalled)
    {
      if token != NO_LOCK {
        if id in locks && locks[id] == token {
          locks := locks - {id};
          stalled := stalled - {id};
        } else if id in locks {
          return WRONG_TOKEN;
        } else {
          return MISSING_LOCK;
        }
      }
      return OK;
    }

    /** The start of the four scripts that take a job out of active: EXISTS, removeLock, LREM. */
    method TakeOut(id: JobId, token: Token) returns (code: int)
      modifies this`locks, this`stalled, this`at
      ensures code == Guard(old(Model()), id, token)
      ensures Model() == if code == OK then LeaveActive(old(Model()), id, token) else old(Model())
    {
      if id !in jobs {
        return MISSING_JOB;
      }
      code := RemoveLock(id, token);
      if code != OK {
        return;
      }
      at := at.(active := RemoveFirst(at.active, id));
    }

    /** deduplicateJob without a TTL */
    method DeduplicateJob(deid: Option<DedupId>, id: JobId) returns (holder: Option<JobId>)
      modifies this`side
      ensures holder == Holder(old(Model()), deid)
      ensures side == if deid.Some? && holder.None?
                      then old(side).(dedup := old(side.dedup)[deid.value := id]) else old(side)
    {
      holder := None;
      if deid.Some? {
        if deid.value in side.dedup {
          holder := Some(side.dedup[deid.value]);
        } else {
          side := side.(dedup := side.dedup[deid.value := id]);
        }
      }
    }

    /** removeDeduplicationKeyIfNeededOnFinalization without a TTL */
    method RemoveDeduplicationKeyOnFinalization(id: JobId)
      modifies this`side
      ensures Model() == ReleaseDedup(old(Model()), id)
    {
      var deid := Hash(id).deid;
      if deid.Some? && deid.value in side.dedup {
        if side.dedup[deid.value] == id {
          side := side.(dedup := side.dedup - {deid.value});
        }
      }
    }

    // -------------------------------------------------------------- adding

    method AddStandard(id: JobId, opts: Opts, timestamp: nat, parent: Option<JobKey>) returns (r: JobId)
      modifies this
      ensures Added(Model(), r) == AddStandardJob(old(Model()), id, opts, timestamp, parent)
    {
      if id in jobs {
        return id;
      }
      var holder := DeduplicateJob(opts.deid, id);
      if holder.Some? {
        return holder.value;
      }
      jobs := jobs[id := NewJob(opts, timestamp, parent)];
      PushOnTarget(id, false);
      AddBaseMarkerIfNeeded(isPaused);
      return id;
    }

    method AddPrioritized(id: JobId, opts: Opts, timestamp: nat, parent: Option<JobKey>) returns (r: JobId)
      modifies this
      ensures Added(Model(), r) == AddPrioritizedJob(old(Model()), id, opts, timestamp, parent)
    {
      if id in jobs {
        return id;
      }
      var holder := DeduplicateJob(opts.deid, id);
      if holder.Some? {
        return holder.value;
      }
      jobs := jobs[id := NewJob(opts, timestamp, parent)];
      AddToPrioritized(id, opts.priority);
      AddBaseMarkerIfNeeded(isPaused);
      return id;
    }

    method AddDelayed(id: JobId, opts: Opts, timestamp: nat, parent: Option<JobKey>) returns (r: JobId)
      modifies this
      ensures Added(Model(), r) == AddDelayedJob(old(Model()), id, opts, timestamp, parent)
    {
      if id in jobs {
        return id;
      }
      var holder := DeduplicateJob(opts.deid, id);
      if holder.Some? {
        return holder.value;
      }
      jobs := jobs[id := NewJob(opts, timestamp, parent)];
      AddToDelayed(id, timestamp, opts.delay);
      AddDelayMarkerIfNeeded();
      return id;
    }

    method AddParent(id: JobId, opts: Opts, timestamp: nat, parent: Option<JobKey>)
      modifies this
      ensures Model() == AddParentJob(old(Model()), id, opts, timestamp, parent)
    {
      if id in jobs {
        return;
      }
      jobs := jobs[id := NewJob(opts, timestamp, parent)];
      at := at.(waitingChildren := Zadd(at.waitingChildren, timestamp, id));
    }

    // -------------------------------------------------------------- claiming

    /** One round of the promotion loop. */
    method Promote(id: JobId)
      modifies this`at, this`pc, this`jobs
      ensures Model() == PromoteOne(old(Model()), id)
    {
      var job := Hash(id);
      if job.priority == 0 {
        at := at.(wait := [id] + at.wait);
      } else {
        AddToPrioritized(id, job.priority);
      }
      jobs := jobs[id := job.(delay := 0)];
    }

    /** promoteDelayedJobs */
    method PromoteDelayedJobs(timestamp: nat)
      modifies this`at, this`pc, this`jobs, this`marks
      ensures Model() == PromoteDelayed(old(Model()), timestamp)
    {
      hide PromoteOne, CountUpTo;
      var n := Min(CountUpTo(at.delayed, (timestamp + 1) * SLOTS - 1), 1000);
      var ids := Members(at.delayed[..n]);
      if |ids| > 0 {
        at := at.(delayed := at.delayed[n..]);
        ghost var start := Model();
        for i := 0 to |ids|
          invariant Model() == PromoteEach(start, ids[..i])
          invariant isPaused == old(isPaused)
        {
          assert ids[..i + 1][..i] == ids[..i];
          Promote(ids[i]);
        }
        assert ids[..|ids|] == ids;
        AddBaseMarkerIfNeeded(isPaused);
      }
    }

    /** getRateLimitTTL */
    method GetRateLimitTtl(limit: Option<Limit>, clock: nat) returns (ttl: nat)
      modifies this`limiter
      ensures Verdict(ttl, limiter) == RateLimitTtl(limit, old(limiter), clock)
    {
      if limit.Some? && limit.value.max <= CountOf(limiter, clock) && Live(limiter, clock) {
        var pttl := limiter.value.expiresAt - clock;
        if pttl == 0 {
          limiter := None;
        }
        if pttl > 0 {
          return pttl;
        }
      }
      return 0;
    }

    /** RPOPLPUSH from wait, or else ZPOPMIN and LPUSH. */
    method PopJob() returns (next: Option<JobId>)
      modifies this`at
      ensures next == NextJob(old(Model()))
      ensures Model() == if next.Some? then PopNext(old(Model())) else old(Model())
    {
      next := None;
      if at.wait != [] {
        var last := |at.wait| - 1;
        next := Some(at.wait[last]);
        at := at.(wait := at.wait[..last], active := [at.wait[last]] + at.active);
      } else if at.prioritized != [] {
        next := Some(at.prioritized[0].member);
        at := at.(prioritized := at.prioritized[1..], active := [at.prioritized[0].member] + at.active);
      }
    }

    /** Lock, stalled entry, counter and marker of the job just popped. */
    method LockNext(id: JobId, token: Token)
      modifies this`locks, this`stalled, this`jobs, this`marks
      ensures Model() == Claim(old(Model()), id, token)
    {
      locks := locks[id := token];
      stalled := stalled + {id};
      var job := Hash(id);
      jobs := jobs[id := job.(ats := job.ats + 1)];
      marks := marks.(base := false);
      if at.wait != [] || at.prioritized != [] {
        AddBaseMarkerIfNeeded(false);
      }
    }

    /** moveToActive, and the part of moveToFinished that fetches the next job */
    method MoveToActive(token: Token, timestamp: nat, clock: nat, limit: Option<Limit>) returns (r: Fetch)
      modifies this
      ensures Fetched(Model(), r) == FetchNext(old(Model()), token, timestamp, clock, limit)
    {
      hide PromoteDelayed, RateLimitTtl, CountClaim, PopNext, Claim, NextJob, MarkDelay;
      PromoteDelayedJobs(timestamp);
      var expireTime := GetRateLimitTtl(limit, clock);
      if expireTime > 0 {
        return Limited(expireTime);
      }
      if isPaused {
        return Nothing;
      }
      var next := PopJob();
      if next.None? {
        AddDelayMarkerIfNeeded();
        return Nothing;
      }
      limiter := CountClaim(limit, limiter, clock);
      LockNext(next.value, token);
      return Claimed(next.value, Hash(next.value));
    }

    // -------------------------------------------------------------- leaving active

    method Delay(id: JobId, token: Token, timestamp: nat, delayedTimestamp: nat, attemptsMade: nat)
      returns (code: int)
      modifies this
      ensures Outcome(Model(), code) ==
          MoveToDelayed(old(Model()), id, token, timestamp, delayedTimestamp, attemptsMade)
    {
      hide Guard, LeaveActive, DelayUntil;
      code := TakeOut(id, token);
      if code != OK {
        return;
      }
      ghost var left := Model();
      AddToDelayed(id, delayedTimestamp, 0);
      LeaveKeepsJobs(old(Model()), left, id, token, delayedTimestamp);
      var job := Hash(id);
      jobs := jobs[id := job.(delay := delayedTimestamp - timestamp, atm := attemptsMade)];
      AddDelayMarkerIfNeeded();
    }

    method Retry(id: JobId, token: Token, right: bool, attemptsMade: nat, priority: nat) returns (code: int)
      modifies this
      ensures Outcome(Model(), code) == RetryJob(old(Model()), id, token, right, attemptsMade, priority)
    {
      hide Guard, PushRight, PushLeft, Prioritize;
      code := TakeOut(id, token);
      if code != OK {
        return;
      }
      var job := Hash(id);
      jobs := jobs[id := job.(atm := attemptsMade)];
      if priority > 0 {
        AddToPrioritized(id, priority);
      } else {
        PushOnTarget(id, right);
      }
      PushesKeepPause(old(LeaveForRetry(Model(), id, token, attemptsMade)), id, priority);
      AddBaseMarkerIfNeeded(isPaused);
    }

    /** Answers how long the limiter still holds. */
    method MoveJobFromActiveToWait(id: JobId, token: Token, clock: nat) returns (code: int, ttl: nat)
      modifies this
      ensures Outcome(Model(), code) == MoveActiveToWait(old(Model()), id, token)
      ensures ttl == if code == OK && Live(limiter, clock) then limiter.value.expiresAt - clock else 0
    {
      hide PushRight;
      ttl := 0;
      var listed := id in at.active;
      code := TakeOut(id, token);
      if code != OK {
        return;
      }
      if listed {
        var priority := Hash(id).priority;
        if priority > 0 {
          at := at.(prioritized := Zadd(at.prioritized, priority * BLOCK, id));
        } else {
          PushOnTarget(id, true);
          PushesKeepPause(old(LeaveActive(Model(), id, token)), id, 0);
          AddBaseMarkerIfNeeded(isPaused);
        }
      }
      if Live(limiter, clock) {
        ttl := limiter.value.expiresAt - clock;
      }
    }

    method Extend(id: JobId, token: Token) returns (code: int)
      modifies this
      ensures Outcome(Model(), code) == ExtendLock(old(Model()), id, token)
    {
      if id in locks && locks[id] == token {
        locks := locks[id := token];
        stalled := stalled - {id};
        return OK;
      }
      return MISSING_LOCK;
    }

    // -------------------------------------------------------------- finishing

    /** moveParentToWait */
    method FreeParent(id: JobId, timestamp: nat)
      modifies this
      ensures Model() == MoveParentToWait(old(Model()), id, timestamp)
    {
      hide DelayUntil, Enqueue;
      var paused := isPaused;
      var priority, delay := Hash(id).priority, Hash(id).delay;
      at := at.(waitingChildren := Zrem(at.waitingChildren, id));
      if delay > 0 {
        AddToDelayed(id, timestamp, delay);
        AddDelayMarkerIfNeeded();
      } else {
        EnqueueJob(id, priority);
        AddBaseMarkerIfNeeded(paused);
      }
    }

    /** SREM, updateParentDepsIfNeeded, moveParentToWaitIfNoPendingDependencies and
        moveParentToWaitIfNeeded, on the parent's queue. */
    method TellParent(parent: JobId, child: JobKey, value: Payload, timestamp: nat)
      modifies this
      ensures Model() == ReleaseParent(old(Model()), parent, child, value, timestamp)
    {
      hide MoveParentToWait;
      var pending := if parent in side.dependencies then side.dependencies[parent] else {};
      if child in pending {
        var left := pending - {child};
        var done := if parent in side.processed then side.processed[parent] else map[];
        side := side.(dependencies := side.dependencies[parent := left],
                      processed := side.processed[parent := done[child := value]]);
        assert left == {} <==> pending == {child};
        if left == {} {
          if parent in jobs && Has(at.waitingChildren, parent) {
            FreeParent(parent, timestamp);
          }
        }
      }
    }

    /** The finished set and the job hash. */
    method StoreFinished(id: JobId, timestamp: nat, result: Result, attemptsMade: nat)
      modifies this`at, this`jobs
      ensures Model() == StoreResult(old(Model()), id, timestamp, result, attemptsMade)
    {
      var job := Hash(id);
      match result {
        case Completed(value) =>
          at := at.(completed := Zadd(at.completed, timestamp, id));
          jobs := jobs[id := job.(finishedOn := Some(timestamp), atm := attemptsMade, returned := Some(value))];
        case Failed(text) =>
          at := at.(failed := Zadd(at.failed, timestamp, id));
          jobs := jobs[id := job.(finishedOn := Some(timestamp), atm := attemptsMade,
            failedReason := Some(Thrown(text)))];
      }
    }

    method Finish(id: JobId, token: Token, timestamp: nat, result: Result, attemptsMade: nat) returns (code: int)
      modifies this
      ensures Outcome(Model(), code) == FinishJob(old(Model()), id, token, timestamp, result, attemptsMade)
    {
      hide Guard, LeaveActive, ReleaseDedup, StoreResult;
      code := TakeOut(id, token);
      if code != OK {
        return;
      }
      RemoveDeduplicationKeyOnFinalization(id);
      StoreFinished(id, timestamp, result, attemptsMade);
    }

    method CountFinished(result: Result, maxPoints: Option<nat>, timestamp: nat)
      modifies this`side
      ensures Model() == RecordMetrics(old(Model()), result, maxPoints, timestamp)
    {
      hide M.Collect;
      if maxPoints.Some? {
        if result.Completed? {
          side := side.(completedMetrics := M.Collect(side.completedMetrics, maxPoints.value, timestamp));
        } else {
          side := side.(failedMetrics := M.Collect(side.failedMetrics, maxPoints.value, timestamp));
        }
      }
    }

    /** Metrics, then the next job if wanted. */
    method CountAndFetch(token: Token, timestamp: nat, result: Result, maxPoints: Option<nat>,
        fetch: Option<Flow.FetchArgs>)
      returns (next: Fetch)
      modifies this
      ensures Fetched(Model(), next) == AfterParent(old(Model()), token, timestamp, result, maxPoints, fetch)
    {
      hide RecordMetrics, FetchNext;
      CountFinished(result, maxPoints, timestamp);
      next := Nothing;
      if fetch.Some? {
        next := MoveToActive(token, timestamp, fetch.value.clock, fetch.value.limit);
      }
    }

    /** moveToFinished for the job `self`; `parents` holds the keys of the queue of its parent, and
        may be this very object. */
    method MoveToFinished(self: JobKey, token: Token, timestamp: nat, result: Result, attemptsMade: nat,
                          maxPoints: Option<nat>, fetch: Option<Flow.FetchArgs>, parents: QueueStore)
      returns (code: int, next: Fetch)
      modifies this, parents
      ensures var o := FinishJob(old(Model()), self.id, token, timestamp, result, attemptsMade);
        var parent := HashOf(o.q, self.id).parent;
        && code == o.code
        && (code != OK ==> Model() == old(Model()) && (parents != this ==> parents.Model() == old(parents.Model())))
        && (code == OK ==>
              if !(result.Completed? && parent.Some?) then
                && Fetched(Model(), next) == AfterParent(o.q, token, timestamp, result, maxPoints, fetch)
                && (parents != this ==> parents.Model() == old(parents.Model()))
              else if parents == this then
                Fetched(Model(), next) == AfterParent(
                  ReleaseParent(o.q, parent.value.id, self, result.value, timestamp),
                                                      token, timestamp, result, maxPoints, fetch)
              else
                && Fetched(Model(), next) == AfterParent(o.q, token, timestamp, result, maxPoints, fetch)
                && parents.Model()
                   == ReleaseParent(old(parents.Model()), parent.value.id, self, result.value, timestamp))
    {
      hide FinishJob, ReleaseParent, AfterParent;
      next := Nothing;
      code := Finish(self.id, token, timestamp, result, attemptsMade);
      if code != OK {
        SameWhenRefused(old(Model()), self.id, token, timestamp, result, attemptsMade);
        return;
      }
      var parent := Hash(self.id).parent;
      if result.Completed? && parent.Some? {
        parents.TellParent(parent.value.id, self, result.value, timestamp);
      }
      next := CountAndFetch(token, timestamp, result, maxPoints, fetch);
    }

    // -------------------------------------------------------------- stalled jobs

    /** Active jobs without a lock join the stalled set. */
    method ScanActive()
      modifies this`stalled
      ensures forall x :: x in stalled <==> x in old(stalled) || (x in at.active && x !in locks)
      ensures Model() == Scanned(old(Model()))
    {
      for i := 0 to |at.active|
        invariant stalled == old(stalled) + (set k | 0 <= k < i && at.active[k] !in locks :: at.active[k])
      {
        if at.active[i] !in locks {
          stalled := stalled + {at.active[i]};
        }
      }
      assert (set k | 0 <= k < |at.active| && at.active[k] !in locks :: at.active[k]) == Unlocked(Model());
    }

    /** What the sweep does to one member of the stalled set. */
    method SweepJob(id: JobId, maxStalledCount: nat, timestamp: nat) returns (requeued: bool, failed: bool)
      modifies this`stalled, this`at, this`jobs, this`pc
      ensures Model() == SweepOne(old(Model()), id, maxStalledCount, timestamp)
      ensures requeued == (id in old(jobs) && old(jobs)[id].stc < maxStalledCount)
      ensures failed == (id in old(jobs) && old(jobs)[id].stc >= maxStalledCount)
    {
      hide Enqueue;
      requeued, failed := false, false;
      if id !in jobs {
        stalled := stalled - {id};
        return;
      }
      var job := jobs[id];
      at := at.(active := RemoveFirst(at.active, id));
      stalled := stalled - {id};
      if job.stc >= maxStalledCount {
        failed := true;
        jobs := jobs[id := job.(failedReason := Some(StalledTooOften), finishedOn := Some(timestamp),
                                stc := job.stc + 1)];
      } else {
        requeued := true;
        jobs := jobs[id := job.(stc := job.stc + 1)];
        EnqueueJob(id, job.priority);
      }
    }

    /** moveStalledJobsToWait by the worker that acquired the check key. SMEMBERS lists the set in
        some order. */
    method MoveStalledJobsToWait(maxStalledCount: nat, timestamp: nat)
      returns (stalledCount: nat, failedCount: nat, ghost order: seq<JobId>)
      modifies this
      ensures forall x :: x in order <==> x in old(stalled) || (x in old(at).active && x !in old(locks))
      ensures ListsOnce(order, old(Model()).stalled + Unlocked(old(Model())))
      ensures Model() == SweepStalled(old(Model()), order, maxStalledCount, timestamp)
      ensures stalledCount == Requeued(Scanned(old(Model())), order, maxStalledCount)
    {
      hide SweepOne, Requeued;
      ScanActive();
      ghost var start := Model();
      assert forall x :: x in start.stalled <==> x in old(stalled) || (x in old(at).active && x !in old(locks));
      var left := stalled;
      stalledCount, failedCount, order := 0, 0, [];
      StartsEmpty(start, maxStalledCount);
      while left != {}
        invariant left <= start.stalled && ListsOnce(order, start.stalled - left)
        invariant Model() == SweepEach(start, order, maxStalledCount, timestamp)
        invariant stalledCount == Requeued(start, order, maxStalledCount)
        invariant forall x :: x in left ==> (x in jobs <==> x in start.jobs) && (x in jobs ==> jobs[x] == start.jobs[x])
        invariant isPaused == old(isPaused) && marks == old(marks)
        decreases left
      {
        var id :| id in left;
        SweepOneFrame(Model(), id, maxStalledCount, timestamp);
        Appended(start, order, id, start.stalled - left, maxStalledCount, timestamp);
        var requeued, failed := SweepJob(id, maxStalledCount, timestamp);
        if requeued { stalledCount := stalledCount + 1; }
        if failed { failedCount := failedCount + 1; }
        order := order + [id];
        left := left - {id};
      }
      ghost var listed := set y | y in order;
      assert listed == start.stalled;
      assert forall x :: x in order <==> x in listed;
      AddBaseMarkerIfNeeded(isPaused || stalledCount == 0);
    }

    // -------------------------------------------------------------- administration

    /** pause */
    method Pause()
      modifies this
      ensures Model() == PauseQueue(old(Model()))
    {
      isPaused := true;
      while at.wait != []
        invariant at == old(at).(wait := at.wait, paused := at.paused)
        invariant at.wait + at.paused == old(at.wait) + old(at.paused)
        invariant isPaused && jobs == old(jobs) && locks == old(locks) && stalled == old(stalled) && pc == old(pc)
        invariant marks == old(marks) && limiter == old(limiter) && side == old(side)
        decreases |at.wait|
      {
        var last := |at.wait| - 1;
        at := at.(wait := at.wait[..last], paused := [at.wait[last]] + at.paused);
      }
      assert [] + at.paused == at.paused;
    }

    /** resume */
    method Resume()
      modifies this
      ensures Model() == ResumeQueue(old(Model()))
    {
      isPaused := false;
      while at.paused != []
        invariant at == old(at).(wait := at.wait, paused := at.paused)
        invariant at.paused + at.wait == old(at.paused) + old(at.wait)
        invariant !isPaused && jobs == old(jobs) && locks == old(locks) && stalled == old(stalled) && pc == old(pc)
        invariant marks == old(marks) && limiter == old(limiter) && side == old(side)
        decreases |at.paused|
      {
        var last := |at.paused| - 1;
        at := at.(paused := at.paused[..last], wait := [at.paused[last]] + at.wait);
      }
      assert [] + at.wait == at.wait;
      AddBaseMarkerIfNeeded(false);
    }

    method Reprioritize(id: JobId, priority: nat) returns (code: int)
      modifies this
      ensures Outcome(Model(), code) == ChangePriority(old(Model()), id, priority)
    {
      hide Prioritize, PushRight;
      if id !in jobs {
        return MISSING_JOB;
      }
      var currentPriority := jobs[id].priority;
      ghost var out := OutOfLine(Model(), id, currentPriority);
      if priority > 0 {
        if currentPriority == 0 {
          var removed := id in at.wait;
          at := at.(wait := RemoveAll(at.wait, id));
          if !removed && isPaused {
            at := at.(paused := RemoveAll(at.paused, id));
          }
        } else {
          at := at.(prioritized := Zrem(at.prioritized, id));
        }
        PushesKeepPause(out, id, priority);
        PrioritizeKeepsJobs(out, id, priority);
        AddToPrioritized(id, priority);
      } else if currentPriority > 0 {
        at := at.(prioritized := Zrem(at.prioritized, id));
        PushesKeepPause(out, id, priority);
        PrioritizeKeepsJobs(out, id, priority);
        PushOnTarget(id, true);
      }
      var job := jobs[id];
      jobs := jobs[id := job.(priority := priority)];
      AddBaseMarkerIfNeeded(isPaused);
      return OK;
    }

    method PromoteNow(id: JobId) returns (code: int)
      modifies this
      ensures Outcome(Model(), code) == PromoteJob(old(Model()), id)
    {
      hide Prioritize, PushRight;
      if !Has(at.delayed, id) {
        return MISSING_JOB;
      }
      at := at.(delayed := Zrem(at.delayed, id));
      var job := Hash(id);
      jobs := jobs[id := job.(delay := 0)];
      PushesKeepPause(Model(), id, job.priority);
      if job.priority > 0 {
        AddToPrioritized(id, job.priority);
        AddBaseMarkerIfNeeded(false);
      } else {
        PushOnTarget(id, true);
        AddBaseMarkerIfNeeded(isPaused);
      }
      return OK;
    }

    // -------------------------------------------------------------- bulk moves

    /** HDEL of the fields a finished job got. */
    method ClearJob(from: Source, id: JobId)
      modifies this`jobs
      ensures Model() == ClearResult(old(Model()), from, id)
    {
      if id in jobs {
        var job := jobs[id];
        match from {
          case FromFailed => jobs := jobs[id := job.(finishedOn := None, failedReason := None)];
          case FromCompleted => jobs := jobs[id := job.(finishedOn := None, returned := None)];
          case FromDelayed =>
        }
      }
    }

    /** ZREM of the `n` first members of the source set, then LPUSH of their ids. */
    method MoveBatch(from: Source, n: nat, ids: seq<JobId>)
      requires n <= |SourceSet(Model(), from)|
      modifies this`at
      ensures Model() == PushAllLeft(WithSource(old(Model()), from, SourceSet(old(Model()), from)[n..]), ids)
    {
      hide Reverse;
      match from {
        case FromFailed => at := at.(failed := at.failed[n..]);
        case FromCompleted => at := at.(completed := at.completed[n..]);
        case FromDelayed => at := at.(delayed := at.delayed[n..]);
      }
      if isPaused {
        at := at.(paused := Reverse(ids) + at.paused);
      } else {
        at := at.(wait := Reverse(ids) + at.wait);
      }
    }

    /** HDEL of every job's result fields. */
    method ClearJobs(from: Source, ids: seq<JobId>)
      modifies this`jobs
      ensures Model() == ClearEach(old(Model()), from, ids)
    {
      hide ClearResult;
      for i := 0 to |ids|
        invariant Model() == ClearEach(old(Model()), from, ids[..i])
      {
        assert ids[..i + 1][..i] == ids[..i];
        ClearJob(from, ids[i]);
      }
      assert ids[..|ids|] == ids;
    }

    /** Moves the first members of the source set, whose ids are `ids`, 7000 at a time. */
    method MoveInBatches(from: Source, ids: seq<JobId>)
      requires |ids| <= |SourceSet(Model(), from)|
      modifies this`at
      ensures Model() == PushAllLeft(WithSource(old(Model()), from, SourceSet(old(Model()), from)[|ids|..]), ids)
    {
      hide PushAllLeft, WithSource, SourceSet;
      ghost var start, z := Model(), SourceSet(Model(), from);
      NothingMoved(start, from);
      var batches := new BatchCursor(|ids|, 7000);
      var batch := batches.Next();
      var done := 0;
      while batch.Some?
        invariant fresh(batches) && batches.n == |ids| && batches.batchSize == 7000
        invariant done <= |ids|
        invariant batch.None? ==> done == |ids|
        invariant batch.Some? ==> batch.value.from == done + 1 && done < batch.value.to == batches.Consumed()
        invariant Model() == PushAllLeft(WithSource(start, from, z[done..]), ids[..done])
        decreases |ids| - done
      {
        var to := batch.value.to;
        BatchMoves(start, from, ids, done, to);
        MoveBatch(from, to - done, ids[done..to]);
        done := to;
        batch := batches.Next();
      }
      assert ids[..done] == ids;
    }

    /** One call of moveJobsToWait: at most `maxCount` jobs. */
    method MoveJobs(from: Source, maxCount: nat, upTo: Option<nat>) returns (cursor: nat)
      modifies this
      ensures Moved(Model(), cursor) == MoveJobsToWait(old(Model()), from, maxCount, upTo)
    {
      hide ClearEach, PushAllLeft, WithSource, SourceSet, Matching, Members;
      var z := SourceSet(Model(), from);
      var n := Min(Matching(z, upTo), maxCount);
      var ids := Members(z[..n]);
      if |ids| > 0 {
        ClearJobs(from, ids);
        ghost var cleared := Model();
        Partition.ClearEachFrame(old(Model()), from, ids);
        SameSource(old(Model()), cleared, from);
        MoveInBatches(from, ids);
        PushedKeepsPause(WithSource(cleared, from, z[n..]), ids);
        SourceKeepsPause(cleared, from, z[n..]);
        AddBaseMarkerIfNeeded(isPaused);
      }
      cursor := if maxCount <= |ids| then 1 else 0;
    }
  }

  lemma SameSource(q: Queue, r: Queue, from: Source)
    requires r.at == q.at
    ensures SourceSet(r, from) == SourceSet(q, from)
  {
  }

  lemma NothingMoved(q: Queue, from: Source)
    ensures PushAllLeft(WithSource(q, from, SourceSet(q, from)[0..]), []) == q
  {
    var z := SourceSet(q, from);
    assert z[0..] == z;
    assert Reverse<JobId>([]) + q.at.wait == q.at.wait && Reverse<JobId>([]) + q.at.paused == q.at.paused;
    match from
    case FromFailed => return;
    case FromCompleted => return;
    case FromDelayed => return;
  }

  lemma PushedKeepsPause(q: Queue, ids: seq<JobId>)
    ensures PushAllLeft(q, ids).isPaused == q.isPaused && SourceSet(PushAllLeft(q, ids), FromFailed) == q.at.failed
    ensures SourceSet(PushAllLeft(q, ids), FromCompleted) == q.at.completed
    ensures SourceSet(PushAllLeft(q, ids), FromDelayed) == q.at.delayed
  {
    hide Reverse;
  }

  lemma SourceKeepsPause(q: Queue, from: Source, z: Zset)
    ensures WithSource(q, from, z).isPaused == q.isPaused && SourceSet(WithSource(q, from, z), from) == z
  {
    match from
    case FromFailed => return;
    case FromCompleted => return;
    case FromDelayed => return;
  }

  /** One batch more. */
  lemma BatchMoves(q: Queue, from: Source, ids: seq<JobId>, done: nat, to: nat)
    requires done <= to <= |ids| <= |SourceSet(q, from)|
    ensures var z := SourceSet(q, from);
      var r := PushAllLeft(WithSource(q, from, z[done..]), ids[..done]);
      && SourceSet(r, from) == z[done..] && z[done..][to - done..] == z[to..]
      && PushAllLeft(WithSource(r, from, z[to..]), ids[done..to]) ==
        PushAllLeft(WithSource(q, from, z[to..]), ids[..to])
  {
    hide Reverse;
    var z := SourceSet(q, from);
    ReverseTwice(ids[..done], ids[done..to], q.at.wait);
    ReverseTwice(ids[..done], ids[done..to], q.at.paused);
    assert ids[..done] + ids[done..to] == ids[..to];
    match from
    case FromFailed => return;
    case FromCompleted => return;
    case FromDelayed => return;
  }

  lemma CursorIsBit(q: Queue, from: Source, count: nat, upTo: Option<nat>)
    ensures MoveJobsToWait(q, from, count, upTo).cursor <= 1
  {
    hide PushAllLeft, ClearEach, WithSource;
  }

  /** The client's loop over the script. */
  method MoveAllJobs(store: QueueStore, from: Source, count: nat, upTo: Option<nat>)
    modifies store
    ensures store.Model() == MoveMatching(old(store.Model()), from, upTo)
  {
    hide MoveMatching, MoveJobsToWait;
    var chunk := ChunkSize(count);
    ghost var start := store.Model();
    var cursor := 1;
    while cursor != 0
      invariant cursor <= 1
      invariant cursor != 0 ==> MoveAll(store.Model(), from, chunk, upTo) == MoveAll(start, from, chunk, upTo)
      invariant cursor == 0 ==> store.Model() == MoveAll(start, from, chunk, upTo)
      decreases cursor, |SourceSet(store.Model(), from)|
    {
      ghost var q := store.Model();
      cursor := store.MoveJobs(from, chunk, upTo);
      CursorIsBit(q, from, chunk, upTo);
      if cursor != 0 { CursorMeansProgress(q, from, chunk, upTo); }
    }
    ChunkSizeDoesNotMatter(start, from, chunk, upTo);
  }

  lemma StartsEmpty(q: Queue, maxStalled: nat)
    ensures Requeued(q, [], maxStalled) == 0
  {
  }

  lemma SweepOneFrame(q: Queue, id: JobId, maxStalled: nat, now: nat)
    ensures var r := SweepOne(q, id, maxStalled, now);
      && r.isPaused == q.isPaused && r.marks == q.marks
      && (forall x :: x != id ==> (x in r.jobs <==> x in q.jobs) && (x in q.jobs ==> r.jobs[x] == q.jobs[x]))
  {
    hide Zadd;
    if id !in q.jobs { return; }
    if q.jobs[id].stc >= maxStalled { return; }
    if q.jobs[id].priority > 0 { return; }
  }

  lemma Appended(q: Queue, order: seq<JobId>, id: JobId, done: set<JobId>, maxStalled: nat, now: nat)
    requires ListsOnce(order, done) && id !in done
    ensures ListsOnce(order + [id], done + {id})
    ensures SweepEach(q, order + [id], maxStalled, now) ==
        SweepOne(SweepEach(q, order, maxStalled, now), id, maxStalled, now)
    ensures Requeued(q, order + [id], maxStalled)
         == Requeued(q, order, maxStalled) + (if id in q.jobs && q.jobs[id].stc < maxStalled then 1 else 0)
  {
    hide SweepOne;
    assert (order + [id])[..|order|] == order;
    assert forall x :: x in order ==> x in done;
    assert (set x | x in order + [id]) == (set x | x in order) + {id};
  }

  lemma PrioritizeKeepsJobs(q: Queue, id: JobId, priority: nat)
    ensures Prioritize(q, id, priority).jobs == q.jobs && PushRight(q, id).jobs == q.jobs
  {
    hide Zadd;
  }

  /** What moveToFinished does after the parent was told. */
  function AfterParent(q: Queue, token: Token, timestamp: nat, result: Result, maxPoints: Option<nat>,
                       fetch: Option<Flow.FetchArgs>): Fetched
  {
    var counted := RecordMetrics(q, result, maxPoints, timestamp);
    if fetch.None? then Fetched(counted, Nothing)
    else FetchNext(counted, token, timestamp, fetch.value.clock, fetch.value.limit)
  }

  lemma SameWhenRefused(q: Queue, id: JobId, token: Token, now: nat, result: Result, atm: nat)
    ensures FinishJob(q, id, token, now, result, atm).code != OK ==> FinishJob(q, id, token, now, result, atm).q == q
  {
    hide Guard, StoreResult;
    if Guard(q, id, token) != OK { return; }
  }

  lemma LeaveKeepsJobs(q: Queue, left: Queue, id: JobId, token: Token, due: nat)
    requires left == LeaveActive(q, id, token)
    ensures DelayUntil(left, id, due).jobs == q.jobs && HashOf(DelayUntil(left, id, due), id) == HashOf(q, id)
  {
    hide Zadd, DelayedScore;
  }

  lemma PushesKeepPause(q: Queue, id: JobId, priority: nat)
    ensures PushRight(q, id).isPaused == q.isPaused && PushLeft(q, id).isPaused == q.isPaused
    ensures Prioritize(q, id, priority).isPaused == q.isPaused
  {
    hide Zadd;
  }
}

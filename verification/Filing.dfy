/** Where every script puts its job, said in terms of who is served next and what is stored under
    which score, and what the job's hash says then. */
module Filing {
  import opened Redis
  import opened Scores
  import opened Limiter
  import opened Queue
  import opened Machine
  import opened Fencing
  import Partition
  import Promotion
  import Ranks

  // ---------------------------------------------------------------- in line, and due

  /** With a priority the job is in the prioritized set at that priority, else in the target list. */
  predicate InLine(q: Queue, x: JobId, priority: nat) {
    if priority > 0 then exists e :: e in q.at.prioritized && e.member == x && e.score / BLOCK == priority
    else x in (if q.isPaused then q.at.paused else q.at.wait)
  }

  lemma PrioritizedInLine(q: Queue, id: JobId, priority: nat)
    requires priority > 0
    ensures InLine(Prioritize(q, id, priority), id, priority)
  {
    hide Zadd, PriorityScore;
    var e := Entry(PriorityScore(priority, q.pc + 1), id);
    PriorityScoreBounds(priority, q.pc + 1);
    ZaddEntries(q.at.prioritized, e.score, id, e);
    assert e in Prioritize(q, id, priority).at.prioritized;
  }

  lemma EnqueuedInLine(q: Queue, id: JobId, priority: nat)
    ensures InLine(Enqueue(q, id, priority), id, priority)
    ensures priority == 0 ==> IsLast(if q.isPaused then Enqueue(q, id, priority).at.paused
                                     else Enqueue(q, id, priority).at.wait, id)
  {
    if priority > 0 { PrioritizedInLine(q, id, priority); }
  }

  /** At the right end, where jobs are served from. */
  predicate IsLast(list: seq<JobId>, id: JobId) {
    list != [] && list[|list| - 1] == id
  }

  /** The job's only entry in the delayed set lies in the millisecond `due`. */
  predicate DueAt(q: Queue, id: JobId, due: nat) {
    && Partition.InSet(q.at.delayed, id) == 1
    && (exists k :: 0 <= k < |q.at.delayed| && IsDueAt(q.at.delayed[k], id, due))
  }

  predicate IsDueAt(e: Entry, id: JobId, due: nat) {
    e.member == id && e.score / SLOTS == due
  }

  lemma DelayedIsDueAt(q: Queue, id: JobId, due: nat)
    ensures DueAt(DelayUntil(q, id, due), id, due)
  {
    hide Zadd, DelayedScore, Members;
    var score := DelayedScore(q.at.delayed, due);
    DelayedScoreInBucket(q.at.delayed, due);
    ZaddMembers(q.at.delayed, score, id);
    ZaddEntries(q.at.delayed, score, id, Entry(score, id));
    var k :| 0 <= k < |DelayUntil(q, id, due).at.delayed| && DelayUntil(q, id, due).at.delayed[k] == Entry(score, id);
    assert IsDueAt(DelayUntil(q, id, due).at.delayed[k], id, due);
  }

  lemma OnlyEntry(z: Zset, i: nat, j: nat)
    requires i < |z| && j < |z| && z[i].member == z[j].member && Partition.InSet(z, z[i].member) == 1
    ensures i == j
  {
    hide Partition.InSet;
    if i < j { Ranks.TwiceInSet(z, i, j); }
    if j < i { Ranks.TwiceInSet(z, j, i); }
  }

  lemma RestHas(z: Zset, n: nat, k: nat)
    requires n <= |z| && k < |z| && Partition.InSet(z, z[k].member) == 1
    ensures Has(z[n..], z[k].member) <==> n <= k
  {
    hide Partition.InSet;
    var rest := z[n..];
    if Has(rest, z[k].member) {
      var j :| 0 <= j < |Members(rest)| && Members(rest)[j] == z[k].member;
      MembersAt(rest, j);
      assert rest[j] == z[n + j];
      OnlyEntry(z, n + j, k);
    }
    if n <= k {
      assert rest[k - n] == z[k];
      MembersAt(rest, k - n);
    }
  }

  /** A promotion that gets as far as the job, which has a thousand jobs ahead of it at most, takes it
      out of the delayed set exactly from the time it is due on. */
  lemma PromotedWhenDue(q: Queue, id: JobId, due: nat, k: nat, now: nat)
    requires Ranked(q.at.delayed) && DueAt(q, id, due) && k < |q.at.delayed| && q.at.delayed[k].member == id
    ensures Has(PromoteDelayed(q, now).at.delayed, id) <==> !(k < PROMOTE_LIMIT && due <= now)
  {
    hide Partition.InSet, PromoteEach, Ranked, Has;
    var j :| 0 <= j < |q.at.delayed| && IsDueAt(q.at.delayed[j], id, due);
    OnlyEntry(q.at.delayed, j, k);
    var n := DueCount(q, now);
    Promotion.DueExactly(q, now);
    hide DueCount;
    assert k < n <==> k < PROMOTE_LIMIT && due <= now;
    Promotion.PromoteEachLists(q.(at := q.at.(delayed := q.at.delayed[n..])), Members(q.at.delayed[..n]));
    RestHas(q.at.delayed, n, k);
    if n == 0 { assert q.at.delayed[0..] == q.at.delayed; return; }
  }

  // ---------------------------------------------------------------- new jobs

  /** A hash with the job's options and nothing that comes from being worked on. */
  predicate StoredAs(job: Job, opts: Opts, timestamp: nat, parent: Option<JobKey>) {
    && job.timestamp == timestamp && job.parent == parent && job.deid == opts.deid
    && job.delay == opts.delay && job.priority == opts.priority && job.attempts == opts.attempts
    && job.atm == job.ats == job.stc == 0
    && job.finishedOn.None? && job.returned.None? && job.failedReason.None?
  }

  predicate StoredOnly(q: Queue, r: Queue, id: JobId, opts: Opts, timestamp: nat, parent: Option<JobKey>) {
    && r.jobs.Keys == q.jobs.Keys + {id} && StoredAs(r.jobs[id], opts, timestamp, parent)
    && (forall x :: x in q.jobs && x != id ==> r.jobs[x] == q.jobs[x])
    && (opts.deid.Some? ==> opts.deid.value in r.side.dedup && r.side.dedup[opts.deid.value] == id)
    && r.isPaused == q.isPaused && r.locks == q.locks && r.at.active == q.at.active
  }

  /** A new standard job waits behind all others, and is announced if the queue runs. */
  lemma StandardJobIsAdded(q: Queue, id: JobId, opts: Opts, timestamp: nat, parent: Option<JobKey>)
    requires IsNew(q, id, opts)
    ensures var r := AddStandardJob(q, id, opts, timestamp, parent).q;
      && StoredOnly(q, r, id, opts, timestamp, parent)
      && (if q.isPaused then r.at == q.at.(paused := [id] + q.at.paused) else r.at == q.at.(wait := [id] + q.at.wait))
      && r.marks == q.marks.(base := q.marks.base || !q.isPaused)
  {
    if q.isPaused { return; }
  }

  /** A new prioritized job is filed under its priority and the next ticket. */
  lemma PrioritizedJobIsAdded(q: Queue, id: JobId, opts: Opts, timestamp: nat, parent: Option<JobKey>)
    requires IsNew(q, id, opts) && opts.priority > 0
    ensures var r := AddPrioritizedJob(q, id, opts, timestamp, parent).q;
      && StoredOnly(q, r, id, opts, timestamp, parent)
      && InLine(r, id, opts.priority) && r.pc == q.pc + 1
      && r.marks == q.marks.(base := q.marks.base || !q.isPaused)
  {
    PrioritizedInLine(Stored(q, id, opts, timestamp, parent), id, opts.priority);
    hide Zadd;
  }

  lemma DelayUntilFrame(q: Queue, id: JobId, due: nat)
    ensures var r := DelayUntil(q, id, due);
      r == q.(at := q.at.(delayed := r.at.delayed)) && r.at.delayed != []
  {
    hide Zadd, DelayedScore;
    var score := DelayedScore(q.at.delayed, due);
    ZaddEntries(q.at.delayed, score, id, Entry(score, id));
  }

  /** A new delayed job is due its delay after its timestamp, and the marker stands for the first
      delayed job. */
  lemma DelayedJobIsAdded(q: Queue, id: JobId, opts: Opts, timestamp: nat, parent: Option<JobKey>)
    requires IsNew(q, id, opts)
    ensures var r := AddDelayedJob(q, id, opts, timestamp, parent).q;
      && StoredOnly(q, r, id, opts, timestamp, parent)
      && DueAt(r, id, timestamp + opts.delay)
      && r.at.delayed != [] && r.marks == q.marks.(delay := Some(r.at.delayed[0].score))
  {
    hide DelayUntil, DueAt;
    var s, due := Stored(q, id, opts, timestamp, parent), timestamp + opts.delay;
    DelayUntilFrame(s, id, due);
    DelayedIsDueAt(s, id, due);
    SameDelayed(DelayUntil(s, id, due), AddDelayedJob(q, id, opts, timestamp, parent).q, id, due);
  }

  /** So promotion takes it from exactly then on. */
  lemma AddedJobIsPromotedWhenDue(q: Queue, id: JobId, opts: Opts, timestamp: nat, parent: Option<JobKey>,
                                  k: nat, now: nat)
    requires IsNew(q, id, opts) && Ranked(q.at.delayed)
    requires var r := AddDelayedJob(q, id, opts, timestamp, parent).q;
      k < |r.at.delayed| && r.at.delayed[k].member == id
    ensures var r := AddDelayedJob(q, id, opts, timestamp, parent).q;
      Has(PromoteDelayed(r, now).at.delayed, id) <==> !(k < PROMOTE_LIMIT && timestamp + opts.delay <= now)
  {
    var r := AddDelayedJob(q, id, opts, timestamp, parent).q;
    DelayedJobIsAdded(q, id, opts, timestamp, parent);
    assert Ranked(r.at.delayed) by {
      hide Zadd, Ranked;
      ZaddRanked(q.at.delayed, DelayedScore(q.at.delayed, DueTime(timestamp, opts.delay)), id);
    }
    hide AddDelayedJob;
    PromotedWhenDue(r, id, timestamp + opts.delay, k, now);
  }

  /** A new parent waits for its children. */
  lemma ParentIsAdded(q: Queue, id: JobId, opts: Opts, timestamp: nat, parent: Option<JobKey>)
    requires id !in q.jobs
    ensures var r := AddParentJob(q, id, opts, timestamp, parent);
      && r.jobs.Keys == q.jobs.Keys + {id} && StoredAs(r.jobs[id], opts, timestamp, parent)
      && Has(r.at.waitingChildren, id) && Entry(timestamp, id) in r.at.waitingChildren
      && r.at == q.at.(waitingChildren := r.at.waitingChildren) && r.marks == q.marks
  {
    hide Zadd, Has;
    ZaddHas(q.at.waitingChildren, timestamp, id, id);
    ZaddEntries(q.at.waitingChildren, timestamp, id, Entry(timestamp, id));
  }

  // ---------------------------------------------------------------- jobs claimed and renewed

  /** A claimed job is active and locked, in the stalled set until its first renewal, and its hash is
      answered with one more start counted. */
  lemma ClaimedJobIsFiled(q: Queue, s: Step)
    requires s.Fetch? && Fetching(q, s).Claimed?
    ensures var r, id, job, was := Apply(q, s), Fetching(q, s).id, Fetching(q, s).job, HashOf(q, Fetching(q, s).id);
      && r.at.active == [id] + q.at.active && id in r.stalled
      && r.locks == q.locks[id := s.token]
      && id in r.jobs && r.jobs[id] == job && job.ats == was.ats + 1
      && job.atm == was.atm && job.stc == was.stc && job.attempts == was.attempts && job.priority == was.priority
      && (r.marks.base <==> r.at.wait != [] || r.at.prioritized != [])
  {
    hide PromoteDelayed, Promotion.Standard, Promotion.Urgent;
    var p := PromoteDelayed(q, s.now);
    PromotionKeeps(q, s.now, Fetching(q, s).id);
    var v := RateLimitTtl(s.limit, p.limiter, s.clock);
    var r := p.(limiter := v.key);
    if r.at.wait != [] { return; }
  }

  lemma PromotionKeeps(q: Queue, now: nat, x: JobId)
    ensures var p := PromoteDelayed(q, now);
      && p.at.active == q.at.active && p.locks == q.locks
      && HashOf(p, x) == HashOf(q, x).(delay := HashOf(p, x).delay)
  {
    hide PromoteEach;
    var n := DueCount(q, now);
    var d := q.(at := q.at.(delayed := q.at.delayed[n..]));
    Promotion.PromoteEachLists(d, Members(q.at.delayed[..n]));
    Promotion.PromoteEachHashes(d, Members(q.at.delayed[..n]), x);
    Partition.PromoteEachFrame(d, Members(q.at.delayed[..n]));
    if n == 0 { return; }
  }

  /** The holder's renewal keeps its lock and takes the job out of the stalled set; anyone else's
      fails and changes nothing. */
  lemma RenewedJobIsNotStalled(q: Queue, id: JobId, token: Token)
    ensures var o := ExtendLock(q, id, token);
      if id in q.locks && q.locks[id] == token then
        && o.code == OK && id !in o.q.stalled && o.q.locks == q.locks
        && (forall x :: x != id ==> (x in o.q.stalled <==> x in q.stalled))
        && o.q == q.(stalled := o.q.stalled)
      else o.code == MISSING_LOCK && o.q == q
  {
    if id in q.locks && q.locks[id] == token { return; }
  }

  // ---------------------------------------------------------------- jobs leaving active

  /** A finished job has left active with its lock, and is filed under its finish time in the set of
      its outcome only, with its result. */
  lemma FinishedJobIsFiled(q: Queue, id: JobId, token: Token, now: nat, result: Result, atm: nat)
    requires Partition.Fits(q, id) && token != NO_LOCK && Guard(q, id, token) == OK
    ensures var r := FinishJob(q, id, token, now, result, atm).q;
      && id !in r.locks && id !in r.stalled && id !in r.at.active
      && (result.Completed? ==>
            && Entry(now, id) in r.at.completed && !Has(r.at.failed, id)
            && r.jobs[id].returned == Some(result.value))
      && (result.Failed? ==>
            && Entry(now, id) in r.at.failed && !Has(r.at.completed, id)
            && r.jobs[id].failedReason == Some(Thrown(result.text)))
      && r.jobs[id].finishedOn == Some(now) && r.jobs[id].atm == atm
  {
    hide Partition.Count, Partition.Fits, Zadd, RemoveFirst, Has;
    Partition.LeaveActiveClears(q, id, token, id);
    ZaddEntries(q.at.completed, now, id, Entry(now, id));
    ZaddEntries(q.at.failed, now, id, Entry(now, id));
    if result.Completed? { return; }
  }

  /** A delayed job lies in the millisecond it is due, and its new attempt count is stored. */
  lemma DelayedJobIsFiled(q: Queue, id: JobId, token: Token, now: nat, due: nat, atm: nat)
    requires Guard(q, id, token) == OK
    ensures var r := MoveToDelayed(q, id, token, now, due, atm).q;
      && (exists e :: e in r.at.delayed && e.member == id && e.score / SLOTS == due)
      && r.jobs[id].atm == atm && r.jobs[id].delay == due - now && r.jobs[id].stc == q.jobs[id].stc
      && (r.marks.delay.Some? && r.at.delayed != [] && r.marks.delay.value == r.at.delayed[0].score)
  {
    hide Zadd, DelayedScore, RemoveFirst;
    var score := DelayedScore(q.at.delayed, due);
    DelayedScoreInBucket(q.at.delayed, due);
    ZaddEntries(q.at.delayed, score, id, Entry(score, id));
    assert Entry(score, id) in Zadd(q.at.delayed, score, id);
  }

  /** RPUSH puts a retried job at the end that is served first: in a running queue it is the very
      next job. LPUSH puts it behind everything that waits. */
  lemma RetriedJobIsNextIffRight(q: Queue, id: JobId, token: Token, right: bool, atm: nat)
    requires Guard(q, id, token) == OK && !q.isPaused && id !in q.at.wait && q.at.wait != []
    ensures NextJob(RetryJob(q, id, token, right, atm, 0).q) == Some(id) <==> right
    ensures !right ==> NextJob(RetryJob(q, id, token, right, atm, 0).q) == NextJob(q)
  {
    hide RemoveFirst;
    if right { return; }
  }

  /** A job handed back under a rate limit is the next one served if it has no priority. */
  lemma ReturnedJobIsNext(q: Queue, id: JobId, token: Token)
    requires Guard(q, id, token) == OK && !q.isPaused && id in q.at.active && HashOf(q, id).priority == 0
    ensures NextJob(MoveActiveToWait(q, id, token).q) == Some(id)
    ensures MoveActiveToWait(q, id, token).q.jobs == q.jobs
  {
    hide RemoveFirst;
  }

  /** With a priority it ranks at or before every job of its priority, and after every job of a
      numerically lower one. */
  lemma PushedBackRanks(q: Queue, id: JobId, token: Token, e: Entry)
    requires Guard(q, id, token) == OK && id in q.at.active && HashOf(q, id).priority > 0
    requires e in q.at.prioritized && e.member != id
    ensures var r := MoveActiveToWait(q, id, token).q;
      var p := HashOf(q, id).priority;
      var back := Entry(PushBackScore(p), id);
      && back in r.at.prioritized && e in r.at.prioritized
      && (e.score / BLOCK == p ==> back.score <= e.score)
      && (e.score / BLOCK < p ==> e.score < back.score)
      && (e.score / BLOCK > p ==> back.score < e.score)
  {
    hide RemoveFirst, Zadd;
    var p := HashOf(q, id).priority;
    ZaddEntries(q.at.prioritized, PushBackScore(p), id, e);
    ZaddEntries(q.at.prioritized, PushBackScore(p), id, Entry(PushBackScore(p), id));
    ScoreBand(e.score, p);
  }

  lemma ScoreBand(score: nat, p: nat)
    ensures score / BLOCK == p ==> PushBackScore(p) <= score
    ensures score / BLOCK < p ==> score < PushBackScore(p)
    ensures score / BLOCK > p ==> PushBackScore(p) < score
  {
    assert score == score / BLOCK * BLOCK + score % BLOCK;
  }

  /** A job the sweep requeues without a priority is the next one served, and one stall is counted;
      its lock, if there is one, stays. */
  lemma SweptJobIsNext(q: Queue, id: JobId, maxStalled: nat, now: nat)
    requires id in q.jobs && q.jobs[id].stc < maxStalled && q.jobs[id].priority == 0 && !q.isPaused
    ensures var r := SweepOne(q, id, maxStalled, now);
      NextJob(r) == Some(id) && r.jobs[id].stc == q.jobs[id].stc + 1 && r.locks == q.locks
  {
    hide RemoveFirst;
  }

  /** A parent released without delay and priority is the next one served in its queue. */
  lemma ReleasedParentIsNext(q: Queue, parent: JobId, child: JobKey, value: Payload, now: nat)
    requires PendingChildren(q, parent) == {child} && parent in q.jobs && Has(q.at.waitingChildren, parent)
    requires q.jobs[parent].delay == 0 && q.jobs[parent].priority == 0 && !q.isPaused
    ensures var r := ReleaseParent(q, parent, child, value, now);
      NextJob(r) == Some(parent) && r.marks.base && !Has(r.at.waitingChildren, parent)
  {
    hide Zrem, Has;
    ZremHas(q.at.waitingChildren, parent, parent);
  }

  /** A released parent is due its delay after now if it has one, else in line by its priority,
      without one at the end that is served first; its hash stays as it is. */
  lemma ReleasedParentIsFiled(q: Queue, parent: JobId, child: JobKey, value: Payload, now: nat)
    requires PendingChildren(q, parent) == {child} && parent in q.jobs && Has(q.at.waitingChildren, parent)
    ensures var r := ReleaseParent(q, parent, child, value, now);
      var job := q.jobs[parent];
      && !Has(r.at.waitingChildren, parent) && r.jobs == q.jobs
      && (job.delay > 0 ==> DueAt(r, parent, now + job.delay)
                            && r.at.delayed != [] && r.marks.delay == Some(r.at.delayed[0].score))
      && (job.delay <= 0 ==> InLine(r, parent, job.priority) && r.marks.base == (q.marks.base || !q.isPaused))
      && (job.delay <= 0 && job.priority == 0 ==> IsLast(if q.isPaused then r.at.paused else r.at.wait, parent))
  {
    hide Zrem, Zadd, Has, DelayedScore, Partition.InSet, InLine;
    ZremHas(q.at.waitingChildren, parent, parent);
    var rec := RecordChild(q, parent, child, value);
    var u := rec.(at := rec.at.(waitingChildren := Zrem(rec.at.waitingChildren, parent)));
    var job := q.jobs[parent];
    if job.delay > 0 {
      DelayedIsDueAt(u, parent, now + job.delay);
      SameDelayed(DelayUntil(u, parent, now + job.delay), ReleaseParent(q, parent, child, value, now), parent,
                  now + job.delay);
      return;
    }
    EnqueuedInLine(u, parent, job.priority);
    SameLine(Enqueue(u, parent, job.priority), ReleaseParent(q, parent, child, value, now), parent, job.priority);
    if job.priority > 0 { return; }
  }

  /** A parent told of a completed child keeps the child's value, and waits for it no more. */
  lemma ToldParentKeepsValue(q: Queue, parent: JobId, child: JobKey, value: Payload, now: nat)
    requires child in PendingChildren(q, parent)
    ensures var r := ReleaseParent(q, parent, child, value, now);
      && child !in PendingChildren(r, parent)
      && ProcessedChildren(r, parent) == ProcessedChildren(q, parent)[child := value]
  {
    hide Zadd, Zrem, DelayedScore;
    if PendingChildren(q, parent) == {child} && parent in q.jobs && Has(q.at.waitingChildren, parent) {
      if HashOf(RecordChild(q, parent, child, value), parent).delay > 0 { return; }
      if HashOf(RecordChild(q, parent, child, value), parent).priority > 0 { return; }
      return;
    }
  }

  lemma SameDelayed(q: Queue, r: Queue, id: JobId, due: nat)
    requires DueAt(q, id, due) && r.at.delayed == q.at.delayed
    ensures DueAt(r, id, due)
  {
  }

  lemma SameLine(q: Queue, r: Queue, x: JobId, p: nat)
    requires InLine(q, x, p) && r.at.prioritized == q.at.prioritized && r.isPaused == q.isPaused
    requires r.at.wait == q.at.wait && r.at.paused == q.at.paused
    ensures InLine(r, x, p)
  {
  }

  lemma ReleasedParentIsPromotedWhenDue(q: Queue, parent: JobId, child: JobKey, value: Payload, at: nat,
                                        k: nat, now: nat)
    requires PendingChildren(q, parent) == {child} && parent in q.jobs && Has(q.at.waitingChildren, parent)
    requires q.jobs[parent].delay > 0 && Ranked(q.at.delayed)
    requires var r := ReleaseParent(q, parent, child, value, at);
      k < |r.at.delayed| && r.at.delayed[k].member == parent
    ensures var r := ReleaseParent(q, parent, child, value, at);
      Has(PromoteDelayed(r, now).at.delayed, parent) <==> !(k < PROMOTE_LIMIT && at + q.jobs[parent].delay <= now)
  {
    var r := ReleaseParent(q, parent, child, value, at);
    ReleasedParentIsFiled(q, parent, child, value, at);
    assert Ranked(r.at.delayed) by {
      hide Zadd, Ranked, DelayedScore;
      ZaddRanked(q.at.delayed, DelayedScore(q.at.delayed, DueTime(at, q.jobs[parent].delay)), parent);
    }
    hide ReleaseParent;
    PromotedWhenDue(r, parent, at + q.jobs[parent].delay, k, now);
  }

  /** A finished job frees its deduplication id if it holds it, and no other. */
  lemma FinishedJobFreesItsId(q: Queue, id: JobId, token: Token, now: nat, result: Result, atm: nat, d: DedupId)
    requires Guard(q, id, token) == OK
    ensures var r := FinishJob(q, id, token, now, result, atm).q.side.dedup;
      && (d in r <==> d in q.side.dedup && !(q.jobs[id].deid == Some(d) && q.side.dedup[d] == id))
      && (d in r ==> r[d] == q.side.dedup[d])
  {
    hide Zadd, RemoveFirst;
    if result.Completed? { return; }
  }

  /** A retried job leaves active with its lock, is in line by the given priority, and keeps its hash
      but for the attempt count. */
  lemma RetriedJobIsFiled(q: Queue, id: JobId, token: Token, right: bool, atm: nat, priority: nat)
    requires Partition.Fits(q, id) && token != NO_LOCK && Guard(q, id, token) == OK
    ensures var r := RetryJob(q, id, token, right, atm, priority).q;
      && id !in r.at.active && id !in r.locks && id !in r.stalled
      && r.jobs == q.jobs[id := q.jobs[id].(atm := atm)]
      && InLine(r, id, priority) && r.marks.base == (q.marks.base || !q.isPaused)
  {
    hide Partition.Count, Partition.Fits, RemoveFirst, InLine, Prioritize;
    Partition.LeaveActiveClears(q, id, token, id);
    var l := LeaveForRetry(q, id, token, atm);
    var r := RetryJob(q, id, token, right, atm, priority).q;
    if priority == 0 && !right { PushedLeftInLine(l, id); SameLine(PushLeft(l, id), r, id, 0); return; }
    EnqueuedInLine(l, id, priority);
    Partition.EnqueueFrame(l, id, priority);
    SameLine(Enqueue(l, id, priority), r, id, priority);
  }

  lemma PushedLeftInLine(q: Queue, id: JobId)
    ensures InLine(PushLeft(q, id), id, 0)
  {
  }

  // ---------------------------------------------------------------- administration

  /** A job whose priority is changed stands in line by the new one, which its hash now says. */
  lemma ReprioritizedJobIsFiled(q: Queue, id: JobId, priority: nat)
    requires id in q.jobs
    ensures var o := ChangePriority(q, id, priority);
      && o.code == OK && o.q.jobs == q.jobs[id := q.jobs[id].(priority := priority)]
      && o.q.marks.base == (q.marks.base || !q.isPaused)
      && (if priority == 0 && q.jobs[id].priority == 0 then o.q.at == q.at
          else InLine(o.q, id, priority) && (q.jobs[id].priority > 0 && priority == 0 ==> !Has(o.q.at.prioritized, id)))
  {
    hide InLine, OutOfLine, Prioritize, Has;
    var was := q.jobs[id].priority;
    if priority == 0 && was == 0 { return; }
    var out := OutOfLine(q, id, was);
    Partition.OutOfLineFrame(q, id, was);
    EnqueuedInLine(out, id, priority);
    Partition.EnqueueFrame(out, id, priority);
    SameLine(Enqueue(out, id, priority), ChangePriority(q, id, priority).q, id, priority);
    if was > 0 && priority == 0 { OutOfSet(q, id, was); }
  }

  lemma OutOfSet(q: Queue, id: JobId, was: nat)
    requires was > 0
    ensures !Has(OutOfLine(q, id, was).at.prioritized, id)
  {
    hide Has, Zrem;
    ZremHas(q.at.prioritized, id, id);
  }

  /** A job promoted by hand has left the delayed set, has no delay any more, and stands in line. */
  lemma PromotedJobIsFiled(q: Queue, id: JobId)
    ensures var o := PromoteJob(q, id);
      if Has(q.at.delayed, id) then
        && o.code == OK && !Has(o.q.at.delayed, id) && HashOf(o.q, id) == HashOf(q, id).(delay := 0)
        && InLine(o.q, id, HashOf(q, id).priority)
        && (HashOf(q, id).priority == 0 ==> IsLast(if q.isPaused then o.q.at.paused else o.q.at.wait, id))
        && o.q.marks.base == (q.marks.base || !q.isPaused || HashOf(q, id).priority > 0)
      else o.code == MISSING_JOB && o.q == q
  {
    hide InLine, Has, Zrem, Prioritize;
    ZremHas(q.at.delayed, id, id);
    if !Has(q.at.delayed, id) { return; }
    var priority := HashOf(q, id).priority;
    var t := TakenFromDelayed(q, id);
    EnqueuedInLine(t, id, priority);
    Partition.EnqueueFrame(t, id, priority);
    SameLine(Enqueue(t, id, priority), PromoteJob(q, id).q, id, priority);
    if priority > 0 { PrioritizeKeepsDelayed(t, id, priority); return; }
  }

  lemma PrioritizeKeepsDelayed(q: Queue, id: JobId, priority: nat)
    ensures Prioritize(q, id, priority).at.delayed == q.at.delayed
  {
    hide Zadd;
  }
}

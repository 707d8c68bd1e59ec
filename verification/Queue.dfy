/** One queue's keys as a value, and every script as a function on it.

    Ids, tokens and payloads are opaque numbers. An id's number is its rank in Redis's byte
    order, so 0 stands for the empty string; token 0 stands for the token "0". */
module Queue {
  import opened Redis
  import opened Scores
  import opened Limiter
  import M = Metrics

  type JobId = nat
  type QueueId = nat
  type Token = nat
  type DedupId = nat
  type Payload = nat

  const NO_LOCK: Token := 0
  const PROMOTE_LIMIT: nat := 1000

  datatype JobKey = JobKey(queue: QueueId, id: JobId)

  datatype Reason = Thrown(text: Payload) | StalledTooOften

  /** The job options the scripts and the worker read; `attempts` is 1 when not given. */
  datatype Opts = Opts(delay: nat, priority: nat, attempts: nat, deid: Option<DedupId>)

  datatype Job = Job(
    timestamp: nat, delay: int, priority: nat, attempts: nat,
    atm: nat, ats: nat, stc: nat,
    parent: Option<JobKey>, deid: Option<DedupId>,
    finishedOn: Option<nat>, returned: Option<Payload>, failedReason: Option<Reason>)

  /** The lists and sorted sets a job can be in. */
  datatype Places = Places(
    wait: seq<JobId>, paused: seq<JobId>, active: seq<JobId>,
    prioritized: Zset, delayed: Zset, completed: Zset, failed: Zset, waitingChildren: Zset)

  /** The marker set: is "0" in it, and the score of "1" in 4096ths of a millisecond. */
  datatype Marks = Marks(base: bool, delay: Option<nat>)

  /** Deduplication keys, the parents' dependency keys, and the metrics keys. */
  datatype Side = Side(
    dedup: map<DedupId, JobId>,
    dependencies: map<JobId, set<JobKey>>, processed: map<JobId, map<JobKey, Payload>>,
    completedMetrics: M.Metrics, failedMetrics: M.Metrics)

  datatype Queue = Queue(
    at: Places, jobs: map<JobId, Job>, locks: map<JobId, Token>, stalled: set<JobId>,
    isPaused: bool, pc: nat, marks: Marks, limiter: Limiter.Key, side: Side)

  const EmptyQueue := Queue(Places([], [], [], [], [], [], [], []), map[], map[], {}, false, 0,
                            Marks(false, None), None, Side(map[], map[], map[], M.Empty, M.Empty))

  // ---------------------------------------------------------------- hashes, lists, markers

  /** A missing hash reads as one without fields, and writing a field creates it. */
  const Blank := Job(0, 0, 0, 1, 0, 0, 0, None, None, None, None, None)

  function HashOf(q: Queue, id: JobId): Job {
    if id in q.jobs then q.jobs[id] else Blank
  }

  function SetHash(q: Queue, id: JobId, job: Job): Queue {
    q.(jobs := q.jobs[id := job])
  }

  function NewJob(opts: Opts, timestamp: nat, parent: Option<JobKey>): Job {
    Job(timestamp, opts.delay, opts.priority, opts.attempts, 0, 0, 0, parent, opts.deid, None, None, None)
  }

  /** addBaseMarkerIfNeeded */
  function MarkBase(q: Queue, paused: bool): Queue {
    q.(marks := q.marks.(base := q.marks.base || !paused))
  }

  /** addDelayMarkerIfNeeded; the marker is kept in 4096ths of a millisecond. */
  function MarkDelay(q: Queue): Queue {
    q.(marks := q.marks.(delay := if q.at.delayed == [] then q.marks.delay else Some(q.at.delayed[0].score)))
  }

  /** LPUSH on the target list. */
  function PushLeft(q: Queue, id: JobId): Queue {
    q.(at := q.at.(wait := if q.isPaused then q.at.wait else [id] + q.at.wait,
                   paused := if q.isPaused then [id] + q.at.paused else q.at.paused))
  }

  /** RPUSH on the target list. */
  function PushRight(q: Queue, id: JobId): Queue {
    q.(at := q.at.(wait := if q.isPaused then q.at.wait else q.at.wait + [id],
                   paused := if q.isPaused then q.at.paused + [id] else q.at.paused))
  }

  /** getPriorityScore and ZADD. */
  function Prioritize(q: Queue, id: JobId, priority: nat): Queue {
    q.(pc := q.pc + 1, at := q.at.(prioritized := Zadd(q.at.prioritized, PriorityScore(priority, q.pc + 1), id)))
  }

  /** To the prioritized set, or to the right end of the target list. */
  function Enqueue(q: Queue, id: JobId, priority: nat): Queue {
    if priority > 0 then Prioritize(q, id, priority) else PushRight(q, id)
  }

  /** getDelayedScore and ZADD. */
  function DelayUntil(q: Queue, id: JobId, due: nat): Queue {
    q.(at := q.at.(delayed := Zadd(q.at.delayed, DelayedScore(q.at.delayed, due), id)))
  }

  // ---------------------------------------------------------------- adding

  /** deduplicateJob without a TTL: the current holder of the key, if there is one. */
  function Holder(q: Queue, deid: Option<DedupId>): Option<JobId> {
    if deid.Some? && deid.value in q.side.dedup then Some(q.side.dedup[deid.value]) else None
  }

  /** The job is neither stored nor deduplicated. */
  predicate IsNew(q: Queue, id: JobId, opts: Opts) {
    id !in q.jobs && Holder(q, opts.deid).None?
  }

  /** The state in which a job that is neither stored nor deduplicated gets enqueued. */
  function Stored(q: Queue, id: JobId, opts: Opts, timestamp: nat, parent: Option<JobKey>): Queue {
    q.(side := q.side.(dedup := if opts.deid.Some? then q.side.dedup[opts.deid.value := id] else q.side.dedup),
       jobs := q.jobs[id := NewJob(opts, timestamp, parent)])
  }

  datatype Added = Added(q: Queue, id: JobId)

  function AddStandardJob(q: Queue, id: JobId, opts: Opts, timestamp: nat, parent: Option<JobKey>): Added {
    if id in q.jobs then Added(q, id)
    else if Holder(q, opts.deid).Some? then Added(q, Holder(q, opts.deid).value)
    else Added(MarkBase(PushLeft(Stored(q, id, opts, timestamp, parent), id), q.isPaused), id)
  }

  function AddPrioritizedJob(q: Queue, id: JobId, opts: Opts, timestamp: nat, parent: Option<JobKey>): Added {
    if id in q.jobs then Added(q, id)
    else if Holder(q, opts.deid).Some? then Added(q, Holder(q, opts.deid).value)
    else Added(MarkBase(Prioritize(Stored(q, id, opts, timestamp, parent), id, opts.priority), q.isPaused), id)
  }

  function AddDelayedJob(q: Queue, id: JobId, opts: Opts, timestamp: nat, parent: Option<JobKey>): Added {
    if id in q.jobs then Added(q, id)
    else if Holder(q, opts.deid).Some? then Added(q, Holder(q, opts.deid).value)
    else Added(MarkDelay(DelayUntil(Stored(q, id, opts, timestamp, parent), id, DueTime(timestamp, opts.delay))), id)
  }

  /** addParentJob does not deduplicate. */
  function AddParentJob(q: Queue, id: JobId, opts: Opts, timestamp: nat, parent: Option<JobKey>): Queue {
    if id in q.jobs then q
    else q.(jobs := q.jobs[id := NewJob(opts, timestamp, parent)],
            at := q.at.(waitingChildren := Zadd(q.at.waitingChildren, timestamp, id)))
  }

  /** SADD on the dependencies of a parent. */
  function AddDependencies(q: Queue, parent: JobId, children: set<JobKey>): Queue {
    q.(side := q.side.(dependencies := q.side.dependencies[parent := PendingChildren(q, parent) + children]))
  }

  function PendingChildren(q: Queue, parent: JobId): set<JobKey> {
    if parent in q.side.dependencies then q.side.dependencies[parent] else {}
  }

  function ProcessedChildren(q: Queue, parent: JobId): map<JobKey, Payload> {
    if parent in q.side.processed then q.side.processed[parent] else map[]
  }

  // ---------------------------------------------------------------- claiming

  function PromoteOne(q: Queue, id: JobId): Queue {
    var job := HashOf(q, id);
    if job.priority == 0 then q.(at := q.at.(wait := [id] + q.at.wait), jobs := q.jobs[id := job.(delay := 0)])
    else Prioritize(q, id, job.priority).(jobs := q.jobs[id := job.(delay := 0)])
  }

  function PromoteEach(q: Queue, ids: seq<JobId>): Queue {
    if ids == [] then q else PromoteOne(PromoteEach(q, ids[..|ids| - 1]), ids[|ids| - 1])
  }

  function DueCount(q: Queue, now: nat): (n: nat)
    ensures n <= |q.at.delayed|
  {
    Min(CountUpTo(q.at.delayed, DueScore(now)), PROMOTE_LIMIT)
  }

  /** promoteDelayedJobs: pushes to `wait` whether or not the queue is paused. */
  function PromoteDelayed(q: Queue, now: nat): Queue {
    var n := DueCount(q, now);
    if n == 0 then q
    else MarkBase(PromoteEach(q.(at := q.at.(delayed := q.at.delayed[n..])), Members(q.at.delayed[..n])), q.isPaused)
  }

  datatype Fetch = Limited(ttl: nat) | Nothing | Claimed(id: JobId, job: Job)

  datatype Fetched = Fetched(q: Queue, result: Fetch)

  /** The job RPOPLPUSH or else ZPOPMIN would yield. */
  function NextJob(q: Queue): Option<JobId> {
    if q.at.wait != [] then Some(q.at.wait[|q.at.wait| - 1])
    else if q.at.prioritized != [] then Some(q.at.prioritized[0].member)
    else None
  }

  function PopNext(q: Queue): Queue
    requires NextJob(q).Some?
  {
    if q.at.wait != []
    then q.(at := q.at.(wait := q.at.wait[..|q.at.wait| - 1], active := [q.at.wait[|q.at.wait| - 1]] + q.at.active))
    else q.(at := q.at.(prioritized := q.at.prioritized[1..], active := [q.at.prioritized[0].member] + q.at.active))
  }

  /** Lock, stalled entry, attempt counter and marker upkeep for a job just popped. */
  function Claim(q: Queue, id: JobId, token: Token): Queue {
    q.(jobs := q.jobs[id := HashOf(q, id).(ats := HashOf(q, id).ats + 1)],
       locks := q.locks[id := token], stalled := q.stalled + {id},
       marks := q.marks.(base := q.at.wait != [] || q.at.prioritized != []))
  }

  /** moveToActive, and the fetch-next part of moveToFinished. */
  function FetchNext(q: Queue, token: Token, now: nat, clock: nat, limit: Option<Limit>): Fetched {
    var p := PromoteDelayed(q, now);
    var v := RateLimitTtl(limit, p.limiter, clock);
    var r := p.(limiter := v.key);
    if v.ttl > 0 then Fetched(r, Limited(v.ttl))
    else if r.isPaused then Fetched(r, Nothing)
    else match NextJob(r)
      case None => Fetched(MarkDelay(r), Nothing)
      case Some(id) =>
        var c := Claim(PopNext(r).(limiter := CountClaim(limit, r.limiter, clock)), id, token);
        Fetched(c, Claimed(id, HashOf(c, id)))
  }

  // ---------------------------------------------------------------- leaving active

  const OK: int := 0
  const MISSING_JOB: int := -1
  const MISSING_LOCK: int := -2
  const WRONG_TOKEN: int := -6

  datatype Outcome = Outcome(q: Queue, code: int)

  /** Existence check and removeLock: the code of the guard shared by finish, delay, retry and
      return. Token "0" passes without a lock. */
  function Guard(q: Queue, id: JobId, token: Token): int {
    if id !in q.jobs then MISSING_JOB
    else if token == NO_LOCK then OK
    else if id !in q.locks then MISSING_LOCK
    else if q.locks[id] == token then OK
    else WRONG_TOKEN
  }

  /** What passing the guard does: lock and stalled entry go (unless bypassed), then LREM from
      active. */
  function LeaveActive(q: Queue, id: JobId, token: Token): Queue {
    q.(locks := if token == NO_LOCK then q.locks else q.locks - {id},
       stalled := if token == NO_LOCK then q.stalled else q.stalled - {id},
       at := q.at.(active := RemoveFirst(q.at.active, id)))
  }

  datatype Result = Completed(value: Payload) | Failed(text: Payload)

  /** removeDeduplicationKeyIfNeededOnFinalization for a key without TTL. */
  function ReleaseDedup(q: Queue, id: JobId): Queue {
    var deid := HashOf(q, id).deid;
    q.(side := q.side.(dedup :=
      if deid.Some? && deid.value in q.side.dedup && q.side.dedup[deid.value] == id
      then q.side.dedup - {deid.value} else q.side.dedup))
  }

  function StoreResult(q: Queue, id: JobId, now: nat, result: Result, atm: nat): Queue {
    var job := HashOf(q, id);
    match result
    case Completed(value) =>
      q.(at := q.at.(completed := Zadd(q.at.completed, now, id)),
         jobs := q.jobs[id := job.(finishedOn := Some(now), atm := atm, returned := Some(value))])
    case Failed(text) =>
      q.(at := q.at.(failed := Zadd(q.at.failed, now, id)),
         jobs := q.jobs[id := job.(finishedOn := Some(now), atm := atm, failedReason := Some(Thrown(text)))])
  }

  /** moveToFinished up to the parent update. */
  function FinishJob(q: Queue, id: JobId, token: Token, now: nat, result: Result, atm: nat): Outcome {
    if Guard(q, id, token) != OK then Outcome(q, Guard(q, id, token))
    else Outcome(StoreResult(ReleaseDedup(LeaveActive(q, id, token), id), id, now, result, atm), OK)
  }

  function RecordMetrics(q: Queue, result: Result, maxPoints: Option<nat>, now: nat): Queue {
    if maxPoints.None? then q
    else if result.Completed? then
      q.(side := q.side.(completedMetrics := M.Collect(q.side.completedMetrics, maxPoints.value, now)))
    else q.(side := q.side.(failedMetrics := M.Collect(q.side.failedMetrics, maxPoints.value, now)))
  }

  /** moveParentToWait */
  function MoveParentToWait(q: Queue, id: JobId, now: nat): Queue {
    var job := HashOf(q, id);
    var r := q.(at := q.at.(waitingChildren := Zrem(q.at.waitingChildren, id)));
    if job.delay > 0 then MarkDelay(DelayUntil(r, id, DueTime(now, job.delay)))
    else MarkBase(Enqueue(r, id, job.priority), q.isPaused)
  }

  /** A completed child moves from the pending to the processed children of its parent. */
  function RecordChild(q: Queue, parent: JobId, child: JobKey, value: Payload): Queue {
    q.(side := q.side.(dependencies := q.side.dependencies[parent := PendingChildren(q, parent) - {child}],
                       processed := q.side.processed[parent := ProcessedChildren(q, parent)[child := value]]))
  }

  /** What a completed child does to its parent, in the parent's queue. */
  function ReleaseParent(q: Queue, parent: JobId, child: JobKey, value: Payload, now: nat): Queue {
    if child !in PendingChildren(q, parent) then q
    else if PendingChildren(q, parent) == {child} && parent in q.jobs && Has(q.at.waitingChildren, parent)
    then MoveParentToWait(RecordChild(q, parent, child, value), parent, now)
    else RecordChild(q, parent, child, value)
  }

  function MoveToDelayed(q: Queue, id: JobId, token: Token, now: nat, due: nat, atm: nat): Outcome {
    if Guard(q, id, token) != OK then Outcome(q, Guard(q, id, token))
    else
      var d := DelayUntil(LeaveActive(q, id, token), id, due);
      Outcome(MarkDelay(SetHash(d, id, HashOf(q, id).(delay := due - now, atm := atm))), OK)
  }

  /** A job leaving active with a new attempt count. */
  function LeaveForRetry(q: Queue, id: JobId, token: Token, atm: nat): Queue {
    SetHash(LeaveActive(q, id, token), id, HashOf(q, id).(atm := atm))
  }

  function RetryJob(q: Queue, id: JobId, token: Token, right: bool, atm: nat, priority: nat): Outcome {
    if Guard(q, id, token) != OK then Outcome(q, Guard(q, id, token))
    else if priority == 0 && !right then
      Outcome(MarkBase(PushLeft(LeaveForRetry(q, id, token, atm), id), q.isPaused), OK)
    else Outcome(MarkBase(Enqueue(LeaveForRetry(q, id, token, atm), id, priority), q.isPaused), OK)
  }

  /** moveJobFromActiveToWait; a prioritized job comes back without a marker. */
  function MoveActiveToWait(q: Queue, id: JobId, token: Token): Outcome {
    if Guard(q, id, token) != OK then Outcome(q, Guard(q, id, token))
    else if id !in q.at.active then Outcome(LeaveActive(q, id, token), OK)
    else if HashOf(q, id).priority > 0 then
      Outcome(LeaveActive(q, id, token)
              .(at := q.at.(active := RemoveFirst(q.at.active, id),
                            prioritized := Zadd(q.at.prioritized, PushBackScore(HashOf(q, id).priority), id))), OK)
    else Outcome(MarkBase(PushRight(LeaveActive(q, id, token), id), q.isPaused), OK)
  }

  function ExtendLock(q: Queue, id: JobId, token: Token): Outcome {
    if id in q.locks && q.locks[id] == token then Outcome(q.(stalled := q.stalled - {id}), OK)
    else Outcome(q, MISSING_LOCK)
  }

  // ---------------------------------------------------------------- stalled jobs

  /** Active jobs without a lock join the stalled set. */
  function Unlocked(q: Queue): set<JobId> {
    set id | id in q.at.active && id !in q.locks
  }

  /** Too many stalls: the job leaves active and goes nowhere. */
  function GiveUp(q: Queue, id: JobId, now: nat): Queue {
    var job := HashOf(q, id);
    q.(stalled := q.stalled - {id}, at := q.at.(active := RemoveFirst(q.at.active, id)),
       jobs := q.jobs[id := job.(failedReason := Some(StalledTooOften), finishedOn := Some(now), stc := job.stc + 1)])
  }

  /** One more stall: the job leaves active ... */
  function Stall(q: Queue, id: JobId): Queue {
    var job := HashOf(q, id);
    q.(stalled := q.stalled - {id}, at := q.at.(active := RemoveFirst(q.at.active, id)),
       jobs := q.jobs[id := job.(stc := job.stc + 1)])
  }

  /** ... and waits again. */
  function SweepOne(q: Queue, id: JobId, maxStalled: nat, now: nat): Queue {
    if id !in q.jobs then q.(stalled := q.stalled - {id})
    else if q.jobs[id].stc >= maxStalled then GiveUp(q, id, now)
    else Enqueue(Stall(q, id), id, q.jobs[id].priority)
  }

  function SweepEach(q: Queue, ids: seq<JobId>, maxStalled: nat, now: nat): Queue {
    if ids == [] then q else SweepOne(SweepEach(q, ids[..|ids| - 1], maxStalled, now), ids[|ids| - 1], maxStalled, now)
  }

  /** How many of `ids` the sweep puts back to wait. */
  function Requeued(q: Queue, ids: seq<JobId>, maxStalled: nat): nat {
    if ids == [] then 0
    else
      var id := ids[|ids| - 1];
      Requeued(q, ids[..|ids| - 1], maxStalled) + (if id in q.jobs && q.jobs[id].stc < maxStalled then 1 else 0)
  }

  function Scanned(q: Queue): Queue {
    q.(stalled := q.stalled + Unlocked(q))
  }

  /** moveStalledJobsToWait by the worker that got the check key; `order` is the order in which
      Redis lists the stalled set. */
  function SweepStalled(q: Queue, order: seq<JobId>, maxStalled: nat, now: nat): Queue {
    var s := Scanned(q);
    var r := SweepEach(s, order, maxStalled, now);
    MarkBase(r, q.isPaused || Requeued(s, order, maxStalled) == 0)
  }

  predicate ListsOnce(order: seq<JobId>, ids: set<JobId>) {
    (forall i, j :: 0 <= i < j < |order| ==> order[i] != order[j])
    && (set id | id in order) == ids
  }

  // ---------------------------------------------------------------- administration

  function PauseQueue(q: Queue): Queue {
    q.(isPaused := true, at := q.at.(paused := q.at.wait + q.at.paused, wait := []))
  }

  function ResumeQueue(q: Queue): Queue {
    MarkBase(q.(isPaused := false, at := q.at.(wait := q.at.paused + q.at.wait, paused := [])), false)
  }

  /** LREM from wait, else (when paused) from paused, or ZREM from prioritized, by the stored
      priority. */
  function OutOfLine(q: Queue, id: JobId, priority: nat): Queue {
    q.(at := q.at.(
      prioritized := if priority > 0 then Zrem(q.at.prioritized, id) else q.at.prioritized,
      wait := if priority == 0 then RemoveAll(q.at.wait, id) else q.at.wait,
      paused := if priority == 0 && id !in q.at.wait && q.isPaused then RemoveAll(q.at.paused, id) else q.at.paused))
  }

  function ChangePriority(q: Queue, id: JobId, priority: nat): Outcome {
    if id !in q.jobs then Outcome(q, MISSING_JOB)
    else
      var jobs := q.jobs[id := q.jobs[id].(priority := priority)];
      if priority == 0 && q.jobs[id].priority == 0 then Outcome(MarkBase(q.(jobs := jobs), q.isPaused), OK)
      else
        var out := OutOfLine(q, id, q.jobs[id].priority);
        Outcome(MarkBase(Enqueue(out, id, priority).(jobs := jobs), q.isPaused), OK)
  }

  /** The job taken from delayed, due now. */
  function TakenFromDelayed(q: Queue, id: JobId): Queue {
    q.(at := q.at.(delayed := Zrem(q.at.delayed, id)), jobs := q.jobs[id := HashOf(q, id).(delay := 0)])
  }

  function PromoteJob(q: Queue, id: JobId): Outcome {
    if !Has(q.at.delayed, id) then Outcome(q, MISSING_JOB)
    else
      var priority := HashOf(q, id).priority;
      Outcome(MarkBase(Enqueue(TakenFromDelayed(q, id), id, priority), q.isPaused && priority == 0), OK)
  }

  datatype Source = FromFailed | FromCompleted | FromDelayed

  function SourceSet(q: Queue, from: Source): Zset {
    match from case FromFailed => q.at.failed case FromCompleted => q.at.completed case FromDelayed => q.at.delayed
  }

  function WithSource(q: Queue, from: Source, z: Zset): Queue {
    match from
    case FromFailed => q.(at := q.at.(failed := z))
    case FromCompleted => q.(at := q.at.(completed := z))
    case FromDelayed => q.(at := q.at.(delayed := z))
  }

  /** HDEL of the fields a finished job got. */
  function ClearResult(q: Queue, from: Source, id: JobId): Queue {
    if id !in q.jobs then q
    else match from
      case FromFailed => SetHash(q, id, q.jobs[id].(finishedOn := None, failedReason := None))
      case FromCompleted => SetHash(q, id, q.jobs[id].(finishedOn := None, returned := None))
      case FromDelayed => q
  }

  function ClearEach(q: Queue, from: Source, ids: seq<JobId>): Queue {
    if ids == [] then q else ClearResult(ClearEach(q, from, ids[..|ids| - 1]), from, ids[|ids| - 1])
  }

  /** LPUSH of several ids: the first one given ends up last. */
  function PushAllLeft(q: Queue, ids: seq<JobId>): Queue {
    q.(at := q.at.(wait := if q.isPaused then q.at.wait else Reverse(ids) + q.at.wait,
                   paused := if q.isPaused then Reverse(ids) + q.at.paused else q.at.paused))
  }

  /** Members with a score of at most `upTo`; None is a bound above every score. */
  function Matching(z: Zset, upTo: Option<nat>): (n: nat)
    ensures n <= |z|
  {
    if upTo.None? then |z| else CountUpTo(z, upTo.value)
  }

  datatype Moved = Moved(q: Queue, cursor: nat)

  /** moveJobsToWait: one chunk of at most `count` jobs. Priorities are ignored. */
  function MoveJobsToWait(q: Queue, from: Source, count: nat, upTo: Option<nat>): Moved {
    var z := SourceSet(q, from);
    var n := Min(Matching(z, upTo), count);
    var cursor := if count <= n then 1 else 0;
    if n == 0 then Moved(q, cursor)
    else
      var ids := Members(z[..n]);
      Moved(MarkBase(PushAllLeft(WithSource(ClearEach(q, from, ids), from, z[n..]), ids), q.isPaused), cursor)
  }
}

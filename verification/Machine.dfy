/** The queue as a transition system: every atomic step that clients and workers can take on
    one queue, in any interleaving. moveToFinished is Finish, then Release in the parent's
    queue, then Record and Fetch; running them as separate steps allows more runs than the
    atomic script does. */
module Machine {
  import opened Redis
  import opened Limiter
  import opened Queue

  datatype Step =
    | AddStandard(id: JobId, opts: Opts, timestamp: nat, parent: Option<JobKey>)
    | AddPrioritized(id: JobId, opts: Opts, timestamp: nat, parent: Option<JobKey>)
    | AddDelayed(id: JobId, opts: Opts, timestamp: nat, parent: Option<JobKey>)
    | AddParent(id: JobId, opts: Opts, timestamp: nat, parent: Option<JobKey>)
    | AddChildren(parentId: JobId, children: set<JobKey>)
    | Fetch(token: Token, now: nat, clock: nat, limit: Option<Limit>)
    | Finish(id: JobId, token: Token, now: nat, result: Result, atm: nat)
    | Release(parentId: JobId, child: JobKey, value: Payload, now: nat)
    | Record(result: Result, maxPoints: Option<nat>, now: nat)
    | Delay(id: JobId, token: Token, now: nat, due: nat, atm: nat)
    | Retry(id: JobId, token: Token, right: bool, atm: nat, priority: nat)
    | Return(id: JobId, token: Token)
    | Extend(id: JobId, token: Token)
    | ExpireLock(id: JobId)
    | Sweep(order: seq<JobId>, maxStalled: nat, now: nat)
    | Pause
    | Resume
    | Reprioritize(id: JobId, priority: nat)
    | PromoteNow(id: JobId)
    | MoveJobs(from: Source, count: nat, upTo: Option<nat>)
    | PopBaseMarker
    | PopDelayMarker
    | PutBaseMarker

  function Apply(q: Queue, s: Step): Queue {
    match s
    case AddStandard(id, opts, ts, parent) => AddStandardJob(q, id, opts, ts, parent).q
    case AddPrioritized(id, opts, ts, parent) => AddPrioritizedJob(q, id, opts, ts, parent).q
    case AddDelayed(id, opts, ts, parent) => AddDelayedJob(q, id, opts, ts, parent).q
    case AddParent(id, opts, ts, parent) => AddParentJob(q, id, opts, ts, parent)
    case AddChildren(parent, children) => AddDependencies(q, parent, children)
    case Fetch(token, now, clock, limit) => FetchNext(q, token, now, clock, limit).q
    case Finish(id, token, now, result, atm) => FinishJob(q, id, token, now, result, atm).q
    case Release(parent, child, value, now) => ReleaseParent(q, parent, child, value, now)
    case Record(result, maxPoints, now) => RecordMetrics(q, result, maxPoints, now)
    case Delay(id, token, now, due, atm) => MoveToDelayed(q, id, token, now, due, atm).q
    case Retry(id, token, right, atm, priority) => RetryJob(q, id, token, right, atm, priority).q
    case Return(id, token) => MoveActiveToWait(q, id, token).q
    case Extend(id, token) => ExtendLock(q, id, token).q
    case ExpireLock(id) => q.(locks := q.locks - {id})
    case Sweep(order, maxStalled, now) => SweepStalled(q, order, maxStalled, now)
    case Pause => PauseQueue(q)
    case Resume => ResumeQueue(q)
    case Reprioritize(id, priority) => ChangePriority(q, id, priority).q
    case PromoteNow(id) => PromoteJob(q, id).q
    case MoveJobs(from, count, upTo) => MoveJobsToWait(q, from, count, upTo).q
    case PopBaseMarker => q.(marks := q.marks.(base := false))
    case PopDelayMarker => q.(marks := q.marks.(delay := None))
    case PutBaseMarker => q.(marks := q.marks.(base := true))
  }

  function Run(q: Queue, steps: seq<Step>): Queue {
    if steps == [] then q else Apply(Run(q, steps[..|steps| - 1]), steps[|steps| - 1])
  }

  lemma {:induction false} RunConcat(q: Queue, a: seq<Step>, b: seq<Step>)
    ensures Run(q, a + b) == Run(Run(q, a), b)
  {
    hide Apply;
    if b == [] {
      assert a + b == a;
    } else {
      assert (a + b)[..|a + b| - 1] == a + b[..|b| - 1];
      RunConcat(q, a, b[..|b| - 1]);
    }
  }

  /** A sweep handles exactly the members of the stalled set, in some order. */
  predicate Possible(q: Queue, s: Step) {
    s.Sweep? ==> ListsOnce(s.order, q.stalled + Unlocked(q))
  }

  /** The exits from active that are gated by the lock. */
  predicate IsExit(s: Step) {
    s.Finish? || s.Delay? || s.Retry? || s.Return?
  }

  /** The step takes the job out of active on behalf of the holder of its lock. */
  predicate Succeeds(q: Queue, s: Step)
    requires IsExit(s)
  {
    Guard(q, s.id, s.token) == OK
  }
}

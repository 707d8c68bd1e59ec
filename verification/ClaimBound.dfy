/** How often a job can be claimed: at most max(1, attempts) + maxStalled times, over every run,
    even when locks expire, sweeps requeue jobs that are still being worked on, and every worker
    uses one token for all its claims, as long as no worker claims a job again while its own
    earlier claim of it is still being worked on. */
module ClaimBound {
  import opened Redis
  import opened Scores
  import opened Limiter
  import opened Queue
  import opened Machine
  import opened Fencing
  import opened Partition

  // ---------------------------------------------------------------- entries that wait for a claim

  /** Entries of `x` from which a claim may still come. */
  function Pending(p: Places, x: JobId): nat {
    InList(p.wait, x) + InList(p.paused, x) + InSet(p.prioritized, x) + InSet(p.delayed, x)
      + InSet(p.waitingChildren, x)
  }

  lemma PendingUpdate(p: Places, list: seq<JobId>, z: Zset, x: JobId)
    ensures Pending(p.(wait := list), x) == Pending(p, x) - InList(p.wait, x) + InList(list, x)
    ensures Pending(p.(paused := list), x) == Pending(p, x) - InList(p.paused, x) + InList(list, x)
    ensures Pending(p.(prioritized := z), x) == Pending(p, x) - InSet(p.prioritized, x) + InSet(z, x)
    ensures Pending(p.(delayed := z), x) == Pending(p, x) - InSet(p.delayed, x) + InSet(z, x)
    ensures Pending(p.(waitingChildren := z), x) == Pending(p, x) - InSet(p.waitingChildren, x) + InSet(z, x)
    ensures Pending(p, x) == 0 ==> InSet(p.prioritized, x) == InSet(p.delayed, x) == InSet(p.waitingChildren, x) == 0
  {
  }

  lemma Counts(s: seq<JobId>, id: JobId, x: JobId)
    ensures InList([id] + s, x) == InList(s, x) + One(x == id)
    ensures InList(s + [id], x) == InList(s, x) + One(x == id)
  {
  }

  lemma ZaddCount(z: Zset, score: nat, m: nat, x: nat)
    ensures InSet(Zadd(z, score, m), x) <= InSet(z, x) + One(x == m)
    ensures Has(z, m) ==> InSet(Zadd(z, score, m), x) <= InSet(z, x)
  {
    ZaddMembers(z, score, m);
    assert Has(z, m) ==> InSet(z, m) > 0;
  }

  lemma ZremCount(z: Zset, m: nat, x: nat)
    ensures InSet(Zrem(z, m), x) == if x == m then 0 else InSet(z, x)
    ensures Has(z, m) <==> InSet(z, m) > 0
  {
    ZremMembers(z, m);
  }

  lemma EnqueuePending(q: Queue, id: JobId, priority: nat, x: JobId)
    ensures Pending(Enqueue(q, id, priority).at, x) <= Pending(q.at, x) + One(x == id)
    ensures var r := Enqueue(q, id, priority); r == q.(pc := r.pc, at := r.at)
  {
    hide Pending, InList, InSet;
    if priority > 0 {
      var score := PriorityScore(priority, q.pc + 1);
      ZaddCount(q.at.prioritized, score, id, x);
      PendingUpdate(q.at, [], Zadd(q.at.prioritized, score, id), x);
      return;
    }
    Counts(q.at.wait, id, x);
    Counts(q.at.paused, id, x);
    PendingUpdate(q.at, q.at.wait + [id], [], x);
    PendingUpdate(q.at, q.at.paused + [id], [], x);
    if q.isPaused {
      assert PushRight(q, id).at == q.at.(paused := q.at.paused + [id]);
      return;
    }
    assert PushRight(q, id).at == q.at.(wait := q.at.wait + [id]);
  }

  lemma PushLeftPending(q: Queue, id: JobId, x: JobId)
    ensures Pending(PushLeft(q, id).at, x) == Pending(q.at, x) + One(x == id)
    ensures PushLeft(q, id) == q.(at := PushLeft(q, id).at)
  {
    hide Pending, InList, InSet;
    Counts(q.at.wait, id, x);
    Counts(q.at.paused, id, x);
    PendingUpdate(q.at, [id] + q.at.wait, [], x);
    PendingUpdate(q.at, [id] + q.at.paused, [], x);
    if q.isPaused {
      assert PushLeft(q, id).at == q.at.(paused := [id] + q.at.paused);
      return;
    }
    assert PushLeft(q, id).at == q.at.(wait := [id] + q.at.wait);
  }

  lemma DelayPending(q: Queue, id: JobId, due: nat, x: JobId)
    ensures Pending(DelayUntil(q, id, due).at, x) <= Pending(q.at, x) + One(x == id)
  {
    hide Pending, InSet;
    ZaddCount(q.at.delayed, DelayedScore(q.at.delayed, due), id, x);
    PendingUpdate(q.at, [], Zadd(q.at.delayed, DelayedScore(q.at.delayed, due), id), x);
  }

  // ---------------------------------------------------------------- the ledger

  /** What a worker read from the job hash when it claimed it. */
  datatype Ticket = Ticket(atm: nat, attempts: nat)

  /** A queue with its claims so far, and the tickets of the claims still being worked on. A
      worker may use one token for many jobs. */
  datatype Ledger = Ledger(q: Queue, claims: multiset<JobId>, tickets: map<Held, Ticket>)

  /** A claim gives out a ticket; a delay or finish uses it up, whatever its code. */
  function Enter(l: Ledger, s: Step): Ledger {
    var q := Apply(l.q, s);
    if s.Fetch? && Fetching(l.q, s).Claimed? then
      var c := Fetching(l.q, s);
      Ledger(q, l.claims + multiset{c.id}, l.tickets[Held(c.id, s.token) := Ticket(c.job.atm, c.job.attempts)])
    else if s.Delay? || s.Finish? then l.(q := q, tickets := l.tickets - {Held(s.id, s.token)})
    else l.(q := q)
  }

  /** A step on the queue, or the end of a worker's work on a claim without an exit, as when it is
      cancelled or its connection fails. */
  datatype Event = Do(step: Step) | Abandon(claim: Held)

  function Follow(l: Ledger, e: Event): Ledger {
    match e
    case Do(s) => Enter(l, s)
    case Abandon(h) => l.(tickets := l.tickets - {h})
  }

  function FollowAll(l: Ledger, events: seq<Event>): Ledger {
    if events == [] then l else Follow(FollowAll(l, events[..|events| - 1]), events[|events| - 1])
  }

  /** The claim a fetch would make is not one this token is still working on. */
  predicate ClaimsAfresh(l: Ledger, s: Step)
    requires s.Fetch?
  {
    Fetching(l.q, s).Claimed? ==> Held(Fetching(l.q, s).id, s.token) !in l.tickets
  }

  /** The steps of a queue whose workers act as worker.rs does: a failed attempt is delayed while
      attempts remain and finished otherwise, with one more attempt than read at the claim, and
      once per claim; no worker claims a job it is still working on; nobody retries, returns or
      bulk-retries jobs, and priorities are changed only while the job stands in line. */
  predicate Disciplined(l: Ledger, maxStalled: nat, s: Step) {
    match s
    case Fetch(token, _, _, _) => token != NO_LOCK && ClaimsAfresh(l, s)
    case Delay(id, token, _, _, atm) =>
      && Held(id, token) in l.tickets
      && atm == l.tickets[Held(id, token)].atm + 1 && atm < l.tickets[Held(id, token)].attempts
    case Finish(id, token, _, _, atm) =>
      Held(id, token) in l.tickets && atm == l.tickets[Held(id, token)].atm + 1
    case Retry(_, _, _, _, _) => false
    case Return(_, _) => false
    case MoveJobs(from, _, _) => from == FromDelayed
    case Sweep(_, m, _) => m == maxStalled
    case Reprioritize(id, priority) => id in l.q.jobs ==> StandsInLine(l.q, id)
    case _ => true
  }

  predicate Allowed(l: Ledger, maxStalled: nat, e: Event) {
    e.Do? ==> Disciplined(l, maxStalled, e.step)
  }

  predicate StandsInLine(q: Queue, id: JobId)
    requires id in q.jobs
  {
    if q.jobs[id].priority > 0 then Has(q.at.prioritized, id) else id in q.at.wait || (id in q.at.paused && q.isPaused)
  }

  function Allowance(job: Job, maxStalled: nat): nat {
    1 + Min(job.stc, maxStalled) + Min(job.atm, Max(1, job.attempts) - 1)
  }

  /** Claims made and claims still possible stay within what the job's counters allow. */
  predicate Bounded(l: Ledger, maxStalled: nat, x: JobId) {
    l.claims[x] + Pending(l.q.at, x) <= if x in l.q.jobs then Allowance(l.q.jobs[x], maxStalled) else 0
  }

  /** The lock holder's ticket, if it still works on the job, is up to date. */
  predicate TicketValid(l: Ledger, x: JobId) {
    x in l.q.locks && Held(x, l.q.locks[x]) in l.tickets ==>
      x in l.q.jobs && l.tickets[Held(x, l.q.locks[x])] == Ticket(l.q.jobs[x].atm, l.q.jobs[x].attempts)
  }

  ghost predicate InBounds(l: Ledger, maxStalled: nat) {
    && (forall x :: Bounded(l, maxStalled, x)) && (forall x :: TicketValid(l, x))
    && (forall h :: h in l.tickets ==> h.token != NO_LOCK)
  }

  // ---------------------------------------------------------------- steps that leave counters alone

  /** `r` differs from `q` in no counter of `x`, and holds no new entry of it. */
  predicate Quiet(q: Queue, r: Queue, x: JobId) {
    && Pending(r.at, x) <= Pending(q.at, x)
    && (x in q.jobs ==> x in r.jobs && SameCounters(q.jobs[x], r.jobs[x]))
  }

  predicate SameCounters(a: Job, b: Job) {
    a.atm == b.atm && a.stc == b.stc && a.attempts == b.attempts
  }

  lemma PromoteOneQuiet(q: Queue, id: JobId, x: JobId)
    ensures var r := PromoteOne(q, id);
      && Pending(r.at, x) <= Pending(q.at, x) + One(x == id)
      && (x in q.jobs ==> x in r.jobs && SameCounters(q.jobs[x], r.jobs[x]))
  {
    hide Pending, InList, InSet, Zadd;
    if HashOf(q, id).priority == 0 {
      Counts(q.at.wait, id, x);
      PendingUpdate(q.at, [id] + q.at.wait, [], x);
      return;
    }
    var score := PriorityScore(HashOf(q, id).priority, q.pc + 1);
    ZaddCount(q.at.prioritized, score, id, x);
    PendingUpdate(q.at, [], Zadd(q.at.prioritized, score, id), x);
  }

  lemma {:induction false} PromoteEachQuiet(q: Queue, ids: seq<JobId>, x: JobId)
    ensures var r := PromoteEach(q, ids);
      && Pending(r.at, x) <= Pending(q.at, x) + InList(ids, x)
      && (x in q.jobs ==> x in r.jobs && SameCounters(q.jobs[x], r.jobs[x]))
  {
    hide Pending, PromoteOne;
    if ids != [] {
      var init, last := ids[..|ids| - 1], ids[|ids| - 1];
      assert ids == init + [last];
      Counts(init, last, x);
      PromoteEachQuiet(q, init, x);
      PromoteOneQuiet(PromoteEach(q, init), last, x);
    }
  }

  lemma PromoteQuiet(q: Queue, now: nat, x: JobId)
    ensures Quiet(q, PromoteDelayed(q, now), x)
  {
    hide Pending, InList, PromoteEach;
    var n := DueCount(q, now);
    if n == 0 { return; }
    MembersSplit(q.at.delayed, n);
    TakePending(q.at, n, x);
    PromoteEachQuiet(q.(at := q.at.(delayed := q.at.delayed[n..])), Members(q.at.delayed[..n]), x);
  }

  lemma TakePending(p: Places, n: nat, x: JobId)
    requires n <= |p.delayed|
    ensures Pending(p.(delayed := p.delayed[n..]), x) + InList(Members(p.delayed[..n]), x) == Pending(p, x)
  {
    MembersSplit(p.delayed, n);
  }

  lemma PopPending(q: Queue, x: JobId)
    requires NextJob(q).Some?
    ensures Pending(PopNext(q).at, x) + One(x == NextJob(q).value) == Pending(q.at, x)
  {
    hide Pending, InList, InSet;
    var id := NextJob(q).value;
    if q.at.wait != [] {
      var w := q.at.wait[..|q.at.wait| - 1];
      assert q.at.wait == w + [id];
      Counts(w, id, x);
      PendingUpdate(q.at, w, [], x);
      PendingUpdateActive(q.at.(wait := w), [id] + q.at.active, x);
      return;
    }
    HeadCount(q.at.prioritized, x);
    PendingUpdate(q.at, [], q.at.prioritized[1..], x);
    PendingUpdateActive(q.at.(prioritized := q.at.prioritized[1..]), [id] + q.at.active, x);
  }

  lemma PendingUpdateActive(p: Places, list: seq<JobId>, x: JobId)
    ensures Pending(p.(active := list), x) == Pending(p, x)
  {
  }

  lemma HeadCount(z: Zset, x: JobId)
    requires z != []
    ensures InSet(z, x) == InSet(z[1..], x) + One(x == z[0].member)
  {
    assert Members(z) == [z[0].member] + Members(z[1..]);
  }

  // ---------------------------------------------------------------- each step

  lemma FetchCounts(q: Queue, s: Step, x: JobId)
    requires s.Fetch?
    ensures var f := FetchNext(q, s.token, s.now, s.clock, s.limit);
      && (x in q.jobs ==> x in f.q.jobs && SameCounters(q.jobs[x], f.q.jobs[x]))
      && (f.result.Claimed? ==> f.result.id in f.q.jobs && f.result.job == f.q.jobs[f.result.id])
      && Pending(f.q.at, x) + One(f.result.Claimed? && x == f.result.id) <= Pending(q.at, x)
  {
    hide Pending, PromoteDelayed;
    var p := PromoteDelayed(q, s.now);
    PromoteQuiet(q, s.now, x);
    var v := RateLimitTtl(s.limit, p.limiter, s.clock);
    if v.ttl > 0 { return; }
    if p.isPaused { return; }
    var r := p.(limiter := v.key);
    if NextJob(r).None? { return; }
    PopPending(r, x);
    if r.at.wait != [] { return; }
  }

  lemma FetchKeepsBounds(l: Ledger, maxStalled: nat, s: Step)
    requires InBounds(l, maxStalled) && s.Fetch? && Disciplined(l, maxStalled, s)
    ensures InBounds(Enter(l, s), maxStalled)
  {
    hide Apply, FetchNext, Pending, Allowance;
    FetchApplies(l.q, s);
    FetchLocks(l.q, s.token, s.now, s.clock, s.limit);
    var e := Enter(l, s);
    var f := FetchNext(l.q, s.token, s.now, s.clock, s.limit);
    forall x ensures Bounded(e, maxStalled, x) && TicketValid(e, x) {
      assert Bounded(l, maxStalled, x) && TicketValid(l, x);
      FetchCounts(l.q, s, x);
      assert SameAllowance(l, e, maxStalled, x) by {
        if x in l.q.jobs { AllowanceByCounters(l.q.jobs[x], e.q.jobs[x], maxStalled); }
      }
    }
  }

  predicate SameAllowance(l: Ledger, e: Ledger, maxStalled: nat, x: JobId) {
    x in l.q.jobs ==> x in e.q.jobs && Allowance(e.q.jobs[x], maxStalled) == Allowance(l.q.jobs[x], maxStalled)
  }

  lemma AllowanceByCounters(a: Job, b: Job, maxStalled: nat)
    requires SameCounters(a, b)
    ensures Allowance(a, maxStalled) == Allowance(b, maxStalled)
  {
  }

  /** A step that is quiet for every id and only loses locks keeps the bounds. */
  lemma QuietKeepsBounds(l: Ledger, maxStalled: nat, r: Queue)
    requires InBounds(l, maxStalled)
    requires forall x :: Quiet(l.q, r, x)
    requires forall x :: x in r.locks ==> x in l.q.locks && r.locks[x] == l.q.locks[x]
    ensures InBounds(l.(q := r), maxStalled)
  {
    hide Pending, Allowance;
    forall x ensures Bounded(l.(q := r), maxStalled, x) && TicketValid(l.(q := r), x) {
      assert Bounded(l, maxStalled, x) && TicketValid(l, x) && Quiet(l.q, r, x);
      if x in l.q.jobs { AllowanceByCounters(l.q.jobs[x], r.jobs[x], maxStalled); }
    }
  }

  /** A new job brings one entry and an allowance of one claim. */
  lemma NewJobKeepsBounds(l: Ledger, maxStalled: nat, r: Queue, id: JobId)
    requires InBounds(l, maxStalled) && id !in l.q.jobs
    requires id in r.jobs && r.jobs[id].atm == r.jobs[id].stc == 0
    requires forall x :: Pending(r.at, x) <= Pending(l.q.at, x) + One(x == id)
    requires forall x :: x in l.q.jobs ==> x in r.jobs && r.jobs[x] == l.q.jobs[x]
    requires r.locks == l.q.locks
    ensures InBounds(l.(q := r), maxStalled)
  {
    hide Pending;
    forall x ensures Bounded(l.(q := r), maxStalled, x) && TicketValid(l.(q := r), x) {
      assert Bounded(l, maxStalled, x) && TicketValid(l, x);
    }
  }

  lemma AddPending(q: Queue, id: JobId, opts: Opts, ts: nat, parent: Option<JobKey>, x: JobId)
    requires id !in q.jobs && Holder(q, opts.deid).None?
    ensures Pending(AddStandardJob(q, id, opts, ts, parent).q.at, x) <= Pending(q.at, x) + One(x == id)
    ensures Pending(AddPrioritizedJob(q, id, opts, ts, parent).q.at, x) <= Pending(q.at, x) + One(x == id)
    ensures Pending(AddDelayedJob(q, id, opts, ts, parent).q.at, x) <= Pending(q.at, x) + One(x == id)
  {
    hide Pending, InSet, PushLeft, Zadd, DelayedScore;
    var s := Stored(q, id, opts, ts, parent);
    PushLeftPending(s, id, x);
    var score := PriorityScore(opts.priority, s.pc + 1);
    ZaddCount(s.at.prioritized, score, id, x);
    PendingUpdate(s.at, [], Zadd(s.at.prioritized, score, id), x);
    DelayPending(s, id, DueTime(ts, opts.delay), x);
  }

  lemma AddParentPending(q: Queue, id: JobId, opts: Opts, ts: nat, parent: Option<JobKey>, x: JobId)
    requires id !in q.jobs
    ensures Pending(AddParentJob(q, id, opts, ts, parent).at, x) <= Pending(q.at, x) + One(x == id)
  {
    hide Pending, InSet, Zadd;
    ZaddCount(q.at.waitingChildren, ts, id, x);
    PendingUpdate(q.at, [], Zadd(q.at.waitingChildren, ts, id), x);
  }

  lemma AddKeepsBounds(l: Ledger, maxStalled: nat, s: Step)
    requires InBounds(l, maxStalled) && (s.AddStandard? || s.AddPrioritized? || s.AddDelayed? || s.AddParent?)
    ensures InBounds(Enter(l, s), maxStalled)
  {
    hide Pending, Zadd, DelayedScore, Bounded, TicketValid;
    var id := s.id;
    if id in l.q.jobs {
      assert Apply(l.q, s) == l.q by {
        match s {
          case AddStandard(_, _, _, _) =>
          case AddPrioritized(_, _, _, _) =>
          case AddDelayed(_, _, _, _) =>
          case AddParent(_, _, _, _) =>
        }
      }
      return;
    }
    if !s.AddParent? && Holder(l.q, s.opts.deid).Some? {
      assert Apply(l.q, s) == l.q by {
        match s {
          case AddStandard(_, _, _, _) =>
          case AddPrioritized(_, _, _, _) =>
          case AddDelayed(_, _, _, _) =>
        }
      }
      return;
    }
    var r := Apply(l.q, s);
    AddedJob(l.q, s);
    forall x ensures Pending(r.at, x) <= Pending(l.q.at, x) + One(x == id) {
      if s.AddParent? { AddParentPending(l.q, id, s.opts, s.timestamp, s.parent, x); }
      else { AddPending(l.q, id, s.opts, s.timestamp, s.parent, x); AddedWhere(l.q, s); }
    }
    NewJobKeepsBounds(l, maxStalled, r, id);
  }

  lemma AddedWhere(q: Queue, s: Step)
    requires s.AddStandard? || s.AddPrioritized? || s.AddDelayed?
    ensures Apply(q, s) == (if s.AddStandard? then AddStandardJob(q, s.id, s.opts, s.timestamp, s.parent).q
                            else if s.AddPrioritized? then AddPrioritizedJob(q, s.id, s.opts, s.timestamp, s.parent).q
                            else AddDelayedJob(q, s.id, s.opts, s.timestamp, s.parent).q)
  {
    hide AddStandardJob, AddPrioritizedJob, AddDelayedJob;
  }

  lemma AddedJob(q: Queue, s: Step)
    requires s.AddStandard? || s.AddPrioritized? || s.AddDelayed? || s.AddParent?
    requires s.id !in q.jobs && (!s.AddParent? ==> Holder(q, s.opts.deid).None?)
    ensures var r := Apply(q, s);
      r.jobs == q.jobs[s.id := NewJob(s.opts, s.timestamp, s.parent)] && r.locks == q.locks
  {
    hide Zadd, DelayedScore;
    match s {
      case AddStandard(_, _, _, _) => return;
      case AddPrioritized(_, _, _, _) => return;
      case AddDelayed(_, _, _, _) => return;
      case AddParent(_, _, _, _) => return;
    }
  }

  lemma AbandonKeepsBounds(l: Ledger, maxStalled: nat, h: Held)
    requires InBounds(l, maxStalled)
    ensures InBounds(l.(tickets := l.tickets - {h}), maxStalled)
  {
    hide Pending, Allowance;
    var e := l.(tickets := l.tickets - {h});
    forall x ensures Bounded(e, maxStalled, x) && TicketValid(e, x) {
      assert Bounded(l, maxStalled, x) && TicketValid(l, x);
    }
  }

  /** A delay or finish that does not pass the guard only uses up its ticket. */
  lemma FailedExitKeepsBounds(l: Ledger, maxStalled: nat, s: Step)
    requires InBounds(l, maxStalled) && (s.Delay? || s.Finish?) && Guard(l.q, s.id, s.token) != OK
    ensures InBounds(Enter(l, s), maxStalled)
  {
    hide Guard, InBounds;
    AbandonKeepsBounds(l, maxStalled, Held(s.id, s.token));
    match s {
      case Delay(_, _, _, _, _) => return;
      case Finish(_, _, _, _, _) => return;
    }
  }

  lemma DelayKeepsBounds(l: Ledger, maxStalled: nat, s: Step)
    requires InBounds(l, maxStalled) && s.Delay? && Disciplined(l, maxStalled, s)
    ensures InBounds(Enter(l, s), maxStalled)
  {
    hide Pending, Zadd, DelayedScore, RemoveFirst;
    var q := l.q;
    if Guard(q, s.id, s.token) != OK { FailedExitKeepsBounds(l, maxStalled, s); return; }
    var r := MoveToDelayed(q, s.id, s.token, s.now, s.due, s.atm).q;
    var e := Ledger(r, l.claims, l.tickets - {Held(s.id, s.token)});
    assert Enter(l, s) == e;
    assert TicketValid(l, s.id);
    forall x ensures Bounded(e, maxStalled, x) && TicketValid(e, x) {
      assert Bounded(l, maxStalled, x) && TicketValid(l, x);
      var a := LeaveActive(q, s.id, s.token);
      DelayPending(a, s.id, s.due, x);
      PendingUpdateActive(q.at, RemoveFirst(q.at.active, s.id), x);
      if x != s.id && x in q.locks { assert x in r.locks ==> r.locks[x] == q.locks[x]; }
    }
  }

  lemma FinishKeepsBounds(l: Ledger, maxStalled: nat, s: Step)
    requires InBounds(l, maxStalled) && s.Finish? && Disciplined(l, maxStalled, s)
    ensures InBounds(Enter(l, s), maxStalled)
  {
    hide Pending, Zadd, RemoveFirst;
    var q := l.q;
    if Guard(q, s.id, s.token) != OK { FailedExitKeepsBounds(l, maxStalled, s); return; }
    var r := FinishJob(q, s.id, s.token, s.now, s.result, s.atm).q;
    var e := Ledger(r, l.claims, l.tickets - {Held(s.id, s.token)});
    assert Enter(l, s) == e;
    assert TicketValid(l, s.id);
    FinishCounters(q, s.id, s.token, s.now, s.result, s.atm);
    forall x ensures Bounded(e, maxStalled, x) && TicketValid(e, x) {
      assert Bounded(l, maxStalled, x) && TicketValid(l, x);
      FinishPending(q, s.id, s.token, s.now, s.result, s.atm, x);
    }
  }

  lemma FinishCounters(q: Queue, id: JobId, token: Token, now: nat, result: Result, atm: nat)
    requires Guard(q, id, token) == OK && token != NO_LOCK
    ensures var r := FinishJob(q, id, token, now, result, atm).q;
      && r.jobs.Keys == q.jobs.Keys && (forall x :: x in q.jobs && x != id ==> r.jobs[x] == q.jobs[x])
      && r.jobs[id].atm == atm && r.jobs[id].stc == q.jobs[id].stc && r.jobs[id].attempts == q.jobs[id].attempts
      && r.locks == q.locks - {id}
  {
    hide Zadd, RemoveFirst;
    if result.Completed? { return; }
  }

  lemma FinishPending(q: Queue, id: JobId, token: Token, now: nat, result: Result, atm: nat, x: JobId)
    requires Guard(q, id, token) == OK
    ensures Pending(FinishJob(q, id, token, now, result, atm).q.at, x) == Pending(q.at, x)
  {
    hide Zadd, RemoveFirst;
    if result.Completed? { return; }
  }

  // ---------------------------------------------------------------- the sweep

  lemma SweepOneKeepsBounds(l: Ledger, maxStalled: nat, id: JobId, now: nat)
    requires InBounds(l, maxStalled)
    ensures InBounds(l.(q := SweepOne(l.q, id, maxStalled, now)), maxStalled)
  {
    hide Pending, RemoveFirst, Enqueue;
    var q := l.q;
    var r := SweepOne(q, id, maxStalled, now);
    SweepOneKeepsLocks(q, id, maxStalled, now);
    forall x ensures Bounded(l.(q := r), maxStalled, x) && TicketValid(l.(q := r), x) {
      assert Bounded(l, maxStalled, x) && TicketValid(l, x);
      SweepOneCounts(q, id, maxStalled, now, x);
    }
  }

  lemma SweepOneCounts(q: Queue, id: JobId, maxStalled: nat, now: nat, x: JobId)
    ensures var r := SweepOne(q, id, maxStalled, now);
      && r.jobs.Keys == q.jobs.Keys
      && (x in q.jobs ==> (r.jobs[x].atm == q.jobs[x].atm && r.jobs[x].attempts == q.jobs[x].attempts
                           && r.jobs[x].stc == q.jobs[x].stc + One(x == id)))
      && Pending(r.at, x) <= Pending(q.at, x) + One(x == id && id in q.jobs && q.jobs[id].stc < maxStalled)
  {
    hide Pending, RemoveFirst, Enqueue;
    if id !in q.jobs { return; }
    PendingUpdateActive(q.at, RemoveFirst(q.at.active, id), x);
    if q.jobs[id].stc >= maxStalled { return; }
    EnqueuePending(Stall(q, id), id, q.jobs[id].priority, x);
  }

  lemma {:induction false} SweepEachKeepsBounds(l: Ledger, maxStalled: nat, ids: seq<JobId>, now: nat)
    requires InBounds(l, maxStalled)
    ensures InBounds(l.(q := SweepEach(l.q, ids, maxStalled, now)), maxStalled)
  {
    hide InBounds, SweepOne;
    if ids != [] {
      SweepEachKeepsBounds(l, maxStalled, ids[..|ids| - 1], now);
      SweepOneKeepsBounds(l.(q := SweepEach(l.q, ids[..|ids| - 1], maxStalled, now)), maxStalled, ids[|ids| - 1], now);
    }
  }

  lemma SweepKeepsBounds(l: Ledger, maxStalled: nat, order: seq<JobId>, now: nat)
    requires InBounds(l, maxStalled)
    ensures InBounds(l.(q := SweepStalled(l.q, order, maxStalled, now)), maxStalled)
  {
    hide Pending, SweepEach, Requeued, Allowance;
    var s := Scanned(l.q);
    QuietKeepsBounds(l, maxStalled, s);
    SweepEachKeepsBounds(l.(q := s), maxStalled, order, now);
    var e := SweepEach(s, order, maxStalled, now);
    QuietKeepsBounds(l.(q := e), maxStalled, SweepStalled(l.q, order, maxStalled, now));
  }

  // ---------------------------------------------------------------- quiet steps

  lemma ReleaseQuiet(q: Queue, parent: JobId, child: JobKey, value: Payload, now: nat, x: JobId)
    ensures Quiet(q, ReleaseParent(q, parent, child, value, now), x)
  {
    hide Pending, InSet, Zrem, Enqueue, DelayUntil;
    if child !in PendingChildren(q, parent) { return; }
    var r := RecordChild(q, parent, child, value);
    if PendingChildren(q, parent) == {child} && parent in q.jobs && Has(q.at.waitingChildren, parent) {
      var z := r.(at := r.at.(waitingChildren := Zrem(r.at.waitingChildren, parent)));
      ZremCount(q.at.waitingChildren, parent, x);
      PendingUpdate(r.at, [], Zrem(r.at.waitingChildren, parent), x);
      var job := HashOf(r, parent);
      if job.delay > 0 {
        DelayPending(z, parent, DueTime(now, job.delay), x);
        DelayUntilFrame(z, parent, DueTime(now, job.delay));
        return;
      }
      EnqueuePending(z, parent, job.priority, x);
      return;
    }
  }

  lemma DelayUntilFrame(q: Queue, id: JobId, due: nat)
    ensures DelayUntil(q, id, due) == q.(at := DelayUntil(q, id, due).at)
  {
  }

  lemma ReprioritizeQuiet(q: Queue, id: JobId, priority: nat, x: JobId)
    requires id in q.jobs ==> StandsInLine(q, id)
    ensures Quiet(q, ChangePriority(q, id, priority).q, x)
  {
    hide Pending, InSet, InList, Zrem, Enqueue, OutOfLine, RemoveAll;
    if id !in q.jobs { return; }
    if priority == 0 && q.jobs[id].priority == 0 { return; }
    OutOfLinePending(q, id, x);
    EnqueuePending(OutOfLine(q, id, q.jobs[id].priority), id, priority, x);
    OutOfLineKeepsJobs(q, id, q.jobs[id].priority);
  }

  lemma OutOfLineKeepsJobs(q: Queue, id: JobId, priority: nat)
    ensures OutOfLine(q, id, priority) == q.(at := OutOfLine(q, id, priority).at)
  {
  }

  lemma OutOfLinePending(q: Queue, id: JobId, x: JobId)
    requires id in q.jobs && StandsInLine(q, id)
    ensures Pending(OutOfLine(q, id, q.jobs[id].priority).at, x) + One(x == id) <= Pending(q.at, x)
  {
    hide Pending, InSet, Zrem, RemoveAll;
    if q.jobs[id].priority > 0 {
      ZremCount(q.at.prioritized, id, x);
      PendingUpdate(q.at, [], Zrem(q.at.prioritized, id), x);
      assert OutOfLine(q, id, q.jobs[id].priority).at == q.at.(prioritized := Zrem(q.at.prioritized, id));
      return;
    }
    var w, p := RemoveAll(q.at.wait, id), RemoveAll(q.at.paused, id);
    RemoveAllMembers(q.at.wait, id);
    RemoveAllMembers(q.at.paused, id);
    assert InList(w, x) == if x == id then 0 else InList(q.at.wait, x);
    assert InList(p, x) == if x == id then 0 else InList(q.at.paused, x);
    assert id in q.at.wait ==> InList(q.at.wait, id) > 0;
    assert id in q.at.paused ==> InList(q.at.paused, id) > 0;
    PendingUpdate(q.at, w, [], x);
    PendingUpdate(q.at.(wait := w), p, [], x);
    if id !in q.at.wait && q.isPaused {
      assert OutOfLine(q, id, 0).at == q.at.(wait := w).(paused := p);
      return;
    }
    assert OutOfLine(q, id, 0).at == q.at.(wait := w);
  }

  lemma PromoteNowQuiet(q: Queue, id: JobId, x: JobId)
    ensures Quiet(q, PromoteJob(q, id).q, x)
  {
    hide Pending, InSet, Zrem, Enqueue;
    if !Has(q.at.delayed, id) { return; }
    ZremCount(q.at.delayed, id, x);
    PendingUpdate(q.at, [], Zrem(q.at.delayed, id), x);
    EnqueuePending(TakenFromDelayed(q, id), id, HashOf(q, id).priority, x);
  }

  lemma PauseQuiet(q: Queue, x: JobId)
    ensures Quiet(q, PauseQueue(q), x) && Quiet(q, ResumeQueue(q), x)
  {
    Concat(q.at.wait, q.at.paused, x);
    Concat(q.at.paused, q.at.wait, x);
  }

  lemma Concat(a: seq<JobId>, b: seq<JobId>, x: JobId)
    ensures InList(a + b, x) == InList(a, x) + InList(b, x)
  {
  }

  lemma MoveDelayedQuiet(q: Queue, count: nat, upTo: Option<nat>, x: JobId)
    ensures Quiet(q, MoveJobsToWait(q, FromDelayed, count, upTo).q, x)
  {
    hide Pending, InList, ClearEach, PushAllLeft;
    var n := Min(Matching(q.at.delayed, upTo), count);
    if n == 0 { return; }
    var ids := Members(q.at.delayed[..n]);
    ClearNothing(q, ids);
    TakePending(q.at, n, x);
    var w := WithSource(q, FromDelayed, q.at.delayed[n..]);
    PushAllPending(w, ids, x);
  }

  lemma PushAllPending(q: Queue, ids: seq<JobId>, x: JobId)
    ensures Pending(PushAllLeft(q, ids).at, x) == Pending(q.at, x) + InList(ids, x)
    ensures PushAllLeft(q, ids) == q.(at := PushAllLeft(q, ids).at)
  {
    hide Pending;
    ReverseKeepsMembers(ids);
    Concat(Reverse(ids), q.at.wait, x);
    Concat(Reverse(ids), q.at.paused, x);
    PendingUpdate(q.at, Reverse(ids) + q.at.wait, [], x);
    PendingUpdate(q.at, Reverse(ids) + q.at.paused, [], x);
    if q.isPaused {
      assert PushAllLeft(q, ids).at == q.at.(paused := Reverse(ids) + q.at.paused);
      return;
    }
    assert PushAllLeft(q, ids).at == q.at.(wait := Reverse(ids) + q.at.wait);
  }

  predicate IsQuiet(s: Step) {
    s.AddChildren? || s.Release? || s.Record? || s.Extend? || s.ExpireLock? || s.Pause? || s.Resume? || s.Reprioritize?
    || s.PromoteNow? || s.MoveJobs? || s.PopBaseMarker? || s.PopDelayMarker? || s.PutBaseMarker?
  }

  lemma StepQuiet(l: Ledger, maxStalled: nat, s: Step, x: JobId)
    requires IsQuiet(s) && Disciplined(l, maxStalled, s)
    ensures Quiet(l.q, Apply(l.q, s), x)
  {
    hide Pending, ReleaseParent, ChangePriority, PromoteJob, MoveJobsToWait, PauseQueue, ResumeQueue, StandsInLine;
    var q := l.q;
    match s {
      case AddChildren(_, _) => return;
      case Release(parent, child, value, now) => ReleaseQuiet(q, parent, child, value, now, x); return;
      case Record(result, maxPoints, _) => if maxPoints.None? { return; } if result.Completed? { return; } return;
      case Extend(id, token) => if id in q.locks && q.locks[id] == token { return; } return;
      case ExpireLock(_) => return;
      case Pause => PauseQuiet(q, x); return;
      case Resume => PauseQuiet(q, x); return;
      case Reprioritize(id, priority) => ReprioritizeQuiet(q, id, priority, x); return;
      case PromoteNow(id) => PromoteNowQuiet(q, id, x); return;
      case MoveJobs(_, count, upTo) => MoveDelayedQuiet(q, count, upTo, x); return;
      case PopBaseMarker => return;
      case PopDelayMarker => return;
      case PutBaseMarker => return;
    }
  }

  // ---------------------------------------------------------------- runs

  lemma EnterKeepsBounds(l: Ledger, maxStalled: nat, s: Step)
    requires InBounds(l, maxStalled) && Disciplined(l, maxStalled, s)
    ensures InBounds(Enter(l, s), maxStalled)
  {
    hide Bounded, TicketValid, Apply;
    if s.Fetch? { FetchKeepsBounds(l, maxStalled, s); return; }
    if s.AddStandard? || s.AddPrioritized? || s.AddDelayed? || s.AddParent? {
      AddKeepsBounds(l, maxStalled, s);
      return;
    }
    if s.Delay? { DelayKeepsBounds(l, maxStalled, s); return; }
    if s.Finish? { FinishKeepsBounds(l, maxStalled, s); return; }
    if s.Sweep? { SweepKeepsBounds(l, maxStalled, s.order, s.now); SweepApplies(l.q, s); return; }
    hide Quiet;
    OtherLocks(l.q, s);
    forall x ensures Quiet(l.q, Apply(l.q, s), x) { StepQuiet(l, maxStalled, s, x); }
    QuietKeepsBounds(l, maxStalled, Apply(l.q, s));
  }

  lemma SweepApplies(q: Queue, s: Step)
    requires s.Sweep?
    ensures Apply(q, s) == SweepStalled(q, s.order, s.maxStalled, s.now)
  {
    hide SweepStalled;
  }

  lemma FollowKeepsBounds(l: Ledger, maxStalled: nat, e: Event)
    requires InBounds(l, maxStalled) && Allowed(l, maxStalled, e)
    ensures InBounds(Follow(l, e), maxStalled)
  {
    hide InBounds, Enter, Disciplined;
    match e
    case Do(s) => EnterKeepsBounds(l, maxStalled, s);
    case Abandon(h) => AbandonKeepsBounds(l, maxStalled, h);
  }

  lemma {:induction false} RunKeepsBounds(l: Ledger, maxStalled: nat, events: seq<Event>)
    requires InBounds(l, maxStalled)
    requires forall i :: 0 <= i < |events| ==> Allowed(FollowAll(l, events[..i]), maxStalled, events[i])
    ensures InBounds(FollowAll(l, events), maxStalled)
  {
    hide InBounds, Allowed, Follow;
    if events != [] {
      var init := events[..|events| - 1];
      forall i | 0 <= i < |init| ensures Allowed(FollowAll(l, init[..i]), maxStalled, init[i]) {
        assert init[..i] == events[..i];
        assert Allowed(FollowAll(l, events[..i]), maxStalled, events[i]);
      }
      RunKeepsBounds(l, maxStalled, init);
      assert Allowed(FollowAll(l, events[..|events| - 1]), maxStalled, events[|events| - 1]);
      FollowKeepsBounds(FollowAll(l, init), maxStalled, events[|events| - 1]);
    }
  }

  const Opening := Ledger(EmptyQueue, multiset{}, map[])

  /** Main result: over every run from an empty queue in which no worker claims a job it is still
      working on, a job is claimed at most max(1, attempts) + maxStalled times. */
  lemma {:induction false} ClaimsAreBounded(maxStalled: nat, events: seq<Event>, id: JobId)
    requires forall i :: 0 <= i < |events| ==> Allowed(FollowAll(Opening, events[..i]), maxStalled, events[i])
    ensures var l := FollowAll(Opening, events);
      if id in l.q.jobs then l.claims[id] <= Max(1, l.q.jobs[id].attempts) + maxStalled else l.claims[id] == 0
  {
    hide FollowAll, Allowed;
    assert InBounds(Opening, maxStalled);
    RunKeepsBounds(Opening, maxStalled, events);
    assert Bounded(FollowAll(Opening, events), maxStalled, id);
  }
}

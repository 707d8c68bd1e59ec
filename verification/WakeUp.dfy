/** No lost wake-up: while the queue runs and has work, the "0" marker is in place or a worker
    that popped it still has to call moveToActive or to put the marker back. */
module WakeUp {
  import opened Redis
  import opened Scores
  import opened Limiter
  import opened Queue
  import opened Machine
  import Partition

  predicate HasWork(q: Queue) {
    !q.isPaused && (q.at.wait != [] || q.at.prioritized != [])
  }

  /** Work that no marker announces. */
  predicate Unsignalled(q: Queue) {
    HasWork(q) && !q.marks.base
  }

  // ---------------------------------------------------------------- scripts never hide work

  lemma AddSignals(q: Queue, s: Step)
    requires s.AddStandard? || s.AddPrioritized? || s.AddDelayed? || s.AddParent?
    ensures Unsignalled(Apply(q, s)) ==> Unsignalled(q)
  {
    hide Zadd, DelayedScore;
    match s {
      case AddStandard(id, opts, _, _) => if id in q.jobs || Holder(q, opts.deid).Some? { return; } return;
      case AddPrioritized(id, opts, _, _) => if id in q.jobs || Holder(q, opts.deid).Some? { return; } return;
      case AddDelayed(id, opts, _, _) => if id in q.jobs || Holder(q, opts.deid).Some? { return; } return;
      case AddParent(id, _, _, _) => if id in q.jobs { return; } return;
    }
  }

  lemma PromoteSignals(q: Queue, now: nat)
    ensures var p := PromoteDelayed(q, now);
      p.isPaused == q.isPaused && (Unsignalled(p) ==> Unsignalled(q))
  {
    hide PromoteEach;
    var n := DueCount(q, now);
    if n == 0 { return; }
    Partition.PromoteEachFrame(q.(at := q.at.(delayed := q.at.delayed[n..])), Members(q.at.delayed[..n]));
  }

  /** A claim leaves the marker exactly when work is left, and a queue with nothing to claim has
      no work. */
  lemma FetchSignals(q: Queue, token: Token, now: nat, clock: nat, limit: Option<Limit>)
    ensures var f := FetchNext(q, token, now, clock, limit);
      && (Unsignalled(f.q) ==> Unsignalled(q))
      && (!f.result.Limited? ==> !Unsignalled(f.q))
  {
    hide PromoteDelayed;
    var p := PromoteDelayed(q, now);
    PromoteSignals(q, now);
    var v := RateLimitTtl(limit, p.limiter, clock);
    if v.ttl > 0 { return; }
    if p.isPaused { return; }
    var r := p.(limiter := v.key);
    if NextJob(r).None? { return; }
    if r.at.wait != [] { return; }
  }

  lemma ExitSignals(q: Queue, s: Step)
    requires s.Finish? || s.Delay? || s.Retry?
    ensures Unsignalled(Apply(q, s)) ==> Unsignalled(q)
  {
    hide Zadd, DelayedScore;
    if Guard(q, s.id, s.token) != OK {
      match s {
        case Finish(_, _, _, _, _) => return;
        case Delay(_, _, _, _, _) => return;
        case Retry(_, _, _, _, _) => return;
      }
    }
    match s {
      case Finish(_, _, _, result, _) => if result.Completed? { return; } return;
      case Delay(_, _, _, _, _) => return;
      case Retry(_, _, right, _, priority) =>
        if priority == 0 && !right { return; }
        if priority > 0 { return; }
        return;
    }
  }

  /** The one script that can leave work without a marker, and exactly when: a prioritized job
      comes back to a running queue that had nothing else to do and no marker. */
  lemma ReturnHidesWorkIff(q: Queue, id: JobId, token: Token)
    ensures var r := MoveActiveToWait(q, id, token).q;
      (Unsignalled(r) && !Unsignalled(q))
      <==> (Guard(q, id, token) == OK && id in q.at.active && HashOf(q, id).priority > 0
            && !q.isPaused && !q.marks.base && q.at.wait == [] && q.at.prioritized == [])
  {
    if Guard(q, id, token) != OK { return; }
    if id !in q.at.active { return; }
    if HashOf(q, id).priority > 0 {
      var z := Zadd(q.at.prioritized, PushBackScore(HashOf(q, id).priority), id);
      ZaddNotEmpty(q.at.prioritized, PushBackScore(HashOf(q, id).priority), id);
      return;
    }
  }

  lemma ZaddNotEmpty(z: Zset, score: nat, m: nat)
    ensures Zadd(z, score, m) != []
  {
  }

  lemma {:induction false} SweepEachQuiet(q: Queue, ids: seq<JobId>, maxStalled: nat, now: nat)
    requires forall i, j :: 0 <= i < j < |ids| ==> ids[i] != ids[j]
    ensures var r := SweepEach(q, ids, maxStalled, now);
      && r.marks == q.marks && r.isPaused == q.isPaused
      && (Requeued(q, ids, maxStalled) == 0 ==> r.at.wait == q.at.wait && r.at.prioritized == q.at.prioritized)
  {
    hide SweepOne;
    if ids != [] {
      var init, last := ids[..|ids| - 1], ids[|ids| - 1];
      assert last !in init;
      SweepEachQuiet(q, init, maxStalled, now);
      Partition.SweepEachFrame(q, init, maxStalled, now);
      SweepOneQuiet(SweepEach(q, init, maxStalled, now), last, maxStalled, now);
    }
  }

  lemma SweepOneQuiet(q: Queue, id: JobId, maxStalled: nat, now: nat)
    ensures var r := SweepOne(q, id, maxStalled, now);
      && r.marks == q.marks && r.isPaused == q.isPaused
      && (id !in q.jobs || q.jobs[id].stc >= maxStalled ==>
            r.at.wait == q.at.wait && r.at.prioritized == q.at.prioritized)
  {
    if id !in q.jobs { return; }
    if q.jobs[id].stc >= maxStalled { return; }
    if q.jobs[id].priority > 0 { return; }
  }

  lemma SweepSignals(q: Queue, order: seq<JobId>, maxStalled: nat, now: nat)
    requires ListsOnce(order, q.stalled + Unlocked(q))
    ensures Unsignalled(SweepStalled(q, order, maxStalled, now)) ==> Unsignalled(q)
  {
    hide SweepEach, Requeued;
    SweepEachQuiet(Scanned(q), order, maxStalled, now);
  }

  lemma ReleaseSignals(q: Queue, parent: JobId, child: JobKey, value: Payload, now: nat)
    ensures Unsignalled(ReleaseParent(q, parent, child, value, now)) ==> Unsignalled(q)
  {
    hide Zadd, Zrem, DelayedScore;
    if child !in PendingChildren(q, parent) { return; }
    if PendingChildren(q, parent) == {child} && parent in q.jobs && Has(q.at.waitingChildren, parent) {
      if HashOf(RecordChild(q, parent, child, value), parent).delay > 0 { return; }
      if HashOf(RecordChild(q, parent, child, value), parent).priority > 0 { return; }
      return;
    }
  }

  lemma MoveJobsSignals(q: Queue, from: Source, count: nat, upTo: Option<nat>)
    ensures Unsignalled(MoveJobsToWait(q, from, count, upTo).q) ==> Unsignalled(q)
  {
    hide ClearEach, PushAllLeft, WithSource;
    var z := SourceSet(q, from);
    var n := Min(Matching(z, upTo), count);
    if n == 0 { return; }
    Partition.ClearEachFrame(q, from, Members(z[..n]));
    var c := ClearEach(q, from, Members(z[..n]));
    Partition.WithSourceFrame(c, from, z[n..]);
    Partition.PushAllLeftFrame(WithSource(c, from, z[n..]), Members(z[..n]));
  }

  lemma ChangePrioritySignals(q: Queue, id: JobId, priority: nat)
    ensures Unsignalled(ChangePriority(q, id, priority).q) ==> Unsignalled(q)
  {
    hide Enqueue, OutOfLine;
    if id !in q.jobs { return; }
    if priority == 0 && q.jobs[id].priority == 0 { return; }
    Partition.OutOfLineFrame(q, id, q.jobs[id].priority);
    Partition.EnqueueFrame(OutOfLine(q, id, q.jobs[id].priority), id, priority);
  }

  /** The steps of scripts and clients, all but popping the base marker and the rate-limited
      return of a prioritized job. */
  predicate Announcing(q: Queue, s: Step) {
    Possible(q, s) && !s.PopBaseMarker? && (s.Return? ==> HashOf(q, s.id).priority == 0)
  }

  lemma StepSignals(q: Queue, s: Step)
    requires Announcing(q, s)
    ensures Unsignalled(Apply(q, s)) ==> Unsignalled(q)
  {
    hide AddStandardJob, AddPrioritizedJob, AddDelayedJob, AddParentJob, FetchNext, FinishJob, MoveToDelayed, RetryJob;
    hide ReleaseParent, SweepStalled, ChangePriority, MoveJobsToWait, MoveActiveToWait, Zrem;
    if s.AddStandard? || s.AddPrioritized? || s.AddDelayed? || s.AddParent? { AddSignals(q, s); return; }
    if s.Finish? || s.Delay? || s.Retry? { ExitSignals(q, s); return; }
    match s {
      case AddChildren(_, _) => return;
      case Fetch(token, now, clock, limit) => FetchSignals(q, token, now, clock, limit); return;
      case Release(parent, child, value, now) => ReleaseSignals(q, parent, child, value, now); return;
      case Record(result, maxPoints, _) => if maxPoints.None? { return; } if result.Completed? { return; } return;
      case Return(id, token) => ReturnHidesWorkIff(q, id, token); return;
      case Extend(id, token) => if id in q.locks && q.locks[id] == token { return; } return;
      case ExpireLock(_) => return;
      case Sweep(order, maxStalled, now) => SweepSignals(q, order, maxStalled, now); return;
      case Pause => return;
      case Resume => return;
      case Reprioritize(id, priority) => ChangePrioritySignals(q, id, priority); return;
      case PromoteNow(id) =>
        if !Has(q.at.delayed, id) { return; }
        if HashOf(q, id).priority > 0 { return; }
        return;
      case MoveJobs(from, count, upTo) => MoveJobsSignals(q, from, count, upTo); return;
      case PopDelayMarker => return;
      case PutBaseMarker => return;
    }
  }

  // ---------------------------------------------------------------- workers between marker and claim

  /** A queue and the number of workers that popped the "0" marker and neither called
      moveToActive for it nor, when that was rate limited, put the marker back yet. */
  datatype Watch = Watch(q: Queue, owing: nat)

  datatype Act =
    | Do(s: Step)
    | TakeMarker
    | CallForMarker(token: Token, now: nat, clock: nat, limit: Option<Limit>)
    | PutBack

  predicate Enabled(w: Watch, a: Act) {
    match a
    case Do(s) => Announcing(w.q, s)
    case TakeMarker => w.q.marks.base
    case CallForMarker(_, _, _, _) => w.owing > 0
    case PutBack => w.owing > 0
  }

  function Perform(w: Watch, a: Act): Watch
    requires Enabled(w, a)
  {
    match a
    case Do(s) => w.(q := Apply(w.q, s))
    case TakeMarker => Watch(Apply(w.q, PopBaseMarker), w.owing + 1)
    case CallForMarker(token, now, clock, limit) =>
      var f := FetchNext(w.q, token, now, clock, limit);
      Watch(f.q, if f.result.Limited? then w.owing else w.owing - 1)
    case PutBack => Watch(Apply(w.q, PutBaseMarker), w.owing - 1)
  }

  predicate Awake(w: Watch) {
    HasWork(w.q) ==> w.q.marks.base || w.owing > 0
  }

  lemma PerformKeepsAwake(w: Watch, a: Act)
    requires Awake(w) && Enabled(w, a)
    ensures Awake(Perform(w, a))
  {
    match a {
      case Do(s) => hide Apply; StepSignals(w.q, s); return;
      case TakeMarker => return;
      case CallForMarker(token, now, clock, limit) =>
        hide FetchNext;
        FetchSignals(w.q, token, now, clock, limit);
        return;
      case PutBack => return;
    }
  }

  /** `watches` is a run of enabled acts. */
  ghost predicate IsRun(watches: seq<Watch>, acts: seq<Act>) {
    |watches| == |acts| + 1
    && forall i :: 0 <= i < |acts| ==> Enabled(watches[i], acts[i]) && watches[i + 1] == Perform(watches[i], acts[i])
  }

  /** Main result: along every run from an awake queue, any number of workers and clients
      interleaving, the queue stays awake. */
  lemma {:induction false} RunStaysAwake(watches: seq<Watch>, acts: seq<Act>)
    requires IsRun(watches, acts) && Awake(watches[0])
    ensures Awake(watches[|acts|])
  {
    hide Perform, Enabled, Awake;
    if acts != [] {
      var k := |acts| - 1;
      assert IsRun(watches[..k + 1], acts[..k]) by {
        forall i | 0 <= i < k
          ensures Enabled(watches[i], acts[..k][i]) && watches[i + 1] == Perform(watches[i], acts[..k][i])
        {
          assert acts[..k][i] == acts[i];
        }
      }
      RunStaysAwake(watches[..k + 1], acts[..k]);
      assert Enabled(watches[k], acts[k]);
      PerformKeepsAwake(watches[k], acts[k]);
    }
  }
}

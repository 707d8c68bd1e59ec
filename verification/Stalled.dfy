/** What the sweep of stalled jobs achieves: it finds every active job without a lock, and leaves
    none of them active. */
module Stalled {
  import opened Redis
  import opened Scores
  import opened Queue
  import opened Machine
  import opened Filing
  import Partition

  /** `order` lists, once each, the members of the stalled set and the active jobs without a lock. */
  ghost predicate Lists(order: seq<JobId>, q: Queue) {
    && (forall i, j :: 0 <= i < j < |order| ==> order[i] != order[j])
    && (forall x :: x in order <==> x in q.stalled || (x in q.at.active && x !in q.locks))
  }

  /** These are the orders in which a sweep can go. */
  lemma SweepListsIff(q: Queue, order: seq<JobId>, maxStalled: nat, now: nat)
    ensures Possible(q, Sweep(order, maxStalled, now)) <==> Lists(order, q)
  {
    if Possible(q, Sweep(order, maxStalled, now)) {
      var listed := set y | y in order;
      assert listed == q.stalled + Unlocked(q);
      forall x ensures x in order <==> x in q.stalled || (x in q.at.active && x !in q.locks) {
        assert x in order <==> x in listed;
        assert x in Unlocked(q) <==> x in q.at.active && x !in q.locks;
      }
    }
    if Lists(order, q) {
      assert (set y | y in order) == q.stalled + Unlocked(q);
    }
  }

  lemma OthersStayInLine(q: Queue, id: JobId, priority: nat, x: JobId, p: nat)
    requires InLine(q, x, p) && x != id
    ensures InLine(Enqueue(q, id, priority), x, p)
  {
    hide Zadd, PriorityScore;
    if priority > 0 && p > 0 {
      var e :| e in q.at.prioritized && e.member == x && e.score / BLOCK == p;
      ZaddEntries(q.at.prioritized, PriorityScore(priority, q.pc + 1), id, e);
      assert e in Enqueue(q, id, priority).at.prioritized;
    }
  }

  /** What the sweep makes of one job's hash. */
  function Swept(job: Job, maxStalled: nat, now: nat): Job {
    if job.stc < maxStalled then job.(stc := job.stc + 1)
    else job.(failedReason := Some(StalledTooOften), finishedOn := Some(now), stc := job.stc + 1)
  }

  lemma SweepOneFiles(q: Queue, id: JobId, maxStalled: nat, now: nat)
    requires id in q.jobs
    ensures var r := SweepOne(q, id, maxStalled, now);
      && r.jobs[id] == Swept(q.jobs[id], maxStalled, now)
      && (q.jobs[id].stc < maxStalled ==> InLine(r, id, q.jobs[id].priority))
  {
    hide Enqueue, InLine, RemoveFirst;
    if q.jobs[id].stc >= maxStalled { return; }
    Partition.EnqueueFrame(Stall(q, id), id, q.jobs[id].priority);
    EnqueuedInLine(Stall(q, id), id, q.jobs[id].priority);
  }

  lemma SweepOneKeeps(q: Queue, id: JobId, maxStalled: nat, now: nat, x: JobId, p: nat)
    requires InLine(q, x, p) && x != id
    ensures InLine(SweepOne(q, id, maxStalled, now), x, p)
  {
    hide Enqueue, InLine, RemoveFirst;
    if id !in q.jobs { SameLine(q, SweepOne(q, id, maxStalled, now), x, p); return; }
    if q.jobs[id].stc >= maxStalled { SameLine(q, SweepOne(q, id, maxStalled, now), x, p); return; }
    SameLine(q, Stall(q, id), x, p);
    OthersStayInLine(Stall(q, id), id, q.jobs[id].priority, x, p);
  }

  lemma {:induction false} SweepEachFiles(q: Queue, ids: seq<JobId>, maxStalled: nat, now: nat, x: JobId)
    requires forall i, j :: 0 <= i < j < |ids| ==> ids[i] != ids[j]
    requires x in ids && x in q.jobs
    ensures var r := SweepEach(q, ids, maxStalled, now);
      && x in r.jobs && r.jobs[x] == Swept(q.jobs[x], maxStalled, now)
      && (q.jobs[x].stc < maxStalled ==> InLine(r, x, q.jobs[x].priority))
  {
    hide SweepOne, InLine;
    var init, last := ids[..|ids| - 1], ids[|ids| - 1];
    assert ids == init + [last] && last !in init;
    var m := SweepEach(q, init, maxStalled, now);
    Partition.SweepEachFrame(q, init, maxStalled, now);
    Partition.SweepOneFrame(m, last, maxStalled, now);
    if x == last {
      SweepOneFiles(m, x, maxStalled, now);
    } else {
      SweepEachFiles(q, init, maxStalled, now, x);
      if q.jobs[x].stc < maxStalled { SweepOneKeeps(m, last, maxStalled, now, x, q.jobs[x].priority); }
    }
  }

  /** Main result: after every sweep of a partitioned queue each active job has a lock, and the
      stalled set is empty. */
  lemma SweepLeavesLocked(q: Queue, order: seq<JobId>, maxStalled: nat, now: nat)
    requires Partition.Partitioned(q) && Lists(order, q)
    ensures var r := SweepStalled(q, order, maxStalled, now);
      && r.stalled == {} && r.locks == q.locks
      && (forall x :: x in r.at.active <==> x in q.at.active && x in q.locks && x !in q.stalled)
  {
    hide Partition.Partitioned, Partition.Count, SweepStalled, Unlocked;
    SweepListsIff(q, order, maxStalled, now);
    assert Possible(q, Sweep(order, maxStalled, now));
    var r := SweepStalled(q, order, maxStalled, now);
    forall x ensures x in r.at.active <==> x in q.at.active && x in q.locks && x !in q.stalled {
      Partition.SweepPlaces(q, order, maxStalled, now, x);
    }
    Partition.SweepPlaces(q, order, maxStalled, now, 0);
  }

  /** Where an active job without a lock goes: back into line with one more stall, or nowhere when
      it has stalled too often. */
  lemma StalledJobIsFiled(q: Queue, order: seq<JobId>, maxStalled: nat, now: nat, x: JobId)
    requires Partition.Partitioned(q) && Lists(order, q) && x in q.at.active && x !in q.locks
    ensures var r := SweepStalled(q, order, maxStalled, now);
      && x in q.jobs && x !in r.at.active && x in r.jobs
      && r.jobs[x] == Swept(q.jobs[x], maxStalled, now)
      && (if q.jobs[x].stc < maxStalled then Partition.Count(r.at, x) == 1 && InLine(r, x, q.jobs[x].priority)
          else Partition.Count(r.at, x) == 0)
  {
    hide Partition.Partitioned, Partition.Count, SweepEach, Unlocked, InLine, Requeued, Swept;
    SweepListsIff(q, order, maxStalled, now);
    assert Possible(q, Sweep(order, maxStalled, now));
    Partition.SweepPlaces(q, order, maxStalled, now, x);
    SweepEachFiles(Scanned(q), order, maxStalled, now, x);
    if q.jobs[x].stc < maxStalled {
      SameLine(SweepEach(Scanned(q), order, maxStalled, now), SweepStalled(q, order, maxStalled, now), x,
               q.jobs[x].priority);
    }
  }

  lemma {:induction false} SomeRequeuedIff(q: Queue, ids: seq<JobId>, maxStalled: nat)
    ensures Requeued(q, ids, maxStalled) > 0 <==> exists x :: x in ids && x in q.jobs && q.jobs[x].stc < maxStalled
  {
    if ids != [] {
      SomeRequeuedIff(q, ids[..|ids| - 1], maxStalled);
      assert ids == ids[..|ids| - 1] + [ids[|ids| - 1]];
    }
  }

  /** A sweep announces work if and only if it put a job back into line in a running queue. */
  lemma SweepMarksIff(q: Queue, order: seq<JobId>, maxStalled: nat, now: nat)
    ensures var r := SweepStalled(q, order, maxStalled, now);
      r.marks.base <==>
        q.marks.base || (!q.isPaused && exists x :: x in order && x in q.jobs && q.jobs[x].stc < maxStalled)
  {
    hide SweepEach, Requeued;
    SomeRequeuedIff(Scanned(q), order, maxStalled);
    SweepEachKeepsMarks(Scanned(q), order, maxStalled, now);
  }

  lemma {:induction false} SweepEachKeepsMarks(q: Queue, ids: seq<JobId>, maxStalled: nat, now: nat)
    ensures SweepEach(q, ids, maxStalled, now).marks == q.marks
  {
    hide Zadd, RemoveFirst;
    if ids != [] {
      var m, id := SweepEach(q, ids[..|ids| - 1], maxStalled, now), ids[|ids| - 1];
      SweepEachKeepsMarks(q, ids[..|ids| - 1], maxStalled, now);
      if id !in m.jobs { return; }
      if m.jobs[id].stc >= maxStalled { return; }
      if m.jobs[id].priority > 0 { return; }
    }
  }

  /** So at the end of every safe run that ends in a sweep no job is active without a lock, however
      its lock was renewed and lost before. */
  lemma NoneLeftUnlocked(steps: seq<Step>)
    requires steps != [] && steps[|steps| - 1].Sweep?
    requires forall i :: 0 <= i < |steps| ==> Partition.Safe(Run(EmptyQueue, steps[..i]), steps[i])
    ensures var q := Run(EmptyQueue, steps); forall x :: x in q.at.active ==> x in q.locks
  {
    hide Partition.Partitioned, Partition.SweepFindsLocked, SweepStalled, Lists, Run, Apply;
    var init, s := steps[..|steps| - 1], steps[|steps| - 1];
    forall i | 0 <= i < |init| ensures Partition.Safe(Run(EmptyQueue, init[..i]), init[i]) {
      assert init[..i] == steps[..i];
      assert Partition.Safe(Run(EmptyQueue, steps[..i]), steps[i]);
    }
    assert Partition.Safe(Run(EmptyQueue, steps[..|steps| - 1]), steps[|steps| - 1]);
    hide Partition.Safe;
    Partition.EmptyIsPartitioned();
    Partition.RunKeepsPartition(EmptyQueue, init);
    var q := Run(EmptyQueue, init);
    assert Possible(q, s) by { SafeIsPossible(q, s); }
    SweepListsIff(q, s.order, s.maxStalled, s.now);
    SweepLeavesLocked(q, s.order, s.maxStalled, s.now);
    EndsInSweep(EmptyQueue, steps);
  }

  lemma EndsInSweep(q: Queue, steps: seq<Step>)
    requires steps != [] && steps[|steps| - 1].Sweep?
    ensures var s := steps[|steps| - 1];
      Run(q, steps) == SweepStalled(Run(q, steps[..|steps| - 1]), s.order, s.maxStalled, s.now)
  {
    hide SweepStalled;
  }

  lemma SafeIsPossible(q: Queue, s: Step)
    requires Partition.Safe(q, s)
    ensures Possible(q, s)
  {
  }
}

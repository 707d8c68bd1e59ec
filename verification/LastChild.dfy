/** What removing a job does to parents in other queues: the parent at the end of the chain of
    ancestors that go with the job, if it has no other pending child, is put in line and announced;
    nothing else happens there. */
module LastChild {
  import opened Redis
  import opened Queue
  import opened Flow
  import opened CleanList
  import Filing
  import Partition

  /** `c` is the only pending child of a stored, waiting parent of another queue. */
  predicate Frees(w: World, base: QueueId, c: JobKey, p: JobKey) {
    && ParentOf(w, c) == Some(p) && p.queue != base && Flow.Stored(w, p) && Waits(w, p)
    && Pending(w, p) == {c}
  }

  /** The removal of `job` goes along a chain of ancestors whose last one frees `p`. */
  ghost predicate ChainFrees(w: World, base: QueueId, job: JobKey, p: JobKey) {
    exists path: seq<JobKey> ::
      path != [] && path[0] == job && CleanList.Chain(w, base, path) && Frees(w, base, path[|path| - 1], p)
  }

  /** The job has left waiting-children for the serving end of the target list, it is announced if the
      queue runs, and then it is the next one served; no other job of the queue moves. */
  predicate Freed(q: Queue, r: Queue, id: JobId) {
    && r.at == q.at.(waitingChildren := Zrem(q.at.waitingChildren, id),
                     wait := if q.isPaused then q.at.wait else q.at.wait + [id],
                     paused := if q.isPaused then q.at.paused + [id] else q.at.paused)
    && r.marks == q.marks.(base := q.marks.base || !q.isPaused)
    && (!q.isPaused ==> NextJob(r) == Some(id))
    && SameJobs(q, r)
  }

  predicate SameJobs(q: Queue, r: Queue) {
    r.jobs == q.jobs && r.locks == q.locks && r.stalled == q.stalled && r.isPaused == q.isPaused
  }

  predicate Undisturbed(q: Queue, r: Queue) {
    r.at == q.at && r.marks == q.marks && SameJobs(q, r)
  }

  // ---------------------------------------------------------------- one level

  /** The cases of leaving a parent, as seen from another queue. */
  lemma LeavingCases(w: World, job: JobKey, base: QueueId, k: QueueId)
    requires k != base
    ensures var q, r := At(w, k), At(LeaveParent(w, job, base), k);
      var parent := ParentOf(w, job);
      if parent.Some? && TakesParent(w, base, job, parent.value) then
        var u := Unparented(w, parent.value, job);
        && |At(u, base).at.waitingChildren| < |At(w, base).at.waitingChildren|
        && r == At(LeaveParent(u, parent.value, base), k) && At(u, k) == q
      else if parent.Some? && parent.value.queue == k && Frees(w, base, job, parent.value) then
        Freed(q, r, parent.value.id)
      else Undisturbed(q, r)
  {
    hide Has, DropKeys, DropDedup, Zrem;
    var parent := ParentOf(w, job);
    if parent.None? || !Flow.Stored(w, parent.value) || job !in Pending(w, parent.value) { return; }
    var p := parent.value;
    ForgetView(w, p, job);
    if Pending(w, p) != {job} || !Waits(w, p) { return; }
    if p.queue != base { return; }
    UnblockShrinks(w, p, job);
  }

  lemma SameFrees(w: World, base: QueueId, job: JobKey, pp: JobKey, c: JobKey, p: JobKey)
    requires TakesParent(w, base, job, pp) && p.queue != base
    ensures Frees(Unparented(w, pp, job), base, c, p) <==> Frees(w, base, c, p)
  {
    hide Unparented, ParentOf, Flow.Stored, Waits, Pending, At;
    UnparentedView(w, pp, job, c);
    UnparentedView(w, pp, job, p);
  }

  /** The chain starts at the parent once the job has left it. */
  lemma ChainFreesOn(w: World, base: QueueId, job: JobKey, pp: JobKey, p: JobKey)
    requires TakesParent(w, base, job, pp) && p.queue != base
    ensures ChainFrees(w, base, job, p) <==> ChainFrees(Unparented(w, pp, job), base, pp, p)
  {
    hide TakesParent, Unparented, ParentOf, CleanList.Chain, Frees, At;
    var u := Unparented(w, pp, job);
    if path: seq<JobKey> :| path != [] && path[0] == job && CleanList.Chain(w, base, path)
                            && Frees(w, base, path[|path| - 1], p) {
      ParentIsNext(w, base, job, pp, path, p);
      ChainGoesOn(w, base, path, 0);
      var rest := path[1..];
      SameFrees(w, base, job, pp, rest[|rest| - 1], p);
      assert rest[0] == pp && CleanList.Chain(u, base, rest) && Frees(u, base, rest[|rest| - 1], p);
    }
    if rest: seq<JobKey> :| rest != [] && rest[0] == pp && CleanList.Chain(u, base, rest)
                            && Frees(u, base, rest[|rest| - 1], p) {
      ChainExtends(w, base, job, pp, rest);
      var path := [job] + rest;
      SameFrees(w, base, job, pp, rest[|rest| - 1], p);
      assert path[0] == job && CleanList.Chain(w, base, path) && Frees(w, base, path[|path| - 1], p);
    }
  }

  lemma ParentIsNext(w: World, base: QueueId, job: JobKey, pp: JobKey, path: seq<JobKey>, p: JobKey)
    requires TakesParent(w, base, job, pp)
    requires path != [] && path[0] == job && CleanList.Chain(w, base, path) && Frees(w, base, path[|path| - 1], p)
    ensures |path| >= 2 && path[1] == pp
  {
    hide ParentOf, Flow.Stored, Waits, Pending, At;
    if |path| >= 2 { assert TakesParent(w, base, path[0], path[1]); }
  }

  lemma EndsHere(w: World, base: QueueId, job: JobKey, p: JobKey)
    requires !(ParentOf(w, job).Some? && TakesParent(w, base, job, ParentOf(w, job).value))
    ensures ChainFrees(w, base, job, p) <==> Frees(w, base, job, p)
  {
    hide ParentOf, Flow.Stored, Waits, Pending, At;
    if Frees(w, base, job, p) {
      var path := [job];
      assert path[0] == job && CleanList.Chain(w, base, path) && Frees(w, base, path[|path| - 1], p);
    }
    if path: seq<JobKey> :| path != [] && path[0] == job && CleanList.Chain(w, base, path)
                            && Frees(w, base, path[|path| - 1], p) {
      assert |path| >= 2 ==> TakesParent(w, base, path[0], path[1]);
    }
  }

  // ---------------------------------------------------------------- the whole removal

  /** A parent that the chain frees is put in line. */
  lemma {:induction false} LeavingFrees(w: World, job: JobKey, base: QueueId, p: JobKey)
    requires p.queue != base && ChainFrees(w, base, job, p)
    ensures Freed(At(w, p.queue), At(LeaveParent(w, job, base), p.queue), p.id)
    decreases |At(w, base).at.waitingChildren|
  {
    hide LeaveParent, TakesParent, Unparented, ChainFrees, ParentOf, At, Freed;
    LeavingCases(w, job, base, p.queue);
    var parent := ParentOf(w, job);
    if parent.Some? && TakesParent(w, base, job, parent.value) {
      ChainFreesOn(w, base, job, parent.value, p);
      LeavingFrees(Unparented(w, parent.value, job), parent.value, base, p);
      return;
    }
    EndsHere(w, base, job, p);
    hide Flow.Stored, Waits, Pending, Undisturbed;
  }

  /** Whatever happens in another queue is that. */
  lemma {:induction false} LeavingFreesOnly(w: World, job: JobKey, base: QueueId, k: QueueId)
    returns (p: Option<JobKey>)
    requires k != base
    ensures var q, r := At(w, k), At(LeaveParent(w, job, base), k);
      if p.None? then Undisturbed(q, r)
      else p.value.queue == k && Waits(w, p.value) && ChainFrees(w, base, job, p.value) && Freed(q, r, p.value.id)
    decreases |At(w, base).at.waitingChildren|
  {
    hide LeaveParent, TakesParent, Unparented, ChainFrees, ParentOf, At, Freed, Undisturbed;
    LeavingCases(w, job, base, k);
    var parent := ParentOf(w, job);
    if parent.Some? && TakesParent(w, base, job, parent.value) {
      var u := Unparented(w, parent.value, job);
      p := LeavingFreesOnly(u, parent.value, base, k);
      if p.Some? {
        ChainFreesOn(w, base, job, parent.value, p.value);
        SameWaits(w, u, p.value);
      }
      return;
    }
    if parent.Some? && parent.value.queue == k && Frees(w, base, job, parent.value) {
      p := parent;
      EndsHere(w, base, job, parent.value);
      return;
    }
    p := None;
  }

  lemma SameWaits(w: World, u: World, p: JobKey)
    requires At(u, p.queue) == At(w, p.queue)
    ensures Waits(u, p) <==> Waits(w, p)
  {
  }

  lemma RemovalIsLeaving(w: World, k: QueueId, id: JobId, j: QueueId)
    requires j != k
    ensures At(RemoveJob(w, k, id), j) == At(LeaveParent(w, JobKey(k, id), k), j)
  {
    hide LeaveParent, DropKeys, ReleaseDedup;
  }

  /** Main result: removing a job of queue `k` lets a waiting parent of another queue go if and only if
      the chain of ancestors that go with the job ends at its only pending child, and then the parent
      is in line, announced, and next in a running queue. */
  lemma RemovalFreesIff(w: World, k: QueueId, id: JobId, p: JobKey)
    requires p.queue != k && Waits(w, p)
    ensures var q, r := At(w, p.queue), At(RemoveJob(w, k, id), p.queue);
      && (Has(r.at.waitingChildren, p.id) <==> !ChainFrees(w, k, JobKey(k, id), p))
      && (ChainFrees(w, k, JobKey(k, id), p) ==> Freed(q, r, p.id))
  {
    hide LeaveParent, RemoveJob, ChainFrees, At, Has, Zrem, NextJob;
    var job := JobKey(k, id);
    RemovalIsLeaving(w, k, id, p.queue);
    if ChainFrees(w, k, job, p) {
      LeavingFrees(w, job, k, p);
      ZremHas(At(w, p.queue).at.waitingChildren, p.id, p.id);
      return;
    }
    var other := LeavingFreesOnly(w, job, k, p.queue);
    if other.Some? { ZremHas(At(w, p.queue).at.waitingChildren, other.value.id, p.id); }
  }

  // ---------------------------------------------------------------- other queues stay in order

  lemma FreedFits(q: Queue, r: Queue, id: JobId, x: JobId)
    requires Partition.Fits(q, x) && Freed(q, r, id) && Has(q.at.waitingChildren, id) && Partition.Fits(q, id)
    ensures Partition.Fits(r, x)
  {
    hide Partition.Count, Has, Zrem, Partition.InList, Partition.InSet;
    Partition.ZremPlaces(q.at, id, x);
    var u := q.(at := q.at.(waitingChildren := Zrem(q.at.waitingChildren, id)));
    Partition.PushPlaces(u, id, x);
    assert r.at == PushRight(u, id).at;
    Partition.CountParts(q.at, id);
    Partition.PresentInSet(q.at.waitingChildren, id);
  }

  lemma FreedPartitioned(q: Queue, r: Queue, id: JobId)
    requires Partition.Partitioned(q) && Freed(q, r, id) && Has(q.at.waitingChildren, id)
    ensures Partition.Partitioned(r)
  {
    hide Partition.Fits, Has, Zrem, NextJob;
    assert Partition.Fits(q, id);
    forall x ensures Partition.Fits(r, x) {
      assert Partition.Fits(q, x);
      FreedFits(q, r, id, x);
    }
  }

  lemma UndisturbedPartitioned(q: Queue, r: Queue)
    requires Partition.Partitioned(q) && Undisturbed(q, r)
    ensures Partition.Partitioned(r)
  {
    hide Partition.Count;
    forall x ensures Partition.Fits(r, x) { assert Partition.Fits(q, x); }
  }

  /** Removing a job keeps every other queue partitioned ... */
  lemma RemovalKeepsOthersPartitioned(w: World, k: QueueId, id: JobId, j: QueueId)
    requires j != k && Partition.Partitioned(At(w, j))
    ensures Partition.Partitioned(At(RemoveJob(w, k, id), j))
  {
    hide LeaveParent, RemoveJob, ChainFrees, At, Partition.Partitioned, Freed, Undisturbed;
    RemovalIsLeaving(w, k, id, j);
    var p := LeavingFreesOnly(w, JobKey(k, id), k, j);
    if p.None? {
      UndisturbedPartitioned(At(w, j), At(RemoveJob(w, k, id), j));
    } else {
      FreedPartitioned(At(w, j), At(RemoveJob(w, k, id), j), p.value.id);
    }
  }

  /** ... and so does cleaning a list. */
  lemma {:induction false} CleaningKeepsOthersPartitioned(w: World, k: QueueId, which: Which, list: seq<JobId>,
      n: nat, limit: nat, stamp: string, scheduled: set<JobId>, j: QueueId)
    requires j != k && Partition.Partitioned(At(w, j)) && n <= ScanLength(list, limit)
    ensures Partition.Partitioned(At(CleanEntries(w, k, which, list, n, limit, stamp, scheduled).w, j))
  {
    hide RemoveJob, Partition.Partitioned, Deletable, WithList;
    if n > 0 {
      CleaningKeepsOthersPartitioned(w, k, which, list, n - 1, limit, stamp, scheduled, j);
      var c := CleanEntries(w, k, which, list, n - 1, limit, stamp, scheduled);
      var index := |list| - ScanLength(list, limit) + n - 1;
      var id := list[index];
      if (limit > 0 && |c.deleted| >= limit) || !Deletable(At(c.w, k), which, id, stamp, scheduled) { return; }
      var now := ListOf(At(c.w, k), which);
      if index >= |now| { RemovalKeepsOthersPartitioned(c.w, k, id, j); return; }
      var q := WithList(At(c.w, k), which, now[index := MARK]);
      AtUpdate(c.w, k, q, j);
      RemovalKeepsOthersPartitioned(c.w[k := q], k, id, j);
    }
  }

  // ---------------------------------------------------------------- the child is forgotten

  lemma ForgetShrinks(w: World, p: JobKey, child: JobKey, x: JobKey)
    ensures Pending(Forget(w, p, child), x) == if x == p then Pending(w, x) - {child} else Pending(w, x)
  {
  }

  lemma {:induction false} LeavingShrinks(w: World, job: JobKey, base: QueueId, x: JobKey)
    ensures Pending(LeaveParent(w, job, base), x) <= Pending(w, x)
    decreases |At(w, base).at.waitingChildren|
  {
    hide Has, Forget, Zrem, Pending, DropDedup;
    var parent := ParentOf(w, job);
    if parent.None? || !Flow.Stored(w, parent.value) || job !in Pending(w, parent.value) { return; }
    var p := parent.value;
    var f := Forget(w, p, job);
    ForgetShrinks(w, p, job, x);
    if Pending(f, p) != {} || !Waits(f, p) { return; }
    var u := f[p.queue := Unblock(At(f, p.queue), p.id)];
    SamePending(f, p.queue, Unblock(At(f, p.queue), p.id), x);
    if p.queue != base {
      SamePending(u, p.queue, MarkBase(PushRight(At(u, p.queue), p.id), At(u, p.queue).isPaused), x);
      return;
    }
    ParentWaited(w, p, job);
    UnblockShrinks(w, p, job);
    LeavingShrinks(u, p, base, x);
    var r := LeaveParent(u, p, base);
    DropShrinks(r, base, p.id, HashOf(At(w, job.queue), job.id).deid, x);
  }

  lemma SamePending(w: World, k: QueueId, r: Queue, x: JobKey)
    requires r.side.dependencies == At(w, k).side.dependencies
    ensures Pending(w[k := r], x) == Pending(w, x)
  {
  }

  lemma DropShrinks(w: World, k: QueueId, id: JobId, deid: Option<DedupId>, x: JobKey)
    ensures Pending(w[k := DropDedup(DropKeys(At(w, k), id), deid)], x) <= Pending(w, x)
  {
  }

  /** A removed job is no dependency of its parent any more. */
  lemma RemovedChildIsForgotten(w: World, job: JobKey, base: QueueId, p: JobKey)
    requires ParentOf(w, job) == Some(p) && Flow.Stored(w, p)
    ensures job !in Pending(LeaveParent(w, job, base), p)
  {
    hide Has, Forget, Zrem, Pending, DropDedup;
    LeavingShrinks(w, job, base, p);
    if job !in Pending(w, p) { return; }
    var f := Forget(w, p, job);
    ForgetShrinks(w, p, job, p);
    if Pending(f, p) != {} || !Waits(f, p) { return; }
    var u := f[p.queue := Unblock(At(f, p.queue), p.id)];
    SamePending(f, p.queue, Unblock(At(f, p.queue), p.id), p);
    if p.queue != base {
      SamePending(u, p.queue, MarkBase(PushRight(At(u, p.queue), p.id), At(u, p.queue).isPaused), p);
      return;
    }
    ParentWaited(w, p, job);
    UnblockShrinks(w, p, job);
    LeavingShrinks(u, p, base, p);
    DropShrinks(LeaveParent(u, p, base), base, p.id, HashOf(At(w, job.queue), job.id).deid, p);
  }

  // ---------------------------------------------------------------- what goes

  /** Nothing is stored of the job: no hash, no dependencies, no results of children. */
  predicate Vanished(q: Queue, id: JobId) {
    id !in q.jobs && id !in q.side.dependencies && id !in q.side.processed
  }

  lemma DropVanishes(q: Queue, id: JobId, deid: Option<DedupId>, x: JobId)
    ensures var r := DropDedup(DropKeys(q, id), deid);
      Vanished(r, id) && (Vanished(q, x) ==> Vanished(r, x)) && r.at == q.at
  {
  }

  /** Every ancestor on the chain goes with the job. */
  lemma {:induction false} ChainVanishes(w: World, base: QueueId, path: seq<JobKey>, i: nat)
    requires 0 < i < |path| && CleanList.Chain(w, base, path)
    ensures Vanished(At(LeaveParent(w, path[0], base), base), path[i].id)
    decreases |path|
  {
    hide TakesParent, Unparented, ParentOf, At, DropKeys, DropDedup, Vanished;
    var job, p := path[0], path[1];
    TakenView(w, base, job, p);
    var u := Unparented(w, p, job);
    var r := At(LeaveParent(u, p, base), base);
    if i > 1 {
      ChainGoesOn(w, base, path, 0);
      ChainVanishes(u, base, path[1..], i - 1);
    }
    DropVanishes(r, p.id, HashOf(At(w, job.queue), job.id).deid, path[i].id);
  }

  lemma TakenView(w: World, base: QueueId, job: JobKey, p: JobKey)
    requires TakesParent(w, base, job, p)
    ensures var u := Unparented(w, p, job);
      At(LeaveParent(w, job, base), base)
      == DropDedup(DropKeys(At(LeaveParent(u, p, base), base), p.id), HashOf(At(w, job.queue), job.id).deid)
  {
    hide LeaveParent, Unparented, Flow.Stored, Waits, Pending, At, DropKeys, DropDedup;
    LeaveParentCases(w, job, base);
  }

  /** Of a removed job, and of the ancestors that go with it, nothing stays behind. */
  lemma RemovedJobVanishes(w: World, k: QueueId, id: JobId, path: seq<JobKey>, i: nat)
    requires path != [] && path[0] == JobKey(k, id) && CleanList.Chain(w, k, path) && i < |path|
    ensures Vanished(At(RemoveJob(w, k, id), k), path[i].id)
  {
    hide LeaveParent, CleanList.Chain;
    var r := LeaveParent(w, JobKey(k, id), k);
    if i > 0 { ChainVanishes(w, k, path, i); }
  }
}

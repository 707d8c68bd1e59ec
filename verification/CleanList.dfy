/** Cleaning a list: entries are overwritten by tombstones while their jobs are removed, then the
    tombstones are dropped. The outcome is a filter of the list, although removing a job may
    remove or release its ancestors on the way. */
module CleanList {
  import opened Redis
  import opened Queue
  import opened Decimals
  import opened Flow
  import Machine
  import Partition

  /** The deletion marker is the empty string. */
  const MARK: JobId := 0

  datatype Which = Wait | Paused | Active

  function ListOf(q: Queue, which: Which): seq<JobId> {
    match which case Wait => q.at.wait case Paused => q.at.paused case Active => q.at.active
  }

  function WithList(q: Queue, which: Which, list: seq<JobId>): Queue {
    match which
    case Wait => q.(at := q.at.(wait := list))
    case Paused => q.(at := q.at.(paused := list))
    case Active => q.(at := q.at.(active := list))
  }

  // ---------------------------------------------------------------- removing a job

  /** removeJobKeys; the lock key stays. */
  function DropKeys(q: Queue, id: JobId): Queue {
    q.(jobs := q.jobs - {id},
       side := q.side.(dependencies := q.side.dependencies - {id}, processed := q.side.processed - {id}))
  }

  function DropDedup(q: Queue, deid: Option<DedupId>): Queue {
    if deid.None? then q else q.(side := q.side.(dedup := q.side.dedup - {deid.value}))
  }

  function Unblock(q: Queue, id: JobId): Queue {
    q.(at := q.at.(waitingChildren := Zrem(q.at.waitingChildren, id)))
  }

  /** SREM on the dependencies of `p`; Redis drops a set that becomes empty. */
  function Forget(w: World, p: JobKey, child: JobKey): World {
    var q := At(w, p.queue);
    var left := PendingChildren(q, p.id) - {child};
    w[p.queue := q.(side := q.side.(dependencies :=
      if left == {} then q.side.dependencies - {p.id} else q.side.dependencies[p.id := left]))]
  }

  lemma UnblockShrinks(w: World, p: JobKey, child: JobKey)
    requires Waits(w, p)
    ensures var f := Forget(w, p, child);
      var u := f[p.queue := Unblock(At(f, p.queue), p.id)];
      |At(u, p.queue).at.waitingChildren| < |At(w, p.queue).at.waitingChildren|
  {
    hide Has, Zrem;
    ZremShorter(At(w, p.queue).at.waitingChildren, p.id);
  }

  lemma {:induction false} ZremShorter(z: Zset, m: nat)
    ensures |Zrem(z, m)| <= |z| && (Has(z, m) ==> |Zrem(z, m)| < |z|)
  {
    if z != [] { ZremShorter(z[1..], m); }
  }

  /** removeParentDependencyKey with hard removal: the parent loses the child; without children
      left it is removed as well if it is in queue `base`, else it is released. */
  function LeaveParent(w: World, job: JobKey, base: QueueId): World
    decreases |At(w, base).at.waitingChildren|
  {
    var parent := ParentOf(w, job);
    if parent.None? || !Flow.Stored(w, parent.value) || job !in Pending(w, parent.value) then w
    else
      var p := parent.value;
      var f := Forget(w, p, job);
      if Pending(f, p) != {} || !Waits(f, p) then f
      else
        var u := f[p.queue := Unblock(At(f, p.queue), p.id)];
        if p.queue != base then u[p.queue := MarkBase(PushRight(At(u, p.queue), p.id), At(u, p.queue).isPaused)]
        else
          UnblockShrinks(w, p, job);
          var r := LeaveParent(u, p, base);
          r[base := DropDedup(DropKeys(At(r, base), p.id), HashOf(At(w, job.queue), job.id).deid)]
  }

  /** removeJob for a job of queue `k`. */
  function RemoveJob(w: World, k: QueueId, id: JobId): World {
    var r := LeaveParent(w, JobKey(k, id), k);
    r[k := DropKeys(ReleaseDedup(At(r, k), id), id)]
  }

  // ---------------------------------------------------------------- the cleaning loop

  /** finishedOn, else the time the job was added; nothing for a missing hash. */
  function TimeOf(q: Queue, id: JobId): Option<nat> {
    if id !in q.jobs then None
    else if q.jobs[id].finishedOn.Some? then q.jobs[id].finishedOn
    else Some(q.jobs[id].timestamp)
  }

  /** What the loop asks of a job; `scheduled` are the jobs their schedulers point at. The times
      are compared as strings. */
  predicate Deletable(q: Queue, which: Which, id: JobId, stamp: string, scheduled: set<JobId>) {
    && (which != Active || id !in q.locks)
    && !(id in q.jobs && id in scheduled)
    && (TimeOf(q, id).Some? ==> TextLe(Decimal(TimeOf(q, id).value), stamp))
  }

  /** How many entries LRANGE yields: the last `limit`, or all. */
  function ScanLength(list: seq<JobId>, limit: nat): (n: nat)
    ensures n <= |list|
  {
    if limit > 0 then Min(limit, |list|) else |list|
  }

  datatype Cleaning = Cleaning(w: World, deleted: seq<JobId>)

  /** The loop over the first `n` scanned entries of `list`, the list as it was. */
  function CleanEntries(w: World, k: QueueId, which: Which, list: seq<JobId>, n: nat,
                        limit: nat, stamp: string, scheduled: set<JobId>): Cleaning
    requires n <= ScanLength(list, limit)
  {
    if n == 0 then Cleaning(w, [])
    else
      var c := CleanEntries(w, k, which, list, n - 1, limit, stamp, scheduled);
      var index := |list| - ScanLength(list, limit) + n - 1;
      var id := list[index];
      var now := ListOf(At(c.w, k), which);
      if (limit > 0 && |c.deleted| >= limit) || !Deletable(At(c.w, k), which, id, stamp, scheduled) then c
      else if index >= |now| then Cleaning(RemoveJob(c.w, k, id), c.deleted + [id])
      else
        Cleaning(RemoveJob(c.w[k := WithList(At(c.w, k), which, now[index := MARK])], k, id), c.deleted + [id])
  }

  /** cleanList */
  function Clean(w: World, k: QueueId, which: Which, limit: nat, stamp: string, scheduled: set<JobId>): Cleaning {
    var list := ListOf(At(w, k), which);
    var c := CleanEntries(w, k, which, list, ScanLength(list, limit), limit, stamp, scheduled);
    Cleaning(c.w[k := WithList(At(c.w, k), which, RemoveAll(ListOf(At(c.w, k), which), MARK))], c.deleted)
  }

  // ---------------------------------------------------------------- removal leaves the lists alone

  /** What removing jobs of queue `base` does to it, as seen from `x`: lists and locks stay, and
      only waiting parents go with a job. */
  predicate Trimmed(q: Queue, r: Queue, x: JobId) {
    && r.at.wait == q.at.wait && r.at.paused == q.at.paused && r.at.active == q.at.active
    && r.at.prioritized == q.at.prioritized && r.at.delayed == q.at.delayed
    && r.at.completed == q.at.completed && r.at.failed == q.at.failed
    && r.locks == q.locks && r.stalled == q.stalled && r.isPaused == q.isPaused
    && (Has(r.at.waitingChildren, x) ==> Has(q.at.waitingChildren, x))
    && (x in r.jobs ==> x in q.jobs && r.jobs[x] == q.jobs[x])
    && (x in q.jobs && !Has(q.at.waitingChildren, x) ==> x in r.jobs)
  }

  lemma TrimmedTwice(q: Queue, r: Queue, s: Queue, x: JobId)
    requires Trimmed(q, r, x) && Trimmed(r, s, x)
    ensures Trimmed(q, s, x)
  {
    hide Has;
  }

  lemma ForgetTrims(w: World, p: JobKey, child: JobKey, base: QueueId, x: JobId)
    ensures Trimmed(At(w, base), At(Forget(w, p, child), base), x)
  {
    hide Has;
  }

  lemma UnblockTrims(q: Queue, id: JobId, x: JobId)
    ensures Trimmed(q, Unblock(q, id), x) && !Has(Unblock(q, id).at.waitingChildren, id)
  {
    hide Has, Zrem;
    ZremHas(q.at.waitingChildren, id, x);
    ZremHas(q.at.waitingChildren, id, id);
  }

  lemma {:induction false} LeaveParentTrims(w: World, job: JobKey, base: QueueId, x: JobId)
    ensures Trimmed(At(w, base), At(LeaveParent(w, job, base), base), x)
    decreases |At(w, base).at.waitingChildren|
  {
    hide Has, Forget, Unblock, Pending, ParentOf, Flow.Stored, Trimmed, DropKeys, DropDedup, Waits;
    SameTrimmed(At(w, base), x);
    var parent := ParentOf(w, job);
    if parent.None? || !Flow.Stored(w, parent.value) || job !in Pending(w, parent.value) { return; }
    var p := parent.value;
    var f := Forget(w, p, job);
    ForgetTrims(w, p, job, base, x);
    if Pending(f, p) != {} || !Waits(f, p) { return; }
    var u := f[p.queue := Unblock(At(f, p.queue), p.id)];
    if p.queue != base {
      assert At(LeaveParent(w, job, base), base) == At(f, base);
      return;
    }
    assert At(u, base) == Unblock(At(f, base), p.id);
    UnblockTrims(At(f, base), p.id, x);
    TrimmedTwice(At(w, base), At(f, base), At(u, base), x);
    ParentWaited(w, p, job);
    UnblockShrinks(w, p, job);
    LeaveParentTrims(u, p, base, x);
    var r := LeaveParent(u, p, base);
    TrimmedTwice(At(w, base), At(u, base), At(r, base), x);
    DropTrims(w, p, At(r, base), HashOf(At(w, job.queue), job.id).deid, x);
  }

  lemma SameTrimmed(q: Queue, x: JobId)
    ensures Trimmed(q, q, x)
  {
  }

  lemma DropTrims(w: World, p: JobKey, q: Queue, deid: Option<DedupId>, x: JobId)
    requires Trimmed(At(w, p.queue), q, x) && Waits(w, p)
    ensures Trimmed(At(w, p.queue), DropDedup(DropKeys(q, p.id), deid), x)
  {
    hide Has;
  }

  lemma ParentWaited(w: World, p: JobKey, child: JobKey)
    ensures Waits(Forget(w, p, child), p) <==> Waits(w, p)
  {
    hide Has;
  }

  /** Removing a job takes its hash and leaves every list of its queue as it is. */
  lemma RemoveJobTrims(w: World, k: QueueId, id: JobId, x: JobId)
    ensures var q, r := At(w, k), At(RemoveJob(w, k, id), k);
      && (x != id ==> Trimmed(q, r, x)) && id !in r.jobs
      && r.at.wait == q.at.wait && r.at.paused == q.at.paused && r.at.active == q.at.active && r.locks == q.locks
      && (Has(r.at.waitingChildren, x) ==> Has(q.at.waitingChildren, x))
  {
    hide LeaveParent, Has;
    LeaveParentTrims(w, JobKey(k, id), k, x);
  }

  // ---------------------------------------------------------------- which deduplication keys go

  /** Removing `child` takes its parent with it: the parent is of queue `base`, stored, waiting, and
      has no other pending child. */
  predicate TakesParent(w: World, base: QueueId, child: JobKey, p: JobKey) {
    && ParentOf(w, child) == Some(p) && p.queue == base && Flow.Stored(w, p) && Waits(w, p)
    && Pending(w, p) == {child}
  }

  /** A job and the ancestors that go with it, one by one. */
  predicate Chain(w: World, base: QueueId, path: seq<JobKey>) {
    && (forall i :: 0 < i < |path| ==> TakesParent(w, base, path[i - 1], path[i]))
    && (forall i, j :: 0 < i < j < |path| ==> path[i] != path[j])
  }

  /** Some job on the way, whose parent goes with it, names `d` in its hash. */
  predicate Passes(w: World, path: seq<JobKey>, d: DedupId) {
    |path| >= 2 && HashOf(At(w, path[|path| - 2].queue), path[|path| - 2].id).deid == Some(d)
  }

  ghost predicate ChainCarries(w: World, base: QueueId, job: JobKey, d: DedupId) {
    exists path: seq<JobKey> :: path != [] && path[0] == job && Chain(w, base, path) && Passes(w, path, d)
  }

  /** The world in which the removal goes on from the parent. */
  function Unparented(w: World, p: JobKey, child: JobKey): World {
    var f := Forget(w, p, child);
    f[p.queue := Unblock(At(f, p.queue), p.id)]
  }

  lemma LeaveParentCases(w: World, job: JobKey, base: QueueId)
    ensures var parent := ParentOf(w, job);
      if parent.Some? && TakesParent(w, base, job, parent.value) then
        var u := Unparented(w, parent.value, job);
        && |At(u, base).at.waitingChildren| < |At(w, base).at.waitingChildren|
        && At(LeaveParent(w, job, base), base)
           == DropDedup(DropKeys(At(LeaveParent(u, parent.value, base), base), parent.value.id),
                        HashOf(At(w, job.queue), job.id).deid)
      else
        && At(LeaveParent(w, job, base), base).side.dedup == At(w, base).side.dedup
        && At(LeaveParent(w, job, base), base).jobs == At(w, base).jobs
  {
    hide Has, DropKeys, DropDedup, Zrem;
    var parent := ParentOf(w, job);
    if parent.None? || !Flow.Stored(w, parent.value) || job !in Pending(w, parent.value) { return; }
    var p := parent.value;
    ForgetView(w, p, job);
    if Pending(w, p) != {job} || !Waits(w, p) { return; }
    if p.queue != base { return; }
    UnblockShrinks(w, p, job);
  }

  lemma ForgetView(w: World, p: JobKey, child: JobKey)
    ensures var f := Forget(w, p, child);
      && Pending(f, p) == Pending(w, p) - {child} && (Waits(f, p) <==> Waits(w, p))
      && (forall k :: At(f, k).jobs == At(w, k).jobs && At(f, k).side.dedup == At(w, k).side.dedup)
  {
    hide Has;
  }

  /** Going on from the parent changes nothing that other ancestors are judged by. */
  lemma UnparentedView(w: World, p: JobKey, child: JobKey, x: JobKey)
    ensures var u := Unparented(w, p, child);
      && ParentOf(u, x) == ParentOf(w, x) && (Flow.Stored(u, x) <==> Flow.Stored(w, x))
      && HashOf(At(u, x.queue), x.id) == HashOf(At(w, x.queue), x.id)
      && At(u, x.queue).side.dedup == At(w, x.queue).side.dedup
      && (x != p ==> Pending(u, x) == Pending(w, x) && (Waits(u, x) <==> Waits(w, x)))
      && (x == p ==> !Waits(u, x))
  {
    hide Has, Zrem;
    ZremHas(At(w, p.queue).at.waitingChildren, p.id, x.id);
  }

  lemma ChainGoesOn(w: World, base: QueueId, path: seq<JobKey>, d: DedupId)
    requires |path| >= 2 && Chain(w, base, path)
    ensures var u := Unparented(w, path[1], path[0]);
      Chain(u, base, path[1..]) && (|path| >= 3 ==> (Passes(u, path[1..], d) <==> Passes(w, path, d)))
  {
    hide Unparented, ParentOf, Flow.Stored, Waits, Pending, HashOf, At;
    var u, rest := Unparented(w, path[1], path[0]), path[1..];
    forall i | 0 < i < |rest| ensures TakesParent(u, base, rest[i - 1], rest[i]) {
      assert TakesParent(w, base, path[i], path[i + 1]) && path[1] != path[i + 1];
      UnparentedView(w, path[1], path[0], path[i]);
      UnparentedView(w, path[1], path[0], path[i + 1]);
    }
    forall i, j | 0 < i < j < |rest| ensures rest[i] != rest[j] { assert path[i + 1] != path[j + 1]; }
    UnparentedView(w, path[1], path[0], path[|path| - 2]);
  }

  lemma ChainExtends(w: World, base: QueueId, job: JobKey, p: JobKey, rest: seq<JobKey>)
    requires TakesParent(w, base, job, p) && rest != [] && rest[0] == p && Chain(Unparented(w, p, job), base, rest)
    ensures Chain(w, base, [job] + rest)
  {
    hide Unparented, ParentOf, Flow.Stored, Waits, Pending, HashOf, At;
    var u, path := Unparented(w, p, job), [job] + rest;
    forall i | 0 < i < |rest| ensures rest[i] != p && TakesParent(w, base, rest[i - 1], rest[i]) {
      assert TakesParent(u, base, rest[i - 1], rest[i]);
      UnparentedView(w, p, job, rest[i - 1]);
      UnparentedView(w, p, job, rest[i]);
    }
    forall i | 0 < i < |path| ensures TakesParent(w, base, path[i - 1], path[i]) {
      if i > 1 { assert TakesParent(w, base, rest[i - 2], rest[i - 1]); }
    }
  }

  lemma ChainComesFrom(w: World, base: QueueId, job: JobKey, p: JobKey, rest: seq<JobKey>, d: DedupId)
    requires TakesParent(w, base, job, p) && rest != [] && rest[0] == p
    requires Chain(Unparented(w, p, job), base, rest) && Passes(Unparented(w, p, job), rest, d)
    ensures Chain(w, base, [job] + rest) && Passes(w, [job] + rest, d)
  {
    hide Unparented, ParentOf, Flow.Stored, Waits, Pending, HashOf, At, TakesParent, Chain;
    ChainExtends(w, base, job, p, rest);
    UnparentedView(w, p, job, rest[|rest| - 2]);
  }

  /** Leaving the parent drops a key if and only if the chain of ancestors that go passes through a
      job that names it, whoever holds it. */
  lemma {:induction false} LeavingDropsKeyIff(w: World, job: JobKey, base: QueueId, d: DedupId)
    requires d in At(w, base).side.dedup
    ensures var r := At(LeaveParent(w, job, base), base).side.dedup;
      && (d !in r <==> ChainCarries(w, base, job, d))
      && (d in r ==> r[d] == At(w, base).side.dedup[d])
    decreases |At(w, base).at.waitingChildren|
  {
    hide LeaveParent, TakesParent, Unparented, Chain, Passes, ParentOf, At, DropKeys;
    LeaveParentCases(w, job, base);
    var parent := ParentOf(w, job);
    if parent.None? || !TakesParent(w, base, job, parent.value) {
      forall path: seq<JobKey> | path != [] && path[0] == job && Chain(w, base, path) && Passes(w, path, d)
        ensures false
      {
        NoChain(w, base, path, d);
      }
      return;
    }
    var p := parent.value;
    var u := Unparented(w, p, job);
    OfQueue(w, base, job, p);
    UnparentedView(w, p, job, p);
    LeavingDropsKeyIff(u, p, base, d);
    DropsOnly(At(LeaveParent(u, p, base), base), p.id, HashOf(At(w, job.queue), job.id).deid, d);
    if ChainCarries(u, base, p, d) {
      var rest: seq<JobKey> :| rest != [] && rest[0] == p && Chain(u, base, rest) && Passes(u, rest, d);
      ChainComesFrom(w, base, job, p, rest, d);
      assert ([job] + rest)[0] == job;
    }
    if HashOf(At(w, job.queue), job.id).deid == Some(d) { OneStepCarries(w, base, job, p, d); }
    forall path: seq<JobKey> | path != [] && path[0] == job && Chain(w, base, path) && Passes(w, path, d)
      ensures HashOf(At(w, job.queue), job.id).deid == Some(d) || ChainCarries(u, base, p, d)
    {
      NextIsParent(w, base, path, d);
      if |path| > 2 { ChainGoesOn(w, base, path, d); }
    }
  }

  lemma OfQueue(w: World, base: QueueId, job: JobKey, p: JobKey)
    requires TakesParent(w, base, job, p)
    ensures p.queue == base
  {
    hide ParentOf, Flow.Stored, Waits, Pending;
  }

  lemma NoChain(w: World, base: QueueId, path: seq<JobKey>, d: DedupId)
    requires path != [] && Chain(w, base, path) && Passes(w, path, d)
    ensures ParentOf(w, path[0]).Some? && TakesParent(w, base, path[0], ParentOf(w, path[0]).value)
  {
    hide ParentOf, Flow.Stored, Waits, Pending, HashOf, At;
    assert TakesParent(w, base, path[0], path[1]);
  }

  lemma NextIsParent(w: World, base: QueueId, path: seq<JobKey>, d: DedupId)
    requires path != [] && Chain(w, base, path) && Passes(w, path, d)
    ensures |path| >= 2 && ParentOf(w, path[0]) == Some(path[1])
    ensures |path| == 2 ==> HashOf(At(w, path[0].queue), path[0].id).deid == Some(d)
  {
    hide ParentOf, Flow.Stored, Waits, Pending, HashOf, At;
    assert TakesParent(w, base, path[0], path[1]);
  }

  lemma OneStepCarries(w: World, base: QueueId, job: JobKey, p: JobKey, d: DedupId)
    requires TakesParent(w, base, job, p) && HashOf(At(w, job.queue), job.id).deid == Some(d)
    ensures ChainCarries(w, base, job, d)
  {
    hide TakesParent, HashOf, At;
    var path := [job, p];
    assert path[0] == job && Chain(w, base, path) && Passes(w, path, d);
  }

  lemma DropsOnly(q: Queue, id: JobId, deid: Option<DedupId>, d: DedupId)
    ensures var r := DropDedup(DropKeys(q, id), deid).side.dedup;
      && (d in r <==> d in q.side.dedup && deid != Some(d)) && (d in r ==> r[d] == q.side.dedup[d])
  {
  }

  /** Main result on keys: removing a job drops the deduplication key of `d` if and only if the job
      itself holds it, or the chain of ancestors that go with it passes through a job that names it,
      whoever holds it. */
  lemma RemovalDropsKeyIff(w: World, k: QueueId, id: JobId, d: DedupId)
    requires d in At(w, k).side.dedup
    ensures d !in At(RemoveJob(w, k, id), k).side.dedup <==>
      || (HashOf(At(w, k), id).deid == Some(d) && At(w, k).side.dedup[d] == id)
      || ChainCarries(w, k, JobKey(k, id), d)
  {
    hide LeaveParent, TakesParent, Chain, Passes, ParentOf, ChainCarries, Has;
    var job := JobKey(k, id);
    var r := LeaveParent(w, job, k);
    LeavingDropsKeyIff(w, job, k, d);
    LeaveParentTrims(w, job, k, id);
    LeaveParentCases(w, job, k);
    if HashOf(At(r, k), id) != HashOf(At(w, k), id) {
      var p := ParentOf(w, job).value;
      if HashOf(At(w, k), id).deid == Some(d) { OneStepCarries(w, k, job, p, d); }
    }
  }

  // ---------------------------------------------------------------- the loop as a filter

  /** Entries at or after `from` that `gone` says are deleted become tombstones. */
  function Buried(list: seq<JobId>, gone: set<nat>): seq<JobId> {
    seq(|list|, i requires 0 <= i < |list| => if i in gone then MARK else list[i])
  }

  /** The list without the positions in `gone`, order kept. */
  function Without(list: seq<JobId>, gone: set<nat>, n: nat): seq<JobId>
    requires n <= |list|
  {
    if n == 0 then []
    else Without(list, gone, n - 1) + (if n - 1 in gone then [] else [list[n - 1]])
  }

  /** The entries at the positions in `gone`, in order. */
  function Picked(list: seq<JobId>, gone: set<nat>, n: nat): seq<JobId>
    requires n <= |list|
  {
    if n == 0 then []
    else Picked(list, gone, n - 1) + (if n - 1 in gone then [list[n - 1]] else [])
  }

  /** Dropping the tombstones leaves the list without the deleted positions. */
  lemma {:induction false} ExhumedIsWithout(list: seq<JobId>, gone: set<nat>, n: nat)
    requires n <= |list| && MARK !in list
    ensures RemoveAll(Buried(list, gone)[..n], MARK) == Without(list, gone, n)
  {
    if n > 0 {
      ExhumedIsWithout(list, gone, n - 1);
      var b := Buried(list, gone);
      assert b[..n] == b[..n - 1] + [b[n - 1]];
      RemoveAllConcat(b[..n - 1], [b[n - 1]], MARK);
      assert RemoveAll([b[n - 1]], MARK) == if b[n - 1] == MARK then [] else [b[n - 1]];
    }
  }

  /** The positions the original queue's jobs allow to delete, among the first `n` scanned. */
  function Gone(q: Queue, which: Which, n: nat, limit: nat, stamp: string, scheduled: set<JobId>): set<nat>
    requires n <= ScanLength(ListOf(q, which), limit)
  {
    var list := ListOf(q, which);
    var from := |list| - ScanLength(list, limit);
    set i | from <= i < from + n && Deletable(q, which, list[i], stamp, scheduled)
  }

  /** Every job is at one place of the list only, and none of them waits for children. */
  predicate Listed(q: Queue, which: Which) {
    var list := ListOf(q, which);
    && MARK !in list
    && (forall i, j :: 0 <= i < j < |list| ==> list[i] != list[j])
    && (forall i :: 0 <= i < |list| ==> !Has(q.at.waitingChildren, list[i]))
  }

  /** In a partitioned queue every list is of this kind. */
  lemma PartitionedIsListed(q: Queue, which: Which)
    requires Partition.Partitioned(q) && MARK !in ListOf(q, which)
    ensures Listed(q, which)
  {
    hide Partition.Count, Partition.InSet, Partition.InList;
    var list := ListOf(q, which);
    forall i, j | 0 <= i < j < |list| ensures list[i] != list[j] {
      if list[i] == list[j] {
        PartitionedOnce(q, which, list[i]);
        TwiceCounts(list, i, j);
      }
    }
    forall i | 0 <= i < |list| ensures !Has(q.at.waitingChildren, list[i]) { PartitionedOnce(q, which, list[i]); }
  }

  lemma PartitionedOnce(q: Queue, which: Which, x: JobId)
    requires Partition.Partitioned(q)
    ensures Partition.InList(ListOf(q, which), x) <= 1
    ensures x in ListOf(q, which) ==> !Has(q.at.waitingChildren, x)
  {
    hide Partition.Count, Partition.InSet, Partition.InList;
    assert Partition.Fits(q, x);
    Partition.CountParts(q.at, x);
    Partition.Present(q.at.wait, x); Partition.Present(q.at.paused, x); Partition.Present(q.at.active, x);
    Partition.PresentInSet(q.at.waitingChildren, x);
  }

  lemma TwiceCounts(list: seq<JobId>, i: nat, j: nat)
    requires i < j < |list| && list[i] == list[j]
    ensures Partition.InList(list, list[i]) >= 2
  {
    assert list == list[..j] + list[j..];
    assert list[i] in list[..j] && list[j] in list[j..];
  }

  /** What the loop has done after `n` entries. */
  ghost predicate Progress(w: World, k: QueueId, which: Which, n: nat, limit: nat, stamp: string, scheduled: set<JobId>,
                     c: Cleaning)
  {
    var q, r := At(w, k), At(c.w, k);
    var list := ListOf(q, which);
    n <= ScanLength(list, limit) &&
    var gone := Gone(q, which, n, limit, stamp, scheduled);
    && ListOf(r, which) == Buried(list, gone)
    && c.deleted == Picked(list, gone, |list| - ScanLength(list, limit) + n)
    && r.locks == q.locks
    && (forall x :: Kept(q, r, c.deleted, x))
  }

  /** As seen from `x`: its hash is dropped if it was deleted, and else kept unless it was waiting
      for children. */
  predicate Kept(q: Queue, r: Queue, deleted: seq<JobId>, x: JobId) {
    && (x in deleted ==> x !in r.jobs)
    && (x in r.jobs ==> x in q.jobs && r.jobs[x] == q.jobs[x])
    && (x in q.jobs && x !in deleted && !Has(q.at.waitingChildren, x) ==> x in r.jobs)
    && (Has(r.at.waitingChildren, x) ==> Has(q.at.waitingChildren, x))
  }

  lemma {:induction false} PickedLength(list: seq<JobId>, gone: set<nat>, from: nat, n: nat)
    requires from + n <= |list| && forall i :: i in gone ==> from <= i
    ensures |Picked(list, gone, from + n)| <= n && (n == 0 ==> Picked(list, gone, from) == [])
    decreases from + n
  {
    if n > 0 { PickedLength(list, gone, from, n - 1); }
    else if from > 0 { PickedLength(list, gone, from - 1, 0); }
  }

  lemma {:induction false} PickedFrom(list: seq<JobId>, gone: set<nat>, n: nat, x: JobId)
    requires n <= |list| && x in Picked(list, gone, n)
    ensures exists i :: 0 <= i < n && i in gone && list[i] == x
  {
    if x !in Picked(list, gone, n - 1) {
      assert n - 1 in gone && list[n - 1] == x;
    } else {
      PickedFrom(list, gone, n - 1, x);
    }
  }

  lemma {:induction false} PickedAgree(list: seq<JobId>, a: set<nat>, b: set<nat>, n: nat)
    requires n <= |list| && forall i :: 0 <= i < n ==> (i in a <==> i in b)
    ensures Picked(list, a, n) == Picked(list, b, n)
  {
    if n > 0 { PickedAgree(list, a, b, n - 1); }
  }

  lemma BuriedAt(list: seq<JobId>, gone: set<nat>, i: nat)
    requires i < |list|
    ensures |Buried(list, gone)| == |list| && Buried(list, gone)[i := MARK] == Buried(list, gone + {i})
  {
  }

  lemma GoneGrows(q: Queue, which: Which, n: nat, limit: nat, stamp: string, scheduled: set<JobId>)
    requires 0 < n <= ScanLength(ListOf(q, which), limit)
    ensures var list := ListOf(q, which);
      var index := |list| - ScanLength(list, limit) + n - 1;
      var before := Gone(q, which, n - 1, limit, stamp, scheduled);
      && Gone(q, which, n, limit, stamp, scheduled)
         == before + (if Deletable(q, which, list[index], stamp, scheduled) then {index} else {})
      && index !in before && forall i :: i in before ==> |list| - ScanLength(list, limit) <= i < index
  {
    hide Deletable, ScanLength;
  }

  lemma PickedGrows(list: seq<JobId>, before: set<nat>, index: nat, add: bool)
    requires index < |list| && forall i :: i in before ==> i < index
    ensures Picked(list, before + (if add then {index} else {}), index + 1)
         == Picked(list, before, index) + (if add then [list[index]] else [])
  {
    PickedAgree(list, before + (if add then {index} else {}), before, index);
  }

  /** A job still to be looked at is judged as at the start. */
  lemma JudgedAlike(q: Queue, r: Queue, deleted: seq<JobId>, which: Which, id: JobId, stamp: string,
      scheduled: set<JobId>)
    requires Kept(q, r, deleted, id) && r.locks == q.locks && id !in deleted && !Has(q.at.waitingChildren, id)
    ensures Deletable(r, which, id, stamp, scheduled) <==> Deletable(q, which, id, stamp, scheduled)
  {
    hide Has, TextLe, Decimal;
  }

  lemma WithListFrame(q: Queue, which: Which, list: seq<JobId>)
    ensures var r := WithList(q, which, list);
      && ListOf(r, which) == list && r.jobs == q.jobs && r.locks == q.locks && r.side == q.side
      && r.at.waitingChildren == q.at.waitingChildren
  {
  }

  lemma RemoveJobKeeps(w: World, k: QueueId, which: Which, id: JobId, q: Queue, deleted: seq<JobId>, x: JobId)
    requires Kept(q, At(w, k), deleted, x)
    ensures var r := At(RemoveJob(w, k, id), k);
      Kept(q, r, deleted + [id], x) && ListOf(r, which) == ListOf(At(w, k), which) && r.locks == At(w, k).locks
  {
    hide RemoveJob, Has;
    RemoveJobTrims(w, k, id, x);
  }

  lemma KeptAlike(q: Queue, r: Queue, s: Queue, deleted: seq<JobId>, x: JobId)
    requires Kept(q, r, deleted, x) && s.jobs == r.jobs && s.at.waitingChildren == r.at.waitingChildren
    ensures Kept(q, s, deleted, x)
  {
  }

  /** The entry under the loop has not been deleted, and is judged as at the start. */
  lemma NextIsJudgedAlike(w: World, k: QueueId, which: Which, n: nat, limit: nat, stamp: string,
                          scheduled: set<JobId>, c: Cleaning)
    requires Listed(At(w, k), which) && 0 < n <= ScanLength(ListOf(At(w, k), which), limit)
    requires Progress(w, k, which, n - 1, limit, stamp, scheduled, c)
    ensures var list := ListOf(At(w, k), which);
      var id := list[|list| - ScanLength(list, limit) + n - 1];
      && (Deletable(At(c.w, k), which, id, stamp, scheduled) <==> Deletable(At(w, k), which, id, stamp, scheduled))
      && |c.deleted| < n
  {
    hide Has, Deletable, Gone, Picked, Buried, Kept, At, ScanLength;
    var q := At(w, k);
    var list := ListOf(q, which);
    var from := |list| - ScanLength(list, limit);
    var id := list[from + n - 1];
    var before := Gone(q, which, n - 1, limit, stamp, scheduled);
    GoneGrows(q, which, n, limit, stamp, scheduled);
    PickedLength(list, before, from, n - 1);
    if id in c.deleted {
      PickedFrom(list, before, from + n - 1, id);
      assert false;
    }
    assert Kept(q, At(c.w, k), c.deleted, id);
    JudgedAlike(q, At(c.w, k), c.deleted, which, id, stamp, scheduled);
  }

  lemma SkipKeepsProgress(w: World, k: QueueId, which: Which, n: nat, limit: nat, stamp: string,
                          scheduled: set<JobId>, c: Cleaning)
    requires 0 < n <= ScanLength(ListOf(At(w, k), which), limit)
    requires Progress(w, k, which, n - 1, limit, stamp, scheduled, c)
    requires var list := ListOf(At(w, k), which);
      !Deletable(At(w, k), which, list[|list| - ScanLength(list, limit) + n - 1], stamp, scheduled)
    ensures Progress(w, k, which, n, limit, stamp, scheduled, c)
  {
    hide Deletable, Gone, Picked, Buried, Kept, At, ScanLength, ListOf;
    var list := ListOf(At(w, k), which);
    var index := |list| - ScanLength(list, limit) + n - 1;
    var before := Gone(At(w, k), which, n - 1, limit, stamp, scheduled);
    GoneGrows(At(w, k), which, n, limit, stamp, scheduled);
    PickedGrows(list, before, index, false);
    assert before + {} == before;
  }

  lemma DeleteKeepsProgress(w: World, k: QueueId, which: Which, n: nat, limit: nat, stamp: string,
                            scheduled: set<JobId>, c: Cleaning)
    requires 0 < n <= ScanLength(ListOf(At(w, k), which), limit)
    requires Progress(w, k, which, n - 1, limit, stamp, scheduled, c)
    requires var list := ListOf(At(w, k), which);
      Deletable(At(w, k), which, list[|list| - ScanLength(list, limit) + n - 1], stamp, scheduled)
    ensures var list := ListOf(At(w, k), which);
      var index := |list| - ScanLength(list, limit) + n - 1;
      var now := ListOf(At(c.w, k), which);
      && |now| == |list|
      && Progress(w, k, which, n, limit, stamp, scheduled,
                  Cleaning(RemoveJob(c.w[k := WithList(At(c.w, k), which, now[index := MARK])], k, list[index]),
                           c.deleted + [list[index]]))
  {
    hide Deletable, Gone, Picked, Buried, Kept, At, ScanLength, ListOf, RemoveJob, WithList;
    var q, r := At(w, k), At(c.w, k);
    var list := ListOf(q, which);
    var index := |list| - ScanLength(list, limit) + n - 1;
    var id, before := list[index], Gone(q, which, n - 1, limit, stamp, scheduled);
    GoneGrows(q, which, n, limit, stamp, scheduled);
    BuriedAt(list, before, index);
    PickedGrows(list, before, index, true);
    var marked := WithList(r, which, ListOf(r, which)[index := MARK]);
    var m := c.w[k := marked];
    AtUpdate(c.w, k, marked, k);
    WithListFrame(r, which, ListOf(r, which)[index := MARK]);
    var s := At(RemoveJob(m, k, id), k);
    forall x ensures Kept(q, s, c.deleted + [id], x) {
      assert Kept(q, r, c.deleted, x);
      KeptAlike(q, r, marked, c.deleted, x);
      RemoveJobKeeps(m, k, which, id, q, c.deleted, x);
    }
    assert Kept(q, r, c.deleted, 0);
    KeptAlike(q, r, marked, c.deleted, 0);
    RemoveJobKeeps(m, k, which, id, q, c.deleted, 0);
  }

  lemma {:induction false} CleanProgress(w: World, k: QueueId, which: Which, n: nat, limit: nat, stamp: string,
                                         scheduled: set<JobId>)
    requires Listed(At(w, k), which) && n <= ScanLength(ListOf(At(w, k), which), limit)
    ensures var list := ListOf(At(w, k), which);
      Progress(w, k, which, n, limit, stamp, scheduled, CleanEntries(w, k, which, list, n, limit, stamp, scheduled))
  {
    hide Progress, Listed, Deletable, RemoveJob, WithList, ListOf, At;
    var list := ListOf(At(w, k), which);
    if n == 0 {
      NothingDone(w, k, which, limit, stamp, scheduled);
      return;
    }
    var c := CleanEntries(w, k, which, list, n - 1, limit, stamp, scheduled);
    CleanProgress(w, k, which, n - 1, limit, stamp, scheduled);
    NextIsJudgedAlike(w, k, which, n, limit, stamp, scheduled, c);
    if Deletable(At(w, k), which, list[|list| - ScanLength(list, limit) + n - 1], stamp, scheduled) {
      DeleteKeepsProgress(w, k, which, n, limit, stamp, scheduled, c);
    } else {
      SkipKeepsProgress(w, k, which, n, limit, stamp, scheduled, c);
    }
  }

  lemma NothingDone(w: World, k: QueueId, which: Which, limit: nat, stamp: string, scheduled: set<JobId>)
    ensures Progress(w, k, which, 0, limit, stamp, scheduled, Cleaning(w, []))
  {
    hide Deletable;
    var list := ListOf(At(w, k), which);
    var gone := Gone(At(w, k), which, 0, limit, stamp, scheduled);
    assert gone == {};
    assert Buried(list, gone) == list;
    PickedLength(list, gone, |list| - ScanLength(list, limit), 0);
  }

  /** Main result: a cleaned list is the original without exactly the deletable entries of its
      scanned tail, in the original order; these entries, at most `limit` of them if there is a
      limit, are what the script answers, and their hashes are gone. */
  lemma CleaningIsFiltering(w: World, k: QueueId, which: Which, limit: nat, stamp: string, scheduled: set<JobId>)
    requires Listed(At(w, k), which)
    ensures var q, c := At(w, k), Clean(w, k, which, limit, stamp, scheduled);
      var list := ListOf(q, which);
      var gone := Gone(q, which, ScanLength(list, limit), limit, stamp, scheduled);
      && ListOf(At(c.w, k), which) == Without(list, gone, |list|)
      && c.deleted == Picked(list, gone, |list|)
      && (limit > 0 ==> |c.deleted| <= limit)
      && (forall x :: Kept(q, At(c.w, k), c.deleted, x))
  {
    hide Has, Deletable, Picked, Buried, Kept, WithList, ListOf, At, CleanEntries, Listed;
    var q := At(w, k);
    var list := ListOf(q, which);
    var n := ScanLength(list, limit);
    CleanProgress(w, k, which, n, limit, stamp, scheduled);
    var c := CleanEntries(w, k, which, list, n, limit, stamp, scheduled);
    var gone := Gone(q, which, n, limit, stamp, scheduled);
    PickedLength(list, gone, |list| - n, n);
    var r := At(c.w, k);
    var swept := RemoveAll(ListOf(r, which), MARK);
    AtUpdate(c.w, k, WithList(r, which, swept), k);
    WithListFrame(r, which, swept);
    NoMark(q, which);
    ExhumedIsWithout(list, gone, |list|);
    BuriedLength(list, gone);
    assert Buried(list, gone)[..|list|] == Buried(list, gone);
    forall x ensures Kept(q, WithList(r, which, swept), c.deleted, x) {
      assert Kept(q, r, c.deleted, x);
      KeptAlike(q, r, WithList(r, which, swept), c.deleted, x);
    }
  }

  lemma NoMark(q: Queue, which: Which)
    requires Listed(q, which)
    ensures MARK !in ListOf(q, which)
  {
  }

  lemma BuriedLength(list: seq<JobId>, gone: set<nat>)
    ensures |Buried(list, gone)| == |list|
  {
  }

  /** A locked active job is never deleted. */
  lemma LockedIsKept(w: World, k: QueueId, limit: nat, stamp: string, scheduled: set<JobId>, id: JobId)
    requires Listed(At(w, k), Active) && id in At(w, k).locks
    ensures id !in Clean(w, k, Active, limit, stamp, scheduled).deleted
  {
    hide Clean, Picked;
    var list := At(w, k).at.active;
    CleaningIsFiltering(w, k, Active, limit, stamp, scheduled);
    var gone := Gone(At(w, k), Active, ScanLength(list, limit), limit, stamp, scheduled);
    if id in Picked(list, gone, |list|) { PickedFrom(list, gone, |list|, id); }
  }

  /** The time test looks at leading digits only, and so it is the intended one for some pairs of
      times and limits and not for others. */
  lemma OldEnoughIff(q: Queue, id: JobId, stamp: nat)
    requires TimeOf(q, id).Some?
    ensures var t := TimeOf(q, id).value;
      var a, b := |Decimal(t)|, |Decimal(stamp)|;
      && (TextLe(Decimal(t), Decimal(stamp))
          <==> if a <= b then t <= Leading(stamp, b - a) else Leading(t, a - b) < stamp)
      && ((TextLe(Decimal(t), Decimal(stamp)) <==> t <= stamp) <==> ReadsRight(t, stamp))
  {
    hide TextLe, Decimal, ReadsRight;
    TextOrder(TimeOf(q, id).value, stamp);
    ReadsRightIff(TimeOf(q, id).value, stamp);
  }

  /** A stored job that only its age keeps from being deleted. */
  predicate Candidate(q: Queue, which: Which, id: JobId, scheduled: set<JobId>) {
    id in q.jobs && id !in scheduled && (which != Active || id !in q.locks)
  }

  lemma {:induction false} PickedHas(list: seq<JobId>, gone: set<nat>, n: nat, i: nat)
    requires i < n <= |list| && i in gone
    ensures list[i] in Picked(list, gone, n)
  {
    if i < n - 1 { PickedHas(list, gone, n - 1, i); }
  }

  /** Which scanned entries are deleted: an active one only without a lock, a stored one only if no
      scheduler points at it and its finish time, or else the time it was added, passes. */
  lemma DeletedIff(w: World, k: QueueId, which: Which, limit: nat, stamp: string, scheduled: set<JobId>, i: nat)
    requires Listed(At(w, k), which)
    requires var list := ListOf(At(w, k), which); |list| - ScanLength(list, limit) <= i < |list|
    ensures var q := At(w, k);
      var id := ListOf(q, which)[i];
      id in Clean(w, k, which, limit, stamp, scheduled).deleted
      <==> && (which.Active? ==> id !in q.locks)
           && (id in q.jobs ==>
                 var job := q.jobs[id];
                 var time := if job.finishedOn.Some? then job.finishedOn.value else job.timestamp;
                 id !in scheduled && TextLe(Decimal(time), stamp))
  {
    hide Clean, Picked, TextLe, Decimal, At, ListOf;
    var q := At(w, k);
    var list := ListOf(q, which);
    var gone := Gone(q, which, ScanLength(list, limit), limit, stamp, scheduled);
    CleaningIsFiltering(w, k, which, limit, stamp, scheduled);
    if i in gone { PickedHas(list, gone, |list|, i); }
    if list[i] in Picked(list, gone, |list|) {
      PickedFrom(list, gone, |list|, list[i]);
      var j :| 0 <= j < |list| && j in gone && list[j] == list[i];
      assert j == i;
    }
  }

  /** A scanned candidate is deleted exactly if its time passes the comparison. */
  lemma DeletedIfPasses(w: World, k: QueueId, which: Which, limit: nat, stamp: nat, scheduled: set<JobId>, i: nat)
    requires Listed(At(w, k), which)
    requires var list := ListOf(At(w, k), which);
      |list| - ScanLength(list, limit) <= i < |list| && Candidate(At(w, k), which, list[i], scheduled)
    ensures var q := At(w, k);
      var id := ListOf(q, which)[i];
      id in Clean(w, k, which, limit, Decimal(stamp), scheduled).deleted
      <==> TextLe(Decimal(TimeOf(q, id).value), Decimal(stamp))
  {
    hide Clean, TextLe, Decimal, At, ListOf;
    DeletedIff(w, k, which, limit, Decimal(stamp), scheduled, i);
  }

  /** Main result on ages: a cleaning deletes exactly the scanned candidates that are not newer than
      its limit if and only if each of their times reads right against the limit. */
  lemma CleansByAgeIff(w: World, k: QueueId, which: Which, limit: nat, stamp: nat, scheduled: set<JobId>)
    requires Listed(At(w, k), which)
    ensures var q, deleted := At(w, k), Clean(w, k, which, limit, Decimal(stamp), scheduled).deleted;
      var list := ListOf(q, which);
      var from := |list| - ScanLength(list, limit);
      (forall i :: from <= i < |list| && Candidate(q, which, list[i], scheduled) ==>
         (list[i] in deleted <==> TimeOf(q, list[i]).value <= stamp))
      <==>
      (forall i :: from <= i < |list| && Candidate(q, which, list[i], scheduled) ==>
         ReadsRight(TimeOf(q, list[i]).value, stamp))
  {
    hide Clean, TextLe, Decimal, At, ListOf, Listed, ReadsRight;
    var q := At(w, k);
    var list := ListOf(q, which);
    forall i | |list| - ScanLength(list, limit) <= i < |list| && Candidate(q, which, list[i], scheduled)
      ensures (list[i] in Clean(w, k, which, limit, Decimal(stamp), scheduled).deleted
               <==> TimeOf(q, list[i]).value <= stamp)
         <==> ReadsRight(TimeOf(q, list[i]).value, stamp)
    {
      DeletedIfPasses(w, k, which, limit, stamp, scheduled, i);
      ReadsRightIff(TimeOf(q, list[i]).value, stamp);
    }
  }

  function OneJob(time: nat): Queue {
    Machine.Run(EmptyQueue, [Machine.AddStandard(1, Opts(0, 0, 1, None), time, None)])
  }

  lemma OneJobWaits(time: nat)
    ensures var q := OneJob(time);
      && q.at.wait == [1] && q.at.waitingChildren == [] && 1 in q.jobs && 1 !in q.locks
      && TimeOf(q, 1) == Some(time)
  {
    var s := Machine.AddStandard(1, Opts(0, 0, 1, None), time, None);
    assert [s][..0] == [];
    assert Machine.Run(EmptyQueue, [s][..0]) == EmptyQueue;
    assert OneJob(time) == Machine.Apply(EmptyQueue, s);
  }

  /** Whatever time does not read right against a limit it exceeds, a job of that time is deleted
      although it is newer. */
  lemma NewerJobIsDeleted(time: nat, stamp: nat)
    requires stamp < time && !ReadsRight(time, stamp)
    ensures Clean(map[0 := OneJob(time)], 0, Wait, 0, Decimal(stamp), {}).deleted == [1]
    ensures TimeOf(OneJob(time), 1) == Some(time)
  {
    hide TextLe, Decimal, ReadsRight, Clean;
    var q := OneJob(time);
    OneJobWaits(time);
    hide OneJob;
    var w: World := map[0 := q];
    assert At(w, 0) == q;
    ReadsRightIff(time, stamp);
    var gone := Gone(q, Wait, 1, 0, Decimal(stamp), {});
    assert Deletable(q, Wait, 1, Decimal(stamp), {});
    assert gone == {0};
    CleaningIsFiltering(w, 0, Wait, 0, Decimal(stamp), {});
    assert Picked([1], gone, 1) == [1];
  }

  /** In particular a job added at 1000 is deleted by a cleaning of the jobs up to 999. */
  lemma ShortLimitMisjudges()
    ensures TextLe(Decimal(1000), Decimal(999))
    ensures Clean(map[0 := OneJob(1000)], 0, Wait, 0, Decimal(999), {}).deleted == [1]
    ensures TimeOf(OneJob(1000), 1) == Some(1000)
  {
    hide Clean, OneJob, Leading;
    assert Decimal(1) == "1" && Decimal(10) == "10" && Decimal(100) == "100" && Decimal(1000) == "1000";
    assert Decimal(9) == "9" && Decimal(99) == "99" && Decimal(999) == "999";
    ReadsRightIff(1000, 999);
    NewerJobIsDeleted(1000, 999);
  }

  // ---------------------------------------------------------------- the script

  /** LRANGE, where negative indices count from the right end, -1 being the last entry. */
  function Lrange(list: seq<JobId>, start: int, stop: int): seq<JobId> {
    var from := Max(if start < 0 then |list| + start else start, 0);
    var to := Min(if stop < 0 then |list| + stop else stop, |list| - 1);
    if from > to then [] else list[from..to + 1]
  }

  /** LSET at a position counted from the right end; out of range it fails. */
  function Lset(list: seq<JobId>, index: int, x: JobId): seq<JobId>
    requires index < 0
  {
    if 0 <= |list| + index < |list| then list[|list| + index := x] else list
  }

  lemma TailIsScanned(list: seq<JobId>, limit: nat)
    ensures Lrange(list, if limit > 0 then -1 - limit + 1 else 0, -1) == list[|list| - ScanLength(list, limit)..]
  {
  }

  lemma {:induction false} FullStops(w: World, k: QueueId, which: Which, list: seq<JobId>, m: nat, n: nat,
                                     limit: nat, stamp: string, scheduled: set<JobId>)
    requires m <= n <= ScanLength(list, limit)
    requires limit > 0 && |CleanEntries(w, k, which, list, m, limit, stamp, scheduled).deleted| >= limit
    ensures CleanEntries(w, k, which, list, n, limit, stamp, scheduled)
         == CleanEntries(w, k, which, list, m, limit, stamp, scheduled)
  {
    hide Deletable, RemoveJob, WithList, ListOf;
    if m < n { FullStops(w, k, which, list, m, n - 1, limit, stamp, scheduled); }
  }

  class Server {
    var world: World

    constructor (world: World)
      ensures this.world == world
    {
      this.world := world;
    }

    /** cleanJobsInSet for `wait`, `paused` and `active`: cleanList in place, tombstone by
        tombstone, counting the entries from the right end of the list. */
    method CleanJobsInList(k: QueueId, which: Which, limit: nat, stamp: string, scheduled: set<JobId>)
      returns (deleted: seq<JobId>)
      requires Listed(At(world, k), which)
      modifies this
      ensures Cleaning(world, deleted) == Clean(old(world), k, which, limit, stamp, scheduled)
    {
      hide Deletable, RemoveJob, WithList, Listed, TextLe, At;
      var rangeStart, rangeEnd := 0, -1;
      if limit > 0 {
        rangeStart := -1 - limit + 1;
      }
      ghost var list := ListOf(At(world, k), which);
      var jobs := Lrange(ListOf(At(world, k), which), rangeStart, rangeEnd);
      TailIsScanned(list, limit);
      deleted := [];
      NoEntryYet(world, k, which, limit, stamp, scheduled);
      hide CleanEntries, Lrange, Lset, ScanLength;
      var i := 1;
      while i <= |jobs|
        invariant 1 <= i <= |jobs| + 1
        invariant Cleaning(world, deleted) == CleanEntries(old(world), k, which, list, i - 1, limit, stamp, scheduled)
      {
        if limit > 0 && |deleted| >= limit {
          FullStops(old(world), k, which, list, i - 1, |jobs|, limit, stamp, scheduled);
          break;
        }
        var job := jobs[i - 1];
        EntryInPlace(old(world), k, which, i, limit, stamp, scheduled);
        if Deletable(At(world, k), which, job, stamp, scheduled) {
          var now := ListOf(At(world, k), which);
          world := world[k := WithList(At(world, k), which, Lset(now, rangeEnd - |jobs| + i, MARK))];
          world := RemoveJob(world, k, job);
          deleted := deleted + [job];
        }
        i := i + 1;
      }
      world := world[k := WithList(At(world, k), which, RemoveAll(ListOf(At(world, k), which), MARK))];
    }
  }

  lemma CleanProgressLength(w: World, k: QueueId, which: Which, n: nat, limit: nat, stamp: string,
                            scheduled: set<JobId>)
    requires Listed(At(w, k), which) && n <= ScanLength(ListOf(At(w, k), which), limit)
    ensures var list := ListOf(At(w, k), which);
      |ListOf(At(CleanEntries(w, k, which, list, n, limit, stamp, scheduled).w, k), which)| == |list|
  {
    hide CleanEntries, Listed, Kept;
    CleanProgress(w, k, which, n, limit, stamp, scheduled);
    BuriedLength(ListOf(At(w, k), which), Gone(At(w, k), which, n, limit, stamp, scheduled));
  }

  lemma NoEntryYet(w: World, k: QueueId, which: Which, limit: nat, stamp: string, scheduled: set<JobId>)
    ensures CleanEntries(w, k, which, ListOf(At(w, k), which), 0, limit, stamp, scheduled) == Cleaning(w, [])
  {
  }

  /** One round of the loop, with the index counted from the right end. */
  lemma EntryInPlace(w: World, k: QueueId, which: Which, n: nat, limit: nat, stamp: string, scheduled: set<JobId>)
    requires Listed(At(w, k), which) && 0 < n <= ScanLength(ListOf(At(w, k), which), limit)
    ensures var list := ListOf(At(w, k), which);
      var scanned := ScanLength(list, limit);
      var c := CleanEntries(w, k, which, list, n - 1, limit, stamp, scheduled);
      var id := list[|list| - scanned..][n - 1];
      CleanEntries(w, k, which, list, n, limit, stamp, scheduled) ==
      if (limit > 0 && |c.deleted| >= limit) || !Deletable(At(c.w, k), which, id, stamp, scheduled) then c
      else Cleaning(RemoveJob(c.w[k := WithList(At(c.w, k), which,
                                                Lset(ListOf(At(c.w, k), which), -1 - scanned + n, MARK))], k, id),
                    c.deleted + [id])
  {
    hide Deletable, RemoveJob, WithList, ListOf, At, Listed;
    CleanProgressLength(w, k, which, n - 1, limit, stamp, scheduled);
  }
}

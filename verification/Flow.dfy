/** Flows: trees of jobs over any number of queues. A parent waits until its last child has
    completed, so whoever claims a job finds all its descendants completed. */
module Flow {
  import opened Redis
  import opened Scores
  import opened Limiter
  import opened Queue
  import opened Machine
  import Frames
  import Partition

  /** All queues of one Redis server. */
  type World = map<QueueId, Queue>

  function At(w: World, k: QueueId): Queue {
    if k in w then w[k] else EmptyQueue
  }

  predicate Stored(w: World, x: JobKey) {
    x.id in At(w, x.queue).jobs
  }

  function ParentOf(w: World, x: JobKey): Option<JobKey> {
    HashOf(At(w, x.queue), x.id).parent
  }

  /** The dependencies key of a job, and the fields of its processed key. */
  function Pending(w: World, p: JobKey): set<JobKey> {
    PendingChildren(At(w, p.queue), p.id)
  }

  function Processed(w: World, p: JobKey): set<JobKey> {
    ProcessedChildren(At(w, p.queue), p.id).Keys
  }

  predicate Waits(w: World, p: JobKey) {
    Has(At(w, p.queue).at.waitingChildren, p.id)
  }

  // ---------------------------------------------------------------- inserting a flow

  /** A prepared flow node; flows do not deduplicate. */
  datatype Node = Node(key: JobKey, delay: nat, priority: nat, attempts: nat, timestamp: nat, children: seq<Node>)

  function OptsOf(node: Node): Opts {
    Opts(node.delay, node.priority, node.attempts, None)
  }

  /** collect_job_keys: the keys of the tree, parents first. */
  function AllKeys(node: Node): seq<JobKey>
    decreases node, |node.children| + 1
  {
    [node.key] + KeysUpTo(node, |node.children|)
  }

  function KeysUpTo(node: Node, n: nat): seq<JobKey>
    requires n <= |node.children|
    decreases node, n
  {
    if n == 0 then [] else KeysUpTo(node, n - 1) + AllKeys(node.children[n - 1])
  }

  function ChildKeys(node: Node, n: nat): set<JobKey>
    requires n <= |node.children|
  {
    set i | 0 <= i < n :: node.children[i].key
  }

  function AddLeaf(q: Queue, node: Node, parent: Option<JobKey>): Queue {
    if node.delay > 0 then AddDelayedJob(q, node.key.id, OptsOf(node), node.timestamp, parent).q
    else if node.priority > 0 then AddPrioritizedJob(q, node.key.id, OptsOf(node), node.timestamp, parent).q
    else AddStandardJob(q, node.key.id, OptsOf(node), node.timestamp, parent).q
  }

  function Depend(w: World, p: JobKey, children: set<JobKey>): World {
    w[p.queue := AddDependencies(At(w, p.queue), p.id, children)]
  }

  /** addParentJob, which also registers with the node's own parent, and SADD of the children. */
  function AddBlocked(w: World, node: Node, parent: Option<JobKey>): World {
    var k := node.key.queue;
    var stored := w[k := AddParentJob(At(w, k), node.key.id, OptsOf(node), node.timestamp, parent)];
    var known := if parent.Some? && !Stored(w, node.key) then Depend(stored, parent.value, {node.key}) else stored;
    Depend(known, node.key, ChildKeys(node, |node.children|))
  }

  /** queue_insert */
  function Insert(w: World, node: Node, parent: Option<JobKey>): World
    decreases node, |node.children| + 1
  {
    if node.children == [] then w[node.key.queue := AddLeaf(At(w, node.key.queue), node, parent)]
    else InsertChildren(AddBlocked(w, node, parent), node, |node.children|)
  }

  function InsertChildren(w: World, node: Node, n: nat): World
    requires n <= |node.children|
    decreases node, n
  {
    if n == 0 then w else Insert(InsertChildren(w, node, n - 1), node.children[n - 1], Some(node.key))
  }

  predicate NoDuplicates(keys: seq<JobKey>) {
    forall i, j :: 0 <= i < j < |keys| ==> keys[i] != keys[j]
  }

  /** The whole transaction: refused when a key repeats or exists. */
  function AddFlow(w: World, tree: Node): World {
    var keys := AllKeys(tree);
    if NoDuplicates(keys) && (forall i :: 0 <= i < |keys| ==> !Stored(w, keys[i])) then Insert(w, tree, None) else w
  }

  // ---------------------------------------------------------------- finishing a job

  function TellParent(w: World, p: JobKey, child: JobKey, value: Payload, now: nat): World {
    w[p.queue := ReleaseParent(At(w, p.queue), p.id, child, value, now)]
  }

  datatype FetchArgs = FetchArgs(clock: nat, limit: Option<Limit>)

  /** moveToFinished */
  function MoveToFinished(w: World, job: JobKey, token: Token, now: nat, result: Result, atm: nat,
                          maxPoints: Option<nat>, fetch: Option<FetchArgs>): World
  {
    var o := FinishJob(At(w, job.queue), job.id, token, now, result, atm);
    if o.code != OK then w
    else
      var left := w[job.queue := o.q];
      var told :=
        if result.Completed? && ParentOf(left, job).Some?
        then TellParent(left, ParentOf(left, job).value, job, result.value, now) else left;
      var counted := told[job.queue := RecordMetrics(At(told, job.queue), result, maxPoints, now)];
      if fetch.None? then counted
      else counted[job.queue := FetchNext(At(counted, job.queue), token, now, fetch.value.clock, fetch.value.limit).q]
  }

  // ---------------------------------------------------------------- runs

  datatype Move =
    | Add(tree: Node)
    | Script(queue: QueueId, step: Step)
    | Finished(job: JobKey, token: Token, now: nat, result: Result, atm: nat,
               maxPoints: Option<nat>, fetch: Option<FetchArgs>)

  function Act(w: World, m: Move): World {
    match m
    case Add(tree) => AddFlow(w, tree)
    case Script(k, s) => w[k := Apply(At(w, k), s)]
    case Finished(job, token, now, result, atm, maxPoints, fetch) =>
      MoveToFinished(w, job, token, now, result, atm, maxPoints, fetch)
  }

  /** The job a move completes. */
  function Completes(w: World, m: Move): set<JobKey> {
    if m.Finished? && m.result.Completed? && Guard(At(w, m.job.queue), m.job.id, m.token) == OK then {m.job} else {}
  }

  /** The world, and the jobs completed so far. */
  datatype Saga = Saga(w: World, done: set<JobKey>)

  function Advance(g: Saga, m: Move): Saga {
    Saga(Act(g.w, m), g.done + Completes(g.w, m))
  }

  function AdvanceAll(g: Saga, moves: seq<Move>): Saga {
    if moves == [] then g else Advance(AdvanceAll(g, moves[..|moves| - 1]), moves[|moves| - 1])
  }

  /** Steps that concern one queue: jobs are given a parent by flows only. */
  predicate Quiet(s: Step) {
    || Frames.Passive(s) || s.MoveJobs? || s.Finish?
    || ((s.AddStandard? || s.AddPrioritized? || s.AddDelayed?) && s.parent.None?)
  }

  predicate Permitted(w: World, m: Move) {
    && (m.Script? ==> Quiet(m.step) && !m.step.Finish? && Partition.Safe(At(w, m.queue), m.step))
    && (m.Finished? ==> m.token != NO_LOCK)
  }

  // ---------------------------------------------------------------- the invariant

  /** Children of `p` that are still to be inserted, while a flow is being added. */
  type Plan = map<JobKey, JobKey>

  /** The dependencies of `p` are its children that have not completed, its processed fields
      those that have. */
  predicate Linked(w: World, done: set<JobKey>, plan: Plan, p: JobKey, c: JobKey) {
    && (c in Pending(w, p) <==> (ParentOf(w, c) == Some(p) && c !in done) || (c in plan && plan[c] == p))
    && (c in Processed(w, p) <==> ParentOf(w, c) == Some(p) && c in done)
    && (ParentOf(w, c) == Some(p) || (c in plan && plan[c] == p) ==> Stored(w, p))
  }

  predicate Fine(w: World, done: set<JobKey>, plan: Plan, p: JobKey) {
    && (Waits(w, p) <==> Pending(w, p) != {})
    && (p in done ==> Stored(w, p) && Pending(w, p) == {})
    && (p in plan ==> !Stored(w, p))
  }

  ghost predicate Sound(w: World, done: set<JobKey>, plan: Plan) {
    && (forall k :: Partition.Partitioned(At(w, k)))
    && (forall p :: Fine(w, done, plan, p))
    && (forall p, c :: Linked(w, done, plan, p, c))
  }

  /** Replacing one queue. */
  lemma AtUpdate(w: World, k: QueueId, r: Queue, j: QueueId)
    ensures At(w[k := r], j) == if j == k then r else At(w, j)
  {
  }

  lemma NotStoredNotWaiting(w: World, p: JobKey)
    requires Partition.Partitioned(At(w, p.queue))
    ensures Waits(w, p) ==> Stored(w, p)
  {
    hide Partition.Count, Partition.InSet, Partition.InList;
    var q := At(w, p.queue);
    assert Partition.Fits(q, p.id);
    Partition.CountParts(q.at, p.id);
    Partition.PresentInSet(q.at.waitingChildren, p.id);
  }

  lemma NotStoredNoParent(w: World, x: JobKey)
    ensures !Stored(w, x) ==> ParentOf(w, x) == None
  {
  }

  /** Active jobs, and jobs whose lock is held, do not wait for children. */
  lemma ActiveDoesNotWait(w: World, x: JobKey)
    requires Partition.Partitioned(At(w, x.queue))
    requires x.id in At(w, x.queue).at.active || x.id in At(w, x.queue).locks
    ensures Stored(w, x) && !Waits(w, x)
  {
    hide Partition.Count, Partition.InSet, Partition.InList;
    var q := At(w, x.queue);
    assert Partition.Fits(q, x.id);
    Partition.CountParts(q.at, x.id);
    Partition.PresentInSet(q.at.waitingChildren, x.id);
    Partition.Present(q.at.active, x.id);
  }

  // ---------------------------------------------------------------- steps on one queue

  /** As seen from `x`, a quiet step changes nothing that flows are about. */
  predicate Undisturbed(q: Queue, r: Queue, x: JobId) {
    && r.side.dependencies == q.side.dependencies && r.side.processed == q.side.processed
    && r.at.waitingChildren == q.at.waitingChildren
    && HashOf(r, x).parent == HashOf(q, x).parent
    && (x in q.jobs ==> x in r.jobs)
  }

  lemma AddUndisturbed(q: Queue, s: Step, x: JobId)
    requires (s.AddStandard? || s.AddPrioritized? || s.AddDelayed?) && s.parent.None?
    ensures Undisturbed(q, Apply(q, s), x)
  {
    hide Zadd, DelayedScore;
    match s {
      case AddStandard(id, opts, _, _) => if id in q.jobs || Holder(q, opts.deid).Some? { return; } return;
      case AddPrioritized(id, opts, _, _) => if id in q.jobs || Holder(q, opts.deid).Some? { return; } return;
      case AddDelayed(id, opts, _, _) => if id in q.jobs || Holder(q, opts.deid).Some? { return; } return;
    }
  }

  lemma FinishUndisturbed(q: Queue, id: JobId, token: Token, now: nat, result: Result, atm: nat, x: JobId)
    ensures Undisturbed(q, FinishJob(q, id, token, now, result, atm).q, x)
  {
    hide Zadd, RemoveFirst;
    if Guard(q, id, token) != OK { return; }
    if result.Completed? { return; }
  }

  lemma {:induction false} ClearEachUndisturbed(q: Queue, from: Source, ids: seq<JobId>, x: JobId)
    ensures Undisturbed(q, ClearEach(q, from, ids), x)
  {
    if ids != [] {
      ClearEachUndisturbed(q, from, ids[..|ids| - 1], x);
      var c := ClearEach(q, from, ids[..|ids| - 1]);
      if ids[|ids| - 1] !in c.jobs { return; }
      match from {
        case FromFailed => return;
        case FromCompleted => return;
        case FromDelayed => return;
      }
    }
  }

  lemma MoveJobsUndisturbed(q: Queue, from: Source, count: nat, upTo: Option<nat>, x: JobId)
    ensures Undisturbed(q, MoveJobsToWait(q, from, count, upTo).q, x)
  {
    hide ClearEach;
    var n := Min(Matching(SourceSet(q, from), upTo), count);
    if n == 0 { return; }
    ClearEachUndisturbed(q, from, Members(SourceSet(q, from)[..n]), x);
    match from {
      case FromFailed => return;
      case FromCompleted => return;
      case FromDelayed => return;
    }
  }

  lemma QuietUndisturbed(q: Queue, s: Step, x: JobId)
    requires Quiet(s)
    ensures Undisturbed(q, Apply(q, s), x)
  {
    hide FinishJob, MoveJobsToWait, FetchNext, MoveToDelayed, RetryJob, MoveActiveToWait, SweepStalled, ChangePriority;
    hide PromoteJob, AddStandardJob, AddPrioritizedJob, AddDelayedJob;
    if s.Finish? { FinishUndisturbed(q, s.id, s.token, s.now, s.result, s.atm, x); return; }
    if s.MoveJobs? { MoveJobsUndisturbed(q, s.from, s.count, s.upTo, x); return; }
    if s.AddStandard? || s.AddPrioritized? || s.AddDelayed? { AddUndisturbed(q, s, x); return; }
    hide Apply;
    Frames.PassiveUntouched(q, s, x);
  }

  lemma UndisturbedSound(w: World, k: QueueId, r: Queue, done: set<JobKey>, plan: Plan)
    requires Sound(w, done, plan) && Partition.Partitioned(r)
    requires forall x :: Undisturbed(At(w, k), r, x)
    requires plan == map[]
    ensures Sound(w[k := r], done, plan)
  {
    hide Partition.Partitioned, Has;
    var w' := w[k := r];
    forall j ensures Partition.Partitioned(At(w', j)) { AtUpdate(w, k, r, j); }
    forall p ensures Fine(w', done, plan, p) {
      assert Fine(w, done, plan, p);
      assert Undisturbed(At(w, k), r, p.id);
    }
    forall p, c ensures Linked(w', done, plan, p, c) {
      assert Linked(w, done, plan, p, c);
      assert Undisturbed(At(w, k), r, p.id) && Undisturbed(At(w, k), r, c.id);
    }
  }

  lemma QuietSound(w: World, k: QueueId, s: Step, done: set<JobKey>)
    requires Sound(w, done, map[]) && Quiet(s) && Partition.Safe(At(w, k), s)
    ensures Sound(w[k := Apply(At(w, k), s)], done, map[])
  {
    hide Apply, Partition.Partitioned, Undisturbed, Fine, Linked, Quiet, Partition.Safe;
    Partition.StepKeepsPartition(At(w, k), s);
    forall x ensures Undisturbed(At(w, k), Apply(At(w, k), s), x) { QuietUndisturbed(At(w, k), s, x); }
    UndisturbedSound(w, k, Apply(At(w, k), s), done, map[]);
  }

  // ---------------------------------------------------------------- inserting

  lemma LeafEffect(q: Queue, node: Node, parent: Option<JobKey>, x: JobId)
    requires node.key.id !in q.jobs
    ensures var r := AddLeaf(q, node, parent);
      && r.side.dependencies == q.side.dependencies && r.side.processed == q.side.processed
      && r.at.waitingChildren == q.at.waitingChildren
      && HashOf(r, x).parent == (if x == node.key.id then parent else HashOf(q, x).parent)
      && (x in r.jobs <==> x in q.jobs || x == node.key.id)
  {
    hide Zadd, DelayedScore;
    if node.delay > 0 { return; }
    if node.priority > 0 { return; }
  }

  lemma LeafPartitioned(q: Queue, node: Node, parent: Option<JobKey>)
    requires Partition.Partitioned(q)
    ensures Partition.Partitioned(AddLeaf(q, node, parent))
  {
    hide Partition.Partitioned, AddStandardJob, AddPrioritizedJob, AddDelayedJob;
    var id, opts, ts := node.key.id, OptsOf(node), node.timestamp;
    if node.delay > 0 { Partition.StepKeepsPartition(q, AddDelayed(id, opts, ts, parent)); return; }
    if node.priority > 0 { Partition.StepKeepsPartition(q, AddPrioritized(id, opts, ts, parent)); return; }
    Partition.StepKeepsPartition(q, AddStandard(id, opts, ts, parent));
  }

  /** A node may be inserted: it is new, and expected exactly if it has a parent. */
  predicate Expected(w: World, plan: Plan, x: JobKey, parent: Option<JobKey>) {
    && !Stored(w, x)
    && (x in plan <==> parent.Some?)
    && (parent.Some? ==> x in plan && plan[x] == parent.value)
  }

  /** The view flows have of a world does not change at `x`, except for its parent. */
  predicate SameView(w: World, w': World, x: JobKey) {
    Pending(w', x) == Pending(w, x) && Processed(w', x) == Processed(w, x) && (Waits(w', x) <==> Waits(w, x))
  }

  lemma LeafView(w: World, node: Node, parent: Option<JobKey>, x: JobKey)
    requires !Stored(w, node.key)
    ensures var w' := w[node.key.queue := AddLeaf(At(w, node.key.queue), node, parent)];
      && SameView(w, w', x)
      && ParentOf(w', x) == (if x == node.key then parent else ParentOf(w, x))
      && (Stored(w', x) <==> Stored(w, x) || x == node.key)
  {
    hide AddLeaf, Has;
    LeafEffect(At(w, node.key.queue), node, parent, x.id);
  }

  lemma LeafSound(w: World, node: Node, parent: Option<JobKey>, done: set<JobKey>, plan: Plan)
    requires Sound(w, done, plan) && Expected(w, plan, node.key, parent)
    ensures var w' := w[node.key.queue := AddLeaf(At(w, node.key.queue), node, parent)];
      Sound(w', done, plan - {node.key})
  {
    hide Partition.Partitioned, AddLeaf, Pending, Processed, Waits, ParentOf, Stored, At;
    var k := node.key.queue;
    var w', plan' := w[k := AddLeaf(At(w, k), node, parent)], plan - {node.key};
    LeafPartitioned(At(w, k), node, parent);
    forall j ensures Partition.Partitioned(At(w', j)) { AtUpdate(w, k, AddLeaf(At(w, k), node, parent), j); }
    forall p ensures Fine(w', done, plan', p) {
      assert Fine(w, done, plan, p);
      LeafView(w, node, parent, p);
    }
    assert Fine(w, done, plan, node.key);
    NotStoredNoParent(w, node.key);
    forall p, c ensures Linked(w', done, plan', p, c) {
      assert Linked(w, done, plan, p, c);
      LeafView(w, node, parent, p);
      LeafView(w, node, parent, c);
    }
  }

  lemma ParentEffect(q: Queue, node: Node, parent: Option<JobKey>, x: JobId)
    requires node.key.id !in q.jobs
    ensures var r := AddParentJob(q, node.key.id, OptsOf(node), node.timestamp, parent);
      && r.side == q.side
      && (Has(r.at.waitingChildren, x) <==> Has(q.at.waitingChildren, x) || x == node.key.id)
      && HashOf(r, x).parent == (if x == node.key.id then parent else HashOf(q, x).parent)
      && (x in r.jobs <==> x in q.jobs || x == node.key.id)
  {
    hide Zadd, Has;
    ZaddHas(q.at.waitingChildren, node.timestamp, node.key.id, x);
  }

  lemma ParentView(w: World, node: Node, parent: Option<JobKey>, x: JobKey)
    requires !Stored(w, node.key)
    ensures var k := node.key.queue;
      var w' := w[k := AddParentJob(At(w, k), node.key.id, OptsOf(node), node.timestamp, parent)];
      && Pending(w', x) == Pending(w, x) && Processed(w', x) == Processed(w, x)
      && (Waits(w', x) <==> Waits(w, x) || x == node.key)
      && ParentOf(w', x) == (if x == node.key then parent else ParentOf(w, x))
      && (Stored(w', x) <==> Stored(w, x) || x == node.key)
  {
    hide AddParentJob, Has;
    ParentEffect(At(w, node.key.queue), node, parent, x.id);
  }

  lemma DependView(w: World, p: JobKey, children: set<JobKey>, x: JobKey)
    ensures var w' := Depend(w, p, children);
      && Pending(w', x) == (if x == p then Pending(w, x) + children else Pending(w, x))
      && Processed(w', x) == Processed(w, x) && (Waits(w', x) <==> Waits(w, x))
      && ParentOf(w', x) == ParentOf(w, x) && (Stored(w', x) <==> Stored(w, x))
  {
    hide Has;
  }

  lemma BlockedView(w: World, node: Node, parent: Option<JobKey>, x: JobKey)
    requires !Stored(w, node.key)
    ensures var w' := AddBlocked(w, node, parent);
      && Pending(w', x) == Pending(w, x) + (if parent == Some(x) then {node.key} else {})
                           + (if x == node.key then ChildKeys(node, |node.children|) else {})
      && Processed(w', x) == Processed(w, x)
      && (Waits(w', x) <==> Waits(w, x) || x == node.key)
      && ParentOf(w', x) == (if x == node.key then parent else ParentOf(w, x))
      && (Stored(w', x) <==> Stored(w, x) || x == node.key)
  {
    hide AddParentJob, Depend, Pending, Processed, Waits, ParentOf, Stored, At, ChildKeys;
    var k := node.key.queue;
    var stored := w[k := AddParentJob(At(w, k), node.key.id, OptsOf(node), node.timestamp, parent)];
    ParentView(w, node, parent, x);
    if parent.Some? {
      DependView(stored, parent.value, {node.key}, x);
      DependView(Depend(stored, parent.value, {node.key}), node.key, ChildKeys(node, |node.children|), x);
      return;
    }
    DependView(stored, node.key, ChildKeys(node, |node.children|), x);
  }

  lemma DependPartitioned(w: World, p: JobKey, children: set<JobKey>)
    requires forall j :: Partition.Partitioned(At(w, j))
    ensures forall j :: Partition.Partitioned(At(Depend(w, p, children), j))
  {
    hide Partition.Partitioned, AddDependencies;
    Partition.StepKeepsPartition(At(w, p.queue), AddChildren(p.id, children));
    forall j ensures Partition.Partitioned(At(Depend(w, p, children), j)) {
      AtUpdate(w, p.queue, AddDependencies(At(w, p.queue), p.id, children), j);
    }
  }

  lemma BlockedPartitioned(w: World, node: Node, parent: Option<JobKey>)
    requires forall j :: Partition.Partitioned(At(w, j))
    ensures forall j :: Partition.Partitioned(At(AddBlocked(w, node, parent), j))
  {
    hide Partition.Partitioned, AddParentJob, Depend, Stored;
    var k := node.key.queue;
    var r := AddParentJob(At(w, k), node.key.id, OptsOf(node), node.timestamp, parent);
    var stored := w[k := r];
    Partition.StepKeepsPartition(At(w, k), AddParent(node.key.id, OptsOf(node), node.timestamp, parent));
    forall j ensures Partition.Partitioned(At(stored, j)) { AtUpdate(w, k, r, j); }
    if parent.Some? && !Stored(w, node.key) {
      DependPartitioned(stored, parent.value, {node.key});
      DependPartitioned(Depend(stored, parent.value, {node.key}), node.key, ChildKeys(node, |node.children|));
      return;
    }
    DependPartitioned(stored, node.key, ChildKeys(node, |node.children|));
  }

  /** The plan once the node is stored and its children are expected. */
  function Expecting(plan: Plan, node: Node): Plan {
    (plan - {node.key}) + (map c | c in ChildKeys(node, |node.children|) :: node.key)
  }

  lemma BlockedSound(w: World, node: Node, parent: Option<JobKey>, done: set<JobKey>, plan: Plan)
    requires Sound(w, done, plan) && Expected(w, plan, node.key, parent) && node.children != []
    requires forall c :: c in ChildKeys(node, |node.children|) ==> !Stored(w, c) && c !in plan && c != node.key
    ensures Sound(AddBlocked(w, node, parent), done, Expecting(plan, node))
  {
    hide Partition.Partitioned, AddBlocked, Pending, Processed, Waits, ParentOf, Stored, At, ChildKeys;
    var w', plan' := AddBlocked(w, node, parent), Expecting(plan, node);
    var children := ChildKeys(node, |node.children|);
    BlockedPartitioned(w, node, parent);
    HasChildren(node);
    NotStoredNotWaiting(w, node.key);
    NotStoredNoParent(w, node.key);
    assert Fine(w, done, plan, node.key);
    if parent.Some? { assert Linked(w, done, plan, parent.value, node.key); }
    forall p ensures Fine(w', done, plan', p) {
      assert Fine(w, done, plan, p);
      BlockedView(w, node, parent, p);
    }
    forall p, c ensures Linked(w', done, plan', p, c) {
      assert Linked(w, done, plan, p, c);
      BlockedView(w, node, parent, p);
      BlockedView(w, node, parent, c);
    }
  }

  lemma HasChildren(node: Node)
    requires node.children != []
    ensures ChildKeys(node, |node.children|) != {}
  {
    assert node.children[0].key in ChildKeys(node, |node.children|);
  }

  lemma DistinctParts(a: seq<JobKey>, b: seq<JobKey>)
    requires NoDuplicates(a + b)
    ensures NoDuplicates(a) && NoDuplicates(b) && forall x :: x in a ==> x !in b
  {
    var s := a + b;
    forall i, j | 0 <= i < j < |a| ensures a[i] != a[j] { assert s[i] == a[i] && s[j] == a[j]; }
    forall i, j | 0 <= i < j < |b| ensures b[i] != b[j] { assert s[|a| + i] == b[i] && s[|a| + j] == b[j]; }
    forall x | x in a ensures x !in b {
      var i :| 0 <= i < |a| && a[i] == x;
      assert s[i] == x;
      forall j | 0 <= j < |b| ensures b[j] != x { assert s[|a| + j] == b[j]; }
    }
  }

  lemma {:induction false} ChildKeysIn(node: Node, n: nat)
    requires n <= |node.children|
    ensures forall c :: c in ChildKeys(node, n) ==> c in KeysUpTo(node, n)
  {
    if n > 0 {
      ChildKeysIn(node, n - 1);
      assert AllKeys(node.children[n - 1])[0] == node.children[n - 1].key;
      ChildKeysGrow(node, n);
    }
  }

  lemma ChildKeysGrow(node: Node, n: nat)
    requires 0 < n <= |node.children|
    ensures ChildKeys(node, n) == ChildKeys(node, n - 1) + {node.children[n - 1].key}
  {
  }

  /** The tree can be inserted: its keys are new and distinct, and only its root is expected. */
  predicate Insertable(w: World, plan: Plan, node: Node, parent: Option<JobKey>) {
    && NoDuplicates(AllKeys(node))
    && Expected(w, plan, node.key, parent)
    && (forall x :: x in AllKeys(node) ==> !Stored(w, x) && (x in plan ==> x == node.key))
  }

  predicate ChildrenInsertable(w: World, plan: Plan, node: Node, n: nat)
    requires n <= |node.children|
  {
    && NoDuplicates(KeysUpTo(node, n))
    && (forall c :: c in ChildKeys(node, n) ==> c in plan && plan[c] == node.key)
    && (forall x :: x in KeysUpTo(node, n) ==> !Stored(w, x) && (x in plan ==> x in ChildKeys(node, n)))
  }

  lemma {:induction false} InsertSound(w: World, node: Node, parent: Option<JobKey>, done: set<JobKey>, plan: Plan)
    requires Sound(w, done, plan) && Insertable(w, plan, node, parent)
    ensures Sound(Insert(w, node, parent), done, plan - {node.key})
    ensures forall x :: Stored(Insert(w, node, parent), x) <==> Stored(w, x) || x in AllKeys(node)
    decreases node, |node.children| + 1
  {
    hide Sound, Stored, AddLeaf, AddBlocked, At, Expected;
    var n := |node.children|;
    assert AllKeys(node) == [node.key] + KeysUpTo(node, n);
    if n == 0 {
      LeafSound(w, node, parent, done, plan);
      forall x ensures Stored(Insert(w, node, parent), x) <==> Stored(w, x) || x in AllKeys(node) {
        ExpectedNew(w, plan, node.key, parent);
        LeafView(w, node, parent, x);
      }
      return;
    }
    var b, plan' := AddBlocked(w, node, parent), Expecting(plan, node);
    ChildKeysIn(node, n);
    DistinctParts([node.key], KeysUpTo(node, n));
    assert node.key in [node.key];
    BlockedSound(w, node, parent, done, plan);
    ExpectedNew(w, plan, node.key, parent);
    forall x ensures Stored(b, x) <==> Stored(w, x) || x == node.key { BlockedView(w, node, parent, x); }
    assert ChildrenInsertable(b, plan', node, n) by { hide KeysUpTo, ChildKeys; }
    InsertChildrenSound(b, node, n, done, plan');
    assert plan' - ChildKeys(node, n) == plan - {node.key};
  }

  lemma ExpectedNew(w: World, plan: Plan, x: JobKey, parent: Option<JobKey>)
    requires Expected(w, plan, x, parent)
    ensures !Stored(w, x)
  {
    hide Stored;
  }

  lemma {:induction false} InsertChildrenSound(w: World, node: Node, n: nat, done: set<JobKey>, plan: Plan)
    requires n <= |node.children|
    requires Sound(w, done, plan) && ChildrenInsertable(w, plan, node, n)
    ensures Sound(InsertChildren(w, node, n), done, plan - ChildKeys(node, n))
    ensures forall x :: Stored(InsertChildren(w, node, n), x) <==> Stored(w, x) || x in KeysUpTo(node, n)
    decreases node, n
  {
    hide Sound, Stored;
    if n == 0 {
      assert plan - ChildKeys(node, 0) == plan;
    } else {
      var child := node.children[n - 1];
      var before := KeysUpTo(node, n - 1);
      DistinctParts(before, AllKeys(child));
      ChildKeysIn(node, n - 1);
      ChildKeysGrow(node, n);
      assert AllKeys(child)[0] == child.key;
      assert ChildrenInsertable(w, plan, node, n - 1) by { hide ChildKeys; }
      InsertChildrenSound(w, node, n - 1, done, plan);
      var w', plan' := InsertChildren(w, node, n - 1), plan - ChildKeys(node, n - 1);
      assert Insertable(w', plan', child, Some(node.key)) by { hide ChildKeys, InsertChildren; }
      InsertSound(w', child, Some(node.key), done, plan');
      assert plan' - {child.key} == plan - ChildKeys(node, n);
    }
  }

  lemma AddSound(w: World, tree: Node, done: set<JobKey>)
    requires Sound(w, done, map[])
    ensures Sound(AddFlow(w, tree), done, map[])
  {
    hide Sound, Stored, Insert;
    var keys := AllKeys(tree);
    assert keys[0] == tree.key;
    if NoDuplicates(keys) && (forall i :: 0 <= i < |keys| ==> !Stored(w, keys[i])) {
      var nothing: Plan := map[];
      InsertSound(w, tree, None, done, nothing);
      assert nothing - {tree.key} == nothing;
    }
  }

  // ---------------------------------------------------------------- releasing

  lemma MoveParentEffect(q: Queue, id: JobId, now: nat, x: JobId)
    ensures var r := MoveParentToWait(q, id, now);
      && r.side == q.side && r.jobs == q.jobs
      && (Has(r.at.waitingChildren, x) <==> Has(q.at.waitingChildren, x) && x != id)
  {
    hide Zadd, Zrem, DelayedScore, Has;
    ZremHas(q.at.waitingChildren, id, x);
    if HashOf(q, id).delay > 0 { return; }
    if HashOf(q, id).priority > 0 { return; }
  }

  lemma ReleaseEffect(q: Queue, parent: JobId, child: JobKey, value: Payload, now: nat, x: JobId)
    requires child in PendingChildren(q, parent)
    ensures var r := ReleaseParent(q, parent, child, value, now);
      && r.jobs == q.jobs
      && PendingChildren(r, x) == PendingChildren(q, x) - (if x == parent then {child} else {})
      && ProcessedChildren(r, x).Keys == ProcessedChildren(q, x).Keys + (if x == parent then {child} else {})
      && (Has(r.at.waitingChildren, x) <==>
          Has(q.at.waitingChildren, x) && !(x == parent && parent in q.jobs && PendingChildren(q, parent) == {child}))
  {
    hide MoveParentToWait, Has;
    MoveParentEffect(RecordChild(q, parent, child, value), parent, now, x);
    if PendingChildren(q, parent) == {child} && parent in q.jobs && Has(q.at.waitingChildren, parent) { return; }
  }

  lemma TellView(w: World, p: JobKey, c: JobKey, value: Payload, now: nat, x: JobKey)
    requires c in Pending(w, p)
    ensures var w' := TellParent(w, p, c, value, now);
      && Pending(w', x) == Pending(w, x) - (if x == p then {c} else {})
      && Processed(w', x) == Processed(w, x) + (if x == p then {c} else {})
      && (Waits(w', x) <==> Waits(w, x) && !(x == p && Stored(w, p) && Pending(w, p) == {c}))
      && ParentOf(w', x) == ParentOf(w, x) && (Stored(w', x) <==> Stored(w, x))
  {
    hide ReleaseParent, Has;
    ReleaseEffect(At(w, p.queue), p.id, c, value, now, x.id);
  }

  lemma TellNobody(w: World, p: JobKey, c: JobKey, value: Payload, now: nat, x: JobKey)
    requires c !in Pending(w, p)
    ensures var w' := TellParent(w, p, c, value, now);
      SameView(w, w', x) && ParentOf(w', x) == ParentOf(w, x) && (Stored(w', x) <==> Stored(w, x))
  {
    hide Has;
  }

  lemma TellPartitioned(w: World, p: JobKey, c: JobKey, value: Payload, now: nat)
    requires forall j :: Partition.Partitioned(At(w, j))
    ensures forall j :: Partition.Partitioned(At(TellParent(w, p, c, value, now), j))
  {
    hide Partition.Partitioned, ReleaseParent;
    Partition.StepKeepsPartition(At(w, p.queue), Release(p.id, c, value, now));
    forall j ensures Partition.Partitioned(At(TellParent(w, p, c, value, now), j)) {
      AtUpdate(w, p.queue, ReleaseParent(At(w, p.queue), p.id, c, value, now), j);
    }
  }

  /** A child without pending children of its own completes and its parent is told. */
  lemma TellSound(w: World, p: JobKey, c: JobKey, value: Payload, now: nat, done: set<JobKey>)
    requires Sound(w, done, map[]) && ParentOf(w, c) == Some(p) && Stored(w, c) && Pending(w, c) == {}
    ensures Sound(TellParent(w, p, c, value, now), done + {c}, map[])
  {
    hide Partition.Partitioned, TellParent, Pending, Processed, Waits, ParentOf, Stored, At;
    var w', done' := TellParent(w, p, c, value, now), done + {c};
    TellPartitioned(w, p, c, value, now);
    assert Linked(w, done, map[], p, c);
    if c in Pending(w, p) {
      assert Fine(w, done, map[], p);
      forall x ensures Fine(w', done', map[], x) {
        assert Fine(w, done, map[], x);
        TellView(w, p, c, value, now, x);
      }
      forall x, y ensures Linked(w', done', map[], x, y) {
        assert Linked(w, done, map[], x, y);
        TellView(w, p, c, value, now, x);
        TellView(w, p, c, value, now, y);
      }
    } else {
      forall x ensures Fine(w', done', map[], x) {
        assert Fine(w, done, map[], x);
        TellNobody(w, p, c, value, now, x);
      }
      forall x, y ensures Linked(w', done', map[], x, y) {
        assert Linked(w, done, map[], x, y);
        TellNobody(w, p, c, value, now, x);
        TellNobody(w, p, c, value, now, y);
      }
    }
  }

  /** A root without pending children completes. */
  lemma RootSound(w: World, c: JobKey, done: set<JobKey>)
    requires Sound(w, done, map[]) && ParentOf(w, c) == None && Stored(w, c) && Pending(w, c) == {}
    ensures Sound(w, done + {c}, map[])
  {
    hide Partition.Partitioned, Pending, Processed, Waits, ParentOf, Stored, At;
    forall x ensures Fine(w, done + {c}, map[], x) { assert Fine(w, done, map[], x); }
    forall x, y ensures Linked(w, done + {c}, map[], x, y) { assert Linked(w, done, map[], x, y); }
  }

  // ---------------------------------------------------------------- runs

  lemma HolderHasNoPending(w: World, x: JobKey, token: Token, done: set<JobKey>)
    requires Sound(w, done, map[]) && token != NO_LOCK && Guard(At(w, x.queue), x.id, token) == OK
    ensures Stored(w, x) && Pending(w, x) == {}
  {
    hide Partition.Partitioned, Has, Pending;
    ActiveDoesNotWait(w, x);
    assert Fine(w, done, map[], x);
  }

  lemma FinishedView(w: World, job: JobKey, token: Token, now: nat, result: Result, atm: nat)
    ensures var left := w[job.queue := FinishJob(At(w, job.queue), job.id, token, now, result, atm).q];
      && Pending(left, job) == Pending(w, job) && ParentOf(left, job) == ParentOf(w, job)
      && (Stored(w, job) ==> Stored(left, job))
  {
    hide FinishJob, Has;
    FinishUndisturbed(At(w, job.queue), job.id, token, now, result, atm, job.id);
  }

  lemma FinishedSound(w: World, m: Move, done: set<JobKey>)
    requires Sound(w, done, map[]) && m.Finished? && Permitted(w, m)
    ensures Sound(Act(w, m), done + Completes(w, m), map[])
  {
    hide Sound, Stored, Pending, ParentOf, TellParent, FetchNext, RecordMetrics, At;
    var k, job, q := m.job.queue, m.job, At(w, m.job.queue);
    var o := FinishJob(q, job.id, m.token, m.now, m.result, m.atm);
    if Guard(q, job.id, m.token) != OK {
      assert done + {} == done;
      return;
    }
    assert o.code == OK;
    hide FinishJob;
    HolderHasNoPending(w, job, m.token, done);
    QuietSound(w, k, Finish(job.id, m.token, m.now, m.result, m.atm), done);
    FinishedView(w, job, m.token, m.now, m.result, m.atm);
    var left := w[k := o.q];
    var told :=
      if m.result.Completed? && ParentOf(left, job).Some?
      then TellParent(left, ParentOf(left, job).value, job, m.result.value, m.now) else left;
    var done' := done + Completes(w, m);
    assert Sound(told, done', map[]) by {
      if !m.result.Completed? {
        assert done' == done;
      } else if ParentOf(left, job).Some? {
        TellSound(left, ParentOf(left, job).value, job, m.result.value, m.now, done);
      } else {
        RootSound(left, job, done);
      }
    }
    QuietSound(told, k, Record(m.result, m.maxPoints, m.now), done');
    var counted := told[k := RecordMetrics(At(told, k), m.result, m.maxPoints, m.now)];
    if m.fetch.Some? {
      QuietSound(counted, k, Fetch(m.token, m.now, m.fetch.value.clock, m.fetch.value.limit), done');
    }
  }

  lemma MoveSound(g: Saga, m: Move)
    requires Sound(g.w, g.done, map[]) && Permitted(g.w, m)
    ensures Sound(Advance(g, m).w, Advance(g, m).done, map[])
  {
    hide Sound, Apply, AddFlow, Quiet, MoveToFinished, Partition.Safe;
    match m {
      case Add(tree) =>
        AddSound(g.w, tree, g.done);
        assert g.done + {} == g.done;
        return;
      case Script(k, s) =>
        QuietSound(g.w, k, s, g.done);
        assert g.done + {} == g.done;
        return;
      case Finished(_, _, _, _, _, _, _) => FinishedSound(g.w, m, g.done); return;
    }
  }

  lemma NothingIsSound()
    ensures Sound(map[], {}, map[])
  {
    forall k ensures Partition.Partitioned(At(map[], k)) { Partition.EmptyIsPartitioned(); }
  }

  predicate AllPermitted(moves: seq<Move>) {
    forall i :: 0 <= i < |moves| ==> Permitted(AdvanceAll(Saga(map[], {}), moves[..i]).w, moves[i])
  }

  lemma {:induction false} RunSound(moves: seq<Move>)
    requires AllPermitted(moves)
    ensures var g := AdvanceAll(Saga(map[], {}), moves); Sound(g.w, g.done, map[])
  {
    hide Sound, Advance, Permitted;
    var start := Saga(map[], {});
    if moves == [] {
      NothingIsSound();
    } else {
      var init := moves[..|moves| - 1];
      forall i | 0 <= i < |init| ensures Permitted(AdvanceAll(start, init[..i]).w, init[i]) {
        assert init[..i] == moves[..i];
        assert Permitted(AdvanceAll(start, moves[..i]).w, moves[i]);
      }
      RunSound(init);
      assert Permitted(AdvanceAll(start, moves[..|moves| - 1]).w, moves[|moves| - 1]);
      MoveSound(AdvanceAll(start, init), moves[|moves| - 1]);
    }
  }

  // ---------------------------------------------------------------- main results

  /** Over every run: the dependencies and processed keys of any job split its children into
      those still to complete and those completed, and the job waits for children exactly as
      long as one of them has not completed. */
  lemma {:induction false} ChildrenAreSplit(moves: seq<Move>, p: JobKey, c: JobKey)
    requires AllPermitted(moves)
    ensures var g := AdvanceAll(Saga(map[], {}), moves);
      && (c in Pending(g.w, p) <==> ParentOf(g.w, c) == Some(p) && c !in g.done)
      && (c in Processed(g.w, p) <==> ParentOf(g.w, c) == Some(p) && c in g.done)
      && (Waits(g.w, p) <==> exists d :: d in Pending(g.w, p))
  {
    hide AdvanceAll, Pending, Processed, ParentOf, Waits, Partition.Partitioned, AllPermitted;
    var g := AdvanceAll(Saga(map[], {}), moves);
    RunSound(moves);
    assert Fine(g.w, g.done, map[], p) && Linked(g.w, g.done, map[], p, c);
    if Pending(g.w, p) != {} { var d :| d in Pending(g.w, p); }
  }

  /** A chain of jobs, each the parent of the next. */
  predicate Chain(w: World, path: seq<JobKey>) {
    forall i :: 0 < i < |path| ==> ParentOf(w, path[i]) == Some(path[i - 1])
  }

  lemma {:induction false} DescendantsDone(w: World, done: set<JobKey>, path: seq<JobKey>, i: nat)
    requires Sound(w, done, map[]) && Chain(w, path) && 0 < i < |path| && Pending(w, path[0]) == {}
    ensures path[i] in done
  {
    hide Partition.Partitioned, Pending, Processed, Waits, ParentOf, Stored;
    assert ParentOf(w, path[i]) == Some(path[i - 1]);
    assert Linked(w, done, map[], path[i - 1], path[i]);
    if i > 1 {
      DescendantsDone(w, done, path, i - 1);
      assert Fine(w, done, map[], path[i - 1]);
    }
  }

  /** Over every run: when a job is active, all its descendants have completed. Taken at the
      moment of the claim, they had completed earlier. */
  lemma {:induction false} ClaimedAfterDescendants(moves: seq<Move>, path: seq<JobKey>, i: nat)
    requires AllPermitted(moves)
    requires var w := AdvanceAll(Saga(map[], {}), moves).w;
      0 < i < |path| && Chain(w, path) && path[0].id in At(w, path[0].queue).at.active
    ensures path[i] in AdvanceAll(Saga(map[], {}), moves).done
  {
    hide AdvanceAll, AllPermitted, Chain, At, Fine, Linked, Partition.Partitioned;
    var g := AdvanceAll(Saga(map[], {}), moves);
    RunSound(moves);
    ActiveDoesNotWait(g.w, path[0]);
    WaitsIffPending(g.w, g.done, path[0]);
    DescendantsDone(g.w, g.done, path, i);
  }

  lemma WaitsIffPending(w: World, done: set<JobKey>, p: JobKey)
    requires Fine(w, done, map[], p)
    ensures Waits(w, p) <==> Pending(w, p) != {}
  {
    hide Waits, Pending;
  }

  // ---------------------------------------------------------------- children are fixed, releases are final

  /** Seen from `x`: inserting gives parents only inside the tree, and keeps what is stored. */
  predicate ParentsWithin(w: World, w': World, keys: seq<JobKey>, parent: Option<JobKey>, x: JobKey) {
    && (x !in keys ==> ParentOf(w', x) == ParentOf(w, x))
    && (ParentOf(w', x) == ParentOf(w, x) || ParentOf(w', x) == parent
        || (ParentOf(w', x).Some? && ParentOf(w', x).value in keys))
    && (Stored(w, x) ==> Stored(w', x))
  }

  lemma LeafParents(w: World, node: Node, parent: Option<JobKey>, x: JobKey)
    ensures ParentsWithin(w, w[node.key.queue := AddLeaf(At(w, node.key.queue), node, parent)], [node.key], parent, x)
  {
    if Stored(w, node.key) {
      assert AddLeaf(At(w, node.key.queue), node, parent) == At(w, node.key.queue);
    } else {
      hide AddLeaf, SameView, Stored, ParentOf;
      LeafView(w, node, parent, x);
    }
  }

  lemma BlockedParents(w: World, node: Node, parent: Option<JobKey>, x: JobKey)
    ensures ParentsWithin(w, AddBlocked(w, node, parent), [node.key], parent, x)
  {
    if Stored(w, node.key) {
      var k := node.key.queue;
      assert AddParentJob(At(w, k), node.key.id, OptsOf(node), node.timestamp, parent) == At(w, k);
      hide Depend;
      DependView(w[k := At(w, k)], node.key, ChildKeys(node, |node.children|), x);
    } else {
      hide AddBlocked, Stored, ParentOf, Waits, Pending, Processed;
      BlockedView(w, node, parent, x);
    }
  }

  lemma {:induction false} InsertParents(w: World, node: Node, parent: Option<JobKey>, x: JobKey)
    ensures ParentsWithin(w, Insert(w, node, parent), AllKeys(node), parent, x)
    decreases node, |node.children| + 1
  {
    hide ParentOf, Stored, AddLeaf, AddBlocked, At;
    assert node.key in AllKeys(node);
    if node.children == [] {
      LeafParents(w, node, parent, x);
    } else {
      BlockedParents(w, node, parent, x);
      InsertChildrenParents(AddBlocked(w, node, parent), node, |node.children|, x);
    }
  }

  lemma {:induction false} InsertChildrenParents(w: World, node: Node, n: nat, x: JobKey)
    requires n <= |node.children|
    ensures ParentsWithin(w, InsertChildren(w, node, n), [node.key] + KeysUpTo(node, n), Some(node.key), x)
    ensures x !in KeysUpTo(node, n) ==> ParentOf(InsertChildren(w, node, n), x) == ParentOf(w, x)
    decreases node, n
  {
    hide ParentOf, Stored;
    if n > 0 {
      InsertChildrenParents(w, node, n - 1, x);
      InsertParents(InsertChildren(w, node, n - 1), node.children[n - 1], Some(node.key), x);
    }
  }

  /** A move gives no new child to a stored job and takes none away. */
  lemma ChildrenFixed(w: World, m: Move, p: JobKey, c: JobKey)
    requires Stored(w, p) && Permitted(w, m)
    requires forall k :: Partition.Partitioned(At(w, k))
    ensures Stored(Act(w, m), p) && (ParentOf(Act(w, m), c) == Some(p) <==> ParentOf(w, c) == Some(p))
  {
    hide Stored, ParentOf, Quiet, Insert, AllKeys, MoveToFinished, Partition.Safe, Partition.Partitioned;
    match m {
      case Add(tree) =>
        NotStoredNoParent(w, c);
        InsertParents(w, tree, None, c);
        InsertParents(w, tree, None, p);
        return;
      case Script(k, s) =>
        ScriptParents(w, k, s, c);
        ScriptParents(w, k, s, p);
        return;
      case Finished(_, _, _, _, _, _, _) =>
        FinishedParents(w, m, c);
        FinishedParents(w, m, p);
        return;
    }
  }

  predicate SameParent(w: World, w': World, x: JobKey) {
    ParentOf(w', x) == ParentOf(w, x) && (Stored(w, x) ==> Stored(w', x))
  }

  lemma ScriptParents(w: World, k: QueueId, s: Step, x: JobKey)
    requires Quiet(s)
    ensures SameParent(w, w[k := Apply(At(w, k), s)], x)
  {
    hide Apply, Quiet;
    QuietUndisturbed(At(w, k), s, x.id);
  }

  lemma TellParents(w: World, p: JobKey, c: JobKey, value: Payload, now: nat, x: JobKey)
    ensures SameParent(w, TellParent(w, p, c, value, now), x)
  {
    hide TellParent, Pending, Processed, Waits, Stored, ParentOf;
    if c in Pending(w, p) { TellView(w, p, c, value, now, x); } else { TellNobody(w, p, c, value, now, x); }
  }

  lemma FinishedParents(w: World, m: Move, x: JobKey)
    requires m.Finished?
    ensures SameParent(w, Act(w, m), x)
  {
    hide Stored, ParentOf, TellParent, FetchNext, RecordMetrics, At, FinishJob;
    var k, job, q := m.job.queue, m.job, At(w, m.job.queue);
    var o := FinishJob(q, job.id, m.token, m.now, m.result, m.atm);
    ScriptParents(w, k, Finish(job.id, m.token, m.now, m.result, m.atm), x);
    if o.code != OK { return; }
    var left := w[k := o.q];
    var told :=
      if m.result.Completed? && ParentOf(left, job).Some?
      then TellParent(left, ParentOf(left, job).value, job, m.result.value, m.now) else left;
    if m.result.Completed? && ParentOf(left, job).Some? {
      TellParents(left, ParentOf(left, job).value, job, m.result.value, m.now, x);
    }
    ScriptParents(told, k, Record(m.result, m.maxPoints, m.now), x);
    var counted := told[k := RecordMetrics(At(told, k), m.result, m.maxPoints, m.now)];
    if m.fetch.Some? {
      ScriptParents(counted, k, Fetch(m.token, m.now, m.fetch.value.clock, m.fetch.value.limit), x);
    }
  }

  /** A waiting parent is released by the completion of its only child left, and by no other
      move; a job that does not wait for children never does so again. */
  lemma ReleasedByLastChild(g: Saga, m: Move, p: JobKey)
    requires Sound(g.w, g.done, map[]) && Permitted(g.w, m) && Stored(g.w, p)
    ensures Stored(Advance(g, m).w, p)
    ensures Waits(g.w, p) ==> (!Waits(Advance(g, m).w, p) <==> Pending(g.w, p) <= Completes(g.w, m))
    ensures !Waits(g.w, p) ==> !Waits(Advance(g, m).w, p)
  {
    hide Stored, ParentOf, Pending, Processed, Waits, Act, Permitted, Completes, Partition.Partitioned;
    MoveSound(g, m);
    var r := Advance(g, m);
    ChildrenFixed(g.w, m, p, p);
    assert Fine(g.w, g.done, map[], p) && Fine(r.w, r.done, map[], p);
    forall c ensures c in Pending(r.w, p) <==> c in Pending(g.w, p) && c !in Completes(g.w, m) {
      ChildrenFixed(g.w, m, p, c);
      assert Linked(g.w, g.done, map[], p, c) && Linked(r.w, r.done, map[], p, c);
    }
  }

  /** Over every run: a job that has left waiting-children never enters it again. */
  lemma {:induction false} ReleaseIsFinal(moves: seq<Move>, i: nat, p: JobKey)
    requires AllPermitted(moves) && i <= |moves|
    requires var w := AdvanceAll(Saga(map[], {}), moves[..i]).w; Stored(w, p) && !Waits(w, p)
    ensures var w := AdvanceAll(Saga(map[], {}), moves).w; Stored(w, p) && !Waits(w, p)
  {
    hide Stored, Waits, Advance, Permitted, Sound, Pending, Completes;
    var start := Saga(map[], {});
    if i == |moves| {
      assert moves[..i] == moves;
    } else {
      var init := moves[..|moves| - 1];
      forall j | 0 <= j < |init| ensures Permitted(AdvanceAll(start, init[..j]).w, init[j]) {
        assert init[..j] == moves[..j];
        assert Permitted(AdvanceAll(start, moves[..j]).w, moves[j]);
      }
      assert init[..i] == moves[..i];
      ReleaseIsFinal(init, i, p);
      RunSound(init);
      assert Permitted(AdvanceAll(start, moves[..|moves| - 1]).w, moves[|moves| - 1]);
      ReleasedByLastChild(AdvanceAll(start, init), moves[|moves| - 1], p);
    }
  }
}

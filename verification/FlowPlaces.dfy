/** Where the nodes of a new flow go: leaves that have a delay to the delayed set, the others into
    line by their priority, and nodes with children to waiting-children, each with its own options
    in its hash. */
module FlowPlaces {
  import opened Redis
  import opened Scores
  import opened Queue
  import opened Flow
  import Filing
  import Partition

  /** The node's hash has the node's options. */
  predicate Carried(q: Queue, node: Node) {
    node.key.id in q.jobs
    && var job := q.jobs[node.key.id];
       job.attempts == node.attempts && job.priority == node.priority && job.delay == node.delay
       && job.timestamp == node.timestamp
  }

  predicate Placed(q: Queue, node: Node) {
    && Carried(q, node)
    && (node.children != [] ==> Has(q.at.waitingChildren, node.key.id))
    && (node.children == [] && node.delay > 0 ==>
          Filing.DueAt(q, node.key.id, node.timestamp + node.delay) && q.marks.delay.Some?)
    && (node.children == [] && node.delay == 0 ==>
          Filing.InLine(q, node.key.id, node.priority) && (!q.isPaused ==> q.marks.base))
  }

  /** All nodes of the tree. */
  function Nodes(node: Node): seq<Node>
    decreases node, |node.children| + 1
  {
    [node] + NodesUpTo(node, |node.children|)
  }

  function NodesUpTo(node: Node, n: nat): seq<Node>
    requires n <= |node.children|
    decreases node, n
  {
    if n == 0 then [] else NodesUpTo(node, n - 1) + Nodes(node.children[n - 1])
  }

  lemma {:induction false} NodeKeys(node: Node, n: nat, x: Node)
    requires n <= |node.children|
    ensures x in NodesUpTo(node, n) ==> x.key in KeysUpTo(node, n)
    ensures n == |node.children| && x in Nodes(node) ==> x.key in AllKeys(node)
    decreases node, n
  {
    if n > 0 {
      NodeKeys(node, n - 1, x);
      var child := node.children[n - 1];
      NodeKeys(child, |child.children|, x);
    }
  }

  // ---------------------------------------------------------------- a node finds its place

  lemma LeafPlaces(q: Queue, node: Node, parent: Option<JobKey>)
    requires node.key.id !in q.jobs && node.children == []
    ensures Placed(AddLeaf(q, node, parent), node)
  {
    hide AddDelayedJob, AddPrioritizedJob, AddStandardJob, Filing.DueAt;
    var id, opts, ts := node.key.id, OptsOf(node), node.timestamp;
    if node.delay > 0 { Filing.DelayedJobIsAdded(q, id, opts, ts, parent); return; }
    if node.priority > 0 { Filing.PrioritizedJobIsAdded(q, id, opts, ts, parent); return; }
    Filing.StandardJobIsAdded(q, id, opts, ts, parent);
  }

  lemma BlockedPlaces(w: World, node: Node, parent: Option<JobKey>)
    requires !Flow.Stored(w, node.key) && node.children != []
    ensures Placed(At(AddBlocked(w, node, parent), node.key.queue), node)
  {
    hide AddParentJob, Has;
    var k := node.key.queue;
    Filing.ParentIsAdded(At(w, k), node.key.id, OptsOf(node), node.timestamp, parent);
  }

  // ---------------------------------------------------------------- and keeps it

  lemma ZaddKeepsDue(q: Queue, r: Queue, score: nat, m: nat, x: JobId, due: nat)
    requires Filing.DueAt(q, x, due) && x != m && r.at.delayed == Zadd(q.at.delayed, score, m)
    ensures Filing.DueAt(r, x, due)
  {
    hide Zadd, Members;
    ZaddMembers(q.at.delayed, score, m);
    var k :| 0 <= k < |q.at.delayed| && Filing.IsDueAt(q.at.delayed[k], x, due);
    ZaddEntries(q.at.delayed, score, m, q.at.delayed[k]);
    assert q.at.delayed[k] in r.at.delayed;
    var j :| 0 <= j < |r.at.delayed| && r.at.delayed[j] == q.at.delayed[k];
    assert Filing.IsDueAt(r.at.delayed[j], x, due);
  }

  lemma ZaddKeepsLine(q: Queue, r: Queue, score: nat, m: nat, x: JobId, p: nat)
    requires Filing.InLine(q, x, p) && x != m && r.at.prioritized == Zadd(q.at.prioritized, score, m)
    requires r.isPaused == q.isPaused && r.at.wait == q.at.wait && r.at.paused == q.at.paused
    ensures Filing.InLine(r, x, p)
  {
    hide Zadd;
    if p > 0 {
      var e :| e in q.at.prioritized && e.member == x && e.score / BLOCK == p;
      ZaddEntries(q.at.prioritized, score, m, e);
      assert e in r.at.prioritized;
    }
  }

  /** What a queue gains from an insertion that does not concern `x`. */
  lemma LeafKeepsPlace(q: Queue, node: Node, parent: Option<JobKey>, x: Node)
    requires Placed(q, x) && x.key.id != node.key.id
    ensures Placed(AddLeaf(q, node, parent), x)
  {
    hide Zadd, DelayedScore, PriorityScore, Has, Filing.DueAt, Filing.InLine;
    var id, opts, ts := node.key.id, OptsOf(node), node.timestamp;
    if id in q.jobs { return; }
    var r := AddLeaf(q, node, parent);
    if node.delay > 0 {
      if x.children == [] && x.delay > 0 {
        ZaddKeepsDue(q, r, DelayedScore(q.at.delayed, DueTime(ts, opts.delay)), id, x.key.id, x.timestamp + x.delay);
      }
      if x.children == [] && x.delay == 0 { Filing.SameLine(q, r, x.key.id, x.priority); }
      return;
    }
    if x.children == [] && x.delay > 0 { Filing.SameDelayed(q, r, x.key.id, x.timestamp + x.delay); }
    if node.priority > 0 {
      if x.children == [] && x.delay == 0 {
        ZaddKeepsLine(q, r, PriorityScore(opts.priority, q.pc + 1), id, x.key.id, x.priority);
      }
      return;
    }
    if x.children == [] && x.delay == 0 { PushKeepsLine(q, r, id, x.key.id, x.priority); }
  }

  lemma PushKeepsLine(q: Queue, r: Queue, id: JobId, x: JobId, p: nat)
    requires Filing.InLine(q, x, p) && r.isPaused == q.isPaused && r.at.prioritized == q.at.prioritized
    requires r.at.wait == q.at.wait || r.at.wait == [id] + q.at.wait
    requires r.at.paused == q.at.paused || r.at.paused == [id] + q.at.paused
    ensures Filing.InLine(r, x, p)
  {
  }

  /** What matters for the place of `x` is as it was. */
  predicate SamePlaces(q: Queue, r: Queue, x: JobId) {
    && r.at.delayed == q.at.delayed && r.at.prioritized == q.at.prioritized
    && r.at.wait == q.at.wait && r.at.paused == q.at.paused && r.marks == q.marks && r.isPaused == q.isPaused
    && (Has(q.at.waitingChildren, x) ==> Has(r.at.waitingChildren, x))
    && (x in q.jobs ==> x in r.jobs && r.jobs[x] == q.jobs[x])
  }

  lemma SamePlacesKeep(q: Queue, r: Queue, x: Node)
    requires Placed(q, x) && SamePlaces(q, r, x.key.id)
    ensures Placed(r, x)
  {
    hide Has, Filing.DueAt, Filing.InLine;
    if x.children == [] && x.delay > 0 { Filing.SameDelayed(q, r, x.key.id, x.timestamp + x.delay); }
    if x.children == [] && x.delay == 0 { Filing.SameLine(q, r, x.key.id, x.priority); }
  }

  lemma ParentSamePlaces(q: Queue, node: Node, parent: Option<JobKey>, x: JobId)
    requires x != node.key.id
    ensures SamePlaces(q, AddParentJob(q, node.key.id, OptsOf(node), node.timestamp, parent), x)
  {
    hide Zadd, Has;
    ZaddHas(q.at.waitingChildren, node.timestamp, node.key.id, x);
    if node.key.id in q.jobs { return; }
  }

  lemma DependSamePlaces(w: World, p: JobKey, children: set<JobKey>, k: QueueId, x: JobId)
    ensures SamePlaces(At(w, k), At(Depend(w, p, children), k), x)
  {
    hide Has;
  }

  lemma BlockedKeepsPlace(w: World, node: Node, parent: Option<JobKey>, x: Node)
    requires Placed(At(w, x.key.queue), x) && x.key != node.key
    ensures Placed(At(AddBlocked(w, node, parent), x.key.queue), x)
  {
    hide Placed, AddParentJob, Depend, SamePlaces, ChildKeys, Flow.Stored;
    var k, h := x.key.queue, node.key.queue;
    var stored := w[h := AddParentJob(At(w, h), node.key.id, OptsOf(node), node.timestamp, parent)];
    assert Placed(At(stored, k), x) by {
      if k == h {
        ParentSamePlaces(At(w, h), node, parent, x.key.id);
        SamePlacesKeep(At(w, h), At(stored, h), x);
      }
    }
    var known := if parent.Some? && !Flow.Stored(w, node.key) then Depend(stored, parent.value, {node.key}) else stored;
    if parent.Some? && !Flow.Stored(w, node.key) {
      DependSamePlaces(stored, parent.value, {node.key}, k, x.key.id);
      SamePlacesKeep(At(stored, k), At(known, k), x);
    }
    var children := ChildKeys(node, |node.children|);
    DependSamePlaces(known, node.key, children, k, x.key.id);
    SamePlacesKeep(At(known, k), At(Depend(known, node.key, children), k), x);
  }

  lemma {:induction false} InsertKeepsPlace(w: World, node: Node, parent: Option<JobKey>, x: Node)
    requires Placed(At(w, x.key.queue), x) && x.key !in AllKeys(node)
    ensures Placed(At(Flow.Insert(w, node, parent), x.key.queue), x)
    decreases node, |node.children| + 1
  {
    hide Placed, AddLeaf, AddBlocked;
    assert AllKeys(node)[0] == node.key;
    if node.children == [] {
      if x.key.queue == node.key.queue { LeafKeepsPlace(At(w, x.key.queue), node, parent, x); }
      return;
    }
    BlockedKeepsPlace(w, node, parent, x);
    ChildrenKeepPlace(AddBlocked(w, node, parent), node, |node.children|, x);
  }

  lemma {:induction false} ChildrenKeepPlace(w: World, node: Node, n: nat, x: Node)
    requires n <= |node.children| && Placed(At(w, x.key.queue), x) && x.key !in KeysUpTo(node, n)
    ensures Placed(At(InsertChildren(w, node, n), x.key.queue), x)
    decreases node, n
  {
    hide Placed, Flow.Insert;
    if n > 0 {
      ChildrenKeepPlace(w, node, n - 1, x);
      InsertKeepsPlace(InsertChildren(w, node, n - 1), node.children[n - 1], Some(node.key), x);
    }
  }

  // ---------------------------------------------------------------- nothing else is stored

  lemma {:induction false} InsertStoresOnly(w: World, node: Node, parent: Option<JobKey>, x: JobKey)
    requires !Flow.Stored(w, x) && x !in AllKeys(node)
    ensures !Flow.Stored(Flow.Insert(w, node, parent), x)
    decreases node, |node.children| + 1
  {
    hide AddLeaf, AddBlocked;
    assert AllKeys(node)[0] == node.key;
    if node.children == [] {
      LeafStoresOnly(At(w, node.key.queue), node, parent, x.id);
      return;
    }
    BlockedStoresOnly(w, node, parent, x);
    ChildrenStoreOnly(AddBlocked(w, node, parent), node, |node.children|, x);
  }

  lemma LeafStoresOnly(q: Queue, node: Node, parent: Option<JobKey>, x: JobId)
    ensures x != node.key.id && x !in q.jobs ==> x !in AddLeaf(q, node, parent).jobs
  {
    hide Zadd, DelayedScore;
    if node.key.id in q.jobs { return; }
    if node.delay > 0 { return; }
    if node.priority > 0 { return; }
  }

  lemma BlockedStoresOnly(w: World, node: Node, parent: Option<JobKey>, x: JobKey)
    requires !Flow.Stored(w, x) && x != node.key
    ensures !Flow.Stored(AddBlocked(w, node, parent), x)
  {
    hide Zadd, ChildKeys;
  }

  lemma {:induction false} ChildrenStoreOnly(w: World, node: Node, n: nat, x: JobKey)
    requires n <= |node.children| && !Flow.Stored(w, x) && x !in KeysUpTo(node, n)
    ensures !Flow.Stored(InsertChildren(w, node, n), x)
    decreases node, n
  {
    hide Flow.Stored, Flow.Insert;
    if n > 0 {
      ChildrenStoreOnly(w, node, n - 1, x);
      InsertStoresOnly(InsertChildren(w, node, n - 1), node.children[n - 1], Some(node.key), x);
    }
  }

  // ---------------------------------------------------------------- the whole tree

  lemma {:induction false} InsertPlaces(w: World, node: Node, parent: Option<JobKey>)
    requires NoDuplicates(AllKeys(node)) && forall x :: x in AllKeys(node) ==> !Flow.Stored(w, x)
    ensures forall n :: n in Nodes(node) ==> Placed(At(Flow.Insert(w, node, parent), n.key.queue), n)
    decreases node, |node.children| + 1
  {
    hide Placed, Flow.Stored, AddLeaf, AddBlocked, At;
    var count := |node.children|;
    assert AllKeys(node) == [node.key] + KeysUpTo(node, count);
    assert AllKeys(node)[0] == node.key;
    if count == 0 {
      NewLeafPlaced(w, node, parent);
      return;
    }
    DistinctParts([node.key], KeysUpTo(node, count));
    assert node.key in [node.key];
    var b := AddBlocked(w, node, parent);
    BlockedPlaces(w, node, parent);
    forall x | x in KeysUpTo(node, count) ensures !Flow.Stored(b, x) { BlockedStoresOnly(w, node, parent, x); }
    ChildrenKeepPlace(b, node, count, node);
    ChildrenPlace(b, node, count);
  }

  lemma NewLeafPlaced(w: World, node: Node, parent: Option<JobKey>)
    requires node.children == [] && !Flow.Stored(w, node.key)
    ensures Placed(At(Flow.Insert(w, node, parent), node.key.queue), node)
  {
    hide Placed, AddLeaf;
    LeafPlaces(At(w, node.key.queue), node, parent);
  }

  lemma {:induction false} ChildrenPlace(w: World, node: Node, n: nat)
    requires n <= |node.children| && NoDuplicates(KeysUpTo(node, n))
    requires forall x :: x in KeysUpTo(node, n) ==> !Flow.Stored(w, x)
    ensures forall x :: x in NodesUpTo(node, n) ==> Placed(At(InsertChildren(w, node, n), x.key.queue), x)
    decreases node, n
  {
    hide Placed, Flow.Stored, Flow.Insert;
    if n > 0 {
      var child := node.children[n - 1];
      var before := KeysUpTo(node, n - 1);
      DistinctParts(before, AllKeys(child));
      ChildrenPlace(w, node, n - 1);
      var m := InsertChildren(w, node, n - 1);
      forall x | x in AllKeys(child) ensures !Flow.Stored(m, x) { ChildrenStoreOnly(w, node, n - 1, x); }
      InsertPlaces(m, child, Some(node.key));
      forall x | x in NodesUpTo(node, n - 1)
        ensures Placed(At(InsertChildren(w, node, n), x.key.queue), x)
      {
        NodeKeys(node, n - 1, x);
        InsertKeepsPlace(m, child, Some(node.key), x);
      }
    }
  }

  /** Main result: every flow that is accepted puts each of its nodes where its options say. */
  lemma AddedFlowIsPlaced(w: World, tree: Node, x: Node)
    requires NoDuplicates(AllKeys(tree)) && forall k :: k in AllKeys(tree) ==> !Flow.Stored(w, k)
    requires x in Nodes(tree)
    ensures Placed(At(AddFlow(w, tree), x.key.queue), x)
  {
    hide Placed, Flow.Stored, Flow.Insert;
    InsertPlaces(w, tree, None);
  }

  /** And nowhere else: among sound worlds a leaf is in the delayed set if and only if it has a
      delay. */
  lemma LeafIsDelayedIff(w: World, tree: Node, x: Node, done: set<JobKey>)
    requires Sound(w, done, map[])
    requires NoDuplicates(AllKeys(tree)) && forall k :: k in AllKeys(tree) ==> !Flow.Stored(w, k)
    requires x in Nodes(tree) && x.children == []
    ensures Has(At(AddFlow(w, tree), x.key.queue).at.delayed, x.key.id) <==> x.delay > 0
  {
    hide Flow.Stored, AddFlow, AllKeys, Nodes, At, Fine, Linked, Has;
    hide Partition.Count, Partition.InSet, Partition.InList;
    AddedFlowIsPlaced(w, tree, x);
    AddSound(w, tree, done);
    var q, id := At(AddFlow(w, tree), x.key.queue), x.key.id;
    assert Partition.Partitioned(q);
    assert Partition.Fits(q, id);
    Partition.CountParts(q.at, id);
    Partition.PresentInSet(q.at.delayed, id);
    Partition.PresentInSet(q.at.prioritized, id);
    Partition.Present(q.at.wait, id);
    Partition.Present(q.at.paused, id);
    if x.delay == 0 && x.priority > 0 { InPrioritized(q, id, x.priority); }
  }

  lemma InPrioritized(q: Queue, id: JobId, p: nat)
    requires Filing.InLine(q, id, p) && p > 0
    ensures Has(q.at.prioritized, id)
  {
    var e :| e in q.at.prioritized && e.member == id && e.score / BLOCK == p;
    var i :| 0 <= i < |q.at.prioritized| && q.at.prioritized[i] == e;
    MembersAt(q.at.prioritized, i);
  }
}

/** How a flow gets its job ids: the producer counts the nodes without an id per queue, reserves
    a range of the queue's counter for them, and hands the range out while it walks the tree. */
module FlowIds {
  import opened Redis
  import opened Decimals

  /** A queue, by key prefix and name. */
  datatype QueueName = QueueName(prefix: string, name: string)

  datatype FullKey = FullKey(queue: QueueName, id: string)

  /** What the caller submits. */
  datatype FlowJob = FlowJob(queue: QueueName, id: Option<string>, children: seq<FlowJob>)

  /** What gets inserted. */
  datatype Prepared = Prepared(key: FullKey, parent: Option<FullKey>, children: seq<Prepared>)

  type Ranges = map<QueueName, nat>

  // ---------------------------------------------------------------- ranges of ids

  /** Decimal(from), ..., Decimal(from + n - 1). */
  function DecimalRange(from: nat, n: nat): seq<string> {
    if n == 0 then [] else DecimalRange(from, n - 1) + [Decimal(from + n - 1)]
  }

  lemma {:induction false} DecimalRangeAt(from: nat, n: nat, i: nat)
    requires i < n
    ensures |DecimalRange(from, n)| == n && DecimalRange(from, n)[i] == Decimal(from + i)
  {
    if n > 1 { DecimalRangeAt(from, n - 1, if i == n - 1 then 0 else i); }
  }

  lemma {:induction false} DecimalRangeConcat(from: nat, m: nat, n: nat)
    ensures DecimalRange(from, m) + DecimalRange(from + m, n) == DecimalRange(from, m + n)
  {
    hide Decimal;
    if n > 0 {
      DecimalRangeConcat(from, m, n - 1);
      assert DecimalRange(from, m) + (DecimalRange(from + m, n - 1) + [Decimal(from + m + n - 1)])
          == (DecimalRange(from, m) + DecimalRange(from + m, n - 1)) + [Decimal(from + m + n - 1)];
    } else {
      assert DecimalRange(from, m) + [] == DecimalRange(from, m);
    }
  }

  // ---------------------------------------------------------------- counting

  /** Nodes of the tree that are in queue `k` and bring no id of their own. */
  function AutoCount(job: FlowJob, k: QueueName): nat
    decreases job, |job.children| + 1
  {
    (if job.id.None? && job.queue == k then 1 else 0) + AutoCountUpTo(job, |job.children|, k)
  }

  function AutoCountUpTo(job: FlowJob, n: nat, k: QueueName): nat
    requires n <= |job.children|
    decreases job, n
  {
    if n == 0 then 0 else AutoCountUpTo(job, n - 1, k) + AutoCount(job.children[n - 1], k)
  }

  function Get(m: map<QueueName, nat>, k: QueueName): nat {
    if k in m then m[k] else 0
  }

  // ---------------------------------------------------------------- handing out

  /** The tree with its ids, and what is left of the ranges; duplicate keys are not looked at. */
  datatype Assigned = Assigned(tree: Prepared, next: Ranges)

  datatype AssignedAll = AssignedAll(trees: seq<Prepared>, next: Ranges)

  function IdFor(job: FlowJob, next: Ranges): string {
    if job.id.Some? then job.id.value else Decimal(Get(next, job.queue))
  }

  function Advanced(job: FlowJob, next: Ranges): Ranges {
    if job.id.Some? then next else next[job.queue := Get(next, job.queue) + 1]
  }

  function Assign(job: FlowJob, parent: Option<FullKey>, next: Ranges): Assigned
    decreases job, |job.children| + 1
  {
    var key := FullKey(job.queue, IdFor(job, next));
    var all := AssignUpTo(job, |job.children|, key, Advanced(job, next));
    Assigned(Prepared(key, parent, all.trees), all.next)
  }

  function AssignUpTo(job: FlowJob, n: nat, key: FullKey, next: Ranges): AssignedAll
    requires n <= |job.children|
    decreases job, n
  {
    if n == 0 then AssignedAll([], next)
    else
      var before := AssignUpTo(job, n - 1, key, next);
      var last := Assign(job.children[n - 1], Some(key), before.next);
      AssignedAll(before.trees + [last.tree], last.next)
  }

  /** collect_job_keys */
  function KeysOf(tree: Prepared): seq<FullKey> {
    [tree.key] + KeysOfAll(tree.children)
  }

  function KeysOfAll(trees: seq<Prepared>): seq<FullKey> {
    if trees == [] then [] else KeysOfAll(trees[..|trees| - 1]) + KeysOf(trees[|trees| - 1])
  }

  /** The tree as the caller gave it: same queues, same children in the same order, each node with the
      key of its parent, and with its own id if it brought one. */
  predicate Shaped(job: FlowJob, tree: Prepared, parent: Option<FullKey>)
    decreases job
  {
    && tree.parent == parent && tree.key.queue == job.queue
    && (job.id.Some? ==> tree.key.id == job.id.value)
    && |tree.children| == |job.children|
    && (forall i :: 0 <= i < |job.children| ==> Shaped(job.children[i], tree.children[i], Some(tree.key)))
  }

  lemma {:induction false} AssignKeepsShape(job: FlowJob, parent: Option<FullKey>, next: Ranges)
    ensures Shaped(job, Assign(job, parent, next).tree, parent)
    decreases job, |job.children| + 1
  {
    var key := FullKey(job.queue, IdFor(job, next));
    AssignUpToKeepsShape(job, |job.children|, key, Advanced(job, next));
  }

  lemma {:induction false} AssignUpToKeepsShape(job: FlowJob, n: nat, key: FullKey, next: Ranges)
    requires n <= |job.children|
    ensures var trees := AssignUpTo(job, n, key, next).trees;
      |trees| == n && forall i :: 0 <= i < n ==> Shaped(job.children[i], trees[i], Some(key))
    decreases job, n
  {
    hide Shaped;
    if n > 0 {
      AssignUpToKeepsShape(job, n - 1, key, next);
      AssignKeepsShape(job.children[n - 1], Some(key), AssignUpTo(job, n - 1, key, next).next);
    }
  }

  /** The ids that nodes without an id of their own got in queue `k`, in walking order. */
  function AutoIds(job: FlowJob, parent: Option<FullKey>, next: Ranges, k: QueueName): seq<string>
    decreases job, |job.children| + 1
  {
    var tree := Assign(job, parent, next).tree;
    (if job.id.None? && job.queue == k then [tree.key.id] else [])
    + AutoIdsUpTo(job, |job.children|, tree.key, Advanced(job, next), k)
  }

  function AutoIdsUpTo(job: FlowJob, n: nat, key: FullKey, next: Ranges, k: QueueName): seq<string>
    requires n <= |job.children|
    decreases job, n
  {
    if n == 0 then []
    else
      AutoIdsUpTo(job, n - 1, key, next, k)
      + AutoIds(job.children[n - 1], Some(key), AssignUpTo(job, n - 1, key, next).next, k)
  }

  /** Main result: in every queue the ids handed out are, one after the other, the whole range
      that was reserved for it, and nothing of it is left. */
  lemma {:induction false} RangeIsUsedUp(job: FlowJob, parent: Option<FullKey>, next: Ranges, k: QueueName)
    ensures AutoIds(job, parent, next, k) == DecimalRange(Get(next, k), AutoCount(job, k))
    ensures Get(Assign(job, parent, next).next, k) == Get(next, k) + AutoCount(job, k)
    decreases job, |job.children| + 1
  {
    hide AutoIdsUpTo, AutoCountUpTo, AssignUpTo, Decimal;
    var key := FullKey(job.queue, IdFor(job, next));
    var own := if job.id.None? && job.queue == k then 1 else 0;
    var rest := Advanced(job, next);
    RangeIsUsedUpBy(job, |job.children|, key, rest, k);
    assert Get(rest, k) == Get(next, k) + own;
    DecimalRangeConcat(Get(next, k), own, AutoCountUpTo(job, |job.children|, k));
    assert DecimalRange(Get(next, k), own) == if own == 1 then [Decimal(Get(next, k))] else [];
  }

  lemma {:induction false} RangeIsUsedUpBy(job: FlowJob, n: nat, key: FullKey, next: Ranges, k: QueueName)
    requires n <= |job.children|
    ensures AutoIdsUpTo(job, n, key, next, k) == DecimalRange(Get(next, k), AutoCountUpTo(job, n, k))
    ensures Get(AssignUpTo(job, n, key, next).next, k) == Get(next, k) + AutoCountUpTo(job, n, k)
    decreases job, n
  {
    hide AutoIds, AutoCount, Assign, Decimal;
    if n > 0 {
      var before := AssignUpTo(job, n - 1, key, next);
      RangeIsUsedUpBy(job, n - 1, key, next, k);
      RangeIsUsedUp(job.children[n - 1], Some(key), before.next, k);
      DecimalRangeConcat(Get(next, k), AutoCountUpTo(job, n - 1, k), AutoCount(job.children[n - 1], k));
    }
  }

  /** No id of the range is used twice. */
  lemma EachIdOnce(job: FlowJob, parent: Option<FullKey>, next: Ranges, k: QueueName, i: nat, j: nat)
    requires i < j < |AutoIds(job, parent, next, k)|
    ensures AutoIds(job, parent, next, k)[i] != AutoIds(job, parent, next, k)[j]
  {
    hide AutoIds, AutoCount;
    var from, n := Get(next, k), AutoCount(job, k);
    RangeIsUsedUp(job, parent, next, k);
    if n > 0 { DecimalRangeAt(from, n, 0); }
    DecimalRangeAt(from, n, i);
    DecimalRangeAt(from, n, j);
    if Decimal(from + i) == Decimal(from + j) { DecimalInjective(from + i, from + j); }
  }

  // ---------------------------------------------------------------- duplicate keys

  predicate Fresh(keys: seq<FullKey>, seen: set<FullKey>) {
    && (forall i, j :: 0 <= i < j < |keys| ==> keys[i] != keys[j])
    && (forall i :: 0 <= i < |keys| ==> keys[i] !in seen)
  }

  function Elements(keys: seq<FullKey>): set<FullKey> {
    set i | 0 <= i < |keys| :: keys[i]
  }

  lemma ElementsConcat(a: seq<FullKey>, b: seq<FullKey>)
    ensures Elements(a + b) == Elements(a) + Elements(b)
  {
    assert forall i :: 0 <= i < |a| ==> (a + b)[i] == a[i];
    assert forall i :: 0 <= i < |b| ==> (a + b)[|a| + i] == b[i];
  }

  lemma FreshConcat(a: seq<FullKey>, b: seq<FullKey>, seen: set<FullKey>)
    ensures Fresh(a + b, seen) <==> Fresh(a, seen) && Fresh(b, seen + Elements(a))
  {
    var s := a + b;
    assert forall i :: 0 <= i < |a| ==> s[i] == a[i];
    assert forall i :: 0 <= i < |b| ==> s[|a| + i] == b[i];
  }

  lemma {:induction false} KeysOfAllGrow(job: FlowJob, m: nat, n: nat, key: FullKey, next: Ranges)
    requires m <= n <= |job.children|
    ensures KeysOfAll(AssignUpTo(job, m, key, next).trees) <= KeysOfAll(AssignUpTo(job, n, key, next).trees)
  {
    hide Assign, KeysOf;
    if m < n {
      KeysOfAllGrow(job, m, n - 1, key, next);
      LastTree(AssignUpTo(job, n - 1, key, next).trees,
               Assign(job.children[n - 1], Some(key), AssignUpTo(job, n - 1, key, next).next).tree);
    }
  }

  lemma LastTree(trees: seq<Prepared>, tree: Prepared)
    ensures KeysOfAll(trees + [tree]) == KeysOfAll(trees) + KeysOf(tree)
  {
    assert (trees + [tree])[..|trees + [tree]| - 1] == trees;
  }

  lemma FreshPrefix(a: seq<FullKey>, b: seq<FullKey>, seen: set<FullKey>)
    requires a <= b && Fresh(b, seen)
    ensures Fresh(a, seen)
  {
  }

  lemma OneKey(key: FullKey, was: set<FullKey>)
    ensures [key] + KeysOfAll([]) == [key] && Elements([key]) == {key}
    ensures key !in was ==> Fresh([key], was)
  {
    assert [key][0] == key;
  }

  /** What the next child adds to the keys handed out so far. */
  lemma AfterChild(job: FlowJob, n: nat, key: FullKey, next: Ranges, trees: seq<Prepared>, was: set<FullKey>)
    requires n < |job.children| && trees == AssignUpTo(job, n, key, next).trees
    ensures var child := Assign(job.children[n], Some(key), AssignUpTo(job, n, key, next).next);
      var sofar, grown := [key] + KeysOfAll(trees), [key] + KeysOfAll(trees + [child.tree]);
      && AssignUpTo(job, n + 1, key, next) == AssignedAll(trees + [child.tree], child.next)
      && (Fresh(grown, was) <==> Fresh(sofar, was) && Fresh(KeysOf(child.tree), was + Elements(sofar)))
      && was + Elements(grown) == was + Elements(sofar) + Elements(KeysOf(child.tree))
      && (Fresh([key] + KeysOfAll(AssignUpTo(job, |job.children|, key, next).trees), was) ==> Fresh(grown, was))
  {
    hide Assign, KeysOf, Fresh, Elements;
    var child := Assign(job.children[n], Some(key), AssignUpTo(job, n, key, next).next).tree;
    var sofar := [key] + KeysOfAll(trees);
    LastTree(trees, child);
    assert [key] + KeysOfAll(trees + [child]) == sofar + KeysOf(child);
    FreshConcat(sofar, KeysOf(child), was);
    ElementsConcat(sofar, KeysOf(child));
    KeysOfAllGrow(job, n + 1, |job.children|, key, next);
    var all := [key] + KeysOfAll(AssignUpTo(job, |job.children|, key, next).trees);
    if Fresh(all, was) { FreshPrefix(sofar + KeysOf(child), all, was); }
  }

  // ---------------------------------------------------------------- the producer

  datatype Outcome = Ready(tree: Prepared) | MissingRange(queue: QueueName) | Duplicate(key: FullKey)

  /** The tables one call of the producer fills in. */
  class Draft {
    var counts: map<QueueName, nat>
    var next: Ranges
    var seen: set<FullKey>

    constructor ()
      ensures counts == map[] && next == map[] && seen == {}
    {
      counts, next, seen := map[], map[], {};
    }

    /** count_auto_ids */
    method CountAutoIds(job: FlowJob)
      modifies this`counts
      ensures forall k :: Get(counts, k) == Get(old(counts), k) + AutoCount(job, k)
      ensures forall k :: k in counts <==> k in old(counts) || AutoCount(job, k) > 0
      decreases job
    {
      if job.id.None? {
        counts := counts[job.queue := Get(counts, job.queue) + 1];
      }
      ghost var own := counts;
      for n := 0 to |job.children|
        invariant forall k :: Get(counts, k) == Get(own, k) + AutoCountUpTo(job, n, k)
        invariant forall k :: k in counts <==> k in own || AutoCountUpTo(job, n, k) > 0
      {
        CountAutoIds(job.children[n]);
      }
    }

    /** The node's own id, or else the next one of its queue's range. */
    method TakeId(job: FlowJob) returns (id: string)
      requires job.id.None? ==> job.queue in next
      modifies this`next
      ensures id == IdFor(job, old(next)) && next == Advanced(job, old(next)) && next.Keys == old(next.Keys)
    {
      if job.id.Some? {
        id := job.id.value;
      } else {
        id := Decimal(next[job.queue]);
        next := next[job.queue := next[job.queue] + 1];
      }
    }

    /** prepare_node: succeeds exactly when no key repeats, given a range for every queue that
        needs one. */
    method PrepareNode(job: FlowJob, parent: Option<FullKey>) returns (r: Outcome)
      modifies this`next, this`seen
      ensures next.Keys == old(next.Keys)
      ensures r.MissingRange? ==> AutoCount(job, r.queue) > 0 && r.queue !in old(next)
      ensures r.Ready? ==>
                && r.tree == Assign(job, parent, old(next)).tree
                && next == Assign(job, parent, old(next)).next
                && Fresh(KeysOf(r.tree), old(seen))
                && seen == old(seen) + Elements(KeysOf(r.tree))
      ensures r.Duplicate? ==> !Fresh(KeysOf(Assign(job, parent, old(next)).tree), old(seen))
      decreases job
    {
      if job.id.None? && job.queue !in next {
        return MissingRange(job.queue);
      }
      var id := TakeId(job);
      var key := FullKey(job.queue, id);
      ghost var was, start := old(seen), next;
      assert key == FullKey(job.queue, IdFor(job, old(next))) && start == Advanced(job, old(next));
      hide IdFor, Advanced;
      ghost var whole := Assign(job, parent, old(next)).tree;
      assert KeysOf(whole) == [key] + KeysOfAll(AssignUpTo(job, |job.children|, key, start).trees);
      if key in seen {
        assert KeysOf(whole)[0] == key;
        return Duplicate(key);
      }
      seen := seen + {key};
      var trees: seq<Prepared> := [];
      OneKey(key, was);
      hide Assign, AssignUpTo, KeysOf, KeysOfAll, Fresh, Elements, AutoCount;
      for n := 0 to |job.children|
        invariant next.Keys == old(next.Keys)
        invariant trees == AssignUpTo(job, n, key, start).trees && next == AssignUpTo(job, n, key, start).next
        invariant Fresh([key] + KeysOfAll(trees), was)
        invariant seen == was + Elements([key] + KeysOfAll(trees))
      {
        label before:
        var c := PrepareNode(job.children[n], Some(key));
        AfterChild(job, n, key, start, trees, was);
        match c {
          case Ready(tree) =>
            trees := trees + [tree];
          case MissingRange(queue) =>
            Counted(job, n, queue);
            return c;
          case Duplicate(_) =>
            return c;
        }
      }
      r := Ready(Prepared(key, parent, trees));
    }
  }

  lemma {:induction false} Counted(job: FlowJob, n: nat, k: QueueName)
    requires n < |job.children| && AutoCount(job.children[n], k) > 0
    ensures AutoCount(job, k) > 0
  {
    CountedUpTo(job, n, |job.children|, k);
  }

  lemma {:induction false} CountedUpTo(job: FlowJob, n: nat, m: nat, k: QueueName)
    requires n < m <= |job.children| && AutoCount(job.children[n], k) > 0
    ensures AutoCountUpTo(job, m, k) > 0
  {
    if n < m - 1 { CountedUpTo(job, n, m - 1, k); }
  }

  // ---------------------------------------------------------------- reserving

  /** The queues' id counters. */
  class Counters {
    var last: map<QueueName, nat>

    constructor ()
      ensures last == map[]
    {
      last := map[];
    }

    /** INCRBY */
    method IncrBy(k: QueueName, n: nat) returns (v: nat)
      modifies this
      ensures v == Get(old(last), k) + n && last == old(last)[k := v]
    {
      v := Get(last, k) + n;
      last := last[k := v];
    }
  }

  function AutoQueues(job: FlowJob): set<QueueName>
    decreases job, |job.children| + 1
  {
    (if job.id.None? then {job.queue} else {}) + AutoQueuesUpTo(job, |job.children|)
  }

  function AutoQueuesUpTo(job: FlowJob, n: nat): set<QueueName>
    requires n <= |job.children|
    decreases job, n
  {
    if n == 0 then {} else AutoQueuesUpTo(job, n - 1) + AutoQueues(job.children[n - 1])
  }

  lemma {:induction false} AutoQueuesAreCounted(job: FlowJob, k: QueueName)
    ensures k in AutoQueues(job) <==> AutoCount(job, k) > 0
    decreases job, |job.children| + 1
  {
    AutoQueuesUpToAreCounted(job, |job.children|, k);
  }

  lemma {:induction false} AutoQueuesUpToAreCounted(job: FlowJob, n: nat, k: QueueName)
    requires n <= |job.children|
    ensures k in AutoQueuesUpTo(job, n) <==> AutoCountUpTo(job, n, k) > 0
    decreases job, n
  {
    if n > 0 {
      AutoQueuesUpToAreCounted(job, n - 1, k);
      AutoQueuesAreCounted(job.children[n - 1], k);
    }
  }

  /** Every range starts right after the counter as it was. */
  function Reserved(job: FlowJob, last: map<QueueName, nat>): Ranges {
    map k | k in AutoQueues(job) :: Get(last, k) + 1
  }

  /** One INCRBY per counted queue. */
  method ReserveRanges(draft: Draft, counters: Counters)
    requires draft.next == map[]
    modifies counters, draft`next
    ensures draft.next == map k | k in draft.counts :: Get(old(counters.last), k) + 1
    ensures forall k :: Get(counters.last, k) == Get(old(counters.last), k) + Get(draft.counts, k)
  {
    var left := draft.counts.Keys;
    while left != {}
      invariant left <= draft.counts.Keys
      invariant draft.next.Keys == draft.counts.Keys - left
      invariant forall k :: k in draft.next ==> draft.next[k] == Get(old(counters.last), k) + 1
      invariant forall k :: Get(counters.last, k)
                            == Get(old(counters.last), k) + (if k in draft.next then Get(draft.counts, k) else 0)
      decreases |left|
    {
      var k :| k in left;
      var last := counters.IncrBy(k, draft.counts[k]);
      draft.next := draft.next[k := last - draft.counts[k] + 1];
      left := left - {k};
    }
  }

  lemma ReservedRange(job: FlowJob, last: map<QueueName, nat>, k: QueueName)
    requires AutoCount(job, k) > 0
    ensures AutoIds(job, None, Reserved(job, last), k) == DecimalRange(Get(last, k) + 1, AutoCount(job, k))
  {
    hide AutoIds, AutoCount, AutoQueues, DecimalRange;
    AutoQueuesAreCounted(job, k);
    RangeIsUsedUp(job, None, Reserved(job, last), k);
  }

  /** FlowProducer::add up to the transaction: the missing range cannot happen, the ids drawn in
      each queue are the range the counter advanced over, and the only failure is a repeated key. */
  method Draw(job: FlowJob, counters: Counters) returns (r: Outcome)
    modifies counters
    ensures forall k :: Get(counters.last, k) == Get(old(counters.last), k) + AutoCount(job, k)
    ensures forall k :: AutoCount(job, k) > 0 ==>
              AutoIds(job, None, Reserved(job, old(counters.last)), k)
              == DecimalRange(Get(old(counters.last), k) + 1, AutoCount(job, k))
    ensures !r.MissingRange?
    ensures r.Ready? <==> Fresh(KeysOf(Assign(job, None, Reserved(job, old(counters.last))).tree), {})
    ensures r.Ready? ==> r.tree == Assign(job, None, Reserved(job, old(counters.last))).tree
  {
    hide AutoIds, AutoCount, AutoQueues, Assign, KeysOf, Fresh, DecimalRange;
    ghost var was := counters.last;
    forall k | AutoCount(job, k) > 0
      ensures AutoIds(job, None, Reserved(job, was), k) == DecimalRange(Get(was, k) + 1, AutoCount(job, k))
    {
      ReservedRange(job, was, k);
    }
    var draft := new Draft();
    draft.CountAutoIds(job);
    forall k ensures k in AutoQueues(job) <==> AutoCount(job, k) > 0 { AutoQueuesAreCounted(job, k); }
    ReserveRanges(draft, counters);
    assert draft.next == Reserved(job, was);
    r := draft.PrepareNode(job, None);
  }

  // ---------------------------------------------------------------- concurrent producers

  /** The ranges that INCRBYs of the given sizes yield, whichever producers they come from. */
  function StartOf(last: nat, sizes: seq<nat>, i: nat): nat
    requires i <= |sizes|
  {
    if i == 0 then last + 1 else StartOf(last, sizes, i - 1) + sizes[i - 1]
  }

  lemma {:induction false} LaterStartsAfter(last: nat, sizes: seq<nat>, i: nat, j: nat)
    requires i < j <= |sizes|
    ensures StartOf(last, sizes, i) + sizes[i] <= StartOf(last, sizes, j)
  {
    if i < j - 1 { LaterStartsAfter(last, sizes, i, j - 1); }
  }

  /** No id is drawn from two reservations on one counter, in whatever order they interleave. */
  lemma {:induction false} ConcurrentDrawsDisjoint(last: nat, sizes: seq<nat>, i: nat, j: nat, x: string)
    requires i < j < |sizes|
    requires x in DecimalRange(StartOf(last, sizes, i), sizes[i])
    ensures x !in DecimalRange(StartOf(last, sizes, j), sizes[j])
  {
    hide Decimal, DecimalRange;
    LaterStartsAfter(last, sizes, i, j);
    var a, b := DecimalRange(StartOf(last, sizes, i), sizes[i]), DecimalRange(StartOf(last, sizes, j), sizes[j]);
    RangeLength(StartOf(last, sizes, i), sizes[i]);
    RangeLength(StartOf(last, sizes, j), sizes[j]);
    var m :| 0 <= m < |a| && a[m] == x;
    DecimalRangeAt(StartOf(last, sizes, i), sizes[i], m);
    if x in b {
      var n :| 0 <= n < |b| && b[n] == x;
      DecimalRangeAt(StartOf(last, sizes, j), sizes[j], n);
      DecimalInjective(StartOf(last, sizes, i) + m, StartOf(last, sizes, j) + n);
      assert false;
    }
  }

  lemma {:induction false} RangeLength(from: nat, n: nat)
    ensures |DecimalRange(from, n)| == n
  {
    if n > 0 { RangeLength(from, n - 1); }
  }

  // ---------------------------------------------------------------- bulk adds

  /** Jobs among the first `n` that bring no id of their own. */
  function AutosBefore(customs: seq<Option<string>>, n: nat): nat
    requires n <= |customs|
  {
    if n == 0 then 0 else AutosBefore(customs, n - 1) + (if customs[n - 1].None? then 1 else 0)
  }

  /** The id of job `i` when the reserved range starts at `first`. */
  function BulkId(customs: seq<Option<string>>, first: nat, i: nat): string
    requires i < |customs|
  {
    if customs[i].Some? then customs[i].value else Decimal(first + AutosBefore(customs, i))
  }

  /** The positions of the first `n` jobs that bring no id of their own, in order. */
  function Autos(customs: seq<Option<string>>, n: nat): seq<nat>
    requires n <= |customs|
  {
    if n == 0 then [] else Autos(customs, n - 1) + (if customs[n - 1].None? then [n - 1] else [])
  }

  /** The jobs without an id get the reserved range from its first number on, in input order; the
      others keep theirs. */
  lemma {:induction false} BulkIdsAreRange(customs: seq<Option<string>>, first: nat, n: nat, m: nat)
    requires n <= |customs| && m < |Autos(customs, n)|
    ensures AutosBefore(customs, n) == |Autos(customs, n)|
    ensures Autos(customs, n)[m] < n && BulkId(customs, first, Autos(customs, n)[m]) == Decimal(first + m)
  {
    hide Decimal;
    AutosAreCounted(customs, n - 1);
    AutosAreCounted(customs, n);
    if m < |Autos(customs, n - 1)| { BulkIdsAreRange(customs, first, n - 1, m); }
  }

  lemma {:induction false} AutosAreCounted(customs: seq<Option<string>>, n: nat)
    requires n <= |customs|
    ensures AutosBefore(customs, n) == |Autos(customs, n)|
  {
    if n > 0 { AutosAreCounted(customs, n - 1); }
  }

  method CountAutos(customs: seq<Option<string>>) returns (n: nat)
    ensures n == AutosBefore(customs, |customs|)
  {
    n := 0;
    for i := 0 to |customs|
      invariant n == AutosBefore(customs, i)
    {
      if customs[i].None? { n := n + 1; }
    }
  }

  /** Queue::add_bulk up to the adds: one reservation for all jobs without an id, handed out in
      input order. */
  method BulkIds(customs: seq<Option<string>>, k: QueueName, counters: Counters) returns (ids: seq<string>)
    modifies counters
    ensures |ids| == |customs|
    ensures forall i :: 0 <= i < |ids| ==> ids[i] == BulkId(customs, Get(old(counters.last), k) + 1, i)
    ensures forall j :: Get(counters.last, j)
                        == Get(old(counters.last), j) + (if j == k then AutosBefore(customs, |customs|) else 0)
  {
    hide Decimal, BulkId;
    if customs == [] {
      return [];
    }
    var autoIdCount := CountAutos(customs);
    ghost var first := Get(counters.last, k) + 1;
    var nextId := 0;
    if autoIdCount > 0 {
      var last := counters.IncrBy(k, autoIdCount);
      nextId := last - autoIdCount + 1;
    }
    ids := [];
    ghost var reserved := counters.last;
    for i := 0 to |customs|
      invariant |ids| == i && counters.last == reserved
      invariant autoIdCount > 0 ==> nextId == first + AutosBefore(customs, i)
      invariant forall j :: 0 <= j < i ==> ids[j] == BulkId(customs, first, j)
    {
      AutosRise(customs, i + 1, |customs|);
      BulkIdIs(customs, first, i);
      if customs[i].Some? {
        ids := ids + [customs[i].value];
      } else {
        ids := ids + [Decimal(nextId)];
        nextId := nextId + 1;
      }
    }
  }

  lemma BulkIdIs(customs: seq<Option<string>>, first: nat, i: nat)
    requires i < |customs|
    ensures customs[i].Some? ==> BulkId(customs, first, i) == customs[i].value
    ensures customs[i].None? ==> BulkId(customs, first, i) == Decimal(first + AutosBefore(customs, i))
  {
  }

  lemma {:induction false} AutosRise(customs: seq<Option<string>>, m: nat, n: nat)
    requires m <= n <= |customs|
    ensures AutosBefore(customs, m) <= AutosBefore(customs, n)
  {
    if m < n { AutosRise(customs, m, n - 1); }
  }
}

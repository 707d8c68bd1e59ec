/** Bulk retry and bulk promotion: the client repeats the bounded script until it answers 0,
    and the outcome is that of one unbounded move, whatever the chunk size. */
module BulkMove {
  import opened Redis
  import opened Queue
  import Partition

  /** The client's chunk size: 0 means 1000. */
  function ChunkSize(count: nat): (c: nat)
    ensures c >= 1
  {
    if count == 0 then 1000 else count
  }

  lemma CursorMeansProgress(q: Queue, from: Source, count: nat, upTo: Option<nat>)
    requires count >= 1 && MoveJobsToWait(q, from, count, upTo).cursor != 0
    ensures var r := MoveJobsToWait(q, from, count, upTo).q;
      Matching(SourceSet(q, from), upTo) >= count && SourceSet(r, from) == SourceSet(q, from)[count..]
  {
    hide PushAllLeft, ClearEach, Matching;
    var z := SourceSet(q, from);
    var ids := Members(z[..count]);
    Partition.ClearEachFrame(q, from, ids);
    PushAllLeftSource(WithSource(ClearEach(q, from, ids), from, z[count..]), from, ids);
    match from {
      case FromFailed => return;
      case FromCompleted => return;
      case FromDelayed => return;
    }
  }

  lemma PushAllLeftSource(q: Queue, from: Source, ids: seq<JobId>)
    ensures SourceSet(PushAllLeft(q, ids), from) == SourceSet(q, from)
  {
  }

  /** The client's loop. */
  function MoveAll(q: Queue, from: Source, count: nat, upTo: Option<nat>): Queue
    requires count >= 1
    decreases |SourceSet(q, from)|
  {
    var m := MoveJobsToWait(q, from, count, upTo);
    if m.cursor == 0 then m.q
    else
      CursorMeansProgress(q, from, count, upTo);
      MoveAll(m.q, from, count, upTo)
  }

  /** One move of every matching job. */
  function MoveMatching(q: Queue, from: Source, upTo: Option<nat>): Queue {
    MoveJobsToWait(q, from, Matching(SourceSet(q, from), upTo) + 1, upTo).q
  }

  // ---------------------------------------------------------------- chunks compose

  lemma {:induction false} MatchingRest(z: Zset, upTo: Option<nat>, k: nat)
    requires k <= Matching(z, upTo)
    ensures Matching(z[k..], upTo) == Matching(z, upTo) - k
  {
    if k > 0 && upTo.Some? {
      MatchingRest(z[1..], upTo, k - 1);
      assert z[1..][k - 1..] == z[k..];
    }
  }

  lemma {:induction false} ClearEachConcat(q: Queue, from: Source, a: seq<JobId>, b: seq<JobId>)
    ensures ClearEach(q, from, a + b) == ClearEach(ClearEach(q, from, a), from, b)
  {
    hide ClearResult;
    if b == [] {
      assert a + b == a;
    } else {
      assert (a + b)[..|a + b| - 1] == a + b[..|b| - 1];
      ClearEachConcat(q, from, a, b[..|b| - 1]);
    }
  }

  /** Clearing looks at the hashes only. */
  lemma {:induction false} ClearEachElsewhere(q: Queue, r: Queue, from: Source, ids: seq<JobId>)
    requires r.jobs == q.jobs
    ensures ClearEach(r, from, ids).jobs == ClearEach(q, from, ids).jobs
  {
    if ids != [] {
      ClearEachElsewhere(q, r, from, ids[..|ids| - 1]);
      if ids[|ids| - 1] !in ClearEach(q, from, ids[..|ids| - 1]).jobs { return; }
      match from {
        case FromFailed => return;
        case FromCompleted => return;
        case FromDelayed => return;
      }
    }
  }

  /** The whole effect of moving the first `n` members, n > 0. */
  function MoveFirst(q: Queue, from: Source, n: nat): Queue
    requires n <= |SourceSet(q, from)|
  {
    var z := SourceSet(q, from);
    var ids := Members(z[..n]);
    MarkBase(PushAllLeft(WithSource(ClearEach(q, from, ids), from, z[n..]), ids), q.isPaused)
  }

  lemma ChunkIsMoveFirst(q: Queue, from: Source, count: nat, upTo: Option<nat>)
    ensures var n := Min(Matching(SourceSet(q, from), upTo), count);
      var m := MoveJobsToWait(q, from, count, upTo);
      && m.q == (if n == 0 then q else MoveFirst(q, from, n))
      && (m.cursor == 0 <==> Matching(SourceSet(q, from), upTo) < count)
  {
    hide Matching, ClearEach, PushAllLeft, WithSource, MarkBase;
  }

  lemma MoveFirstFields(q: Queue, from: Source, n: nat)
    requires n <= |SourceSet(q, from)|
    ensures var r := MoveFirst(q, from, n);
      var ids := Members(SourceSet(q, from)[..n]);
      && SourceSet(r, from) == SourceSet(q, from)[n..]
      && r.isPaused == q.isPaused
      && r.jobs == ClearEach(q, from, ids).jobs
      && r.at.wait == (if q.isPaused then q.at.wait else Reverse(ids) + q.at.wait)
      && r.at.paused == (if q.isPaused then Reverse(ids) + q.at.paused else q.at.paused)
      && r == WithSource(q, from, SourceSet(q, from)[n..])
              .(jobs := r.jobs, marks := q.marks.(base := q.marks.base || !q.isPaused),
                at := WithSource(q, from, SourceSet(q, from)[n..]).at.(wait := r.at.wait, paused := r.at.paused))
  {
    hide ClearEach, Reverse, Members;
    Partition.ClearEachFrame(q, from, Members(SourceSet(q, from)[..n]));
    match from {
      case FromFailed => return;
      case FromCompleted => return;
      case FromDelayed => return;
    }
  }

  lemma WithSourceTwice(q: Queue, from: Source, w: seq<JobId>, p: seq<JobId>, j: map<JobId, Job>, m: Marks, z: Zset,
      y: Zset)
    ensures var r := WithSource(q, from, z)
        .(jobs := j, marks := m, at := WithSource(q, from, z).at.(wait := w, paused := p));
      WithSource(r, from, y) == WithSource(q, from, y)
        .(jobs := j, marks := m, at := WithSource(q, from, y).at.(wait := w, paused := p))
  {
    match from {
      case FromFailed => return;
      case FromCompleted => return;
      case FromDelayed => return;
    }
  }

  lemma SplitIds(z: Zset, a: nat, b: nat)
    requires a + b <= |z|
    ensures z[a..][b..] == z[a + b..] && Members(z[..a]) + Members(z[a..][..b]) == Members(z[..a + b])
  {
    assert z[..a] + z[a..][..b] == z[..a + b];
    MembersConcat(z[..a], z[a..][..b]);
  }

  lemma ReverseTwice(one: seq<JobId>, two: seq<JobId>, s: seq<JobId>)
    ensures Reverse(two) + (Reverse(one) + s) == Reverse(one + two) + s
  {
    ReverseConcat(one, two);
  }

  lemma MoveFirstTwice(q: Queue, from: Source, a: nat, b: nat)
    requires a + b <= |SourceSet(q, from)|
    ensures SourceSet(MoveFirst(q, from, a), from) == SourceSet(q, from)[a..]
    ensures MoveFirst(MoveFirst(q, from, a), from, b) == MoveFirst(q, from, a + b)
  {
    hide MoveFirst, WithSource, ClearEach, Reverse, Members;
    var z := SourceSet(q, from);
    var r := MoveFirst(q, from, a);
    MoveFirstFields(q, from, a);
    MoveFirstFields(r, from, b);
    MoveFirstFields(q, from, a + b);
    var one, two := Members(z[..a]), Members(z[a..][..b]);
    SplitIds(z, a, b);
    ClearEachConcat(q, from, one, two);
    ClearEachElsewhere(ClearEach(q, from, one), r, from, two);
    ReverseTwice(one, two, q.at.wait);
    ReverseTwice(one, two, q.at.paused);
    WithSourceTwice(q, from, r.at.wait, r.at.paused, r.jobs, r.marks, z[a..], z[a + b..]);
  }

  /** Main result: for every chunk size the loop ends with the outcome of one unbounded move, so
      all matching jobs leave the set and enter the target in score order. */
  lemma {:induction false} ChunkSizeDoesNotMatter(q: Queue, from: Source, count: nat, upTo: Option<nat>)
    requires count >= 1
    ensures MoveAll(q, from, count, upTo) == MoveMatching(q, from, upTo)
    decreases |SourceSet(q, from)|
  {
    hide MoveJobsToWait, MoveFirst, Matching, SourceSet;
    var z := SourceSet(q, from);
    var n := Matching(z, upTo);
    var m := MoveJobsToWait(q, from, count, upTo);
    ChunkIsMoveFirst(q, from, count, upTo);
    ChunkIsMoveFirst(q, from, n + 1, upTo);
    if m.cursor != 0 {
      CursorMeansProgress(q, from, count, upTo);
      ChunkSizeDoesNotMatter(m.q, from, count, upTo);
      MatchingRest(z, upTo, count);
      ChunkIsMoveFirst(m.q, from, n - count + 1, upTo);
      MoveFirstTwice(q, from, count, n - count);
    }
  }

  predicate Wanted(e: Entry, upTo: Option<nat>) {
    upTo.None? || e.score <= upTo.value
  }

  lemma MatchingIsWanted(z: Zset, upTo: Option<nat>)
    requires Ranked(z)
    ensures forall i :: 0 <= i < |z| ==> (i < Matching(z, upTo) <==> Wanted(z[i], upTo))
  {
    if upTo.Some? { CountUpToComplete(z, upTo.value); }
  }

  lemma MoveMatchingFields(q: Queue, from: Source, upTo: Option<nat>)
    ensures var z := SourceSet(q, from);
      var n := Matching(z, upTo);
      var r := MoveMatching(q, from, upTo);
      && SourceSet(r, from) == z[n..]
      && (if q.isPaused then r.at.paused == Reverse(Members(z[..n])) + q.at.paused && r.at.wait == q.at.wait
          else r.at.wait == Reverse(Members(z[..n])) + q.at.wait && r.at.paused == q.at.paused)
      && r.at.active == q.at.active && r.at.prioritized == q.at.prioritized && r.jobs.Keys == q.jobs.Keys
  {
    hide MoveJobsToWait, Matching, ClearEach, Reverse, Members, MoveFirst;
    var z := SourceSet(q, from);
    var n := Matching(z, upTo);
    ChunkIsMoveFirst(q, from, n + 1, upTo);
    MoveFirstFields(q, from, n);
    Partition.ClearEachFrame(q, from, Members(z[..n]));
    if n == 0 {
      NoMembers(q);
      assert z[0..] == z && z[..0] == [];
      return;
    }
    match from {
      case FromFailed => return;
      case FromCompleted => return;
      case FromDelayed => return;
    }
  }

  /** What the unbounded move does: the members within the bound, and of a ranked set exactly
      those, go to the target list, first in score order first served, and nothing else moves. */
  lemma MoveMatchingMoves(q: Queue, from: Source, upTo: Option<nat>)
    ensures var z := SourceSet(q, from);
      var n := Matching(z, upTo);
      var r := MoveMatching(q, from, upTo);
      && (Ranked(z) ==> forall i :: 0 <= i < |z| ==> (i < n <==> Wanted(z[i], upTo)))
      && SourceSet(r, from) == z[n..]
      && (if q.isPaused then r.at.paused == Reverse(Members(z[..n])) + q.at.paused && r.at.wait == q.at.wait
          else r.at.wait == Reverse(Members(z[..n])) + q.at.wait && r.at.paused == q.at.paused)
      && r.at.active == q.at.active && r.at.prioritized == q.at.prioritized && r.jobs.Keys == q.jobs.Keys
  {
    hide MoveMatching, Matching, Reverse, Members, Ranked, Wanted;
    MoveMatchingFields(q, from, upTo);
    if Ranked(SourceSet(q, from)) { MatchingIsWanted(SourceSet(q, from), upTo); }
  }

  lemma NoMembers(q: Queue)
    ensures Members([]) == [] && Reverse(Members([])) + q.at.wait == q.at.wait
    ensures Reverse(Members([])) + q.at.paused == q.at.paused
  {
  }

  // ---------------------------------------------------------------- what moved jobs keep

  /** A finished job's hash without what finishing it wrote. */
  function Unfinished(from: Source, job: Job): Job {
    match from
    case FromFailed => job.(finishedOn := None, failedReason := None)
    case FromCompleted => job.(finishedOn := None, returned := None)
    case FromDelayed => job
  }

  lemma {:induction false} ClearEachClears(q: Queue, from: Source, ids: seq<JobId>, x: JobId)
    ensures var r := ClearEach(q, from, ids);
      && r.jobs.Keys == q.jobs.Keys
      && (x in q.jobs ==> r.jobs[x] == if x in ids then Unfinished(from, q.jobs[x]) else q.jobs[x])
  {
    if ids != [] {
      var init, id := ids[..|ids| - 1], ids[|ids| - 1];
      assert ids == init + [id];
      ClearEachClears(q, from, init, x);
      if id !in ClearEach(q, from, init).jobs { return; }
      match from {
        case FromFailed => return;
        case FromCompleted => return;
        case FromDelayed => return;
      }
    }
  }

  /** Each chunk resets exactly the jobs it moves: their result and finish time are gone, everything
      else of them and all other jobs stay. */
  lemma MovedJobsAreReset(q: Queue, from: Source, count: nat, upTo: Option<nat>, x: JobId)
    ensures var z := SourceSet(q, from);
      var moved := Members(z[..Min(Matching(z, upTo), count)]);
      var r := MoveJobsToWait(q, from, count, upTo).q;
      && r.jobs.Keys == q.jobs.Keys
      && (x in q.jobs ==> r.jobs[x] == if x in moved then Unfinished(from, q.jobs[x]) else q.jobs[x])
  {
    hide Matching, ClearEach, Unfinished, PushAllLeft, WithSource;
    var z := SourceSet(q, from);
    var n := Min(Matching(z, upTo), count);
    var ids := Members(z[..n]);
    ClearEachClears(q, from, ids, x);
    if n == 0 { return; }
    var c := ClearEach(q, from, ids);
    Partition.WithSourceFrame(c, from, z[n..]);
    Partition.PushAllLeftFrame(WithSource(c, from, z[n..]), ids);
  }
}

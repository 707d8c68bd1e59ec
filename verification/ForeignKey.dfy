/** A run in which cleaning one job takes away the deduplication key that another one holds: an
    inner flow node keeps a deduplication id in its hash although adding it took no key. */
module ForeignKey {
  import opened Redis
  import opened Scores
  import opened Limiter
  import opened Queue
  import opened Machine
  import opened Decimals
  import Flow
  import CleanList

  const PLAIN: Opts := Opts(0, 0, 1, None)
  const CARRYING: Opts := Opts(0, 0, 1, Some(7))
  const ROOT: JobKey := JobKey(0, 1)
  const INNER: JobKey := JobKey(0, 2)
  const LEAF: JobKey := JobKey(0, 3)

  /** A flow of root, inner node and leaf, inserted top down. */
  const INSERTING: seq<Step> :=
    [AddParent(1, PLAIN, 0, None), AddChildren(1, {INNER}), AddParent(2, CARRYING, 0, Some(ROOT)),
     AddChildren(2, {LEAF}), AddStandard(3, PLAIN, 0, Some(INNER))]

  /** The leaf completes and releases the inner node; then an ordinary job takes the key. */
  const RELEASING: seq<Step> :=
    [Fetch(5, 0, 0, None), Finish(3, 5, 1, Completed(0), 1), Release(2, LEAF, 0, 1), AddStandard(4, CARRYING, 2, None)]

  function Bare(opts: Opts, timestamp: nat, parent: Option<JobKey>): Job {
    NewJob(opts, timestamp, parent)
  }

  /** The keys of the queue that the story is about. */
  function Keys(wait: seq<JobId>, active: seq<JobId>, waiting: Zset, completed: Zset, jobs: map<JobId, Job>,
                locks: map<JobId, Token>, base: bool, side: Side): Queue
  {
    Queue(Places(wait, [], active, [], [], completed, [], waiting), jobs, locks, locks.Keys, false, 0,
      Marks(base, None),
          None, side)
  }

  function Deps(dedup: map<DedupId, JobId>, dependencies: map<JobId, set<JobKey>>,
                processed: map<JobId, map<JobKey, Payload>>): Side
  {
    Side(dedup, dependencies, processed, EmptyQueue.side.completedMetrics, EmptyQueue.side.failedMetrics)
  }

  const ROOT_JOB: Job := Bare(PLAIN, 0, None)
  const INNER_JOB: Job := Bare(CARRYING, 0, Some(ROOT))
  const LEAF_JOB: Job := Bare(PLAIN, 0, Some(INNER))
  const TAKEN_JOB: Job := LEAF_JOB.(ats := 1)
  const DONE_JOB: Job := TAKEN_JOB.(atm := 1, finishedOn := Some(1), returned := Some(0))
  const NEWCOMER: Job := Bare(CARRYING, 2, None)
  const BOTH: Zset := [Entry(0, 1), Entry(0, 2)]
  const FLOW: map<JobId, Job> := map[1 := ROOT_JOB, 2 := INNER_JOB]
  const LINKS: map<JobId, set<JobKey>> := map[1 := {INNER}, 2 := {LEAF}]

  const OneAdded: Queue := Keys([], [], [Entry(0, 1)], [], map[1 := ROOT_JOB], map[], false, Deps(map[], map[], map[]))
  const OneLinked: Queue := OneAdded.(side := Deps(map[], map[1 := {INNER}], map[]))
  const TwoAdded: Queue := Keys([], [], BOTH, [], FLOW, map[], false, Deps(map[], map[1 := {INNER}], map[]))
  const TwoLinked: Queue := Keys([], [], BOTH, [], FLOW, map[], false, Deps(map[], LINKS, map[]))
  const LeafAdded: Queue := Keys([3], [], BOTH, [], FLOW[3 := LEAF_JOB], map[], true, Deps(map[], LINKS, map[]))
  const LeafTaken: Queue := Keys([], [3], BOTH, [], FLOW[3 := TAKEN_JOB], map[3 := 5], false, Deps(map[], LINKS, map[]))
  const LeafDone: Queue :=
    Keys([], [], BOTH, [Entry(1, 3)], FLOW[3 := DONE_JOB], map[], false, Deps(map[], LINKS, map[]))
  const InnerFree: Queue :=
    Keys([2], [], [Entry(0, 1)], [Entry(1, 3)], FLOW[3 := DONE_JOB], map[], true,
         Deps(map[], map[1 := {INNER}, 2 := {}], map[2 := map[LEAF := 0]]))
  const KeyTaken: Queue :=
    Keys([4, 2], [], [Entry(0, 1)], [Entry(1, 3)], FLOW[3 := DONE_JOB][4 := NEWCOMER], map[], true,
         Deps(map[7 := 4], map[1 := {INNER}, 2 := {}], map[2 := map[LEAF := 0]]))

  lemma Inserting()
    ensures AddParentJob(EmptyQueue, 1, PLAIN, 0, None) == OneAdded
    ensures AddDependencies(OneAdded, 1, {INNER}) == OneLinked
    ensures AddParentJob(OneLinked, 2, CARRYING, 0, Some(ROOT)) == TwoAdded
    ensures AddDependencies(TwoAdded, 2, {LEAF}) == TwoLinked
  {
    var none: set<JobKey> := {};
    assert none + {INNER} == {INNER} && none + {LEAF} == {LEAF};
    assert Zadd([], 0, 1) == [Entry(0, 1)];
    assert Zrem([Entry(0, 1)], 2) == [Entry(0, 1)] by { assert Zrem([], 2) == []; }
    assert Insert([Entry(0, 1)], Entry(0, 2)) == BOTH by { assert Insert([], Entry(0, 2)) == [Entry(0, 2)]; }
  }

  lemma AddingLeaf()
    ensures AddStandardJob(TwoLinked, 3, PLAIN, 0, Some(INNER)).q == LeafAdded
  {
  }

  lemma TakingLeaf()
    ensures FetchNext(LeafAdded, 5, 0, 0, None).q == LeafTaken
  {
    assert PromoteDelayed(LeafAdded, 0) == LeafAdded;
    assert [3][..0] == [] && [3] + [] == [3];
    assert FLOW[3 := LEAF_JOB][3 := TAKEN_JOB] == FLOW[3 := TAKEN_JOB];
    assert LeafAdded.locks[3 := 5] == map[3 := 5];
  }

  lemma FinishingLeaf()
    ensures FinishJob(LeafTaken, 3, 5, 1, Completed(0), 1).q == LeafDone
  {
    assert RemoveFirst([3], 3) == [];
    assert Zadd([], 1, 3) == [Entry(1, 3)];
    assert FLOW[3 := TAKEN_JOB][3 := DONE_JOB] == FLOW[3 := DONE_JOB];
    assert LeafTaken.locks - {3} == map[] && LeafTaken.stalled - {3} == {};
  }

  lemma ReleasingInner()
    ensures ReleaseParent(LeafDone, 2, LEAF, 0, 1) == InnerFree
  {
    assert {LEAF} - {LEAF} == {};
    assert Members([Entry(0, 2)]) == [2] && Members(BOTH) == [1, 2];
    assert Zrem(BOTH, 2) == [Entry(0, 1)] by { assert Zrem([Entry(0, 2)], 2) == []; }
    assert LINKS[2 := {}] == map[1 := {INNER}, 2 := {}];
  }

  lemma TakingKey()
    ensures AddStandardJob(InnerFree, 4, CARRYING, 2, None).q == KeyTaken
  {
    assert [4] + [2] == [4, 2];
  }

  lemma RunAt(q: Queue, steps: seq<Step>, i: nat)
    requires i < |steps|
    ensures Run(q, steps[..i + 1]) == Apply(Run(q, steps[..i]), steps[i])
  {
    hide Apply;
    assert steps[..i + 1][..i] == steps[..i];
  }

  lemma InsertingRuns()
    ensures Run(EmptyQueue, INSERTING) == LeafAdded
  {
    hide Run, AddParentJob, AddDependencies, AddStandardJob;
    Inserting();
    AddingLeaf();
    NothingRun(EmptyQueue, INSERTING);
    RunAt(EmptyQueue, INSERTING, 0); RunAt(EmptyQueue, INSERTING, 1); RunAt(EmptyQueue, INSERTING, 2);
    RunAt(EmptyQueue, INSERTING, 3); RunAt(EmptyQueue, INSERTING, 4);
    assert INSERTING[..5] == INSERTING;
  }

  lemma ReleasingRuns()
    ensures Run(LeafAdded, RELEASING) == KeyTaken
  {
    hide Run, FetchNext, FinishJob, ReleaseParent, AddStandardJob;
    TakingLeaf();
    FinishingLeaf();
    ReleasingInner();
    TakingKey();
    NothingRun(LeafAdded, RELEASING);
    RunAt(LeafAdded, RELEASING, 0); RunAt(LeafAdded, RELEASING, 1); RunAt(LeafAdded, RELEASING, 2);
    RunAt(LeafAdded, RELEASING, 3);
    assert RELEASING[..4] == RELEASING;
  }

  lemma NothingRun(q: Queue, steps: seq<Step>)
    ensures Run(q, steps[..0]) == q
  {
  }

  /** Cleaning the one waiting job that is old enough and first in line. */
  lemma CleaningInner(w: Flow.World)
    requires w == map[0 := KeyTaken]
    ensures var c := CleanList.Clean(w, 0, CleanList.Wait, 1, "9", {});
      c.deleted == [2] && Flow.At(c.w, 0).at.wait == [4]
  {
    hide CleanList.Clean, CleanList.Gone, CleanList.Deletable;
    var which, list := CleanList.Wait, [4, 2];
    assert Members([Entry(0, 1)]) == [1];
    assert CleanList.Listed(KeyTaken, which);
    CleanList.CleaningIsFiltering(w, 0, which, 1, "9", {});
    JudgedOld();
    var gone := CleanList.Gone(KeyTaken, which, 1, 1, "9", {});
    OnlyLast();
    assert gone == {1};
    assert CleanList.Without(list, gone, 0) == [] && CleanList.Without(list, gone, 1) == [4];
    assert CleanList.Picked(list, gone, 0) == [] && CleanList.Picked(list, gone, 1) == [];
  }

  lemma JudgedOld()
    ensures CleanList.Deletable(KeyTaken, CleanList.Wait, 2, "9", {})
  {
    assert Decimal(0) == "0";
    assert TextLe("0", "9");
  }

  lemma OnlyLast()
    ensures CleanList.Gone(KeyTaken, CleanList.Wait, 1, 1, "9", {}) == {1}
  {
    hide CleanList.Deletable;
    JudgedOld();
  }

  /** Main result: at the end of the run job 4 holds key 7 and waits; cleaning removes job 2 only,
      and key 7 is gone although job 4 still waits, so a further job with that id is let in. */
  lemma CleaningDropsForeignKey()
    ensures var q := Run(EmptyQueue, INSERTING + RELEASING);
      var c := CleanList.Clean(map[0 := q], 0, CleanList.Wait, 1, "9", {});
      var r := Flow.At(c.w, 0);
      && Holder(q, Some(7)) == Some(4) && 4 in q.at.wait
      && c.deleted == [2] && r.at.wait == [4]
      && Holder(r, Some(7)) == None
  {
    hide Run, CleanList.Clean;
    InsertingRuns();
    ReleasingRuns();
    RunConcat(EmptyQueue, INSERTING, RELEASING);
    CleaningInner(map[0 := KeyTaken]);
    KeyGone();
  }

  lemma KeyGone()
    ensures 7 !in Flow.At(CleanList.Clean(map[0 := KeyTaken], 0, CleanList.Wait, 1, "9", {}).w, 0).side.dedup
  {
    var w: Flow.World := map[0 := KeyTaken];
    var which := CleanList.Wait;
    hide CleanList.RemoveJob, CleanList.Deletable, CleanList.ChainCarries;
    JudgedOld();
    var list := [4, 2];
    assert CleanList.CleanEntries(w, 0, which, list, 0, 1, "9", {}) == CleanList.Cleaning(w, []);
    var m := w[0 := KeyTaken.(at := KeyTaken.at.(wait := [4, CleanList.MARK]))];
    InnerTakesRoot(m);
    CleanList.RemovalDropsKeyIff(m, 0, 2, 7);
    assert list[1 := CleanList.MARK] == [4, CleanList.MARK];
    assert CleanList.CleanEntries(w, 0, which, list, 1, 1, "9", {}) ==
        CleanList.Cleaning(CleanList.RemoveJob(m, 0, 2), [2]);
  }

  lemma InnerTakesRoot(m: Flow.World)
    requires m == map[0 := KeyTaken][0 := KeyTaken.(at := KeyTaken.at.(wait := [4, CleanList.MARK]))]
    ensures CleanList.ChainCarries(m, 0, INNER, 7)
  {
    assert Members([Entry(0, 1)]) == [1];
    CleanList.OneStepCarries(m, 0, INNER, ROOT, 7);
  }
}

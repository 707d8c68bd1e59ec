/** A run after which a deduplication key has outlived its job: the sweep gives up on the job and
    leaves the key. */
module OrphanedKey {
  import opened Redis
  import opened Queue
  import opened Machine
  import Partition
  import Dedup

  const CARRYING: Opts := Opts(0, 0, 1, Some(7))
  const ADDED_JOB: Job := NewJob(CARRYING, 0, None)
  const TAKEN_JOB: Job := ADDED_JOB.(ats := 1)
  const DEAD_JOB: Job := TAKEN_JOB.(failedReason := Some(StalledTooOften), finishedOn := Some(9), stc := 1)

  /** Job 1 is added and claimed, its lock expires, and a sweep that allows no stall gives up on it. */
  const DYING: seq<Step> := [AddStandard(1, CARRYING, 0, None), Fetch(5, 0, 0, None), ExpireLock(1), Sweep([1], 0, 9)]

  function Keys(wait: seq<JobId>, active: seq<JobId>, job: Job, locks: map<JobId, Token>, stalled: set<JobId>,
                base: bool): Queue
  {
    EmptyQueue.(at := EmptyQueue.at.(wait := wait, active := active), jobs := map[1 := job], locks := locks,
                stalled := stalled, marks := Marks(base, None), side := EmptyQueue.side.(dedup := map[7 := 1]))
  }

  const Stocked: Queue := Keys([1], [], ADDED_JOB, map[], {}, true)
  const Taken: Queue := Keys([], [1], TAKEN_JOB, map[1 := 5], {1}, false)
  const Expired: Queue := Keys([], [1], TAKEN_JOB, map[], {1}, false)
  const Swept: Queue := Keys([], [], DEAD_JOB, map[], {}, false)

  lemma Adding()
    ensures Apply(EmptyQueue, DYING[0]) == Stocked
  {
    assert EmptyQueue.jobs[1 := ADDED_JOB] == map[1 := ADDED_JOB];
    assert EmptyQueue.side.dedup[7 := 1] == map[7 := 1];
  }

  lemma Taking()
    ensures Apply(Stocked, DYING[1]) == Taken
  {
    assert PromoteDelayed(Stocked, 0) == Stocked;
    assert [1][..0] == [] && Stocked.jobs[1 := TAKEN_JOB] == map[1 := TAKEN_JOB];
    assert Stocked.locks[1 := 5] == map[1 := 5];
  }

  lemma Expiring()
    ensures Apply(Taken, DYING[2]) == Expired
  {
    assert Taken.locks - {1} == map[];
  }

  lemma Sweeping()
    ensures Apply(Expired, DYING[3]) == Swept
  {
    assert Scanned(Expired) == Expired by { assert forall x :: x in [1] <==> x == 1; }
    assert RemoveFirst([1], 1) == [];
    assert Expired.stalled - {1} == {} && Expired.jobs[1 := DEAD_JOB] == map[1 := DEAD_JOB];
    assert [1][..0] == [];
    assert SweepEach(Expired, [1], 0, 9) == Swept;
    assert Requeued(Expired, [1], 0) == 0;
  }

  lemma {:induction false} RunAt(states: seq<Queue>, steps: seq<Step>, n: nat)
    requires |states| == |steps| + 1 && n <= |steps|
    requires forall i :: 0 <= i < |steps| ==> states[i + 1] == Apply(states[i], steps[i])
    ensures Run(states[0], steps[..n]) == states[n]
  {
    hide Apply;
    if n > 0 {
      RunAt(states, steps, n - 1);
      assert steps[..n][..n - 1] == steps[..n - 1];
    }
  }

  const STATES: seq<Queue> := [EmptyQueue, Stocked, Taken, Expired, Swept]

  lemma StatesFollow()
    ensures forall i :: 0 <= i < |DYING| ==> STATES[i + 1] == Apply(STATES[i], DYING[i])
    ensures forall n :: 0 <= n <= |DYING| ==> Run(EmptyQueue, DYING[..n]) == STATES[n]
  {
    hide Apply, Run;
    Adding();
    Taking();
    Expiring();
    Sweeping();
    forall i | 0 <= i < |DYING| ensures STATES[i + 1] == Apply(STATES[i], DYING[i]) {
      assert i == 0 || i == 1 || i == 2 || i == 3;
    }
    forall n | 0 <= n <= |DYING| ensures Run(EmptyQueue, DYING[..n]) == STATES[n] { RunAt(STATES, DYING, n); }
  }

  lemma SweepIsSafe()
    ensures Partition.Safe(Expired, DYING[3])
  {
    assert (set x | x in [1]) == {1};
    assert Expired.stalled + Unlocked(Expired) == {1};
  }

  lemma EveryStepIsSafe(i: nat)
    requires i < |DYING|
    ensures Partition.Safe(Run(EmptyQueue, DYING[..i]), DYING[i])
  {
    hide Run;
    StatesFollow();
    if i == 3 { SweepIsSafe(); }
  }

  /** Main result: the run is safe, its last step gives up on job 1, and at its end job 1 is in no
      list or set and yet holds key 7, so a further job with that id is turned away. */
  lemma KeyOutlivesJob(newcomer: JobId, ts: nat)
    requires newcomer != 1
    ensures forall i :: 0 <= i < |DYING| ==> Partition.Safe(Run(EmptyQueue, DYING[..i]), DYING[i])
    ensures Dedup.GivenUpAt(EmptyQueue, DYING, 3, 1)
    ensures var q := Run(EmptyQueue, DYING);
      && Dedup.Gone(q, 1, 7) && Holder(q, Some(7)) == Some(1)
      && AddStandardJob(q, newcomer, CARRYING, ts, None).id == 1
  {
    hide Run;
    forall i | 0 <= i < |DYING| ensures Partition.Safe(Run(EmptyQueue, DYING[..i]), DYING[i]) { EveryStepIsSafe(i); }
    StatesFollow();
    assert DYING[..4] == DYING;
  }
}

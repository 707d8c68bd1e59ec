/** The scripts that work on several queues, and flows, as runs of the single queues: whatever
    happens in a world of queues, each queue goes through a safe run of its own, so everything that
    is proved of safe runs of a queue holds of every queue of a world. */
module FlowRuns {
  import opened Redis
  import opened Scores
  import opened Queue
  import opened Machine
  import opened Flow
  import Partition
  import Ranks
  import Recording

  ghost predicate SafeRun(q: Queue, steps: seq<Step>) {
    forall i :: 0 <= i < |steps| ==> Partition.Safe(Run(q, steps[..i]), steps[i])
  }

  /** From `q`, the safe run `steps` leads to `r`. */
  ghost predicate Leads(q: Queue, steps: seq<Step>, r: Queue) {
    SafeRun(q, steps) && Run(q, steps) == r
  }

  lemma LeadsOn(q: Queue, a: seq<Step>, m: Queue, b: seq<Step>, r: Queue)
    requires Leads(q, a, m) && Leads(m, b, r)
    ensures Leads(q, a + b, r)
  {
    hide Run, Partition.Safe;
    RunConcat(q, a, b);
    var all := a + b;
    forall i | 0 <= i < |all| ensures Partition.Safe(Run(q, all[..i]), all[i]) {
      if i < |a| {
        assert all[..i] == a[..i];
        assert Partition.Safe(Run(q, a[..i]), a[i]);
      } else {
        assert all[..i] == a + b[..i - |a|];
        RunConcat(q, a, b[..i - |a|]);
        assert Partition.Safe(Run(m, b[..i - |a|]), b[i - |a|]);
      }
    }
  }

  lemma StaysPut(q: Queue)
    ensures Leads(q, [], q)
  {
  }

  lemma OneStep(q: Queue, s: Step)
    requires Partition.Safe(q, s)
    ensures Leads(q, [s], Apply(q, s))
  {
    hide Partition.Safe, Apply;
    assert [s][..0] == [];
  }

  /** The step changes queue `h` only, so another queue `k` makes none. */
  lemma StepAt(w: World, h: QueueId, s: Step, k: QueueId) returns (steps: seq<Step>)
    requires Partition.Safe(At(w, h), s)
    ensures steps == if k == h then [s] else []
    ensures Leads(At(w, k), steps, At(w[h := Apply(At(w, h), s)], k))
  {
    hide Partition.Safe, Apply, Leads;
    steps := if k == h then [s] else [];
    if k == h { OneStep(At(w, h), s); } else { StaysPut(At(w, k)); }
  }

  // ---------------------------------------------------------------- flows

  /** Adding is always safe. */
  lemma AddIsSafe(q: Queue, s: Step)
    requires s.AddStandard? || s.AddPrioritized? || s.AddDelayed? || s.AddParent? || s.AddChildren?
    ensures Partition.Safe(q, s)
  {
    hide Partition.SweepFindsLocked;
  }

  function LeafStep(node: Node, parent: Option<JobKey>): Step {
    if node.delay > 0 then AddDelayed(node.key.id, OptsOf(node), node.timestamp, parent)
    else if node.priority > 0 then AddPrioritized(node.key.id, OptsOf(node), node.timestamp, parent)
    else AddStandard(node.key.id, OptsOf(node), node.timestamp, parent)
  }

  lemma LeafApplies(q: Queue, node: Node, parent: Option<JobKey>)
    ensures Apply(q, LeafStep(node, parent)) == AddLeaf(q, node, parent)
  {
    hide AddStandardJob, AddPrioritizedJob, AddDelayedJob;
    if node.delay > 0 { return; }
    if node.priority > 0 { return; }
  }

  lemma DependRuns(w: World, p: JobKey, children: set<JobKey>, k: QueueId) returns (steps: seq<Step>)
    ensures Leads(At(w, k), steps, At(Depend(w, p, children), k))
  {
    hide AddDependencies, Leads;
    AddIsSafe(At(w, p.queue), AddChildren(p.id, children));
    steps := StepAt(w, p.queue, AddChildren(p.id, children), k);
  }

  lemma BlockedRuns(w: World, node: Node, parent: Option<JobKey>, k: QueueId) returns (steps: seq<Step>)
    ensures Leads(At(w, k), steps, At(AddBlocked(w, node, parent), k))
  {
    hide AddParentJob, Depend, Leads, Flow.Stored, At, ChildKeys;
    var h := node.key.queue;
    var s := AddParent(node.key.id, OptsOf(node), node.timestamp, parent);
    AddIsSafe(At(w, h), s);
    var stored := w[h := AddParentJob(At(w, h), node.key.id, OptsOf(node), node.timestamp, parent)];
    steps := StepAt(w, h, s, k);
    var known := if parent.Some? && !Flow.Stored(w, node.key) then Depend(stored, parent.value, {node.key}) else stored;
    if parent.Some? && !Flow.Stored(w, node.key) {
      var more := DependRuns(stored, parent.value, {node.key}, k);
      LeadsOn(At(w, k), steps, At(stored, k), more, At(known, k));
      steps := steps + more;
    }
    var children := ChildKeys(node, |node.children|);
    var last := DependRuns(known, node.key, children, k);
    LeadsOn(At(w, k), steps, At(known, k), last, At(Depend(known, node.key, children), k));
    steps := steps + last;
  }

  lemma {:induction false} InsertRuns(w: World, node: Node, parent: Option<JobKey>, k: QueueId)
    returns (steps: seq<Step>)
    ensures Leads(At(w, k), steps, At(Flow.Insert(w, node, parent), k))
    decreases node, |node.children| + 1
  {
    hide AddLeaf, AddBlocked, Leads, At, LeafStep;
    if node.children == [] {
      var h := node.key.queue;
      LeafIsSafe(At(w, h), node, parent);
      LeafApplies(At(w, h), node, parent);
      steps := StepAt(w, h, LeafStep(node, parent), k);
      return;
    }
    var b := AddBlocked(w, node, parent);
    var first := BlockedRuns(w, node, parent, k);
    var rest := ChildrenRun(b, node, |node.children|, k);
    LeadsOn(At(w, k), first, At(b, k), rest, At(Flow.Insert(w, node, parent), k));
    steps := first + rest;
  }

  lemma LeafIsSafe(q: Queue, node: Node, parent: Option<JobKey>)
    ensures Partition.Safe(q, LeafStep(node, parent))
  {
    AddIsSafe(q, LeafStep(node, parent));
  }

  lemma {:induction false} ChildrenRun(w: World, node: Node, n: nat, k: QueueId) returns (steps: seq<Step>)
    requires n <= |node.children|
    ensures Leads(At(w, k), steps, At(InsertChildren(w, node, n), k))
    decreases node, n
  {
    hide Flow.Insert, Leads, At;
    if n == 0 { StaysPut(At(w, k)); return []; }
    var first := ChildrenRun(w, node, n - 1, k);
    var m := InsertChildren(w, node, n - 1);
    var last := InsertRuns(m, node.children[n - 1], Some(node.key), k);
    LeadsOn(At(w, k), first, At(m, k), last, At(InsertChildren(w, node, n), k));
    steps := first + last;
  }

  // ---------------------------------------------------------------- finishing a job

  /** The steps that finishing a job is, in queue `k`: in the job's own queue it leaves active, is
      counted, and the next job is fetched if wanted; in its parent's queue the parent is told. */
  function FinishSteps(w: World, m: Move, k: QueueId): seq<Step>
    requires m.Finished?
  {
    var job := m.job;
    if Guard(At(w, job.queue), job.id, m.token) != OK then []
    else
      var parent := ParentOf(w, job);
      (if k == job.queue then [Finish(job.id, m.token, m.now, m.result, m.atm)] else [])
      + (if m.result.Completed? && parent.Some? && parent.value.queue == k
         then [Release(parent.value.id, job, m.result.value, m.now)] else [])
      + (if k == job.queue then [Record(m.result, m.maxPoints, m.now)] else [])
      + (if k == job.queue && m.fetch.Some?
         then [Fetch(m.token, m.now, m.fetch.value.clock, m.fetch.value.limit)] else [])
  }

  lemma PlainIsSafe(q: Queue, s: Step)
    requires s.Release? || s.Record? || s.Fetch? || (s.Finish? && s.token != NO_LOCK)
    ensures Partition.Safe(q, s)
  {
    hide Partition.SweepFindsLocked;
  }

  lemma FinishApplies(q: Queue, id: JobId, token: Token, now: nat, result: Result, atm: nat)
    ensures Apply(q, Finish(id, token, now, result, atm)) == FinishJob(q, id, token, now, result, atm).q
  {
    hide FinishJob;
  }

  lemma ToldRuns(w: World, job: JobKey, result: Result, now: nat, k: QueueId)
    ensures var parent := ParentOf(w, job);
      Leads(At(w, k),
            if result.Completed? && parent.Some? && parent.value.queue == k
            then [Release(parent.value.id, job, result.value, now)] else [],
            At(Recording.Told(w, job, result, now), k))
  {
    hide ReleaseParent, Leads, Partition.Safe, ParentOf, At;
    var parent := ParentOf(w, job);
    if result.Completed? && parent.Some? {
      var release := Release(parent.value.id, job, result.value, now);
      PlainIsSafe(At(w, parent.value.queue), release);
      var steps := StepAt(w, parent.value.queue, release, k);
      return;
    }
    StaysPut(At(w, k));
  }

  lemma CountedRuns(w: World, m: Move, k: QueueId)
    requires m.Finished?
    ensures var h := m.job.queue;
      var counted := w[h := RecordMetrics(At(w, h), m.result, m.maxPoints, m.now)];
      Leads(At(w, k), if k == h then [Record(m.result, m.maxPoints, m.now)] else [], At(counted, k))
  {
    hide RecordMetrics, Leads, Partition.Safe, At;
    var record := Record(m.result, m.maxPoints, m.now);
    PlainIsSafe(At(w, m.job.queue), record);
    var steps := StepAt(w, m.job.queue, record, k);
  }

  lemma FetchedRuns(w: World, m: Move, k: QueueId)
    requires m.Finished? && m.fetch.Some?
    ensures var h, a := m.job.queue, m.fetch.value;
      var fetched := w[h := FetchNext(At(w, h), m.token, m.now, a.clock, a.limit).q];
      Leads(At(w, k), if k == h then [Fetch(m.token, m.now, a.clock, a.limit)] else [], At(fetched, k))
  {
    hide FetchNext, Leads, Partition.Safe, At;
    var fetch := Fetch(m.token, m.now, m.fetch.value.clock, m.fetch.value.limit);
    PlainIsSafe(At(w, m.job.queue), fetch);
    var steps := StepAt(w, m.job.queue, fetch, k);
  }

  lemma LeftRuns(w: World, m: Move, k: QueueId)
    requires m.Finished? && m.token != NO_LOCK
    ensures var job := m.job;
      var left := w[job.queue := FinishJob(At(w, job.queue), job.id, m.token, m.now, m.result, m.atm).q];
      Leads(At(w, k), if k == job.queue then [Finish(job.id, m.token, m.now, m.result, m.atm)] else [], At(left, k))
  {
    hide FinishJob, Leads, Partition.Safe, At;
    var finish := Finish(m.job.id, m.token, m.now, m.result, m.atm);
    FinishApplies(At(w, m.job.queue), m.job.id, m.token, m.now, m.result, m.atm);
    hide Apply;
    PlainIsSafe(At(w, m.job.queue), finish);
    var steps := StepAt(w, m.job.queue, finish, k);
  }

  lemma FinishedRuns(w: World, m: Move, k: QueueId)
    requires m.Finished? && m.token != NO_LOCK
    ensures Leads(At(w, k), FinishSteps(w, m, k), At(Act(w, m), k))
  {
    var job, h := m.job, m.job.queue;
    if Guard(At(w, h), job.id, m.token) != OK { StaysPut(At(w, k)); return; }
    var o := FinishJob(At(w, h), job.id, m.token, m.now, m.result, m.atm);
    assert o.code == OK;
    hide FinishJob, FetchNext, RecordMetrics, TellParent, Guard, Leads, ParentOf, At;
    var left := w[h := o.q];
    LeftRuns(w, m, k);
    FinishedView(w, job, m.token, m.now, m.result, m.atm);
    ToldRuns(left, job, m.result, m.now, k);
    var told := Recording.Told(left, job, m.result, m.now);
    CountedRuns(told, m, k);
    var counted := told[h := RecordMetrics(At(told, h), m.result, m.maxPoints, m.now)];
    var a := if k == h then [Finish(job.id, m.token, m.now, m.result, m.atm)] else [];
    var parent := ParentOf(w, job);
    var b := if m.result.Completed? && parent.Some? && parent.value.queue == k
             then [Release(parent.value.id, job, m.result.value, m.now)] else [];
    var c := if k == h then [Record(m.result, m.maxPoints, m.now)] else [];
    LeadsOn(At(w, k), a, At(left, k), b, At(told, k));
    LeadsOn(At(w, k), a + b, At(told, k), c, At(counted, k));
    if m.fetch.None? {
      assert a + b + c + [] == a + b + c;
      assert Act(w, m) == counted;
      return;
    }
    FetchedRuns(counted, m, k);
    var d := if k == h then [Fetch(m.token, m.now, m.fetch.value.clock, m.fetch.value.limit)] else [];
    LeadsOn(At(w, k), a + b + c, At(counted, k), d, At(Act(w, m), k));
  }

  // ---------------------------------------------------------------- whole worlds

  lemma MoveRuns(w: World, m: Move, k: QueueId) returns (steps: seq<Step>)
    requires Permitted(w, m)
    ensures Leads(At(w, k), steps, At(Act(w, m), k))
  {
    hide Leads, Partition.Safe, Apply, Flow.Insert, Flow.Stored, MoveToFinished, Quiet;
    match m {
      case Add(tree) =>
        if NoDuplicates(AllKeys(tree)) && (forall i :: 0 <= i < |AllKeys(tree)| ==> !Flow.Stored(w, AllKeys(tree)[i])) {
          steps := InsertRuns(w, tree, None, k);
          return;
        }
        StaysPut(At(w, k));
        return [];
      case Script(h, s) =>
        hide AddFlow;
        steps := StepAt(w, h, s, k);
        return;
      case Finished(_, _, _, _, _, _, _) =>
        hide AddFlow, FinishSteps;
        FinishedRuns(w, m, k);
        return FinishSteps(w, m, k);
    }
  }

  /** Main result: at the end of every run of a world, each queue has gone through a safe run from an
      empty queue. */
  lemma {:induction false} EachQueueRuns(moves: seq<Move>, k: QueueId) returns (steps: seq<Step>)
    requires AllPermitted(moves)
    ensures Leads(EmptyQueue, steps, At(AdvanceAll(Saga(map[], {}), moves).w, k))
  {
    hide Leads, Advance, Permitted;
    var start := Saga(map[], {});
    if moves == [] {
      StaysPut(EmptyQueue);
      return [];
    }
    var init, m := moves[..|moves| - 1], moves[|moves| - 1];
    forall i | 0 <= i < |init| ensures Permitted(AdvanceAll(start, init[..i]).w, init[i]) {
      assert init[..i] == moves[..i];
      assert Permitted(AdvanceAll(start, moves[..i]).w, moves[i]);
    }
    var first := EachQueueRuns(init, k);
    assert Permitted(AdvanceAll(start, moves[..|moves| - 1]).w, moves[|moves| - 1]);
    var g := AdvanceAll(start, init);
    var last := MoveRuns(g.w, m, k);
    AdvanceActs(g, m);
    LeadsOn(EmptyQueue, first, At(g.w, k), last, At(AdvanceAll(start, moves).w, k));
    steps := first + last;
  }

  lemma AdvanceActs(g: Saga, m: Move)
    ensures Advance(g, m).w == Act(g.w, m)
  {
    hide Act;
  }

  /** For one: the sorted sets of every queue of a world stay in rank order. */
  lemma WorldStaysRanked(moves: seq<Move>, k: QueueId)
    requires AllPermitted(moves)
    ensures Ranks.AllRanked(At(AdvanceAll(Saga(map[], {}), moves).w, k).at)
  {
    hide Run, AdvanceAll, Ranks.AllRanked, SafeRun;
    var steps := EachQueueRuns(moves, k);
    Ranks.EmptyIsRanked();
    Ranks.RunStaysRanked(EmptyQueue, steps);
  }
}

/** One worker's main loop, its job tasks, the fast-path channel between them, the semaphore and
    the set of jobs whose locks are renewed, as a transition system over all interleavings. */
module Worker {
  import opened Redis
  import opened Queue

  /** Where a job task is. A task holds a permit from its start to its end. */
  datatype Phase =
    | Registering               // spawned, not yet in the renewed set
    | Running                   // in the handler, or finishing its job
    | Handing(next: JobId)      // finished its job and claimed the next one with the same script
    | Sending(next: JobId)      // registered the next job for renewal, about to send it
    | Ending                    // holds no claimed job any more
    | Ended                     // unregistered its own job, about to give back the permit

  datatype Task = Task(id: JobId, phase: Phase)

  /** Where the main loop is. */
  datatype Main =
    | Top
    | WantPermit                // found the channel empty, wants a permit before fetching
    | Fetching                  // has a permit, waits for a marker or in moveToActive
    | Holding(id: JobId)        // claimed a job on the fetch path, has a permit
    | Received(id: JobId)       // took a prefetched job from the channel, wants a permit
    | Stopped

  datatype Worker = Worker(capacity: nat, permits: nat, main: Main, channel: seq<JobId>, tasks: seq<Task>,
                           renewed: set<JobId>, prefetched: int)

  function Start(capacity: nat): Worker {
    Worker(capacity, capacity, Top, [], [], {}, 0)
  }

  datatype Step =
    | StartFetch                // try_recv finds nothing
    | TakePermit
    | FetchNothing              // no job, an error, or rate limited: the permit is dropped
    | ClaimJob(id: JobId)
    | Undecodable               // the claimed job's hash cannot be read
    | Spawn                     // starts a task for the main loop's job
    | Receive                   // try_recv finds a job
    | Register(i: nat)
    | FinishAlone(i: nat)       // finished, failed, delayed, returned or cancelled, no next job
    | FinishAndClaim(i: nat, next: JobId)
    | RegisterNext(i: nat)
    | Send(i: nat)              // try_send, which drops the job when the channel is full
    | Unregister(i: nat)
    | Exit(i: nat)
    | Stop

  function MainHasPermit(m: Main): nat {
    if m.Fetching? || m.Holding? then 1 else 0
  }

  predicate Enabled(w: Worker, s: Step) {
    match s
    case StartFetch => w.main.Top? && w.channel == []
    case TakePermit => w.main.WantPermit? && w.permits > 0
    case FetchNothing => w.main.Fetching?
    case ClaimJob(_) => w.main.Fetching?
    case Undecodable => w.main.Holding? || w.main.Received?
    case Spawn => w.main.Holding? || (w.main.Received? && w.permits > 0)
    case Receive => w.main.Top? && w.channel != []
    case Register(i) => i < |w.tasks| && w.tasks[i].phase.Registering?
    case FinishAlone(i) => i < |w.tasks| && w.tasks[i].phase.Running?
    case FinishAndClaim(i, _) => i < |w.tasks| && w.tasks[i].phase.Running?
    case RegisterNext(i) => i < |w.tasks| && w.tasks[i].phase.Handing?
    case Send(i) => i < |w.tasks| && w.tasks[i].phase.Sending?
    case Unregister(i) => i < |w.tasks| && w.tasks[i].phase.Ending?
    case Exit(i) => i < |w.tasks| && w.tasks[i].phase.Ended?
    case Stop => w.main.Top? || w.main.WantPermit? || w.main.Fetching? || w.main.Received?
  }

  function SetPhase(w: Worker, i: nat, phase: Phase): Worker
    requires i < |w.tasks|
  {
    w.(tasks := w.tasks[i := w.tasks[i].(phase := phase)])
  }

  function Next(w: Worker, s: Step): Worker
    requires Enabled(w, s)
  {
    match s
    case StartFetch => w.(main := WantPermit)
    case TakePermit => w.(main := Fetching, permits := w.permits - 1)
    case FetchNothing => w.(main := Top, permits := w.permits + 1)
    case ClaimJob(id) => w.(main := Holding(id))
    case Undecodable =>
      w.(main := Top, permits := w.permits + MainHasPermit(w.main), renewed := w.renewed - {w.main.id})
    case Spawn =>
      w.(main := Top, permits := w.permits - (1 - MainHasPermit(w.main)),
         tasks := w.tasks + [Task(w.main.id, Registering)])
    case Receive => w.(main := Received(w.channel[0]), channel := w.channel[1..], prefetched := w.prefetched - 1)
    case Register(i) => SetPhase(w, i, Running).(renewed := w.renewed + {w.tasks[i].id})
    case FinishAlone(i) => SetPhase(w, i, Ending)
    case FinishAndClaim(i, next) => SetPhase(w, i, Handing(next))
    case RegisterNext(i) =>
      SetPhase(w, i, Sending(w.tasks[i].phase.next))
      .(renewed := w.renewed + {w.tasks[i].phase.next}, prefetched := w.prefetched + 1)
    case Send(i) =>
      if |w.channel| < w.capacity then SetPhase(w, i, Ending).(channel := w.channel + [w.tasks[i].phase.next])
      else SetPhase(w, i, Ending).(prefetched := w.prefetched - 1, renewed := w.renewed - {w.tasks[i].phase.next})
    case Unregister(i) => SetPhase(w, i, Ended).(renewed := w.renewed - {w.tasks[i].id})
    case Exit(i) => w.(tasks := w.tasks[..i] + w.tasks[i + 1..], permits := w.permits + 1)
    case Stop => w.(main := Stopped, permits := w.permits + MainHasPermit(w.main))
  }

  // ---------------------------------------------------------------- counting over job tasks

  /** Sum of a measure over all tasks. */
  function Sum(tasks: seq<Task>, f: Task -> nat): nat {
    if tasks == [] then 0 else Sum(tasks[..|tasks| - 1], f) + f(tasks[|tasks| - 1])
  }

  lemma {:induction false} SumConcat(a: seq<Task>, b: seq<Task>, f: Task -> nat)
    ensures Sum(a + b, f) == Sum(a, f) + Sum(b, f)
  {
    if b == [] {
      assert a + b == a;
    } else {
      assert (a + b)[..|a + b| - 1] == a + b[..|b| - 1];
      SumConcat(a, b[..|b| - 1], f);
    }
  }

  lemma SumOne(t: Task, f: Task -> nat)
    ensures Sum([t], f) == f(t)
  {
    assert Sum([], f) == 0 && [t][..0] == [];
  }

  lemma SumAt(tasks: seq<Task>, i: nat, f: Task -> nat)
    requires i < |tasks|
    ensures Sum(tasks, f) == Sum(tasks[..i] + tasks[i + 1..], f) + f(tasks[i])
    ensures forall t :: Sum(tasks[i := t], f) == Sum(tasks[..i] + tasks[i + 1..], f) + f(t)
  {
    SumConcat(tasks[..i], tasks[i + 1..], f);
    forall t ensures Sum(tasks[i := t], f) == Sum(tasks[..i] + tasks[i + 1..], f) + f(t) {
      assert tasks[i := t] == tasks[..i] + [t] + tasks[i + 1..];
      SumConcat(tasks[..i] + [t], tasks[i + 1..], f);
      SumConcat(tasks[..i], [t], f);
      SumOne(t, f);
    }
    assert tasks[i := tasks[i]] == tasks;
  }

  lemma {:induction false} SumAtMost(tasks: seq<Task>, f: Task -> nat)
    requires forall t :: f(t) <= 1
    ensures Sum(tasks, f) <= |tasks|
  {
    if tasks != [] { SumAtMost(tasks[..|tasks| - 1], f); }
  }

  // ---------------------------------------------------------------- capacity

  /** Does a task hold a job it claimed: its own until it is finished, or the next one. */
  function Holds(t: Task): nat {
    if t.phase.Ending? || t.phase.Ended? then 0 else 1
  }

  function IsSending(t: Task): nat {
    if t.phase.Sending? then 1 else 0
  }

  function InHandler(t: Task): nat {
    if t.phase.Running? then 1 else 0
  }

  function MainHolds(m: Main): nat {
    if m.Holding? || m.Received? then 1 else 0
  }

  /** Jobs claimed by this worker and held locally. */
  function Held(w: Worker): nat {
    Sum(w.tasks, Holds) + |w.channel| + MainHolds(w.main)
  }

  /** A task changes its phase. */
  lemma PhaseSums(w: Worker, i: nat, phase: Phase)
    requires i < |w.tasks|
    ensures var t, r := w.tasks[i].(phase := phase), SetPhase(w, i, phase);
      && |r.tasks| == |w.tasks|
      && Sum(r.tasks, Holds) == Sum(w.tasks, Holds) - Holds(w.tasks[i]) + Holds(t)
      && Sum(r.tasks, IsSending) == Sum(w.tasks, IsSending) - IsSending(w.tasks[i]) + IsSending(t)
  {
    var t := w.tasks[i].(phase := phase);
    SumAt(w.tasks, i, Holds);
    SumAt(w.tasks, i, IsSending);
    assert Sum(w.tasks[i := t], Holds) == Sum(w.tasks[..i] + w.tasks[i + 1..], Holds) + Holds(t);
    assert Sum(w.tasks[i := t], IsSending) == Sum(w.tasks[..i] + w.tasks[i + 1..], IsSending) + IsSending(t);
  }

  predicate Bounded(w: Worker) {
    && w.permits + |w.tasks| + MainHasPermit(w.main) == w.capacity
    && Held(w) <= w.capacity + 1
    && (w.main.WantPermit? || w.main.Fetching? ==> Held(w) <= w.capacity)
    && |w.channel| <= w.capacity
    && w.prefetched == |w.channel| + Sum(w.tasks, IsSending)
  }

  /** Steps of a job task other than its end. */
  predicate IsTaskStep(s: Step) {
    s.Register? || s.FinishAlone? || s.FinishAndClaim? || s.RegisterNext? || s.Send? || s.Unregister?
  }

  lemma TaskStepBounded(w: Worker, s: Step)
    requires Bounded(w) && Enabled(w, s) && IsTaskStep(s)
    ensures Bounded(Next(w, s)) && Next(w, s).capacity == w.capacity
  {
    hide Sum;
    SumAtMost(w.tasks, Holds);
    match s {
      case Register(i) => PhaseSums(w, i, Running); return;
      case FinishAlone(i) => PhaseSums(w, i, Ending); return;
      case FinishAndClaim(i, _) => PhaseSums(w, i, Handing(s.next)); return;
      case RegisterNext(i) => PhaseSums(w, i, Sending(w.tasks[i].phase.next)); return;
      case Send(i) => PhaseSums(w, i, Ending); return;
      case Unregister(i) => PhaseSums(w, i, Ended); return;
    }
  }

  lemma SpawnBounded(w: Worker)
    requires Bounded(w) && Enabled(w, Spawn)
    ensures Bounded(Next(w, Spawn)) && Next(w, Spawn).capacity == w.capacity
  {
    hide Sum;
    var t := Task(w.main.id, Registering);
    SumConcat(w.tasks, [t], Holds); SumOne(t, Holds);
    SumConcat(w.tasks, [t], IsSending); SumOne(t, IsSending);
  }

  lemma ExitBounded(w: Worker, i: nat)
    requires Bounded(w) && Enabled(w, Exit(i))
    ensures Bounded(Next(w, Exit(i))) && Next(w, Exit(i)).capacity == w.capacity
  {
    hide Sum;
    SumAt(w.tasks, i, Holds);
    SumAt(w.tasks, i, IsSending);
  }

  lemma StepBounded(w: Worker, s: Step)
    requires Bounded(w) && Enabled(w, s)
    ensures Bounded(Next(w, s)) && Next(w, s).capacity == w.capacity
  {
    if IsTaskStep(s) { TaskStepBounded(w, s); return; }
    if s.Spawn? { SpawnBounded(w); return; }
    if s.Exit? { ExitBounded(w, s.i); return; }
    hide Sum, SetPhase;
    SumAtMost(w.tasks, Holds);
    match s {
      case StartFetch => return;
      case TakePermit => return;
      case FetchNothing => return;
      case ClaimJob(_) => return;
      case Undecodable => return;
      case Receive => return;
      case Stop => return;
    }
  }

  // ---------------------------------------------------------------- runs

  /** The worker after `steps`, None if one of them was not possible. */
  function Run(w: Worker, steps: seq<Step>): Option<Worker> {
    if steps == [] then Some(w)
    else
      var before := Run(w, steps[..|steps| - 1]);
      var s := steps[|steps| - 1];
      if before.Some? && Enabled(before.value, s) then Some(Next(before.value, s)) else None
  }

  /** Main result: in every interleaving at most `capacity` handlers run, and at most one job more
      than that is claimed and held. */
  lemma {:induction false} CapacityIsKept(capacity: nat, steps: seq<Step>)
    requires Run(Start(capacity), steps).Some?
    ensures var w := Run(Start(capacity), steps).value;
      && Bounded(w) && w.capacity == capacity
      && Sum(w.tasks, InHandler) <= capacity && Held(w) <= capacity + 1
      && w.prefetched >= |w.channel|
  {
    hide Next, Enabled;
    if steps == [] {
      assert Sum([], InHandler) == 0;
    } else {
      CapacityIsKept(capacity, steps[..|steps| - 1]);
      var before := Run(Start(capacity), steps[..|steps| - 1]).value;
      StepBounded(before, steps[|steps| - 1]);
      SumAtMost(Run(Start(capacity), steps).value.tasks, InHandler);
    }
  }

  // ---------------------------------------------------------------- a full channel

  /** In every reachable state in which a task is about to send, the channel is full if and only if
      one job more than the capacity is held, the main loop is between spawning a task and looking
      into the channel or has stopped, and no other task holds a job. */
  lemma ChannelIsFullIff(capacity: nat, steps: seq<Step>, i: nat)
    requires Run(Start(capacity), steps).Some?
    requires var w := Run(Start(capacity), steps).value; i < |w.tasks| && w.tasks[i].phase.Sending?
    ensures var w := Run(Start(capacity), steps).value;
      |w.channel| == capacity
      <==> Held(w) == capacity + 1 && (w.main.Top? || w.main.Stopped?) && Sum(w.tasks, Holds) == 1
  {
    hide Run, Sum;
    CapacityIsKept(capacity, steps);
    SumAt(Run(Start(capacity), steps).value.tasks, i, Holds);
  }

  /** Every job the worker knows has a number below `n`, so `n` is a job it never claimed. */
  predicate Below(w: Worker, n: nat) {
    && (forall i :: 0 <= i < |w.tasks| ==> w.tasks[i].id < n)
    && (forall i :: 0 <= i < |w.channel| ==> w.channel[i] < n)
  }

  predicate AllRunning(w: Worker, n: nat) {
    |w.tasks| == n && forall i :: 0 <= i < n ==> w.tasks[i].phase.Running?
  }

  predicate Performs(w: Worker, steps: seq<Step>, r: Worker) {
    Run(w, steps) == Some(r)
  }

  lemma Then(w: Worker, steps: seq<Step>, v: Worker, s: Step)
    requires Performs(w, steps, v) && Enabled(v, s)
    ensures Performs(w, steps + [s], Next(v, s))
  {
    hide Next, Enabled;
    assert (steps + [s])[..|steps|] == steps;
  }

  /** The first `k` permits are taken by running jobs. */
  predicate Busy(w: Worker, capacity: nat, k: nat) {
    && w.capacity == capacity && w.permits + k == capacity && w.main.Top? && w.channel == []
    && AllRunning(w, k) && Below(w, k)
  }

  lemma {:induction false} BusyIsReached(capacity: nat, k: nat) returns (steps: seq<Step>, w: Worker)
    requires k <= capacity
    ensures Performs(Start(capacity), steps, w) && Busy(w, capacity, k)
  {
    if k == 0 {
      steps, w := [], Start(capacity);
      return;
    }
    steps, w := BusyIsReached(capacity, k - 1);
    var all := [StartFetch, TakePermit, ClaimJob(k - 1), Spawn, Register(k - 1)];
    hide Performs;
    for i := 0 to 5
      invariant Performs(Start(capacity), steps, w)
      invariant w.capacity == capacity && w.channel == []
      invariant i < 4 ==> AllRunning(w, k - 1) && Below(w, k - 1)
      invariant i == 0 ==> w.main.Top? && w.permits + (k - 1) == capacity
      invariant i == 1 ==> w.main.WantPermit? && w.permits + (k - 1) == capacity
      invariant i == 2 ==> w.main.Fetching? && w.permits + k == capacity
      invariant i == 3 ==> w.main == Holding(k - 1) && w.permits + k == capacity
      invariant i == 4 ==>
        && w.main.Top? && w.permits + k == capacity && |w.tasks| == k && w.tasks[k - 1] == Task(k - 1, Registering)
        && (forall j :: 0 <= j < k - 1 ==> w.tasks[j].phase.Running? && w.tasks[j].id < k - 1)
      invariant i == 5 ==> Busy(w, capacity, k)
    {
      Then(Start(capacity), steps, w, all[i]);
      steps, w := steps + [all[i]], Next(w, all[i]);
    }
  }

  /** The main loop, which found the channel empty, still has no permit; `j` of the jobs have
      finished, and each has prefetched another one. */
  predicate Drained(w: Worker, capacity: nat, j: nat) {
    && j <= capacity
    && w.capacity == capacity && w.permits == j && w.main.WantPermit? && |w.channel| == j
    && AllRunning(w, capacity - j) && Below(w, capacity + j)
  }

  lemma {:induction false} DrainedIsReached(capacity: nat, j: nat) returns (steps: seq<Step>, w: Worker)
    requires j <= capacity
    ensures Performs(Start(capacity), steps, w) && Drained(w, capacity, j)
  {
    if j == 0 {
      steps, w := BusyIsReached(capacity, capacity);
      Then(Start(capacity), steps, w, StartFetch);
      steps, w := steps + [StartFetch], Next(w, StartFetch);
      return;
    }
    steps, w := DrainedIsReached(capacity, j - 1);
    var next := capacity + j - 1;
    var all := [FinishAndClaim(0, next), RegisterNext(0), Send(0), Unregister(0), Exit(0)];
    hide Performs;
    for i := 0 to 5
      invariant Performs(Start(capacity), steps, w)
      invariant w.capacity == capacity && w.main.WantPermit? && w.permits == (if i < 5 then j - 1 else j)
      invariant |w.channel| == (if i < 3 then j - 1 else j)
      invariant forall m :: 0 <= m < |w.channel| ==> w.channel[m] < capacity + j
      invariant i < 5 ==>
        && |w.tasks| == capacity - (j - 1) && w.tasks[0].id < capacity + j
        && (forall m :: 1 <= m < |w.tasks| ==> w.tasks[m].phase.Running? && w.tasks[m].id < capacity + j)
        && w.tasks[0].phase == [Running, Handing(next), Sending(next), Ending, Ended][i]
      invariant i == 5 ==> Drained(w, capacity, j)
    {
      Then(Start(capacity), steps, w, all[i]);
      steps, w := steps + [all[i]], Next(w, all[i]);
    }
  }

  /** After `steps` a task is about to send `next`, which the worker claimed only now, and finds the
      channel full: the job is dropped and no longer renewed. */
  predicate DropsAfter(capacity: nat, steps: seq<Step>, next: JobId) {
    Run(Start(capacity), steps).Some? &&
    var w := Run(Start(capacity), steps).value;
    && |w.tasks| == 1 && w.tasks[0].phase == Sending(next) && w.tasks[0].id != next
    && |w.channel| == capacity && next !in w.channel && next in w.renewed
    && next !in Next(w, Send(0)).channel && next !in Next(w, Send(0)).renewed
  }

  /** Main result: for every capacity there is a run in which a claimed job is dropped. */
  lemma PrefetchedJobIsDropped(capacity: nat)
    requires capacity >= 1
    ensures exists steps: seq<Step>, next: JobId :: DropsAfter(capacity, steps, next)
  {
    var steps, w := DrainedIsReached(capacity, capacity);
    var other, next := 2 * capacity, 2 * capacity + 1;
    var all := [TakePermit, ClaimJob(other), Spawn, Register(0), FinishAndClaim(0, next), RegisterNext(0)];
    hide Performs, Run;
    for i := 0 to 6
      invariant Performs(Start(capacity), steps, w)
      invariant w.capacity == capacity && |w.channel| == capacity && Below(w, next)
      invariant i < 3 ==> w.tasks == []
      invariant i == 0 ==> w.main.WantPermit? && w.permits == capacity
      invariant i == 1 ==> w.main.Fetching?
      invariant i == 2 ==> w.main == Holding(other)
      invariant i >= 3 ==>
        && w.main.Top? && |w.tasks| == 1 && w.tasks[0].id == other
        && w.tasks[0].phase == [Registering, Running, Handing(next), Sending(next)][i - 3]
      invariant i == 6 ==> next in w.renewed
    {
      Then(Start(capacity), steps, w, all[i]);
      steps, w := steps + [all[i]], Next(w, all[i]);
    }
    Reached(Start(capacity), steps, w);
    assert DropsAfter(capacity, steps, next);
  }

  lemma Reached(w: Worker, steps: seq<Step>, r: Worker)
    requires Performs(w, steps, r)
    ensures Run(w, steps) == Some(r)
  {
    hide Run;
  }

  // ---------------------------------------------------------------- lock renewal

  /** How often `x` occurs among the jobs the worker knows: tasks not yet unregistered, next jobs
      being handed over, the channel, and the main loop's job. */
  function Knows(t: Task, x: JobId): nat {
    (if t.id == x && !t.phase.Ended? then 1 else 0)
    + (if (t.phase.Handing? || t.phase.Sending?) && t.phase.next == x then 1 else 0)
  }

  function Occurs(w: Worker, x: JobId): nat {
    Sum(w.tasks, t => Knows(t, x)) + multiset(w.channel)[x]
    + (if MainHolds(w.main) == 1 && w.main.id == x then 1 else 0)
  }

  /** Jobs whose lock must be renewed: those of registered tasks, and every prefetched job on its
      way to a permit. */
  function Needs(t: Task, x: JobId): nat {
    (if t.id == x && !t.phase.Registering? && !t.phase.Ended? then 1 else 0)
    + (if t.phase.Sending? && t.phase.next == x then 1 else 0)
  }

  predicate NeedsRenewal(w: Worker, x: JobId) {
    Sum(w.tasks, t => Needs(t, x)) > 0 || x in w.channel || (w.main.Received? && w.main.id == x)
  }

  predicate Renewing(w: Worker, x: JobId) {
    && Occurs(w, x) <= 1
    && (NeedsRenewal(w, x) ==> x in w.renewed)
    && (x in w.renewed && !w.main.Stopped? ==> Occurs(w, x) == 1)
  }

  /** A worker does not claim a job again before its earlier task has unregistered it. */
  predicate ClaimsAfresh(w: Worker, s: Step) {
    && (s.ClaimJob? ==> Occurs(w, s.id) == 0)
    && (s.FinishAndClaim? ==> Occurs(w, s.next) == 0)
  }

  lemma NeedsAreKnown(tasks: seq<Task>, x: JobId)
    ensures Sum(tasks, t => Needs(t, x)) <= Sum(tasks, t => Knows(t, x))
  {
    SumBelow(tasks, t => Needs(t, x), t => Knows(t, x));
  }

  lemma {:induction false} SumBelow(tasks: seq<Task>, f: Task -> nat, g: Task -> nat)
    requires forall t :: f(t) <= g(t)
    ensures Sum(tasks, f) <= Sum(tasks, g)
  {
    if tasks != [] { SumBelow(tasks[..|tasks| - 1], f, g); }
  }

  lemma PhaseCounts(w: Worker, i: nat, phase: Phase, x: JobId)
    requires i < |w.tasks|
    ensures var t, r := w.tasks[i].(phase := phase), SetPhase(w, i, phase);
      && Sum(r.tasks, t => Knows(t, x)) == Sum(w.tasks, t => Knows(t, x)) - Knows(w.tasks[i], x) + Knows(t, x)
      && Sum(r.tasks, t => Needs(t, x)) == Sum(w.tasks, t => Needs(t, x)) - Needs(w.tasks[i], x) + Needs(t, x)
      && Sum(w.tasks, t => Knows(t, x)) >= Knows(w.tasks[i], x)
      && Sum(w.tasks, t => Needs(t, x)) >= Needs(w.tasks[i], x)
  {
    var t := w.tasks[i].(phase := phase);
    var f: Task -> nat, g: Task -> nat := t => Knows(t, x), t => Needs(t, x);
    SumAt(w.tasks, i, f);
    SumAt(w.tasks, i, g);
    assert Sum(w.tasks[i := t], f) == Sum(w.tasks[..i] + w.tasks[i + 1..], f) + f(t);
    assert Sum(w.tasks[i := t], g) == Sum(w.tasks[..i] + w.tasks[i + 1..], g) + g(t);
  }

  /** Registering a job, or finishing one. */
  lemma EarlyTaskStepRenews(w: Worker, s: Step, x: JobId)
    requires Renewing(w, x) && Enabled(w, s) && ClaimsAfresh(w, s)
        && (s.Register? || s.FinishAlone? || s.FinishAndClaim?)
    ensures Renewing(Next(w, s), x)
  {
    hide Sum;
    NeedsAreKnown(w.tasks, x);
    match s {
      case Register(i) => PhaseCounts(w, i, Running, x); return;
      case FinishAlone(i) => PhaseCounts(w, i, Ending, x); return;
      case FinishAndClaim(i, next) => PhaseCounts(w, i, Handing(next), x); return;
    }
  }

  lemma SendRenews(w: Worker, i: nat, x: JobId)
    requires Renewing(w, x) && Enabled(w, Send(i))
    ensures Renewing(Next(w, Send(i)), x)
  {
    hide Sum;
    NeedsAreKnown(w.tasks, x);
    PhaseCounts(w, i, Ending, x);
    if |w.channel| < w.capacity { return; }
  }

  lemma TaskStepRenews(w: Worker, s: Step, x: JobId)
    requires Renewing(w, x) && Enabled(w, s) && ClaimsAfresh(w, s)
    requires IsTaskStep(s)
    ensures Renewing(Next(w, s), x)
  {
    if s.Register? || s.FinishAlone? || s.FinishAndClaim? { EarlyTaskStepRenews(w, s, x); return; }
    if s.Send? { SendRenews(w, s.i, x); return; }
    hide Sum;
    NeedsAreKnown(w.tasks, x);
    match s {
      case RegisterNext(i) => PhaseCounts(w, i, Sending(w.tasks[i].phase.next), x); return;
      case Unregister(i) => PhaseCounts(w, i, Ended, x); return;
    }
  }

  lemma SpawnCounts(w: Worker, id: JobId, x: JobId)
    ensures var t := Task(id, Registering);
      && Sum(w.tasks + [t], t => Knows(t, x)) == Sum(w.tasks, t => Knows(t, x)) + Knows(t, x)
      && Sum(w.tasks + [t], t => Needs(t, x)) == Sum(w.tasks, t => Needs(t, x))
  {
    var t := Task(id, Registering);
    var f: Task -> nat, g: Task -> nat := t => Knows(t, x), t => Needs(t, x);
    SumConcat(w.tasks, [t], f);
    SumConcat(w.tasks, [t], g);
    SumOne(t, f);
    SumOne(t, g);
  }

  lemma ExitCounts(w: Worker, i: nat, x: JobId)
    requires i < |w.tasks| && w.tasks[i].phase.Ended?
    ensures var rest := w.tasks[..i] + w.tasks[i + 1..];
      && Sum(rest, t => Knows(t, x)) == Sum(w.tasks, t => Knows(t, x))
      && Sum(rest, t => Needs(t, x)) == Sum(w.tasks, t => Needs(t, x))
  {
    var f: Task -> nat, g: Task -> nat := t => Knows(t, x), t => Needs(t, x);
    SumAt(w.tasks, i, f);
    SumAt(w.tasks, i, g);
  }

  lemma MainStepRenews(w: Worker, s: Step, x: JobId)
    requires Renewing(w, x) && Enabled(w, s) && ClaimsAfresh(w, s)
    requires !IsTaskStep(s)
    ensures Renewing(Next(w, s), x)
  {
    hide Sum;
    NeedsAreKnown(w.tasks, x);
    match s {
      case StartFetch => return;
      case TakePermit => return;
      case FetchNothing => return;
      case ClaimJob(_) => return;
      case Undecodable => return;
      case Spawn => SpawnCounts(w, w.main.id, x); return;
      case Receive =>
        assert w.channel == [w.channel[0]] + w.channel[1..];
        return;
      case Exit(i) => ExitCounts(w, i, x); return;
      case Stop => return;
    }
  }

  /** Main result: as long as no job is claimed again before its earlier task has unregistered it,
      every prefetched job awaiting a permit and every job in a handler is renewed, and, until the
      worker stops, nothing else is. */
  lemma {:induction false} PrefetchedJobsAreRenewed(capacity: nat, steps: seq<Step>, x: JobId)
    requires Run(Start(capacity), steps).Some?
    requires forall i :: 0 <= i < |steps| && Run(Start(capacity), steps[..i]).Some? ==>
               ClaimsAfresh(Run(Start(capacity), steps[..i]).value, steps[i])
    ensures Renewing(Run(Start(capacity), steps).value, x)
  {
    hide Next, Enabled, Renewing, ClaimsAfresh;
    if steps == [] {
      StartRenews(capacity, x);
    } else {
      var init, s := steps[..|steps| - 1], steps[|steps| - 1];
      forall i | 0 <= i < |init| && Run(Start(capacity), init[..i]).Some?
        ensures ClaimsAfresh(Run(Start(capacity), init[..i]).value, init[i])
      {
        assert init[..i] == steps[..i];
      }
      PrefetchedJobsAreRenewed(capacity, init, x);
      var w := Run(Start(capacity), init).value;
      assert ClaimsAfresh(w, s);
      if IsTaskStep(s) {
        TaskStepRenews(w, s, x);
      } else {
        MainStepRenews(w, s, x);
      }
    }
  }

  lemma StartRenews(capacity: nat, x: JobId)
    ensures Renewing(Start(capacity), x)
  {
  }
}

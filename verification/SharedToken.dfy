/** Why the bound on claims asks that no worker claims a job it is still working on. A worker
    uses one token for all its claims, so a handler whose job was swept from under it passes the
    guard of the job's next claim by the same worker. */
module SharedToken {
  import opened Redis
  import opened Scores
  import opened Limiter
  import opened Queue
  import opened Machine
  import opened Fencing
  import C = ClaimBound

  const JOB: JobId := 1

  /** A queue with nothing but one job, which has two attempts. */
  function With(at: Places, delay: int, atm: nat, ats: nat, stc: nat, locks: map<JobId, Token>, stalled: set<JobId>,
                marks: Marks): Queue
  {
    EmptyQueue.(at := at, locks := locks, stalled := stalled, marks := marks,
                jobs := map[JOB := Job(0, delay, 0, 2, atm, ats, stc, None, None, None, None, None)])
  }

  const Nowhere: Places := EmptyQueue.at

  lemma AddedState()
    ensures AddStandardJob(EmptyQueue, JOB, Opts(0, 0, 2, None), 0, None).q
         == With(Nowhere.(wait := [JOB]), 0, 0, 0, 0, map[], {}, Marks(true, None))
  {
  }

  /** Claiming the only waiting job. */
  lemma ClaimWaiting(delay: int, atm: nat, ats: nat, stc: nat, locks: map<JobId, Token>, stalled: set<JobId>,
                     marks: Marks, token: Token)
    ensures var q := With(Nowhere.(wait := [JOB]), delay, atm, ats, stc, locks, stalled, marks);
      var f := FetchNext(q, token, 0, 0, None);
      && f.q == With(Nowhere.(active := [JOB]), delay, atm, ats + 1, stc, locks[JOB := token], stalled + {JOB},
                     Marks(false, marks.delay))
      && f.result.Claimed? && f.result.id == JOB && f.result.job.atm == atm && f.result.job.attempts == 2
  {
    var q := With(Nowhere.(wait := [JOB]), delay, atm, ats, stc, locks, stalled, marks);
    assert PromoteDelayed(q, 0) == q;
    assert [JOB][..0] == [] && [JOB] + [] == [JOB];
  }

  /** The sweep takes the job although it is locked. */
  lemma SweptWhileLocked(token: Token)
    ensures SweepStalled(With(Nowhere.(active := [JOB]), 0, 0, 1, 0, map[JOB := token], {JOB}, Marks(false, None)),
                         [JOB], 1, 0)
         == With(Nowhere.(wait := [JOB]), 0, 0, 1, 1, map[JOB := token], {}, Marks(true, None))
  {
    var q := With(Nowhere.(active := [JOB]), 0, 0, 1, 0, map[JOB := token], {JOB}, Marks(false, None));
    assert Unlocked(q) == {};
    assert Scanned(q) == q;
    assert [JOB][..0] == [];
    assert SweepEach(q, [], 1, 0) == q;
    assert SweepEach(q, [JOB], 1, 0) == SweepOne(q, JOB, 1, 0);
    assert RemoveFirst([JOB], JOB) == [];
    assert Requeued(q, [], 1) == 0;
    assert Requeued(q, [JOB], 1) == 1;
  }

  /** A task of the token's owner delays the job for its second attempt, due at once. */
  lemma DelayedState(delay: int, atm: nat, ats: nat, marks: Marks, token: Token)
    requires token != NO_LOCK
    ensures MoveToDelayed(With(Nowhere.(active := [JOB]), delay, atm, ats, 1, map[JOB := token], {JOB}, marks),
                          JOB, token, 0, 0, 1)
         == Outcome(With(Nowhere.(delayed := [Entry(0, JOB)]), 0, 1, ats, 1, map[], {}, Marks(marks.base, Some(0))), OK)
  {
    assert RemoveFirst([JOB], JOB) == [];
    assert DelayedScore([], 0) == 0;
    assert Zadd([], 0, JOB) == [Entry(0, JOB)];
    assert (map[JOB := token]) - {JOB} == map[];
  }

  lemma ClaimDelayed(atm: nat, ats: nat, marks: Marks, token: Token)
    ensures var q := With(Nowhere.(delayed := [Entry(0, JOB)]), 0, atm, ats, 1, map[], {}, marks);
      var f := FetchNext(q, token, 0, 0, None);
      && f.q == With(Nowhere.(active := [JOB]), 0, atm, ats + 1, 1, map[JOB := token], {JOB}, Marks(false, marks.delay))
      && f.result.Claimed? && f.result.id == JOB && f.result.job.atm == atm && f.result.job.attempts == 2
  {
    var q := With(Nowhere.(delayed := [Entry(0, JOB)]), 0, atm, ats, 1, map[], {}, marks);
    var z := q.at.delayed;
    assert DueCount(q, 0) == 1;
    assert z[..1] == z && z[1..] == [];
    assert Members(z) == [JOB];
    var d := q.(at := q.at.(delayed := []));
    assert [JOB][..0] == [];
    assert PromoteEach(d, []) == d;
    assert PromoteEach(d, [JOB]) == PromoteOne(d, JOB);
    assert PromoteDelayed(q, 0) == With(Nowhere.(wait := [JOB]), 0, atm, ats, 1, map[], {}, Marks(true, marks.delay));
    ClaimWaiting(0, atm, ats, 1, map[], {}, Marks(true, marks.delay), token);
  }

  /** Main result: two attempts and one allowed stall give four claims, when the first two claims,
      which both read attempt 0, were made with one token. */
  lemma FourClaims(token: Token)
    requires token != NO_LOCK
    ensures var added := AddStandardJob(EmptyQueue, JOB, Opts(0, 0, 2, None), 0, None).q;
      var first := FetchNext(added, token, 0, 0, None);
      var second := FetchNext(SweepStalled(first.q, [JOB], 1, 0), token, 0, 0, None);
      var delayed := MoveToDelayed(second.q, JOB, token, 0, 0, 1);
      var third := FetchNext(delayed.q, token, 0, 0, None);
      var again := MoveToDelayed(third.q, JOB, token, 0, 0, 1);
      var fourth := FetchNext(again.q, token, 0, 0, None);
      && ListsOnce([JOB], first.q.stalled + Unlocked(first.q))
      && delayed.code == OK && again.code == OK
      && first.result.Claimed? && first.result.job.atm == 0
      && second.result.Claimed? && second.result.job.atm == 0
      && third.result.Claimed? && fourth.result.Claimed?
      && 4 > Max(1, fourth.result.job.attempts) + 1
  {
    hide FetchNext, SweepStalled, MoveToDelayed, AddStandardJob, With;
    var none: map<JobId, Token> := map[];
    var held, owned := none[JOB := token], {JOB};
    assert held == map[JOB := token] && held[JOB := token] == held;
    assert {} + owned == owned;
    AddedState();
    ClaimWaiting(0, 0, 0, 0, map[], {}, Marks(true, None), token);
    HeldIsListed(token);
    SweptWhileLocked(token);
    ClaimWaiting(0, 0, 1, 1, held, {}, Marks(true, None), token);
    DelayedState(0, 0, 2, Marks(false, None), token);
    ClaimDelayed(1, 2, Marks(false, Some(0)), token);
    DelayedState(0, 1, 3, Marks(false, Some(0)), token);
    ClaimDelayed(1, 3, Marks(false, Some(0)), token);
  }

  lemma HeldIsListed(token: Token)
    ensures var q := With(Nowhere.(active := [JOB]), 0, 0, 1, 0, map[JOB := token], {JOB}, Marks(false, None));
      ListsOnce([JOB], q.stalled + Unlocked(q))
  {
    var q := With(Nowhere.(active := [JOB]), 0, 0, 1, 0, map[JOB := token], {JOB}, Marks(false, None));
    assert Unlocked(q) == {};
    assert (set id | id in [JOB]) == {JOB};
  }

  const ADD: Step := AddStandard(JOB, Opts(0, 0, 2, None), 0, None)
  const SWEEP: Step := Sweep([JOB], 1, 0)

  function FetchWith(token: Token): Step {
    Fetch(token, 0, 0, None)
  }

  /** In the terms of that bound: add, first claim and sweep are as it asks, and the second claim
      breaks it in one respect only, that the first claim with its token is still being worked on. */
  lemma SecondClaimIsNotFresh(token: Token)
    requires token != NO_LOCK
    ensures var added := C.Enter(C.Opening, ADD);
      var first := C.Enter(added, FetchWith(token));
      var swept := C.Enter(first, SWEEP);
      && C.Disciplined(C.Opening, 1, ADD) && C.Disciplined(added, 1, FetchWith(token)) && C.Disciplined(first, 1, SWEEP)
      && Possible(first.q, SWEEP)
      && Held(JOB, token) in swept.tickets
      && Fetching(swept.q, FetchWith(token)).Claimed? && Fetching(swept.q, FetchWith(token)).id == JOB
      && !C.ClaimsAfresh(swept, FetchWith(token))
      && C.ClaimsAfresh(C.Follow(swept, C.Abandon(Held(JOB, token))), FetchWith(token))
  {
    hide FetchNext, SweepStalled, AddStandardJob, With;
    var none: map<JobId, Token> := map[];
    var held, owned := none[JOB := token], {JOB};
    assert held == map[JOB := token] && {} + owned == owned;
    AddedState();
    ClaimWaiting(0, 0, 0, 0, map[], {}, Marks(true, None), token);
    HeldIsListed(token);
    SweptWhileLocked(token);
    ClaimWaiting(0, 0, 1, 1, held, {}, Marks(true, None), token);
  }
}

/** Scores of the prioritized and the delayed sorted sets. Redis keeps scores as doubles:
    every integer below 2^53 is exact, and the lemmas bound the scores by it. */
module Scores {
  import opened Redis

  const BLOCK: nat := 0x1_0000_0000
  const SLOTS: nat := 0x1000
  const EXACT: nat := 0x20_0000_0000_0000

  // ---------------------------------------------------------------- priorities

  /** Score of a job of `priority` that drew `ticket` from the priority counter. */
  function PriorityScore(priority: nat, ticket: nat): nat {
    priority * BLOCK + ticket % BLOCK
  }

  /** Score of a job pushed back to the front of its priority. */
  function PushBackScore(priority: nat): nat {
    priority * BLOCK
  }

  lemma PriorityScoreBounds(priority: nat, ticket: nat)
    ensures PushBackScore(priority) <= PriorityScore(priority, ticket) < PushBackScore(priority + 1)
    ensures PriorityScore(priority, ticket) / BLOCK == priority
    ensures PriorityScore(priority, ticket) % BLOCK == ticket % BLOCK
    ensures priority < 0x20_0000 ==> PriorityScore(priority, ticket) < EXACT
  {
  }

  /** A numerically lower priority always ranks first, whatever the counter does. */
  lemma LowerPriorityFirst(p1: nat, t1: nat, p2: nat, t2: nat)
    requires p1 < p2
    ensures PriorityScore(p1, t1) < PushBackScore(p2) <= PriorityScore(p2, t2)
  {
    PriorityScoreBounds(p1, t1);
    assert (p1 + 1) * BLOCK <= p2 * BLOCK;
  }

  /** Within a priority, drawing order is rank order exactly when the counter crossed no
      multiple of 2^32 between the two draws. */
  lemma TicketOrderIff(priority: nat, t1: nat, t2: nat)
    requires t1 < t2 < t1 + BLOCK
    ensures PriorityScore(priority, t1) < PriorityScore(priority, t2) <==> t1 / BLOCK == t2 / BLOCK
  {
    var d1, d2 := t1 / BLOCK, t2 / BLOCK;
    assert t1 == d1 * BLOCK + t1 % BLOCK && t2 == d2 * BLOCK + t2 % BLOCK;
    if d1 != d2 {
      assert d2 * BLOCK >= (d1 + 1) * BLOCK;
    }
  }

  // ---------------------------------------------------------------- delays

  function DueTime(timestamp: nat, delay: int): nat {
    if delay > 0 then timestamp + delay else timestamp
  }

  /** ZREVRANGEBYSCORE z hi lo LIMIT 0 1: the score of the last ranked entry in [lo, hi]. */
  function BucketTop(z: Zset, lo: nat, hi: nat): Option<nat> {
    if z == [] then None
    else if lo <= z[|z| - 1].score <= hi then Some(z[|z| - 1].score)
    else BucketTop(z[..|z| - 1], lo, hi)
  }

  lemma {:induction false} BucketTopIsGreatest(z: Zset, lo: nat, hi: nat)
    requires Ranked(z)
    ensures match BucketTop(z, lo, hi)
      case None => forall i :: 0 <= i < |z| ==> !(lo <= z[i].score <= hi)
      case Some(top) =>
        lo <= top <= hi
        && (exists i :: 0 <= i < |z| && z[i].score == top)
        && (forall i :: 0 <= i < |z| && lo <= z[i].score <= hi ==> z[i].score <= top)
  {
    if z != [] && !(lo <= z[|z| - 1].score <= hi) {
      BucketTopIsGreatest(z[..|z| - 1], lo, hi);
    } else if z != [] {
      forall i | 0 <= i < |z| - 1 ensures z[i].score <= z[|z| - 1].score {
        assert Before(z[i], z[|z| - 1]);
      }
    }
  }

  /** Score given to a job due at `due`: the next free slot of its millisecond. */
  function DelayedScore(z: Zset, due: nat): nat {
    var lo, hi := due * SLOTS, (due + 1) * SLOTS - 1;
    match BucketTop(z, lo, hi)
    case None => lo
    case Some(top) => if top >= hi then hi else top + 1
  }

  lemma {:induction false} BucketTopWithin(z: Zset, lo: nat, hi: nat)
    ensures BucketTop(z, lo, hi).Some? ==> lo <= BucketTop(z, lo, hi).value <= hi
  {
    if z != [] { BucketTopWithin(z[..|z| - 1], lo, hi); }
  }

  /** The score stays in its own millisecond, from which the due time can be read back, and it
      is exact as a double for due times below 2^41. */
  lemma DelayedScoreInBucket(z: Zset, due: nat)
    ensures due * SLOTS <= DelayedScore(z, due) < (due + 1) * SLOTS
    ensures DelayedScore(z, due) / SLOTS == due
    ensures due < 0x200_0000_0000 ==> DelayedScore(z, due) < EXACT
  {
    BucketTopWithin(z, due * SLOTS, (due + 1) * SLOTS - 1);
  }

  /** It ranks after every job already due in the same millisecond exactly as long as the last
      of the 4096 slots is free. */
  lemma DelayedScoreIsLastInBucketIff(z: Zset, due: nat)
    requires Ranked(z)
    ensures (forall i :: 0 <= i < |z| && z[i].score / SLOTS == due ==> z[i].score < DelayedScore(z, due))
       <==> (forall i :: 0 <= i < |z| ==> z[i].score != (due + 1) * SLOTS - 1)
  {
    var lo, hi := due * SLOTS, (due + 1) * SLOTS - 1;
    BucketTopIsGreatest(z, lo, hi);
    assert forall s: nat :: s / SLOTS == due <==> lo <= s <= hi;
  }

  /** Two jobs due at different times keep that order, whatever slots they drew. */
  lemma EarlierDueFirst(z1: Zset, due1: nat, z2: Zset, due2: nat)
    requires due1 < due2
    ensures DelayedScore(z1, due1) < DelayedScore(z2, due2)
  {
    DelayedScoreInBucket(z1, due1);
    DelayedScoreInBucket(z2, due2);
    assert (due1 + 1) * SLOTS <= due2 * SLOTS;
  }

  /** Greatest score that counts as due at `now`. */
  function DueScore(now: nat): nat {
    (now + 1) * SLOTS - 1
  }

  /** A worker that read the delay marker sleeps until the whole milliseconds of the head's
      score divided by 4096: from then on, and not before, promotion takes the head job. */
  lemma MarkerWakesOnTimeIff(headScore: nat, now: nat)
    ensures headScore <= DueScore(now) <==> headScore / SLOTS <= now
  {
  }
}

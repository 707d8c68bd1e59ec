/** Job schedulers in `every` mode: when the next iteration is due, how an upsert replaces the
    pending iteration, and how one iteration brings forth the next. One scheduler is modelled;
    its jobs are named by their timestamps. */
module Scheduler {
  import opened Redis

  // ---------------------------------------------------------------- the next slot

  datatype Slot = Slot(next: nat, offset: nat)

  /** The last multiple of `every` that is not after `x`. */
  function SlotStart(x: nat, every: nat): (start: nat)
    requires every >= 1
    ensures start <= x < start + every && start == x - x % every
  {
    x / every * every
  }

  /** The timestamp at the offset in the current slot or, if that has passed, in the next one. */
  function AlignedAfter(now: nat, every: nat, offset: nat): nat
    requires every >= 1
  {
    var aligned := SlotStart(now, every) + offset;
    if aligned <= now then aligned + every else aligned
  }

  /** getJobSchedulerEveryNextMillis; no offset is offset 0. */
  function EveryNext(prev: Option<nat>, every: nat, now: nat, offset: nat, startDate: Option<nat>): Slot
    requires every >= 1
  {
    var next: nat := match prev
      case None =>
        if startDate.Some? then Max(startDate.value, now)
        else if offset > 0 then AlignedAfter(now, every, offset)
        else now
      case Some(p) =>
        if p + every < now then SlotStart(now, every) + every + offset else p + every;
    Slot(next, if offset == 0 then next - SlotStart(next, every) else offset)
  }

  /** Every timestamp is congruent to the offset. */
  predicate InPhase(millis: nat, every: nat, offset: nat)
    requires every >= 1
  {
    millis % every == offset % every
  }

  lemma WholeSlots(k: nat, every: nat, x: nat)
    requires every >= 1
    ensures (k * every + x) % every == x % every
    decreases k
  {
    if k > 0 {
      assert k * every + x == (k - 1) * every + (x + every);
      WholeSlots(k - 1, every, x + every);
      OneSlot(every, x);
    }
  }

  lemma OneSlot(every: nat, x: nat)
    requires every >= 1
    ensures (x + every) % every == x % every
  {
    var k, r := x / every, x % every;
    assert x + every == (k + 1) * every + r;
    Remainder(k + 1, every, r, x + every);
  }

  lemma AtLeastOne(d: int, every: int)
    requires every >= 1
    ensures d >= 1 ==> d * every >= every
    ensures d <= -1 ==> d * every <= -every
  {
  }

  lemma Remainder(k: nat, every: nat, r: nat, x: nat)
    requires r < every && x == k * every + r
    ensures x % every == r
  {
    var q := x / every;
    assert x == q * every + x % every;
    AtLeastOne(q - k, every);
    assert (q - k) * every == q * every - k * every;
  }

  /** Successive timestamps strictly increase, never lie in the past, and keep the phase. */
  lemma NextSlot(prev: nat, every: nat, now: nat, offset: nat, startDate: Option<nat>)
    requires every >= 1
    ensures var s := EveryNext(Some(prev), every, now, offset, startDate);
      && s.next > prev && s.next >= now
      && (prev + every >= now ==> s.next == prev + every)
      && (prev + every < now ==> now < s.next <= now + every + offset && InPhase(s.next, every, offset))
      && (InPhase(prev, every, offset) ==> InPhase(s.next, every, offset))
      && InPhase(s.next, every, s.offset) == (offset == 0 || InPhase(s.next, every, offset))
  {
    var s := EveryNext(Some(prev), every, now, offset, startDate);
    OneSlot(every, prev);
    assert now == now / every * every + now % every;
    if prev + every < now {
      assert s.next == (now / every) * every + (every + offset);
      WholeSlots(now / every, every, every + offset);
      OneSlot(every, offset);
    }
    OffsetIsPhase(s.next, every);
  }

  lemma OffsetIsPhase(next: nat, every: nat)
    requires every >= 1
    ensures InPhase(next, every, next - SlotStart(next, every))
  {
    assert (next % every) % every == next % every;
  }

  /** The first timestamp is in phase, unless both a start date and an offset are given: then
      exactly if the later of start date and now happens to be. */
  lemma FirstSlotInPhaseIff(every: nat, now: nat, offset: nat, startDate: Option<nat>)
    requires every >= 1
    ensures var s := EveryNext(None, every, now, offset, startDate);
      && s.next >= now && (startDate.Some? ==> s.next >= startDate.value)
      && (InPhase(s.next, every, s.offset) <==>
          startDate.None? || offset == 0 || InPhase(Max(startDate.value, now), every, offset))
  {
    var s := EveryNext(None, every, now, offset, startDate);
    OffsetIsPhase(s.next, every);
    AlignedSlot(every, now, offset);
    hide InPhase, SlotStart, AlignedAfter;
    if startDate.Some? { return; }
    if offset == 0 { return; }
  }

  /** It is later than now, at the offset, and for an offset below `every` the first such time. */
  lemma AlignedSlot(every: nat, now: nat, offset: nat)
    requires every >= 1
    ensures var aligned := AlignedAfter(now, every, offset);
      && aligned > now && InPhase(aligned, every, offset)
      && (offset < every ==> aligned <= now + every)
  {
    WholeSlots(now / every, every, offset);
    OneSlot(every, SlotStart(now, every) + offset);
  }

  // ---------------------------------------------------------------- the scheduler

  /** The scheduler's hash. */
  datatype Attributes = Attributes(every: Option<nat>, offset: Option<nat>, startDate: Option<nat>, ic: nat)

  /** Where an iteration's job is: the delayed or the prioritized set, the wait or the paused list,
      or anywhere else (active, completed, failed). */
  datatype Place = Delayed | Prioritized | Waiting | Paused | Elsewhere

  /** An iteration's job and its number. */
  datatype Iteration = Iteration(count: nat, place: Place)

  /** The score in the `repeat` set, the hash, the stored jobs by timestamp, and whether the queue
      is paused. */
  datatype State = State(score: Option<nat>, attributes: Option<Attributes>, jobs: map<nat, Iteration>, paused: bool)

  const NoScheduler: State := State(None, None, map[], false)

  /** What a caller asks for, with the priority of the jobs to be made. */
  datatype Schedule =
    Schedule(every: nat, offset: Option<nat>, startDate: Option<nat>, limit: Option<nat>, priority: nat)

  /** Where an upsert looks for the pending job: of the two lists only in the one in use. */
  predicate Findable(place: Place, paused: bool) {
    place.Delayed? || place.Prioritized? || (if paused then place.Paused? else place.Waiting?)
  }

  /** Where storeAndEnqueueJob puts a new job. */
  function PlaceOf(delay: nat, priority: nat, paused: bool): (place: Place)
    ensures Findable(place, paused)
  {
    if delay != 0 then Delayed
    else if priority > 0 then Prioritized
    else if paused then Paused
    else Waiting
  }

  function OrElse(a: Option<nat>, b: nat): nat {
    if a.Some? then a.value else b
  }

  datatype Answer = Scheduled(millis: nat, delay: nat) | SlotsBusy

  datatype Upsert = Upsert(s: State, answer: Answer)

  predicate ChangesEvery(s: State, o: Schedule) {
    s.score.Some? && (s.attributes.None? || s.attributes.value.every != Some(o.every))
  }

  /** The pending iteration, which the upsert replaces. */
  predicate Replaces(s: State) {
    s.score.Some? && s.score.value in s.jobs && Findable(s.jobs[s.score.value].place, s.paused)
  }

  function WithoutPending(s: State): map<nat, Iteration> {
    if Replaces(s) then s.jobs - {s.score.value} else s.jobs
  }

  function Fresh(s: State, o: Schedule, now: nat): Slot
    requires o.every >= 1
  {
    EveryNext(if ChangesEvery(s, o) then None else s.score, o.every, now, OrElse(o.offset, 0), o.startDate)
  }

  function FirstChoice(s: State, o: Schedule, now: nat): nat
    requires o.every >= 1
  {
    if Replaces(s) && !ChangesEvery(s, o) then s.score.value else Fresh(s, o, now).next
  }

  /** The offset storeJobScheduler writes. */
  function StoredOffset(s: State, o: Schedule, now: nat): Option<nat>
    requires o.every >= 1
  {
    if !Replaces(s) then Some(Fresh(s, o, now).offset)
    else if o.offset.Some? then o.offset
    else if s.attributes.Some? then s.attributes.value.offset
    else None
  }

  /** addJobScheduler with `every` */
  function Upserted(s: State, o: Schedule, count: nat, now: nat): Upsert
    requires o.every >= 1
  {
    var jobs := WithoutPending(s);
    var first := FirstChoice(s, o, now);
    if first in jobs && first + o.every in jobs then Upsert(s.(jobs := jobs), SlotsBusy)
    else
      var next := if first in jobs then first + o.every else first;
      var ic := if s.attributes.Some? then s.attributes.value.ic else 1;
      var delay := Max(next - now, 0);
      Upsert(State(Some(next), Some(Attributes(Some(o.every), StoredOffset(s, o, now), o.startDate, ic)),
                   jobs[next := Iteration(count, PlaceOf(delay, o.priority, s.paused))], s.paused),
             Scheduled(next, delay))
  }

  /** updateJobScheduler with `every`; `own` is what the finished job's options say. */
  function Updated(s: State, producer: nat, own: Schedule, count: nat, now: nat): State
    requires own.every >= 1
    requires s.attributes.Some? && s.attributes.value.every.Some? ==> s.attributes.value.every.value >= 1
  {
    if s.score.None? then s
    else
      var a := if s.attributes.Some? then s.attributes.value else Attributes(None, None, None, 0);
      var offset := if a.offset.Some? then a.offset.value else OrElse(own.offset, 0);
      var next := EveryNext(s.score, OrElse(a.every, own.every), now, offset, a.startDate).next;
      if producer != s.score.value || next in s.jobs then s
      else
        State(Some(next), Some(a.(ic := a.ic + 1)),
              s.jobs[next := Iteration(count, PlaceOf(Max(next - now, 0), own.priority, s.paused))], s.paused)
  }

  /** What an upsert promises: either one new pending iteration, not in the past unless it takes
      the place of the pending one, which is gone unless reused, while all other jobs stay; or the
      error, when the wanted slot and the one after it are taken. */
  lemma UpsertReplacesPending(s: State, o: Schedule, count: nat, now: nat)
    requires o.every >= 1
    ensures var u := Upserted(s, o, count, now);
      var kept := WithoutPending(s);
      match u.answer
      case SlotsBusy => FirstChoice(s, o, now) in kept && FirstChoice(s, o, now) + o.every in kept
      case Scheduled(millis, delay) =>
        && u.s.score == Some(millis) && millis !in kept
        && (exists place :: Findable(place, s.paused) && u.s.jobs == kept[millis := Iteration(count, place)])
        && (!Replaces(s) || ChangesEvery(s, o) ==> millis >= now && now + delay == millis)
        && (Replaces(s) && !ChangesEvery(s, o) ==> millis == s.score.value)
        && (Replaces(s) && millis != s.score.value ==> s.score.value !in u.s.jobs)
  {
    if s.score.Some? { NextSlot(s.score.value, o.every, now, OrElse(o.offset, 0), o.startDate); }
    FirstSlotInPhaseIff(o.every, now, OrElse(o.offset, 0), o.startDate);
  }

  /** The first slot of a new or changed schedule, from what the caller gives. */
  function FirstSlot(o: Schedule, now: nat): nat
    requires o.every >= 1
  {
    if o.startDate.Some? then Max(o.startDate.value, now)
    else if OrElse(o.offset, 0) > 0 then AlignedAfter(now, o.every, o.offset.value)
    else now
  }

  /** The slot after `prev`: one `every` later or, once that has passed, the first one after the current
      slot of `every`, at the offset. */
  predicate Follows(next: nat, prev: nat, every: nat, offset: nat, now: nat)
    requires every >= 1
  {
    if prev + every >= now then next == prev + every
    else now < next <= now + every + offset && InPhase(next, every, offset)
  }

  /** The slot an upsert wants: that of the pending iteration it replaces if `every` stays, the first
      one of a new or changed schedule, else the one that follows the last. */
  predicate Wants(s: State, o: Schedule, now: nat, slot: nat)
    requires o.every >= 1
  {
    if s.score.None? || ChangesEvery(s, o) then slot == FirstSlot(o, now)
    else if Replaces(s) then slot == s.score.value
    else Follows(slot, s.score.value, o.every, OrElse(o.offset, 0), now)
  }

  /** It takes that slot, or the next one if that is taken, or fails if both are. */
  lemma UpsertTakesSlot(s: State, o: Schedule, count: nat, now: nat) returns (slot: nat)
    requires o.every >= 1
    ensures var u := Upserted(s, o, count, now);
      var kept := WithoutPending(s);
      && Wants(s, o, now, slot)
      && (if slot !in kept then u.answer.Scheduled? && u.answer.millis == slot
          else if slot + o.every !in kept then u.answer.Scheduled? && u.answer.millis == slot + o.every
          else u.answer.SlotsBusy?)
  {
    hide AlignedAfter, PlaceOf, Findable;
    slot := FirstChoice(s, o, now);
    if s.score.Some? { NextSlot(s.score.value, o.every, now, OrElse(o.offset, 0), o.startDate); }
    hide SlotStart, InPhase;
  }

  /** A pending job that is not where an upsert looks for it stays, and has its slot kept. */
  lemma UpsertKeepsUnfound(s: State, o: Schedule, count: nat, now: nat)
    requires o.every >= 1 && s.score.Some? && s.score.value in s.jobs
    requires var place := s.jobs[s.score.value].place;
      place.Elsewhere? || (place.Waiting? && s.paused) || (place.Paused? && !s.paused)
    ensures var u := Upserted(s, o, count, now).s;
      s.score.value in u.jobs && u.jobs[s.score.value] == s.jobs[s.score.value]
  {
  }

  /** An iteration that is not due yet is delayed, whatever its priority; a due one is prioritized if
      it has a priority, else in the list in use. */
  predicate Filed(s: State, millis: nat, count: nat, priority: nat, now: nat) {
    && millis in s.jobs && s.jobs[millis].count == count
    && (s.jobs[millis].place == Delayed <==> millis > now)
    && (s.jobs[millis].place == Prioritized <==> millis <= now && priority > 0)
    && (s.jobs[millis].place == Paused <==> millis <= now && priority == 0 && s.paused)
    && (s.jobs[millis].place == Waiting <==> millis <= now && priority == 0 && !s.paused)
  }

  /** Where an upsert puts the iteration it makes, and what it writes down: the schedule as asked for,
      and the number of iterations as it was. */
  lemma UpsertFiles(s: State, o: Schedule, count: nat, now: nat)
    requires o.every >= 1 && Upserted(s, o, count, now).answer.Scheduled?
    ensures var u := Upserted(s, o, count, now);
      && Filed(u.s, u.answer.millis, count, o.priority, now)
      && u.answer.delay == (if u.answer.millis > now then u.answer.millis - now else 0)
      && u.s.attributes.Some? && u.s.attributes.value.every == Some(o.every)
      && u.s.attributes.value.startDate == o.startDate
      && u.s.attributes.value.ic == (if s.attributes.Some? then s.attributes.value.ic else 1)
      && u.s.paused == s.paused
  {
  }

  /** The same of a hook that makes one: it keeps the schedule and counts one iteration more. */
  lemma HookFiles(s: State, producer: nat, own: Schedule, count: nat, now: nat)
    requires own.every >= 1
    requires s.attributes.Some? && s.attributes.value.every.Some? ==> s.attributes.value.every.value >= 1
    requires Updated(s, producer, own, count, now) != s
    ensures var r := Updated(s, producer, own, count, now);
      && r.score.Some? && Filed(r, r.score.value, count, own.priority, now)
      && r.attributes.Some? && r.attributes.value.ic == (if s.attributes.Some? then s.attributes.value.ic else 0) + 1
      && (s.attributes.Some? ==> r.attributes.value == s.attributes.value.(ic := r.attributes.value.ic))
      && r.paused == s.paused
  {
  }

  /** The successor's slot follows its predecessor's in the schedule that is stored. */
  lemma HookTakesSlot(s: State, producer: nat, own: Schedule, count: nat, now: nat)
    requires own.every >= 1
    requires s.attributes.Some? && s.attributes.value.every.Some? ==> s.attributes.value.every.value >= 1
    requires Updated(s, producer, own, count, now) != s
    ensures var r := Updated(s, producer, own, count, now);
      var a := if s.attributes.Some? then s.attributes.value else Attributes(None, None, None, 0);
      var every := if a.every.Some? then a.every.value else own.every;
      var offset := if a.offset.Some? then a.offset.value else OrElse(own.offset, 0);
      && s.score == Some(producer) && r.score.Some? && r.score.value !in s.jobs
      && Follows(r.score.value, producer, every, offset, now)
      && r.jobs.Keys == s.jobs.Keys + {r.score.value} && (forall m :: m in s.jobs ==> r.jobs[m] == s.jobs[m])
  {
    var a := if s.attributes.Some? then s.attributes.value else Attributes(None, None, None, 0);
    var every := if a.every.Some? then a.every.value else own.every;
    var offset := if a.offset.Some? then a.offset.value else OrElse(own.offset, 0);
    NextSlot(s.score.value, every, now, offset, a.startDate);
    hide SlotStart, InPhase, PlaceOf;
  }

  /** A job other than the pending one has the slot. */
  predicate Taken(s: State, millis: nat) {
    millis in s.jobs && Some(millis) != s.score
  }

  /** The upsert removed the job the scheduler points at, and left it pointing there. */
  predicate Strands(s: State, o: Schedule, count: nat, now: nat)
    requires o.every >= 1
  {
    var r := Upserted(s, o, count, now).s;
    s.score.Some? && s.score.value in s.jobs && r.score == s.score && s.score.value !in r.jobs
  }

  /** An upsert strands the scheduler if and only if it finds the pending job, changes `every`, and
      the first slot of the new schedule and the one after it are taken by other jobs. It then
      answers the error. */
  lemma UpsertStrandsIff(s: State, o: Schedule, count: nat, now: nat)
    requires o.every >= 1
    ensures Strands(s, o, count, now) <==>
      && Replaces(s) && ChangesEvery(s, o)
      && Taken(s, FirstSlot(o, now)) && Taken(s, FirstSlot(o, now) + o.every)
    ensures Strands(s, o, count, now) ==> Upserted(s, o, count, now).answer.SlotsBusy?
  {
    hide AlignedAfter, PlaceOf, Findable;
    if ChangesEvery(s, o) { assert Fresh(s, o, now).next == FirstSlot(o, now); }
  }

  /** From then on the hooks of all other jobs change nothing, whatever the clock says. */
  lemma StrandedStays(s: State, o: Schedule, count: nat, now: nat, producer: nat, own: Schedule, n: nat, later: nat)
    requires o.every >= 1 && own.every >= 1 && Strands(s, o, count, now)
    requires s.attributes.Some? && s.attributes.value.every.Some? ==> s.attributes.value.every.value >= 1
    requires producer in Upserted(s, o, count, now).s.jobs
    ensures var r := Upserted(s, o, count, now).s;
      r.attributes == s.attributes && Updated(r, producer, own, n, later) == r
  {
    UpsertStrandsIff(s, o, count, now);
  }

  // ---------------------------------------------------------------- the scripts

  class JobScheduler {
    var score: Option<nat>
    var attributes: Option<Attributes>
    var jobs: map<nat, Iteration>
    var paused: bool

    constructor ()
      ensures Model() == NoScheduler
    {
      score, attributes, jobs, paused := None, None, map[], false;
    }

    function Model(): State
      reads this
    {
      State(score, attributes, jobs, paused)
    }

    /** removeJobFromScheduler for the pending iteration: delayed first, then prioritized, then the
        one list in use. */
    method RemovePending() returns (removed: bool)
      modifies this`jobs
      ensures removed == Replaces(old(Model()))
      ensures jobs == WithoutPending(old(Model()))
    {
      removed := false;
      if score.Some? && score.value in jobs {
        var place := jobs[score.value].place;
        if place == Delayed || place == Prioritized {
          removed := true;
        } else {
          var pausedOrWait := if paused then Paused else Waiting;
          removed := place == pausedOrWait;
        }
        if removed {
          jobs := jobs - {score.value};
        }
      }
    }

    /** addJobScheduler with `every` */
    method Add(o: Schedule, count: nat, now: nat) returns (answer: Answer)
      requires o.every >= 1
      modifies this
      ensures Upsert(Model(), answer) == Upserted(old(Model()), o, count, now)
    {
      var millis := score;
      var updatedEvery := false;
      if score.Some? {
        if attributes.None? || attributes.value.every != Some(o.every) {
          millis := None;
          updatedEvery := true;
        }
      }
      var slot := EveryNext(millis, o.every, now, OrElse(o.offset, 0), o.startDate);
      var nextMillis := slot.next;
      var offset := o.offset;
      var removed := RemovePending();
      if removed {
        if !updatedEvery {
          nextMillis := score.value;
        }
      } else {
        offset := Some(slot.offset);
      }
      if nextMillis in jobs {
        if nextMillis + o.every in jobs {
          return SlotsBusy;
        }
        nextMillis := nextMillis + o.every;
      }
      var delay := nextMillis - now;
      if delay < 0 {
        delay := 0;
      }
      Store(o, offset, nextMillis);
      jobs := jobs[nextMillis := Iteration(count, PlaceOf(delay, o.priority, paused))];
      answer := Scheduled(nextMillis, delay);
    }

    /** storeJobScheduler */
    method Store(o: Schedule, offset: Option<nat>, nextMillis: nat)
      modifies this`score, this`attributes
      ensures score == Some(nextMillis)
      ensures var was := old(attributes);
        attributes == Some(Attributes(Some(o.every),
                                      if offset.Some? then offset else if was.Some? then was.value.offset else None,
                                      o.startDate, if was.Some? then was.value.ic else 1))
    {
      score := Some(nextMillis);
      var kept := offset;
      var ic := 1;
      if attributes.Some? {
        if kept.None? { kept := attributes.value.offset; }
        ic := attributes.value.ic;
      }
      attributes := Some(Attributes(Some(o.every), kept, o.startDate, ic));
    }

    /** updateJobScheduler with `every` */
    method Update(producer: nat, own: Schedule, count: nat, now: nat)
      requires own.every >= 1
      requires attributes.Some? && attributes.value.every.Some? ==> attributes.value.every.value >= 1
      modifies this
      ensures Model() == Updated(old(Model()), producer, own, count, now)
    {
      if score.None? {
        return;
      }
      var a := Attributes(None, None, None, 0);
      if attributes.Some? {
        a := attributes.value;
      }
      var offset := OrElse(own.offset, 0);
      if a.offset.Some? {
        offset := a.offset.value;
      }
      var slot := EveryNext(score, OrElse(a.every, own.every), now, offset, a.startDate);
      if producer == score.value {
        if slot.next !in jobs {
          score := Some(slot.next);
          attributes := Some(a.(ic := a.ic + 1));
          var delay := slot.next - now;
          if delay < 0 {
            delay := 0;
          }
          jobs := jobs[slot.next := Iteration(count, PlaceOf(delay, own.priority, paused))];
        }
      }
    }
  }

  // ---------------------------------------------------------------- phase

  /** The scheduler's score agrees with its offset. */
  predicate Phased(s: State) {
    s.score.Some? && s.attributes.Some? ==>
      && s.attributes.value.every.Some? && s.attributes.value.every.value >= 1
      && s.attributes.value.offset.Some?
      && InPhase(s.score.value, s.attributes.value.every.value, s.attributes.value.offset.value)
  }

  /** The time from which a new or changed schedule without an offset starts. */
  function Earliest(o: Schedule, now: nat): nat {
    if o.startDate.Some? then Max(o.startDate.value, now) else now
  }

  /** When an upsert leaves the scheduler in phase, from the state before it and what the caller
      gives. */
  predicate KeepsPhase(s: State, o: Schedule, now: nat)
    requires o.every >= 1
  {
    if Replaces(s) && !ChangesEvery(s, o) then
      o.offset.Some? ==> InPhase(s.score.value, o.every, o.offset.value)
    else if Replaces(s) then
      if o.offset.Some? then
        (o.startDate.None? && o.offset.value > 0) || InPhase(Earliest(o, now), o.every, o.offset.value)
      else
        && s.attributes.Some? && s.attributes.value.offset.Some?
        && InPhase(Earliest(o, now), o.every, s.attributes.value.offset.value)
    else if s.score.Some? && !ChangesEvery(s, o) then
      OrElse(o.offset, 0) == 0 || s.score.value + o.every < now || InPhase(s.score.value, o.every, o.offset.value)
    else
      OrElse(o.offset, 0) == 0 || o.startDate.None? || InPhase(Max(o.startDate.value, now), o.every, o.offset.value)
  }

  /** Replacing the pending iteration under a new `every` keeps the old offset, so the phase
      survives exactly if the new first timestamp happens to fit it. */
  lemma UpsertKeepsPhaseIff(s: State, o: Schedule, count: nat, now: nat)
    requires o.every >= 1 && Phased(s) && Upserted(s, o, count, now).answer.Scheduled?
    ensures Phased(Upserted(s, o, count, now).s) <==> KeepsPhase(s, o, now)
  {
    var u := Upserted(s, o, count, now).s;
    var first := FirstChoice(s, o, now);
    OneSlot(o.every, first);
    assert u.score == Some(first) || u.score == Some(first + o.every);
    assert Phased(u) <==> StoredOffset(s, o, now).Some? && InPhase(first, o.every, StoredOffset(s, o, now).value);
    FirstSlotInPhaseIff(o.every, now, OrElse(o.offset, 0), o.startDate);
    AlignedSlot(o.every, now, OrElse(o.offset, 0));
    if s.score.Some? {
      NextSlot(s.score.value, o.every, now, OrElse(o.offset, 0), o.startDate);
      OneSlot(o.every, s.score.value);
    }
    hide InPhase, AlignedAfter;
  }

  // ---------------------------------------------------------------- chains

  datatype Made = Made(millis: nat, count: nat)

  /** A scheduler since its upsert, and the iterations made since then. */
  datatype Chain = Chain(s: State, made: seq<Made>)

  /** After an upsert: the finish hook of any iteration, any number of times; jobs starting,
      being retried or being removed; and the removal of the scheduler. */
  datatype Event =
    | Hook(i: nat, now: nat)
    | Moved(millis: nat, place: Place)
    | SetPaused(paused: bool)
    | Dropped(millis: nat)
    | Unscheduled

  /** schedule_next_repeatable_job: the iteration's number travels in its options. */
  function RunHook(c: Chain, o: Schedule, m: Made, now: nat): State
    requires o.every >= 1
    requires c.s.attributes.Some? && c.s.attributes.value.every.Some? ==> c.s.attributes.value.every.value >= 1
  {
    if c.s.attributes.None? || (o.limit.Some? && m.count + 1 > o.limit.value) then c.s
    else Updated(c.s, m.millis, o, m.count + 1, now)
  }

  function After(c: Chain, o: Schedule, e: Event): Chain
    requires o.every >= 1
    requires c.s.attributes.Some? && c.s.attributes.value.every.Some? ==> c.s.attributes.value.every.value >= 1
  {
    match e
    case Hook(i, now) =>
      if i >= |c.made| then c
      else
        var r := RunHook(c, o, c.made[i], now);
        Chain(r, if r == c.s then c.made else c.made + [Made(r.score.value, c.made[i].count + 1)])
    case Moved(m, place) =>
      if m in c.s.jobs then c.(s := c.s.(jobs := c.s.jobs[m := c.s.jobs[m].(place := place)])) else c
    case SetPaused(b) => c.(s := c.s.(paused := b))
    case Dropped(m) => c.(s := c.s.(jobs := c.s.jobs - {m}))
    case Unscheduled => c.(s := c.s.(score := None, attributes := None))
  }

  /** The iterations of the chain are numbered through and strictly later one after the other, at
      most up to the limit, and the scheduler points at the last one. */
  predicate Linked(c: Chain, o: Schedule, first: nat) {
    && o.every >= 1 && c.made != []
    && (forall i :: 0 <= i < |c.made| ==> c.made[i].count == first + i)
    && (forall i :: 0 < i < |c.made| ==> c.made[i - 1].millis < c.made[i].millis)
    && (o.limit.Some? ==> first + |c.made| - 1 <= o.limit.value)
    && (c.s.attributes.Some? ==> c.s.attributes.value.every == Some(o.every))
    && (c.s.score.Some? ==> c.s.score.value == c.made[|c.made| - 1].millis)
    && (c.s.attributes.None? ==> c.s.score.None?)
  }

  /** All iterations of the chain are congruent to the offset the scheduler stores. */
  predicate InStep(c: Chain, o: Schedule)
    requires o.every >= 1
  {
    c.s.attributes.Some? ==>
      && c.s.attributes.value.offset.Some?
      && (forall i :: 0 <= i < |c.made| ==> InPhase(c.made[i].millis, o.every, c.s.attributes.value.offset.value))
  }

  /** Every upsert within the limit that makes an iteration starts a chain, in step if and only if
      it leaves the scheduler in phase. */
  lemma UpsertStartsChain(s: State, o: Schedule, count: nat, now: nat)
    requires o.every >= 1 && Upserted(s, o, count, now).answer.Scheduled?
    requires o.limit.Some? ==> count <= o.limit.value
    ensures var u := Upserted(s, o, count, now);
      var c := Chain(u.s, [Made(u.answer.millis, count)]);
      Linked(c, o, count) && (Phased(s) ==> (InStep(c, o) <==> KeepsPhase(s, o, now)))
  {
    hide KeepsPhase, InPhase, FirstChoice, StoredOffset;
    if Phased(s) { UpsertKeepsPhaseIff(s, o, count, now); }
    assert [Made(Upserted(s, o, count, now).answer.millis, count)][0] ==
        Made(Upserted(s, o, count, now).answer.millis, count);
  }

  /** A hook makes an iteration only for the last one made, only within the limit, and not in the
      past. */
  lemma HookMakesSuccessor(c: Chain, o: Schedule, first: nat, i: nat, now: nat)
    requires Linked(c, o, first) && i < |c.made|
    ensures var n := After(c, o, Hook(i, now));
      && Linked(n, o, first) && (InStep(c, o) ==> InStep(n, o))
      && (n.made == c.made || |n.made| == |c.made| + 1)
      && (n.made != c.made ==> i == |c.made| - 1 && n.made[|c.made|].millis >= now && c.made < n.made)
  {
    hide InPhase, EveryNext, PlaceOf;
    var last := c.made[|c.made| - 1].millis;
    if c.s.attributes.None? { return; }
    if o.limit.Some? && c.made[i].count + 1 > o.limit.value { return; }
    var a := c.s.attributes.value;
    if c.s.score.None? { return; }
    var offset := if a.offset.Some? then a.offset.value else OrElse(o.offset, 0);
    NextSlot(last, o.every, now, offset, a.startDate);
    if i < |c.made| - 1 { Rising(c.made, i, |c.made| - 1); }
  }

  lemma {:induction false} Rising(made: seq<Made>, i: nat, j: nat)
    requires i < j < |made| && forall k :: 0 < k < |made| ==> made[k - 1].millis < made[k].millis
    ensures made[i].millis < made[j].millis
  {
    if i < j - 1 { Rising(made, i, j - 1); }
  }

  lemma EventKeepsLinked(c: Chain, o: Schedule, first: nat, e: Event)
    requires Linked(c, o, first)
    ensures Linked(After(c, o, e), o, first) && c.made <= After(c, o, e).made
    ensures InStep(c, o) ==> InStep(After(c, o, e), o)
  {
    hide InPhase, Updated;
    match e {
      case Hook(i, now) => if i < |c.made| { HookMakesSuccessor(c, o, first, i, now); } return;
      case Moved(_, _) => return;
      case SetPaused(_) => return;
      case Dropped(_) => return;
      case Unscheduled => return;
    }
  }

  ghost predicate Reaches(c: Chain, o: Schedule, first: nat, events: seq<Event>, r: Chain)
    requires Linked(c, o, first)
    decreases |events|
  {
    if events == [] then r == c
    else
      EventKeepsLinked(c, o, first, events[0]);
      Reaches(After(c, o, events[0]), o, first, events[1..], r)
  }

  /** Main result: whatever hooks run, in whatever order and however often, the chain that any
      upsert starts stays numbered and strictly increasing, and it has at most `limit` iterations;
      each iteration has at most one successor, the next entry; and a chain in step stays so. */
  lemma {:induction false} ChainStaysLinked(c: Chain, o: Schedule, first: nat, events: seq<Event>, r: Chain)
    requires Linked(c, o, first) && Reaches(c, o, first, events, r)
    ensures Linked(r, o, first) && c.made <= r.made
    ensures o.limit.Some? && first >= 1 ==> |r.made| <= o.limit.value
    ensures InStep(c, o) ==> InStep(r, o)
    decreases |events|
  {
    hide After, InStep;
    if events != [] {
      EventKeepsLinked(c, o, first, events[0]);
      ChainStaysLinked(After(c, o, events[0]), o, first, events[1..], r);
    }
  }

  /** A second run of the same hook changes nothing, whatever the clock says. */
  lemma HookIsIdempotent(c: Chain, o: Schedule, first: nat, i: nat, now: nat, later: nat)
    requires Linked(c, o, first) && i < |c.made|
    requires After(c, o, Hook(i, now)).made != c.made
    ensures var once := After(c, o, Hook(i, now)); After(once, o, Hook(i, later)) == once
  {
    HookMakesSuccessor(c, o, first, i, now);
    var once := After(c, o, Hook(i, now));
    HookMakesSuccessor(once, o, first, i, later);
    var again := RunHook(once, o, once.made[i], later);
    assert once.made[i] == c.made[i];
  }

  // ---------------------------------------------------------------- a run that strands a scheduler

  /** Upserts, hooks of finished jobs and moves of jobs on one scheduler. */
  datatype Act =
    | UpsertAt(o: Schedule, now: nat)
    | HookOf(producer: nat, own: Schedule, count: nat, now: nat)
    | MoveTo(millis: nat, place: Place)

  predicate Ready(s: State, a: Act) {
    && (a.UpsertAt? ==> a.o.every >= 1)
    && (a.HookOf? ==> a.own.every >= 1 && a.producer in s.jobs)
    && (s.attributes.Some? && s.attributes.value.every.Some? ==> s.attributes.value.every.value >= 1)
    && (a.MoveTo? ==> a.millis in s.jobs)
  }

  function Perform(s: State, a: Act): State
    requires Ready(s, a)
  {
    match a
    case UpsertAt(o, now) => Upserted(s, o, 1, now).s
    case HookOf(producer, own, count, now) => Updated(s, producer, own, count, now)
    case MoveTo(m, place) => s.(jobs := s.jobs[m := s.jobs[m].(place := place)])
  }

  ghost predicate Performs(states: seq<State>, acts: seq<Act>) {
    && |states| == |acts| + 1
    && forall i :: 0 <= i < |acts| ==> Ready(states[i], acts[i]) && states[i + 1] == Perform(states[i], acts[i])
  }

  const FIVE: Schedule := Schedule(5, None, None, None, 0)
  const TEN: Schedule := Schedule(10, None, Some(100), None, 0)

  /** A scheduler is made with `every` 5, its first job runs, finishes and makes the second, which
      is promoted and runs; the schedule is changed to every 10 from 100 on, and back. */
  const STRANDING: seq<Act> :=
    [UpsertAt(FIVE, 50), MoveTo(50, Elsewhere), HookOf(50, FIVE, 2, 50), MoveTo(55, Waiting), MoveTo(55, Elsewhere),
     UpsertAt(TEN, 50), UpsertAt(FIVE, 50)]

  const DONE: Iteration := Iteration(1, Elsewhere)
  const RUNNING: Iteration := Iteration(2, Elsewhere)

  function Every(n: nat, startDate: Option<nat>, ic: nat): Option<Attributes> {
    Some(Attributes(Some(n), Some(0), startDate, ic))
  }

  /** The states of that run. */
  const STRANDED: seq<State> :=
    [NoScheduler,
     State(Some(50), Every(5, None, 1), map[50 := Iteration(1, Waiting)], false),
     State(Some(50), Every(5, None, 1), map[50 := DONE], false),
     State(Some(55), Every(5, None, 2), map[50 := DONE, 55 := Iteration(2, Delayed)], false),
     State(Some(55), Every(5, None, 2), map[50 := DONE, 55 := Iteration(2, Waiting)], false),
     State(Some(55), Every(5, None, 2), map[50 := DONE, 55 := RUNNING], false),
     State(Some(100), Every(10, Some(100), 2), map[50 := DONE, 55 := RUNNING, 100 := Iteration(1, Delayed)], false),
     State(Some(100), Every(10, Some(100), 2), map[50 := DONE, 55 := RUNNING], false)]

  predicate LeadsTo(i: nat)
    requires i < 7
  {
    Ready(STRANDED[i], STRANDING[i]) && STRANDED[i + 1] == Perform(STRANDED[i], STRANDING[i])
  }

  lemma EarlyActs()
    ensures LeadsTo(0) && LeadsTo(1) && LeadsTo(2)
  {
  }

  lemma MiddleActs()
    ensures LeadsTo(3) && LeadsTo(4) && LeadsTo(5)
  {
  }

  lemma LastAct()
    ensures LeadsTo(6) && Strands(STRANDED[6], FIVE, 1, 50)
  {
    assert STRANDED[7].jobs == STRANDED[6].jobs - {100};
  }

  /** The run is one, and its last act strands the scheduler. */
  lemma BusyCanStrandScheduler()
    ensures Performs(STRANDED, STRANDING)
    ensures STRANDED[0] == NoScheduler && Strands(STRANDED[6], FIVE, 1, 50)
  {
    hide Perform, Ready, Strands;
    EarlyActs();
    MiddleActs();
    LastAct();
    forall i | 0 <= i < |STRANDING|
      ensures Ready(STRANDED[i], STRANDING[i]) && STRANDED[i + 1] == Perform(STRANDED[i], STRANDING[i])
    {
      assert i == 0 || i == 1 || i == 2 || i == 3 || i == 4 || i == 5 || i == 6;
      assert LeadsTo(i);
    }
  }
}

/** What promoting delayed jobs does: exactly the first due jobs, at most a thousand, leave the
    delayed set in score order, the standard ones for the waiting list, where they end up served
    after what was waiting and in score order, the others for the prioritized set with
    consecutive tickets in score order. */
module Promotion {
  import opened Redis
  import opened Scores
  import opened Queue

  /** The members of `ids` without a priority, in order. */
  function Standard(q: Queue, ids: seq<JobId>): seq<JobId> {
    if ids == [] then []
    else
      var id := ids[|ids| - 1];
      Standard(q, ids[..|ids| - 1]) + (if HashOf(q, id).priority == 0 then [id] else [])
  }

  /** The others, in order. */
  function Urgent(q: Queue, ids: seq<JobId>): seq<JobId> {
    if ids == [] then []
    else
      var id := ids[|ids| - 1];
      Urgent(q, ids[..|ids| - 1]) + (if HashOf(q, id).priority == 0 then [] else [id])
  }

  predicate Distinct(ids: seq<JobId>) {
    forall i, j :: 0 <= i < j < |ids| ==> ids[i] != ids[j]
  }

  lemma {:induction false} Sorted(q: Queue, ids: seq<JobId>, x: JobId)
    ensures x in Standard(q, ids) <==> x in ids && HashOf(q, x).priority == 0
    ensures x in Urgent(q, ids) <==> x in ids && HashOf(q, x).priority > 0
  {
    if ids != [] {
      Sorted(q, ids[..|ids| - 1], x);
      assert ids == ids[..|ids| - 1] + [ids[|ids| - 1]];
    }
  }

  lemma {:induction false} PromoteEachHashes(q: Queue, ids: seq<JobId>, x: JobId)
    ensures HashOf(PromoteEach(q, ids), x) == if x in ids then HashOf(q, x).(delay := 0) else HashOf(q, x)
  {
    hide Zadd;
    if ids != [] {
      var init, id := ids[..|ids| - 1], ids[|ids| - 1];
      assert ids == init + [id];
      PromoteEachHashes(q, init, x);
      PromoteEachHashes(q, init, id);
      if HashOf(PromoteEach(q, init), id).priority == 0 { return; }
    }
  }

  lemma {:induction false} PromoteEachLists(q: Queue, ids: seq<JobId>)
    ensures var r := PromoteEach(q, ids);
      && r.at.wait == Reverse(Standard(q, ids)) + q.at.wait
      && r.pc == q.pc + |Urgent(q, ids)|
      && r.at.delayed == q.at.delayed && r.at.paused == q.at.paused && r.at.active == q.at.active
      && r.isPaused == q.isPaused
  {
    hide Zadd, PriorityScore;
    if ids == [] {
      assert Reverse<JobId>([]) + q.at.wait == q.at.wait;
    } else {
      var init, id := ids[..|ids| - 1], ids[|ids| - 1];
      PromoteEachLists(q, init);
      PromoteEachHashes(q, init, id);
      ReverseConcat(Standard(q, init), [id]);
      assert Reverse([id]) == [id];
      if HashOf(q, id).priority == 0 {
        assert Reverse(Standard(q, ids)) + q.at.wait == [id] + (Reverse(Standard(q, init)) + q.at.wait);
        return;
      }
      assert Standard(q, ids) == Standard(q, init);
    }
  }

  /** The entry the k-th prioritized job gets. */
  function TicketEntry(q: Queue, ids: seq<JobId>, k: nat): Entry
    requires k < |Urgent(q, ids)|
  {
    var id := Urgent(q, ids)[k];
    Entry(PriorityScore(HashOf(q, id).priority, q.pc + 1 + k), id)
  }

  predicate IsTicket(q: Queue, ids: seq<JobId>, e: Entry) {
    exists k :: 0 <= k < |Urgent(q, ids)| && TicketEntry(q, ids, k) == e
  }

  lemma TicketsGrow(q: Queue, ids: seq<JobId>, e: Entry)
    requires ids != []
    ensures var init, id := ids[..|ids| - 1], ids[|ids| - 1];
      IsTicket(q, ids, e) <==>
        (IsTicket(q, init, e)
         || (HashOf(q, id).priority > 0
           && e == Entry(PriorityScore(HashOf(q, id).priority, q.pc + 1 + |Urgent(q, init)|), id)))
  {
    hide PriorityScore;
    var init, id := ids[..|ids| - 1], ids[|ids| - 1];
    var n := |Urgent(q, init)|;
    if IsTicket(q, ids, e) {
      var k :| 0 <= k < |Urgent(q, ids)| && TicketEntry(q, ids, k) == e;
      if k < n { assert TicketEntry(q, init, k) == e; }
    }
    if IsTicket(q, init, e) {
      var k :| 0 <= k < n && TicketEntry(q, init, k) == e;
      assert TicketEntry(q, ids, k) == e;
    }
    if HashOf(q, id).priority > 0 {
      assert TicketEntry(q, ids, n) == Entry(PriorityScore(HashOf(q, id).priority, q.pc + 1 + n), id);
    }
  }

  lemma TicketMember(q: Queue, ids: seq<JobId>, e: Entry)
    requires IsTicket(q, ids, e)
    ensures e.member in ids
  {
    var k :| 0 <= k < |Urgent(q, ids)| && TicketEntry(q, ids, k) == e;
    Sorted(q, ids, e.member);
    assert Urgent(q, ids)[k] in Urgent(q, ids);
  }

  lemma PromoteOneEntries(q: Queue, id: JobId, e: Entry)
    ensures var p := HashOf(q, id).priority;
      e in PromoteOne(q, id).at.prioritized <==>
        if p == 0 then e in q.at.prioritized
        else (e in q.at.prioritized && e.member != id) || e == Entry(PriorityScore(p, q.pc + 1), id)
  {
    hide PriorityScore, Zadd;
    var p := HashOf(q, id).priority;
    if p == 0 { return; }
    ZaddEntries(q.at.prioritized, PriorityScore(p, q.pc + 1), id, e);
  }

  lemma {:induction false} PromoteEachEntries(q: Queue, ids: seq<JobId>, e: Entry)
    requires Distinct(ids)
    ensures e in PromoteEach(q, ids).at.prioritized <==>
      ((e in q.at.prioritized && e.member !in Urgent(q, ids)) || IsTicket(q, ids, e))
  {
    hide PriorityScore, Zadd, IsTicket, PromoteOne, HashOf;
    if ids == [] {
      NoTicket(q, e);
    } else {
      var init, id := ids[..|ids| - 1], ids[|ids| - 1];
      PromoteEachEntries(q, init, e);
      PromoteEachHashes(q, init, id);
      PromoteEachLists(q, init);
      TicketsGrow(q, ids, e);
      PromoteOneEntries(PromoteEach(q, init), id, e);
      if HashOf(q, id).priority == 0 {
        assert Urgent(q, ids) == Urgent(q, init);
        return;
      }
      if IsTicket(q, init, e) {
        TicketMember(q, init, e);
        assert e.member != id;
      }
    }
  }

  lemma NoTicket(q: Queue, e: Entry)
    ensures !IsTicket(q, [], e)
  {
  }

  lemma DueIdsDistinct(z: Zset, n: nat)
    requires n <= |z| && forall i, j :: 0 <= i < j < |z| ==> z[i].member != z[j].member
    ensures Distinct(Members(z[..n]))
  {
    var ids := Members(z[..n]);
    forall i, j | 0 <= i < j < |ids| ensures ids[i] != ids[j] {
      MembersAt(z[..n], i);
      MembersAt(z[..n], j);
    }
  }

  /** Main result. */
  lemma PromotesFirstDueInOrder(q: Queue, now: nat, e: Entry)
    requires Ranked(q.at.delayed)
    requires forall i, j :: 0 <= i < j < |q.at.delayed| ==> q.at.delayed[i].member != q.at.delayed[j].member
    ensures var r := PromoteDelayed(q, now);
      var n := |q.at.delayed| - |r.at.delayed|;
      && n >= 0 && r.at.delayed == q.at.delayed[n..]
      && (forall i :: 0 <= i < |q.at.delayed| ==>
        (i < n <==> i < PROMOTE_LIMIT && q.at.delayed[i].score / SLOTS <= now))
      && (var ids := Members(q.at.delayed[..n]);
          && r.at.wait == Reverse(Standard(q, ids)) + q.at.wait
          && (e in r.at.prioritized <==> (e in q.at.prioritized && e.member !in Urgent(q, ids)) || IsTicket(q, ids, e))
          && r.pc == q.pc + |Urgent(q, ids)|
          && (forall x :: HashOf(r, x) == if x in ids then HashOf(q, x).(delay := 0) else HashOf(q, x)))
      && r.at.paused == q.at.paused && r.at.active == q.at.active
  {
    hide PromoteEach, Standard, Urgent, IsTicket, Ranked, DueCount, Members, Reverse;
    var n := DueCount(q, now);
    DueExactly(q, now);
    var d := q.(at := q.at.(delayed := q.at.delayed[n..]));
    var ids := Members(q.at.delayed[..n]);
    DueIdsDistinct(q.at.delayed, n);
    SameHashes(q, d, ids, e);
    if n == 0 {
      assert q.at.delayed[0..] == q.at.delayed;
      NothingDue(q, e);
      return;
    }
    PromoteEachLists(d, ids);
    PromoteEachEntries(d, ids, e);
    forall x ensures HashOf(PromoteEach(d, ids), x) == if x in ids then HashOf(q, x).(delay := 0) else HashOf(q, x) {
      PromoteEachHashes(d, ids, x);
    }
  }

  lemma DueExactly(q: Queue, now: nat)
    requires Ranked(q.at.delayed)
    ensures forall i :: 0 <= i < |q.at.delayed| ==>
      (i < DueCount(q, now) <==> i < PROMOTE_LIMIT && q.at.delayed[i].score / SLOTS <= now)
  {
    CountUpToComplete(q.at.delayed, DueScore(now));
  }

  lemma NothingDue(q: Queue, e: Entry)
    ensures Standard(q, []) == [] && Urgent(q, []) == [] && !IsTicket(q, [], e)
    ensures Reverse(Standard(q, [])) + q.at.wait == q.at.wait
  {
  }

  lemma {:induction false} SameHashes(q: Queue, d: Queue, ids: seq<JobId>, e: Entry)
    requires d.jobs == q.jobs && d.pc == q.pc
    ensures Standard(d, ids) == Standard(q, ids) && Urgent(d, ids) == Urgent(q, ids)
    ensures IsTicket(d, ids, e) <==> IsTicket(q, ids, e)
  {
    hide PriorityScore, IsTicket;
    if ids == [] {
      NoTicket(q, e); NoTicket(d, e);
    } else {
      SameHashes(q, d, ids[..|ids| - 1], e);
      TicketsGrow(q, ids, e);
      TicketsGrow(d, ids, e);
    }
  }
}

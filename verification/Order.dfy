/** The order of service, over every run. A desk keeps one line of standard jobs and gives every
    prioritized job a turn: its priority and the ticket it last drew. The lists and the scored set
    refine the desk, and a claim takes the job the desk would serve, as long as the priority
    counter crosses no multiple of 2^32. */
module Order {
  import opened Redis
  import opened Scores
  import opened Limiter
  import opened Queue
  import opened Machine
  import opened Fencing
  import Promotion
  import Fifo
  import Partition

  // ---------------------------------------------------------------- the reference

  /** Ticket 0 is that of a job pushed back to the front of its priority. */
  datatype Turn = Turn(priority: nat, ticket: nat)

  /** The standard jobs in order of service, those that fell due while the desk was closed, the
      turns of the prioritized jobs, and the tickets drawn so far. */
  datatype Desk = Desk(line: seq<JobId>, early: seq<JobId>, turns: map<JobId, Turn>, closed: bool, drawn: nat)

  datatype Move =
    | Last(ids: seq<JobId>)
    | Next(id: JobId)
    | Due(id: JobId)
    | Draw(id: JobId, priority: nat)
    | Back(id: JobId, priority: nat)
    | Strike(id: JobId, priority: nat)
    | Leave(id: JobId)
    | Close
    | Open

  /** Jobs that fell due while the desk was closed are served first when it opens, and last when it
      is closed once more. */
  function Make(d: Desk, m: Move): Desk {
    match m
    case Last(ids) => d.(line := d.line + ids)
    case Next(id) => d.(line := [id] + d.line)
    case Due(id) => if d.closed then d.(early := d.early + [id]) else d.(line := d.line + [id])
    case Draw(id, priority) => d.(turns := d.turns[id := Turn(priority, d.drawn + 1)], drawn := d.drawn + 1)
    case Back(id, priority) => d.(turns := d.turns[id := Turn(priority, 0)])
    case Strike(id, priority) =>
      if priority > 0 then d.(turns := d.turns - {id})
      else if id in d.early then d.(early := RemoveAll(d.early, id))
      else d.(line := RemoveAll(d.line, id))
    case Leave(id) => if d.line != [] then d.(line := d.line[1..]) else d.(turns := d.turns - {id})
    case Close => d.(line := d.line + d.early, early := [], closed := true)
    case Open => d.(line := d.early + d.line, early := [], closed := false)
  }

  function MakeAll(d: Desk, moves: seq<Move>): Desk {
    if moves == [] then d else Make(MakeAll(d, moves[..|moves| - 1]), moves[|moves| - 1])
  }

  /** Lower priorities first, then lower tickets; only jobs pushed back share a ticket, and rank by id. */
  predicate Ahead(a: Turn, x: JobId, b: Turn, y: JobId) {
    a.priority < b.priority
    || (a.priority == b.priority && (a.ticket < b.ticket || (a.ticket == b.ticket && x < y)))
  }

  predicate IsFirst(turns: map<JobId, Turn>, id: JobId) {
    id in turns && forall x :: x in turns && x != id ==> Ahead(turns[id], id, turns[x], x)
  }

  predicate Serves(d: Desk, id: JobId) {
    !d.closed && if d.line != [] then id == d.line[0] else IsFirst(d.turns, id)
  }

  predicate HasNobody(d: Desk) {
    d.line == [] && d.turns.Keys == {}
  }

  lemma ServesOnlyOne(d: Desk, x: JobId, y: JobId)
    requires Serves(d, x) && Serves(d, y)
    ensures x == y && !HasNobody(d)
  {
  }

  // ---------------------------------------------------------------- what a step means for the desk

  /** A requeued job is next in line, or draws a ticket. */
  function Join(id: JobId, priority: nat): Move {
    if priority > 0 then Draw(id, priority) else Next(id)
  }

  function DueMoves(q: Queue, ids: seq<JobId>): seq<Move> {
    if ids == [] then []
    else
      var id := ids[|ids| - 1];
      var priority := HashOf(q, id).priority;
      DueMoves(q, ids[..|ids| - 1]) + [if priority == 0 then Due(id) else Draw(id, priority)]
  }

  function Promotions(q: Queue, now: nat): seq<Move> {
    DueMoves(q, Members(q.at.delayed[..DueCount(q, now)]))
  }

  function SweepMoves(q: Queue, ids: seq<JobId>, maxStalled: nat, now: nat): seq<Move> {
    if ids == [] then []
    else
      var init, id := ids[..|ids| - 1], ids[|ids| - 1];
      var p := SweepEach(q, init, maxStalled, now);
      SweepMoves(q, init, maxStalled, now)
      + (if id in p.jobs && p.jobs[id].stc < maxStalled then [Join(id, p.jobs[id].priority)] else [])
  }

  predicate Releases(q: Queue, parent: JobId, child: JobKey) {
    PendingChildren(q, parent) == {child} && parent in q.jobs && Has(q.at.waitingChildren, parent)
  }

  function ExitMoves(q: Queue, s: Step): seq<Move>
    requires IsExit(s)
  {
    if Guard(q, s.id, s.token) != OK then []
    else match s
      case Retry(id, _, right, _, priority) => [if priority == 0 && !right then Last([id]) else Join(id, priority)]
      case Return(id, _) =>
        if id !in q.at.active then []
        else if HashOf(q, id).priority > 0 then [Back(id, HashOf(q, id).priority)]
        else [Next(id)]
      case _ => []
  }

  function Moves(q: Queue, s: Step): seq<Move> {
    match s
    case AddStandard(id, opts, _, _) => if IsNew(q, id, opts) then [Last([id])] else []
    case AddPrioritized(id, opts, _, _) => if IsNew(q, id, opts) then [Draw(id, opts.priority)] else []
    case Fetch(_, now, _, _) =>
      Promotions(q, now) + (if Fetching(q, s).Claimed? then [Leave(Fetching(q, s).id)] else [])
    case Release(parent, child, _, _) =>
      if Releases(q, parent, child) && HashOf(q, parent).delay <= 0
      then [Join(parent, HashOf(q, parent).priority)] else []
    case Finish(_, _, _, _, _) => ExitMoves(q, s)
    case Delay(_, _, _, _, _) => ExitMoves(q, s)
    case Retry(_, _, _, _, _) => ExitMoves(q, s)
    case Return(_, _) => ExitMoves(q, s)
    case Sweep(order, maxStalled, now) => SweepMoves(Scanned(q), order, maxStalled, now)
    case Pause => [Close]
    case Resume => [Open]
    case Reprioritize(id, priority) =>
      if id !in q.jobs || (priority == 0 && q.jobs[id].priority == 0) then []
      else [Strike(id, q.jobs[id].priority), Join(id, priority)]
    case PromoteNow(id) => if Has(q.at.delayed, id) then [Join(id, HashOf(q, id).priority)] else []
    case MoveJobs(from, count, upTo) =>
      [Last(Members(SourceSet(q, from)[..Min(Matching(SourceSet(q, from), upTo), count)]))]
    case _ => []
  }

  function DeskFor(start: Queue): Desk {
    Desk([], [], map[], start.isPaused, start.pc)
  }

  /** The desk next to the run: it makes the moves of every step. */
  function Attend(start: Queue, steps: seq<Step>): Desk {
    if steps == [] then DeskFor(start)
    else
      var init := steps[..|steps| - 1];
      MakeAll(Attend(start, init), Moves(Run(start, init), steps[|steps| - 1]))
  }

  // ---------------------------------------------------------------- the keys and the desk

  /** The keys that decide who is next. */
  datatype Lines = Lines(wait: seq<JobId>, paused: seq<JobId>, prioritized: Zset, isPaused: bool, pc: nat)

  function LinesOf(q: Queue): Lines {
    Lines(q.at.wait, q.at.paused, q.at.prioritized, q.isPaused, q.pc)
  }

  /** The commands behind each move. */
  function Moved(l: Lines, m: Move): Lines {
    match m
    case Last(ids) => if l.isPaused then l.(paused := Reverse(ids) + l.paused) else l.(wait := Reverse(ids) + l.wait)
    case Next(id) => if l.isPaused then l.(paused := l.paused + [id]) else l.(wait := l.wait + [id])
    case Due(id) => l.(wait := [id] + l.wait)
    case Draw(id, priority) =>
      l.(pc := l.pc + 1, prioritized := Zadd(l.prioritized, PriorityScore(priority, l.pc + 1), id))
    case Back(id, priority) => l.(prioritized := Zadd(l.prioritized, PushBackScore(priority), id))
    case Strike(id, priority) =>
      if priority > 0 then l.(prioritized := Zrem(l.prioritized, id))
      else if id in l.wait || !l.isPaused then l.(wait := RemoveAll(l.wait, id))
      else l.(wait := RemoveAll(l.wait, id), paused := RemoveAll(l.paused, id))
    case Leave(_) =>
      if l.wait != [] then l.(wait := l.wait[..|l.wait| - 1])
      else if l.prioritized != [] then l.(prioritized := l.prioritized[1..])
      else l
    case Close => l.(isPaused := true, paused := l.wait + l.paused, wait := [])
    case Open => l.(isPaused := false, wait := l.paused + l.wait, paused := [])
  }

  function MovedAll(l: Lines, moves: seq<Move>): Lines {
    if moves == [] then l else Moved(MovedAll(l, moves[..|moves| - 1]), moves[|moves| - 1])
  }

  function EntryOf(id: JobId, t: Turn): Entry {
    Entry(PriorityScore(t.priority, t.ticket), id)
  }

  predicate Scored(z: Zset, turns: map<JobId, Turn>) {
    && Ranked(z)
    && (forall k :: 0 <= k < |z| ==> z[k].member in turns && z[k] == EntryOf(z[k].member, turns[z[k].member]))
    && (forall id :: id in turns ==> EntryOf(id, turns[id]) in z)
  }

  /** The keys show what the desk says, the next job at the right end. */
  predicate Shows(l: Lines, d: Desk) {
    && d.closed == l.isPaused && d.drawn == l.pc
    && d.line == Reverse(if l.isPaused then l.paused else l.wait)
    && d.early == (if l.isPaused then Reverse(l.wait) else [])
    && (!l.isPaused ==> l.paused == [])
    && Scored(l.prioritized, d.turns)
  }

  // ---------------------------------------------------------------- every move, on keys and desk

  /** Lists: every move but those on the scored set. */
  lemma ListMoveShows(l: Lines, d: Desk, m: Move)
    requires Shows(l, d) && (m.Last? || m.Next? || m.Due? || m.Close? || m.Open?)
    ensures Shows(Moved(l, m), Make(d, m))
  {
    hide Scored;
    match m {
      case Last(ids) =>
        ReverseInvolutes(ids);
        ReverseConcat(Reverse(ids), if l.isPaused then l.paused else l.wait);
        return;
      case Next(id) => ReverseLast(if l.isPaused then l.paused else l.wait, id); return;
      case Due(id) =>
        ReverseConcat([id], l.wait);
        assert Reverse([id]) == [id];
        return;
      case Close => ReverseConcat(l.wait, l.paused); assert l.wait + [] == l.wait; assert d.line + [] == d.line; return;
      case Open => ReverseConcat(l.paused, l.wait); assert [] + l.wait == l.wait; assert [] + d.line == d.line; return;
    }
  }

  lemma ZaddScored(z: Zset, turns: map<JobId, Turn>, id: JobId, t: Turn)
    requires Scored(z, turns)
    ensures Scored(Zadd(z, PriorityScore(t.priority, t.ticket), id), turns[id := t])
  {
    hide Before, PriorityScore, Zadd, Ranked;
    var score := PriorityScore(t.priority, t.ticket);
    var r, next := Zadd(z, score, id), turns[id := t];
    ZaddRanked(z, score, id);
    forall k | 0 <= k < |r| ensures r[k].member in next && r[k] == EntryOf(r[k].member, next[r[k].member]) {
      ZaddEntries(z, score, id, r[k]);
      if r[k] != Entry(score, id) {
        var j :| 0 <= j < |z| && z[j] == r[k];
      }
    }
    forall x | x in next ensures EntryOf(x, next[x]) in r {
      ZaddEntries(z, score, id, EntryOf(x, next[x]));
    }
  }

  lemma ZremScored(z: Zset, turns: map<JobId, Turn>, id: JobId)
    requires Scored(z, turns)
    ensures Scored(Zrem(z, id), turns - {id})
  {
    hide Before, PriorityScore, Zrem, Ranked;
    var r, next := Zrem(z, id), turns - {id};
    ZremRanked(z, id);
    forall k | 0 <= k < |r| ensures r[k].member in next && r[k] == EntryOf(r[k].member, next[r[k].member]) {
      ZremEntries(z, id, r[k]);
      var j :| 0 <= j < |z| && z[j] == r[k];
    }
    forall x | x in next ensures EntryOf(x, next[x]) in r {
      ZremEntries(z, id, EntryOf(x, next[x]));
    }
  }

  lemma TailScored(z: Zset, turns: map<JobId, Turn>)
    requires Scored(z, turns) && z != []
    ensures Scored(z[1..], turns - {z[0].member})
  {
    hide Before, PriorityScore;
    var r, next := z[1..], turns - {z[0].member};
    forall i, j | 0 <= i < j < |r| ensures Before(r[i], r[j]) { assert Before(z[i + 1], z[j + 1]); }
    BeforeIsStrict(z[0], z[0]);
    forall k | 0 <= k < |r| ensures r[k].member in next && r[k] == EntryOf(r[k].member, next[r[k].member]) {
      assert r[k] == z[k + 1] && Before(z[0], z[k + 1]);
    }
    forall x | x in next ensures EntryOf(x, next[x]) in r {
      var j :| 0 <= j < |z| && z[j] == EntryOf(x, turns[x]);
      assert r[j - 1] == z[j];
    }
  }

  lemma SetMoveShows(l: Lines, d: Desk, m: Move)
    requires Shows(l, d) && (m.Draw? || m.Back? || (m.Strike? && m.priority > 0))
    ensures Shows(Moved(l, m), Make(d, m))
  {
    hide Scored, PriorityScore, Zadd, Zrem;
    match m {
      case Draw(id, priority) => ZaddScored(l.prioritized, d.turns, id, Turn(priority, d.drawn + 1)); return;
      case Back(id, priority) =>
        PushedBack(priority);
        ZaddScored(l.prioritized, d.turns, id, Turn(priority, 0));
        return;
      case Strike(id, priority) => ZremScored(l.prioritized, d.turns, id); return;
    }
  }

  lemma PushedBack(priority: nat)
    ensures PushBackScore(priority) == PriorityScore(priority, 0)
  {
  }

  lemma StrikeShows(l: Lines, d: Desk, m: Move)
    requires Shows(l, d) && m.Strike? && m.priority == 0
    ensures Shows(Moved(l, m), Make(d, m))
  {
    hide Scored;
    ReverseRemoveAll(l.wait, m.id);
    ReverseRemoveAll(l.paused, m.id);
    hide Reverse;
  }

  /** Only an open desk serves, and from the set only the lowest. */
  predicate MayLeave(l: Lines, id: JobId) {
    !l.isPaused && (l.wait != [] || (l.prioritized != [] && l.prioritized[0].member == id))
  }

  lemma LeaveShows(l: Lines, d: Desk, id: JobId)
    requires Shows(l, d) && MayLeave(l, id)
    ensures Shows(Moved(l, Leave(id)), Make(d, Leave(id)))
  {
    hide Scored;
    if l.wait != [] {
      var rest := l.wait[..|l.wait| - 1];
      assert l.wait == rest + [l.wait[|l.wait| - 1]];
      ReverseLast(rest, l.wait[|l.wait| - 1]);
      return;
    }
    TailScored(l.prioritized, d.turns);
  }

  predicate Allowed(l: Lines, m: Move) {
    m.Leave? ==> MayLeave(l, m.id)
  }

  lemma MoveShows(l: Lines, d: Desk, m: Move)
    requires Shows(l, d) && Allowed(l, m)
    ensures Shows(Moved(l, m), Make(d, m))
  {
    hide Shows, Moved, Make, MayLeave;
    if m.Draw? || m.Back? || (m.Strike? && m.priority > 0) { SetMoveShows(l, d, m); return; }
    if m.Strike? { StrikeShows(l, d, m); return; }
    if m.Leave? { LeaveShows(l, d, m.id); return; }
    ListMoveShows(l, d, m);
  }

  predicate AllAllowed(l: Lines, moves: seq<Move>) {
    forall i :: 0 <= i < |moves| ==> Allowed(MovedAll(l, moves[..i]), moves[i])
  }

  lemma {:induction false} MovesShow(l: Lines, d: Desk, moves: seq<Move>)
    requires Shows(l, d) && AllAllowed(l, moves)
    ensures Shows(MovedAll(l, moves), MakeAll(d, moves))
  {
    hide Shows, Moved, Make, Allowed;
    if moves != [] {
      var init := moves[..|moves| - 1];
      forall i | 0 <= i < |init| ensures Allowed(MovedAll(l, init[..i]), init[i]) {
        assert init[..i] == moves[..i];
        assert Allowed(MovedAll(l, moves[..i]), moves[i]);
      }
      MovesShow(l, d, init);
      assert Allowed(MovedAll(l, init), moves[|moves| - 1]);
      MoveShows(MovedAll(l, init), MakeAll(d, init), moves[|moves| - 1]);
    }
  }

  // ---------------------------------------------------------------- every script is its moves

  lemma OneMove(l: Lines, m: Move)
    ensures MovedAll(l, [m]) == Moved(l, m) && MovedAll(l, []) == l
  {
    hide Moved;
    assert [m][..0] == [];
  }

  lemma TwoMoves(l: Lines, m: Move, n: Move)
    ensures MovedAll(l, [m, n]) == Moved(Moved(l, m), n)
  {
    hide Moved;
    OneMove(l, m);
    assert [m, n][..1] == [m];
  }

  lemma OneMore(l: Lines, moves: seq<Move>, m: Move)
    ensures MovedAll(l, moves + [m]) == Moved(MovedAll(l, moves), m)
  {
    hide Moved;
    assert (moves + [m])[..|moves|] == moves;
  }

  lemma EnqueueMoves(q: Queue, id: JobId, priority: nat)
    ensures LinesOf(Enqueue(q, id, priority)) == Moved(LinesOf(q), Join(id, priority))
  {
    hide Zadd;
    if priority > 0 { return; }
    if q.isPaused { return; }
  }

  /** The steps that touch neither lists nor scored set. */
  predicate Elsewhere(s: Step) {
    Fifo.Idle(s) || s.AddDelayed? || s.AddParent? || s.AddChildren? || s.Delay?
  }

  lemma ElsewhereMoves(q: Queue, s: Step)
    requires Elsewhere(s)
    ensures LinesOf(Apply(q, s)) == LinesOf(q) && Moves(q, s) == []
  {
    hide Zadd, DelayedScore, RemoveFirst;
    if Fifo.Idle(s) { hide Apply; Fifo.IdleKeepsLine(q, s); return; }
    hide FetchNext, FinishJob, SweepStalled, RetryJob, MoveActiveToWait, ChangePriority, PromoteJob, ReleaseParent;
    hide AddStandardJob, AddPrioritizedJob, MoveJobsToWait;
    match s {
      case AddDelayed(id, opts, _, _) => if id in q.jobs || Holder(q, opts.deid).Some? { return; } return;
      case AddParent(id, _, _, _) => if id in q.jobs { return; } return;
      case AddChildren(_, _) => return;
      case Delay(id, token, _, _, _) => if Guard(q, id, token) != OK { return; } return;
    }
  }

  lemma AddMoves(q: Queue, s: Step)
    requires s.AddStandard? || s.AddPrioritized?
    ensures LinesOf(Apply(q, s)) == MovedAll(LinesOf(q), Moves(q, s))
  {
    hide Zadd, MovedAll;
    var l := LinesOf(q);
    OneMove(l, Last([s.id]));
    OneMove(l, Draw(s.id, s.opts.priority));
    assert Reverse([s.id]) == [s.id];
    if !IsNew(q, s.id, s.opts) { return; }
    if s.AddPrioritized? { return; }
    if q.isPaused { return; }
  }

  lemma RetryApplies(q: Queue, s: Step)
    requires s.Retry?
    ensures LinesOf(Apply(q, s)) == MovedAll(LinesOf(q), Moves(q, s))
  {
    hide MovedAll, RemoveFirst, Enqueue, Join;
    var l := LinesOf(q);
    OneMove(l, Last([s.id]));
    OneMove(l, Join(s.id, s.priority));
    if Guard(q, s.id, s.token) != OK { return; }
    EnqueueMoves(LeaveForRetry(q, s.id, s.token, s.atm), s.id, s.priority);
    assert Reverse([s.id]) == [s.id];
    if s.priority == 0 && !s.right {
      if q.isPaused { return; }
      return;
    }
    hide Moved;
  }

  lemma ReturnApplies(q: Queue, s: Step)
    requires s.Return?
    ensures LinesOf(Apply(q, s)) == MovedAll(LinesOf(q), Moves(q, s))
  {
    hide Zadd, MovedAll, RemoveFirst;
    var l := LinesOf(q);
    OneMove(l, Next(s.id));
    OneMove(l, Back(s.id, HashOf(q, s.id).priority));
    if Guard(q, s.id, s.token) != OK { return; }
    if s.id !in q.at.active { return; }
    if HashOf(q, s.id).priority > 0 { return; }
    if q.isPaused { return; }
  }

  lemma ReleaseApplies(q: Queue, s: Step)
    requires s.Release?
    ensures LinesOf(Apply(q, s)) == MovedAll(LinesOf(q), Moves(q, s))
  {
    hide Zadd, Zrem, MovedAll, DelayedScore, Enqueue;
    var l := LinesOf(q);
    var parent := s.parentId;
    OneMove(l, Join(parent, HashOf(q, parent).priority));
    if s.child !in PendingChildren(q, parent) { return; }
    var r := RecordChild(q, parent, s.child, s.value);
    var u := r.(at := r.at.(waitingChildren := Zrem(r.at.waitingChildren, parent)));
    EnqueueMoves(u, parent, HashOf(r, parent).priority);
    if !Releases(q, parent, s.child) { return; }
    if HashOf(q, parent).delay > 0 { return; }
  }

  lemma {:induction false} SweepApplies(q: Queue, ids: seq<JobId>, maxStalled: nat, now: nat)
    ensures LinesOf(SweepEach(q, ids, maxStalled, now)) == MovedAll(LinesOf(q), SweepMoves(q, ids, maxStalled, now))
  {
    hide RemoveFirst, Enqueue, MovedAll, Moved, Join;
    OneMove(LinesOf(q), Open);
    if ids != [] {
      var init, id := ids[..|ids| - 1], ids[|ids| - 1];
      SweepApplies(q, init, maxStalled, now);
      var p := SweepEach(q, init, maxStalled, now);
      var done := SweepMoves(q, init, maxStalled, now);
      assert done + [] == done;
      if id !in p.jobs { return; }
      if p.jobs[id].stc >= maxStalled { return; }
      EnqueueMoves(Stall(p, id), id, p.jobs[id].priority);
      OneMore(LinesOf(q), done, Join(id, p.jobs[id].priority));
    }
  }

  lemma ReprioritizeApplies(q: Queue, s: Step)
    requires s.Reprioritize?
    ensures LinesOf(Apply(q, s)) == MovedAll(LinesOf(q), Moves(q, s))
  {
    hide Zadd, Zrem, MovedAll, Enqueue, Join;
    var l := LinesOf(q);
    OneMove(l, Open);
    if s.id !in q.jobs { return; }
    var was := q.jobs[s.id].priority;
    if s.priority == 0 && was == 0 { return; }
    var o := OutOfLine(q, s.id, was);
    assert LinesOf(o) == Moved(l, Strike(s.id, was)) by { StrikeApplies(q, s.id, was); }
    EnqueueMoves(o, s.id, s.priority);
    TwoMoves(l, Strike(s.id, was), Join(s.id, s.priority));
    hide OutOfLine, Moved;
  }

  lemma StrikeApplies(q: Queue, id: JobId, priority: nat)
    ensures LinesOf(OutOfLine(q, id, priority)) == Moved(LinesOf(q), Strike(id, priority))
  {
    hide Zrem, RemoveAll;
    if priority > 0 { return; }
    if id in q.at.wait || !q.isPaused { return; }
  }

  lemma PromoteNowApplies(q: Queue, s: Step)
    requires s.PromoteNow?
    ensures LinesOf(Apply(q, s)) == MovedAll(LinesOf(q), Moves(q, s))
  {
    hide Zadd, Zrem, MovedAll, Enqueue, Join, Moved;
    var l := LinesOf(q);
    OneMove(l, Join(s.id, HashOf(q, s.id).priority));
    if !Has(q.at.delayed, s.id) { return; }
    EnqueueMoves(TakenFromDelayed(q, s.id), s.id, HashOf(q, s.id).priority);
  }

  lemma MoveJobsApplies(q: Queue, s: Step)
    requires s.MoveJobs?
    ensures LinesOf(Apply(q, s)) == MovedAll(LinesOf(q), Moves(q, s))
  {
    hide ClearEach, MovedAll, Matching;
    var l := LinesOf(q);
    var z := SourceSet(q, s.from);
    var n := Min(Matching(z, s.upTo), s.count);
    var ids := Members(z[..n]);
    OneMove(l, Last(ids));
    Partition.ClearEachFrame(q, s.from, ids);
    if n == 0 {
      assert Reverse(ids) + q.at.wait == q.at.wait && Reverse(ids) + q.at.paused == q.at.paused;
      return;
    }
    hide Reverse, Members;
    match s.from {
      case FromFailed => return;
      case FromCompleted => return;
      case FromDelayed => return;
    }
  }

  lemma {:induction false} PromoteEachApplies(p: Queue, q: Queue, ids: seq<JobId>)
    requires p.jobs == q.jobs
    ensures LinesOf(PromoteEach(p, ids)) == MovedAll(LinesOf(p), DueMoves(q, ids))
  {
    hide Zadd, MovedAll;
    OneMove(LinesOf(p), Open);
    if ids != [] {
      var init, id := ids[..|ids| - 1], ids[|ids| - 1];
      PromoteEachApplies(p, q, init);
      Promotion.PromoteEachHashes(p, init, id);
      var priority := HashOf(q, id).priority;
      OneMore(LinesOf(p), DueMoves(q, init), if priority == 0 then Due(id) else Draw(id, priority));
      if priority == 0 { return; }
    }
  }

  lemma PromotionsApply(q: Queue, now: nat)
    ensures LinesOf(PromoteDelayed(q, now)) == MovedAll(LinesOf(q), Promotions(q, now))
  {
    hide MovedAll, PromoteEach;
    var n := DueCount(q, now);
    var d := q.(at := q.at.(delayed := q.at.delayed[n..]));
    PromoteEachApplies(d, q, Members(q.at.delayed[..n]));
    OneMove(LinesOf(q), Open);
    if n == 0 { return; }
  }

  /** A claim takes the job the keys yield after promotion, from a running queue; without a claim
      the queue was paused, limited, or empty. */
  lemma FetchPops(q: Queue, s: Step)
    requires s.Fetch?
    ensures var p := LinesOf(PromoteDelayed(q, s.now));
      match Fetching(q, s)
      case Limited(_) => LinesOf(Apply(q, s)) == p
      case Nothing => LinesOf(Apply(q, s)) == p && (p.isPaused || (p.wait == [] && p.prioritized == []))
      case Claimed(id, _) =>
        LinesOf(Apply(q, s)) == Moved(p, Leave(id)) && MayLeave(p, id) && (p.wait != [] ==> id == p.wait[|p.wait| - 1])
  {
    hide PromoteDelayed;
    var p := PromoteDelayed(q, s.now);
    var v := RateLimitTtl(s.limit, p.limiter, s.clock);
    if v.ttl > 0 { return; }
    if p.isPaused { return; }
    var r := p.(limiter := v.key);
    if NextJob(r).None? { return; }
    if r.at.wait != [] { return; }
  }

  lemma FetchApplies(q: Queue, s: Step)
    requires s.Fetch?
    ensures LinesOf(Apply(q, s)) == MovedAll(LinesOf(q), Moves(q, s))
  {
    hide MovedAll, Promotions, PromoteDelayed, FetchNext, Moved;
    PromotionsApply(q, s.now);
    FetchPops(q, s);
    var due := Promotions(q, s.now);
    assert due + [] == due;
    hide Apply;
    match Fetching(q, s) {
      case Limited(_) => return;
      case Nothing => return;
      case Claimed(id, _) => OneMore(LinesOf(q), due, Leave(id)); return;
    }
  }

  lemma StepApplies(q: Queue, s: Step)
    ensures LinesOf(Apply(q, s)) == MovedAll(LinesOf(q), Moves(q, s))
  {
    hide MovedAll, Moved, Moves, LinesOf, Apply;
    OneMove(LinesOf(q), Open);
    if Elsewhere(s) { ElsewhereMoves(q, s); return; }
    if s.AddStandard? || s.AddPrioritized? { AddMoves(q, s); return; }
    if s.Fetch? { FetchApplies(q, s); return; }
    if s.Retry? { RetryApplies(q, s); return; }
    if s.Return? { ReturnApplies(q, s); return; }
    if s.Release? { ReleaseApplies(q, s); return; }
    if s.Reprioritize? { ReprioritizeApplies(q, s); return; }
    if s.PromoteNow? { PromoteNowApplies(q, s); return; }
    if s.MoveJobs? { MoveJobsApplies(q, s); return; }
    if s.Sweep? { SweepStepApplies(q, s); return; }
    PauseApplies(q, s);
  }

  lemma SweepStepApplies(q: Queue, s: Step)
    requires s.Sweep?
    ensures LinesOf(Apply(q, s)) == MovedAll(LinesOf(q), Moves(q, s))
  {
    hide MovedAll, SweepMoves, SweepEach, Requeued, Moved;
    SweepApplies(Scanned(q), s.order, s.maxStalled, s.now);
  }

  lemma PauseApplies(q: Queue, s: Step)
    requires s.Pause? || s.Resume?
    ensures LinesOf(Apply(q, s)) == MovedAll(LinesOf(q), Moves(q, s))
  {
    hide MovedAll;
    OneMove(LinesOf(q), Close);
    OneMove(LinesOf(q), Open);
  }

  // ---------------------------------------------------------------- every step keeps the desk right

  predicate StaysAll(moves: seq<Move>) {
    forall i :: 0 <= i < |moves| ==> !moves[i].Leave?
  }

  lemma {:induction false} DueStays(q: Queue, ids: seq<JobId>)
    ensures StaysAll(DueMoves(q, ids))
  {
    if ids != [] { DueStays(q, ids[..|ids| - 1]); }
  }

  lemma {:induction false} SweepStays(q: Queue, ids: seq<JobId>, maxStalled: nat, now: nat)
    ensures StaysAll(SweepMoves(q, ids, maxStalled, now))
  {
    hide SweepEach;
    if ids != [] { SweepStays(q, ids[..|ids| - 1], maxStalled, now); }
  }

  lemma MovesStay(q: Queue, s: Step)
    requires !s.Fetch?
    ensures StaysAll(Moves(q, s))
  {
    hide SweepMoves, Guard, HashOf;
    if s.Sweep? { SweepStays(Scanned(q), s.order, s.maxStalled, s.now); }
  }

  lemma StayingAllowed(l: Lines, moves: seq<Move>)
    requires StaysAll(moves)
    ensures AllAllowed(l, moves)
  {
  }

  lemma FetchAllowed(q: Queue, s: Step)
    requires s.Fetch?
    ensures AllAllowed(LinesOf(q), Moves(q, s))
  {
    hide MovedAll, Moved, MayLeave, DueMoves, FetchNext, PromoteDelayed, LinesOf;
    var l := LinesOf(q);
    var due, moves := Promotions(q, s.now), Moves(q, s);
    DueStays(q, Members(q.at.delayed[..DueCount(q, s.now)]));
    PromotionsApply(q, s.now);
    FetchPops(q, s);
    forall i | 0 <= i < |moves| ensures Allowed(MovedAll(l, moves[..i]), moves[i]) {
      if i == |due| { assert moves[..i] == due; }
    }
  }

  lemma StepShows(q: Queue, d: Desk, s: Step)
    requires Shows(LinesOf(q), d)
    ensures Shows(LinesOf(Apply(q, s)), MakeAll(d, Moves(q, s)))
  {
    hide Shows, Moves, Apply, MovedAll, MakeAll, LinesOf;
    StepApplies(q, s);
    if s.Fetch? { FetchAllowed(q, s); } else { MovesStay(q, s); StayingAllowed(LinesOf(q), Moves(q, s)); }
    MovesShow(LinesOf(q), d, Moves(q, s));
  }

  /** Over every run whatsoever the keys show the desk. */
  lemma {:induction false} RunShows(start: Queue, steps: seq<Step>)
    requires start.at == EmptyQueue.at
    ensures Shows(LinesOf(Run(start, steps)), Attend(start, steps))
  {
    hide Apply, Moves, MakeAll;
    if steps != [] {
      hide Shows, LinesOf;
      RunShows(start, steps[..|steps| - 1]);
      StepShows(Run(start, steps[..|steps| - 1]), Attend(start, steps[..|steps| - 1]), steps[|steps| - 1]);
    }
  }

  // ---------------------------------------------------------------- tickets

  /** Tickets come from one block of the counter, and no two jobs hold the same one. */
  predicate Ticketed(d: Desk) {
    && (forall x :: x in d.turns ==> InBlock(d.turns[x].ticket, d.drawn))
    && (forall x, y :: x in d.turns && y in d.turns && x != y && d.turns[x].ticket == d.turns[y].ticket ==>
          d.turns[x].ticket == 0)
  }

  predicate InBlock(ticket: nat, drawn: nat) {
    ticket == 0 || (ticket <= drawn && ticket / BLOCK == drawn / BLOCK && ticket % BLOCK > 0)
  }

  lemma DrawTicketed(d: Desk, id: JobId, priority: nat)
    requires Ticketed(d) && (d.drawn + 1) / BLOCK == d.drawn / BLOCK
    ensures Ticketed(Make(d, Draw(id, priority)))
  {
    var r := Make(d, Draw(id, priority));
    NextInBlock(d.drawn);
    assert r.turns == d.turns[id := Turn(priority, d.drawn + 1)] && r.drawn == d.drawn + 1;
    hide Make;
    forall x | x in r.turns ensures InBlock(r.turns[x].ticket, r.drawn) {
      if x != id { assert InBlock(d.turns[x].ticket, d.drawn); }
    }
  }

  lemma MakeTicketed(d: Desk, m: Move)
    requires Ticketed(d) && Make(d, m).drawn / BLOCK == d.drawn / BLOCK
    ensures Ticketed(Make(d, m))
  {
    hide RemoveAll;
    if m.Draw? { DrawTicketed(d, m.id, m.priority); return; }
    hide InBlock;
    assert InBlock(0, d.drawn) by { ZeroInBlock(d.drawn); }
  }

  lemma ZeroInBlock(drawn: nat)
    ensures InBlock(0, drawn)
  {
  }

  lemma NextInBlock(drawn: nat)
    ensures (drawn + 1) / BLOCK == drawn / BLOCK ==> (drawn + 1) % BLOCK > 0
  {
  }

  lemma SameBlock(low: nat, mid: nat, high: nat)
    requires low <= mid <= high && low / BLOCK == high / BLOCK
    ensures mid / BLOCK == low / BLOCK
  {
  }

  lemma {:induction false} MovesRise(d: Desk, moves: seq<Move>)
    ensures MakeAll(d, moves).drawn >= d.drawn
  {
    hide RemoveAll;
    if moves != [] { MovesRise(d, moves[..|moves| - 1]); }
  }

  lemma {:induction false} MovesTicketed(d: Desk, moves: seq<Move>)
    requires Ticketed(d) && MakeAll(d, moves).drawn / BLOCK == d.drawn / BLOCK
    ensures Ticketed(MakeAll(d, moves))
  {
    hide Ticketed, Make;
    if moves != [] {
      var init, m := moves[..|moves| - 1], moves[|moves| - 1];
      MovesRise(d, init);
      MakeRises(MakeAll(d, init), m);
      SameBlock(d.drawn, MakeAll(d, init).drawn, MakeAll(d, moves).drawn);
      MovesTicketed(d, init);
      MakeTicketed(MakeAll(d, init), m);
    }
  }

  lemma MakeRises(d: Desk, m: Move)
    ensures Make(d, m).drawn >= d.drawn
  {
    hide RemoveAll;
  }

  lemma {:induction false} RunRises(start: Queue, steps: seq<Step>)
    ensures Attend(start, steps).drawn >= start.pc
  {
    hide Moves, MakeAll, Run;
    if steps != [] {
      var init := steps[..|steps| - 1];
      RunRises(start, init);
      MovesRise(Attend(start, init), Moves(Run(start, init), steps[|steps| - 1]));
    }
  }

  lemma {:induction false} RunTicketed(start: Queue, steps: seq<Step>)
    requires Attend(start, steps).drawn / BLOCK == start.pc / BLOCK
    ensures Ticketed(Attend(start, steps))
  {
    hide Moves, MakeAll, Run;
    if steps != [] {
      hide Ticketed;
      var init := steps[..|steps| - 1];
      var d, moves := Attend(start, init), Moves(Run(start, init), steps[|steps| - 1]);
      RunRises(start, init);
      MovesRise(d, moves);
      SameBlock(start.pc, d.drawn, Attend(start, steps).drawn);
      RunTicketed(start, init);
      MovesTicketed(d, moves);
    }
  }

  lemma TurnIsRank(a: Turn, b: Turn, drawn: nat)
    requires InBlock(a.ticket, drawn) && InBlock(b.ticket, drawn)
    requires a.priority < b.priority || (a.priority == b.priority && a.ticket < b.ticket)
    ensures PriorityScore(a.priority, a.ticket) < PriorityScore(b.priority, b.ticket)
  {
    if a.priority < b.priority {
      LowerPriorityFirst(a.priority, a.ticket, b.priority, b.ticket);
    } else if a.ticket > 0 {
      assert b.ticket < a.ticket + BLOCK;
      TicketOrderIff(a.priority, a.ticket, b.ticket);
    }
  }

  /** Rank order is the order of turns. */
  lemma RankIsTurn(a: Turn, x: JobId, b: Turn, y: JobId, drawn: nat)
    requires InBlock(a.ticket, drawn) && InBlock(b.ticket, drawn)
    requires Before(EntryOf(x, a), EntryOf(y, b))
    ensures Ahead(a, x, b, y)
  {
    hide PriorityScore, InBlock;
    if b.priority < a.priority || (a.priority == b.priority && b.ticket < a.ticket) { TurnIsRank(b, a, drawn); }
  }

  predicate InTurn(z: Zset, turns: map<JobId, Turn>)
    requires forall k :: 0 <= k < |z| ==> z[k].member in turns
  {
    forall i, j :: 0 <= i < j < |z| ==> Ahead(turns[z[i].member], z[i].member, turns[z[j].member], z[j].member)
  }

  lemma ScoredInTurn(z: Zset, d: Desk)
    requires Scored(z, d.turns) && Ticketed(d)
    ensures InTurn(z, d.turns)
  {
    hide Before, EntryOf, Ahead, InBlock;
    forall i, j | 0 <= i < j < |z|
      ensures Ahead(d.turns[z[i].member], z[i].member, d.turns[z[j].member], z[j].member)
    {
      RankIsTurn(d.turns[z[i].member], z[i].member, d.turns[z[j].member], z[j].member, d.drawn);
    }
  }

  /** ZPOPMIN yields the job whose turn it is. */
  lemma LowestIsFirst(z: Zset, d: Desk)
    requires Scored(z, d.turns) && Ticketed(d)
    ensures z != [] ==> IsFirst(d.turns, z[0].member)
    ensures z == [] ==> d.turns.Keys == {}
  {
    hide Before, EntryOf, Ahead, Ranked;
    ScoredInTurn(z, d);
    if d.turns.Keys != {} {
      var x :| x in d.turns;
      assert EntryOf(x, d.turns[x]) in z;
    }
    if z == [] { return; }
    forall x | x in d.turns && x != z[0].member
      ensures Ahead(d.turns[z[0].member], z[0].member, d.turns[x], x)
    {
      var k :| 0 <= k < |z| && z[k] == EntryOf(x, d.turns[x]);
      EntryHasMember(x, d.turns[x]);
      assert k > 0;
    }
  }

  lemma EntryHasMember(x: JobId, t: Turn)
    ensures EntryOf(x, t).member == x
  {
  }

  // ---------------------------------------------------------------- main results

  /** Over every run within one block of the counter, the scored set lists the prioritized jobs by
      priority and last draw, and the lists are the line. */
  lemma RunStaysInTurn(start: Queue, steps: seq<Step>)
    requires start.at == EmptyQueue.at
    requires Run(start, steps).pc / BLOCK == start.pc / BLOCK
    ensures var q, d := Run(start, steps), Attend(start, steps);
      && Shows(LinesOf(q), d) && Ticketed(d) && InTurn(q.at.prioritized, d.turns)
      && (forall x :: x in d.turns <==> exists k :: 0 <= k < |q.at.prioritized| && q.at.prioritized[k].member == x)
  {
    hide Run, Attend, Ticketed, InTurn;
    RunShows(start, steps);
    RunTicketed(start, steps);
    var q, d := Run(start, steps), Attend(start, steps);
    ScoredInTurn(q.at.prioritized, d);
    forall x | x in d.turns ensures exists k :: 0 <= k < |q.at.prioritized| && q.at.prioritized[k].member == x {
      var k :| 0 <= k < |q.at.prioritized| && q.at.prioritized[k] == EntryOf(x, d.turns[x]);
      assert q.at.prioritized[k].member == x;
    }
  }

  lemma DeskAfterPromotion(q: Queue, d: Desk, now: nat)
    requires Shows(LinesOf(q), d)
    ensures Shows(LinesOf(PromoteDelayed(q, now)), MakeAll(d, Promotions(q, now)))
  {
    hide Shows, MovedAll, MakeAll, LinesOf, DueMoves, PromoteDelayed;
    PromotionsApply(q, now);
    DueStays(q, Members(q.at.delayed[..DueCount(q, now)]));
    StayingAllowed(LinesOf(q), Promotions(q, now));
    MovesShow(LinesOf(q), d, Promotions(q, now));
  }

  /** What a claim from keys that show the desk means. */
  lemma ClaimServes(q: Queue, d: Desk, s: Step)
    requires s.Fetch? && Shows(LinesOf(PromoteDelayed(q, s.now)), d) && Ticketed(d)
    ensures match Fetching(q, s)
      case Claimed(id, _) => Serves(d, id)
      case Nothing => d.closed || HasNobody(d)
      case Limited(_) => true
  {
    hide Scored, Ticketed, IsFirst, PromoteDelayed, FetchNext, Apply;
    FetchPops(q, s);
    var p := LinesOf(PromoteDelayed(q, s.now));
    LowestIsFirst(p.prioritized, d);
    if Fetching(q, s).Claimed? && p.wait != [] {
      assert p.wait == p.wait[..|p.wait| - 1] + [p.wait[|p.wait| - 1]];
      ReverseLast(p.wait[..|p.wait| - 1], p.wait[|p.wait| - 1]);
    }
  }

  /** Main result: after every run within one block of the counter a fetch hands out the job the
      desk serves once the due jobs have joined it, and comes back with nothing only from a closed
      or an empty desk. */
  lemma ServesInOrder(start: Queue, steps: seq<Step>, s: Step)
    requires start.at == EmptyQueue.at && s.Fetch?
    requires Run(start, steps + [s]).pc / BLOCK == start.pc / BLOCK
    ensures var q := Run(start, steps);
      var d := MakeAll(Attend(start, steps), Promotions(q, s.now));
      match Fetching(q, s)
      case Claimed(id, _) => Serves(d, id) && forall x :: Serves(d, x) ==> x == id
      case Nothing => d.closed || HasNobody(d)
      case Limited(_) => true
  {
    hide Shows, Ticketed, Promotions, FetchNext, Serves, HasNobody, Apply, MakeAll, Attend;
    var q, before := Run(start, steps), Attend(start, steps);
    var d := MakeAll(before, Promotions(q, s.now));
    assert (steps + [s])[..|steps|] == steps;
    RunShows(start, steps);
    DeskAfterPromotion(q, before, s.now);
    FetchKeepsCounter(q, s);
    DrawnIsCounter(LinesOf(q), before);
    DrawnIsCounter(LinesOf(PromoteDelayed(q, s.now)), d);
    RunRises(start, steps);
    MovesRise(before, Promotions(q, s.now));
    SameBlock(start.pc, before.drawn, d.drawn);
    RunTicketed(start, steps);
    MovesTicketed(before, Promotions(q, s.now));
    ClaimServes(q, d, s);
    forall x, y | Serves(d, x) && Serves(d, y) ensures x == y { ServesOnlyOne(d, x, y); }
  }

  lemma DrawnIsCounter(l: Lines, d: Desk)
    requires Shows(l, d)
    ensures d.drawn == l.pc
  {
  }

  lemma FetchKeepsCounter(q: Queue, s: Step)
    requires s.Fetch?
    ensures Apply(q, s).pc == PromoteDelayed(q, s.now).pc
  {
    hide PromoteDelayed, FetchNext, Apply;
    FetchPops(q, s);
  }

  // ---------------------------------------------------------------- due while paused

  function DueIds(q: Queue, now: nat): seq<JobId> {
    Members(q.at.delayed[..DueCount(q, now)])
  }

  /** The lists after a fetch from a paused queue and a resume. */
  lemma PausedFetch(q: Queue, token: Token, now: nat, clock: nat, limit: Option<Limit>)
    requires q.isPaused
    ensures var r := ResumeQueue(FetchNext(q, token, now, clock, limit).q);
      r.at.wait == q.at.paused + (Reverse(Promotion.Standard(q, DueIds(q, now))) + q.at.wait)
  {
    hide PromoteEach, DueCount, Promotion.Standard, Reverse;
    var n := DueCount(q, now);
    var d := q.(at := q.at.(delayed := q.at.delayed[n..]));
    var ids := DueIds(q, now);
    Promotion.PromoteEachLists(d, ids);
    Promotion.SameHashes(q, d, ids, Entry(0, 0));
    Promotion.NothingDue(q, Entry(0, 0));
    FetchPops(q, Fetch(token, now, clock, limit));
    assert LinesOf(FetchNext(q, token, now, clock, limit).q) == LinesOf(PromoteDelayed(q, now));
    hide FetchNext;
    if n == 0 { return; }
  }

  lemma LastOfConcat(s: seq<JobId>, line: seq<JobId>)
    requires line != []
    ensures var r := s + Reverse(line); r[|r| - 1] == line[0]
  {
    assert line == [line[0]] + line[1..];
    ReverseConcat([line[0]], line[1..]);
    assert Reverse([line[0]]) == [line[0]];
  }

  /** A standard job that falls due while its queue is paused overtakes every job that was waiting
      there: the first one is handed out first after the resume. */
  lemma DueWhilePausedOvertakes(q: Queue, token: Token, now: nat, clock: nat, limit: Option<Limit>)
    requires q.isPaused && q.at.wait == [] && Promotion.Standard(q, DueIds(q, now)) != []
    ensures NextJob(ResumeQueue(FetchNext(q, token, now, clock, limit).q))
         == Some(Promotion.Standard(q, DueIds(q, now))[0])
  {
    hide FetchNext, DueIds, Promotion.Standard, Reverse;
    PausedFetch(q, token, now, clock, limit);
    var line := Promotion.Standard(q, DueIds(q, now));
    assert Reverse(line) + [] == Reverse(line);
    LastOfConcat(q.at.paused, line);
  }

  predicate AllUrgent(q: Queue, ids: seq<JobId>) {
    forall x :: x in ids ==> HashOf(q, x).priority > 0
  }

  lemma NoneStandard(q: Queue, ids: seq<JobId>)
    ensures Promotion.Standard(q, ids) == [] <==> AllUrgent(q, ids)
  {
    hide Promotion.Standard;
    forall x ensures x in Promotion.Standard(q, ids) <==> x in ids && HashOf(q, x).priority == 0 {
      Promotion.Sorted(q, ids, x);
    }
    if Promotion.Standard(q, ids) != [] {
      assert Promotion.Standard(q, ids)[0] in Promotion.Standard(q, ids);
    }
  }

  lemma MemberOf(z: Zset, n: nat, x: JobId)
    requires n <= |z| && x in Members(z[..n])
    ensures Has(z, x)
  {
    MembersConcat(z[..n], z[n..]);
    assert z == z[..n] + z[n..];
  }

  /** Jobs waiting in a paused queue keep their turn through a fetch if and only if no standard job
      falls due in it, unless jobs that fell due earlier are ahead of them already. */
  lemma PausedLineKeepsTurnIff(q: Queue, token: Token, now: nat, clock: nat, limit: Option<Limit>)
    requires q.isPaused && q.at.paused != []
    requires forall x :: x in q.at.paused ==> !Has(q.at.delayed, x)
    ensures NextJob(ResumeQueue(FetchNext(q, token, now, clock, limit).q)) == NextJob(ResumeQueue(q))
       <==> q.at.wait != [] || AllUrgent(q, DueIds(q, now))
  {
    hide FetchNext, Promotion.Standard, Reverse, AllUrgent, Has;
    PausedFetch(q, token, now, clock, limit);
    var line := Promotion.Standard(q, DueIds(q, now));
    NoneStandard(q, DueIds(q, now));
    var last := q.at.paused[|q.at.paused| - 1];
    if q.at.wait != [] { return; }
    assert Reverse(line) + [] == Reverse(line) && q.at.paused + [] == q.at.paused;
    if line == [] {
      assert Reverse<JobId>([]) == [] by { NothingReversed(); }
      return;
    }
    DueWhilePausedOvertakes(q, token, now, clock, limit);
    Promotion.Sorted(q, DueIds(q, now), line[0]);
    MemberOf(q.at.delayed, DueCount(q, now), line[0]);
    assert last in q.at.paused;
  }

  lemma NothingReversed()
    ensures Reverse<JobId>([]) == []
  {
  }

  /** Across a multiple of 2^32 the order breaks: of two jobs of one priority, the second added
      is handed out first. */
  lemma CounterWrapMisorders(q: Queue, opts: Opts, ts: nat, token: Token)
    requires q == EmptyQueue.(pc := BLOCK - 2) && opts.priority > 0 && opts.deid.None?
    ensures var two := AddPrioritizedJob(AddPrioritizedJob(q, 1, opts, ts, None).q, 2, opts, ts, None).q;
      var r := FetchNext(two, token, ts, 0, None); r.result.Claimed? && r.result.id == 2
  {
    var one := AddPrioritizedJob(q, 1, opts, ts, None).q;
    var p := opts.priority;
    assert one.at.prioritized == [Entry(PriorityScore(p, BLOCK - 1), 1)];
    assert PriorityScore(p, BLOCK) < PriorityScore(p, BLOCK - 1);
    var two := AddPrioritizedJob(one, 2, opts, ts, None).q;
    assert Zrem(one.at.prioritized, 2) == one.at.prioritized by { assert Zrem([], 2) == []; }
    assert two.at.prioritized[0] == Entry(PriorityScore(p, BLOCK), 2);
    Fifo.FetchTakesNext(two, token, ts, 0, None);
    assert PromoteDelayed(two, ts) == two;
  }
}

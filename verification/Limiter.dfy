/** The rate limiter key and the two script fragments that read and count it. The key is
    alive up to and including its expiry instant, where PTTL already reports 0. */
module Limiter {
  import opened Redis

  datatype Window = Window(count: nat, expiresAt: nat)

  datatype Limit = Limit(max: nat, duration: nat)

  type Key = Option<Window>

  predicate Live(key: Key, clock: nat) {
    key.Some? && clock <= key.value.expiresAt
  }

  function CountOf(key: Key, clock: nat): nat {
    if Live(key, clock) then key.value.count else 0
  }

  datatype Verdict = Verdict(ttl: nat, key: Key)

  /** How long claims must wait (0: not at all), and the key afterwards. */
  function RateLimitTtl(limit: Option<Limit>, key: Key, clock: nat): Verdict {
    if limit.Some? && limit.value.max <= CountOf(key, clock) && Live(key, clock) then
      var pttl := key.value.expiresAt - clock;
      if pttl == 0 then Verdict(0, None) else Verdict(pttl, key)
    else Verdict(0, key)
  }

  /** INCR on a claim, and PEXPIRE when that created the key. */
  function CountClaim(limit: Option<Limit>, key: Key, clock: nat): Key {
    if limit.None? then key
    else
      var count := CountOf(key, clock) + 1;
      if count > 1 then Some(Window(count, key.value.expiresAt))
      else if limit.value.duration == 0 then None
      else Some(Window(1, clock + limit.value.duration))
  }

  /** Claims must wait if and only if the window is full and has not run out; they are told the time
      left, and no less would do. */
  lemma TtlIsTimeLeft(limit: Limit, key: Key, clock: nat)
    ensures var ttl := RateLimitTtl(Some(limit), key, clock).ttl;
      && (ttl > 0 <==> key.Some? && clock < key.value.expiresAt && limit.max <= key.value.count)
      && (ttl > 0 ==> clock + ttl == key.value.expiresAt)
      && (forall later :: clock <= later ==>
            (RateLimitTtl(Some(limit), key, later).ttl > 0 <==> later < clock + ttl))
    ensures RateLimitTtl(None, key, clock) == Verdict(0, key)
  {
  }

  // ---------------------------------------------------------------- runs of claim attempts

  /** One call of either claim path at `clock`; `available` says whether a job was there. */
  datatype Attempt = Attempt(clock: nat, available: bool)

  /** A claim, the number of the limiter window it was counted in, and whether it opened it. */
  datatype Grant = Grant(at: nat, window: nat, opening: bool)

  datatype Log = Log(key: Key, starts: seq<nat>, claims: seq<Grant>, clock: nat)

  function Try(l: Log, limit: Limit, a: Attempt): Log {
    var v := RateLimitTtl(Some(limit), l.key, a.clock);
    if v.ttl > 0 then l.(clock := a.clock)
    else if !a.available then l.(key := v.key, clock := a.clock)
    else
      var opening := !Live(v.key, a.clock);
      var starts := if opening then l.starts + [a.clock] else l.starts;
      var w := if starts == [] then 0 else |starts| - 1;
      Log(CountClaim(Some(limit), v.key, a.clock), starts, l.claims + [Grant(a.clock, w, opening)], a.clock)
  }

  function TryAll(l: Log, limit: Limit, attempts: seq<Attempt>): Log {
    if attempts == [] then l else Try(TryAll(l, limit, attempts[..|attempts| - 1]), limit, attempts[|attempts| - 1])
  }

  const Start := Log(None, [], [], 0)

  function InWindow(claims: seq<Grant>, w: nat): nat {
    if claims == [] then 0
    else (if claims[|claims| - 1].window == w then 1 else 0) + InWindow(claims[..|claims| - 1], w)
  }

  function LateInWindow(claims: seq<Grant>, w: nat): nat {
    if claims == [] then 0
    else (if claims[|claims| - 1].window == w && !claims[|claims| - 1].opening then 1 else 0)
         + LateInWindow(claims[..|claims| - 1], w)
  }

  /** Claims made in [from, to). */
  function Between(claims: seq<Grant>, from: nat, to: nat): nat {
    if claims == [] then 0
    else (if from <= claims[|claims| - 1].at < to then 1 else 0) + Between(claims[..|claims| - 1], from, to)
  }

  /** Window openings are at least one duration apart. */
  predicate StartsApartOnce(l: Log, limit: Limit) {
    && (forall i :: 0 <= i < |l.starts| - 1 ==> l.starts[i] + limit.duration <= l.starts[i + 1])
    && (|l.starts| > 0 ==> l.starts[|l.starts| - 1] <= l.clock)
    && (l.key.None? && |l.starts| > 0 ==> l.starts[|l.starts| - 1] + limit.duration <= l.clock)
  }

  predicate InItsWindow(c: Grant, starts: seq<nat>, limit: Limit) {
    && c.window < |starts|
    && starts[c.window] <= c.at <= starts[c.window] + limit.duration
    && (c.opening ==> c.at == starts[c.window])
  }

  predicate ClaimsInWindows(l: Log, limit: Limit) {
    forall i :: 0 <= i < |l.claims| ==> InItsWindow(l.claims[i], l.starts, limit)
  }

  ghost predicate Counted(claims: seq<Grant>, windows: nat, limit: Limit) {
    forall w: nat :: InWindow(claims, w) <= limit.max && LateInWindow(claims, w) <= limit.max - 1
                     && (w >= windows ==> InWindow(claims, w) == LateInWindow(claims, w) == 0)
  }

  /** A stored key belongs to the last window and holds its number of claims. */
  predicate KeyCounts(l: Log, limit: Limit) {
    l.key.Some? ==>
      && |l.starts| > 0
      && l.key.value.expiresAt == l.starts[|l.starts| - 1] + limit.duration
      && 1 <= l.key.value.count <= limit.max
      && l.key.value.count == InWindow(l.claims, |l.starts| - 1)
      && l.key.value.count == 1 + LateInWindow(l.claims, |l.starts| - 1)
  }

  ghost predicate WellCounted(l: Log, limit: Limit) {
    StartsApartOnce(l, limit) && ClaimsInWindows(l, limit) && Counted(l.claims, |l.starts|, limit)
      && KeyCounts(l, limit)
  }

  predicate Clocked(attempts: seq<Attempt>) {
    forall i, j :: 0 <= i < j < |attempts| ==> attempts[i].clock <= attempts[j].clock
  }

  lemma OneMoreClaim(claims: seq<Grant>, c: Grant, w: nat)
    ensures InWindow(claims + [c], w) == (if c.window == w then 1 else 0) + InWindow(claims, w)
    ensures LateInWindow(claims + [c], w) == (if c.window == w && !c.opening then 1 else 0) + LateInWindow(claims, w)
  {
    assert (claims + [c])[..|claims|] == claims;
  }

  lemma CountedGrows(claims: seq<Grant>, c: Grant, windows: nat, r: nat, limit: Limit)
    requires Counted(claims, windows, limit) && c.window < r && windows <= r
    requires InWindow(claims, c.window) + 1 <= limit.max
    requires LateInWindow(claims, c.window) + (if c.opening then 0 else 1) <= limit.max - 1
    ensures Counted(claims + [c], r, limit)
  {
    forall w: nat
      ensures InWindow(claims + [c], w) == (if c.window == w then 1 else 0) + InWindow(claims, w)
      ensures LateInWindow(claims + [c], w) == (if c.window == w && !c.opening then 1 else 0) + LateInWindow(claims, w)
    {
      OneMoreClaim(claims, c, w);
    }
  }

  /** A claim that does not open a window. */
  lemma LaterClaimKeepsCounts(l: Log, limit: Limit, a: Attempt)
    requires limit.max >= 1 && limit.duration >= 1 && WellCounted(l, limit) && l.clock <= a.clock
    requires var v := RateLimitTtl(Some(limit), l.key, a.clock); v.ttl == 0 && a.available && Live(v.key, a.clock)
    ensures WellCounted(Try(l, limit, a), limit)
  {
    hide InWindow, LateInWindow, Counted;
    var r := Try(l, limit, a);
    var c := r.claims[|l.claims|];
    assert r.claims == l.claims + [c] && r.starts == l.starts;
    OneMoreClaim(l.claims, c, c.window);
    assert InWindow(l.claims, c.window) == l.key.value.count;
    CountedGrows(l.claims, c, |l.starts|, |l.starts|, limit);
    assert InItsWindow(c, r.starts, limit);
    forall i | 0 <= i < |r.claims| ensures InItsWindow(r.claims[i], r.starts, limit) {
      if i < |l.claims| { assert InItsWindow(l.claims[i], l.starts, limit); }
    }
  }

  lemma NoneInNext(claims: seq<Grant>, windows: nat, limit: Limit)
    requires Counted(claims, windows, limit)
    ensures InWindow(claims, windows) == 0 && LateInWindow(claims, windows) == 0
  {
  }

  /** A claim that opens a window. */
  lemma OpeningClaimKeepsCounts(l: Log, limit: Limit, a: Attempt)
    requires limit.max >= 1 && limit.duration >= 1 && WellCounted(l, limit) && l.clock <= a.clock
    requires var v := RateLimitTtl(Some(limit), l.key, a.clock); v.ttl == 0 && a.available && !Live(v.key, a.clock)
    ensures WellCounted(Try(l, limit, a), limit)
  {
    hide InWindow, LateInWindow, Counted;
    var r := Try(l, limit, a);
    var c := r.claims[|l.claims|];
    assert r.claims == l.claims + [c] && r.starts == l.starts + [a.clock];
    NoneInNext(l.claims, |l.starts|, limit);
    OneMoreClaim(l.claims, c, c.window);
    CountedGrows(l.claims, c, |l.starts|, |r.starts|, limit);
    assert InItsWindow(c, r.starts, limit);
    forall i | 0 <= i < |r.claims| ensures InItsWindow(r.claims[i], r.starts, limit) {
      if i < |l.claims| { assert InItsWindow(l.claims[i], l.starts, limit); }
    }
  }

  lemma TryKeepsCounts(l: Log, limit: Limit, a: Attempt)
    requires limit.max >= 1 && limit.duration >= 1 && WellCounted(l, limit) && l.clock <= a.clock
    ensures WellCounted(Try(l, limit, a), limit) && Try(l, limit, a).clock == a.clock
  {
    hide InWindow, LateInWindow, Counted, InItsWindow;
    var v := RateLimitTtl(Some(limit), l.key, a.clock);
    if v.ttl > 0 || !a.available { return; }
    hide WellCounted;
    if Live(v.key, a.clock) { LaterClaimKeepsCounts(l, limit, a); return; }
    OpeningClaimKeepsCounts(l, limit, a);
  }

  lemma {:induction false} RunKeepsCounts(limit: Limit, attempts: seq<Attempt>)
    requires limit.max >= 1 && limit.duration >= 1 && Clocked(attempts)
    ensures WellCounted(TryAll(Start, limit, attempts), limit)
    ensures attempts != [] ==> TryAll(Start, limit, attempts).clock == attempts[|attempts| - 1].clock
  {
    if attempts != [] {
      RunKeepsCounts(limit, attempts[..|attempts| - 1]);
      TryKeepsCounts(TryAll(Start, limit, attempts[..|attempts| - 1]), limit, attempts[|attempts| - 1]);
    }
  }

  lemma StartsApart(l: Log, limit: Limit, i: nat, j: nat)
    requires StartsApartOnce(l, limit) && i < j < |l.starts|
    ensures l.starts[i] + limit.duration <= l.starts[j]
    ensures i + 1 < j ==> l.starts[i] + 2 * limit.duration <= l.starts[j]
    decreases j - i
  {
    if i + 1 < j {
      StartsApart(l, limit, i + 1, j);
    }
  }

  lemma {:induction false} BetweenInOneWindow(claims: seq<Grant>, from: nat, to: nat, w: nat)
    requires forall i :: 0 <= i < |claims| && from <= claims[i].at < to ==> claims[i].window == w
    ensures Between(claims, from, to) <= InWindow(claims, w)
  {
    if claims != [] {
      BetweenInOneWindow(claims[..|claims| - 1], from, to, w);
    }
  }

  lemma {:induction false} BetweenInTwoWindows(claims: seq<Grant>, from: nat, to: nat, w: nat)
    requires forall i :: 0 <= i < |claims| && from <= claims[i].at < to ==>
               claims[i].window == w + 1 || (claims[i].window == w && !claims[i].opening)
    ensures Between(claims, from, to) <= LateInWindow(claims, w) + InWindow(claims, w + 1)
  {
    if claims != [] {
      BetweenInTwoWindows(claims[..|claims| - 1], from, to, w);
    }
  }

  lemma {:induction false} NoneBetween(claims: seq<Grant>, from: nat, to: nat)
    requires forall i :: 0 <= i < |claims| ==> !(from <= claims[i].at < to)
    ensures Between(claims, from, to) == 0
  {
    if claims != [] {
      NoneBetween(claims[..|claims| - 1], from, to);
    }
  }

  /** Over every run of claim attempts, no limiter window counts more than `max` claims. */
  lemma AtMostMaxPerWindow(limit: Limit, attempts: seq<Attempt>, w: nat)
    requires limit.max >= 1 && limit.duration >= 1 && Clocked(attempts)
    ensures InWindow(TryAll(Start, limit, attempts).claims, w) <= limit.max
  {
    RunKeepsCounts(limit, attempts);
  }

  /** A claim of the interval lies in window `w` without opening it, or in the next window,
      as soon as the interval also holds claims of `w` and of a later window. */
  lemma OnlyTwoWindows(l: Log, limit: Limit, from: nat, i: nat, j: nat, k: nat)
    requires WellCounted(l, limit) && limit.duration >= 1
    requires i < |l.claims| && j < |l.claims| && k < |l.claims|
    requires from <= l.claims[i].at < from + limit.duration
    requires from <= l.claims[j].at < from + limit.duration
    requires from <= l.claims[k].at < from + limit.duration
    requires l.claims[i].window < l.claims[j].window
    ensures l.claims[k].window == l.claims[i].window + 1
         || (l.claims[k].window == l.claims[i].window && !l.claims[k].opening)
  {
    var w, w', v := l.claims[i].window, l.claims[j].window, l.claims[k].window;
    assert InItsWindow(l.claims[i], l.starts, limit) && InItsWindow(l.claims[j], l.starts, limit);
    assert InItsWindow(l.claims[k], l.starts, limit);
    StartsApart(l, limit, w, w');
    if v < w {
      StartsApart(l, limit, v, w');
    } else if v > w + 1 {
      StartsApart(l, limit, w, v);
    }
  }

  lemma WindowBounds(l: Log, limit: Limit, w: nat)
    requires WellCounted(l, limit)
    ensures InWindow(l.claims, w) <= limit.max && LateInWindow(l.claims, w) <= limit.max - 1
  {
  }

  lemma TwoWindowsBound(l: Log, limit: Limit, from: nat, i: nat, j: nat)
    requires WellCounted(l, limit) && limit.duration >= 1 && i < |l.claims| && j < |l.claims|
    requires from <= l.claims[i].at < from + limit.duration && from <= l.claims[j].at < from + limit.duration
    requires l.claims[i].window < l.claims[j].window
    ensures Between(l.claims, from, from + limit.duration) <= 2 * limit.max - 1
  {
    hide WellCounted, Between, InWindow, LateInWindow;
    var w := l.claims[i].window;
    forall k | 0 <= k < |l.claims| && from <= l.claims[k].at < from + limit.duration
      ensures l.claims[k].window == w + 1 || (l.claims[k].window == w && !l.claims[k].opening)
    {
      OnlyTwoWindows(l, limit, from, i, j, k);
    }
    BetweenInTwoWindows(l.claims, from, from + limit.duration, w);
    WindowBounds(l, limit, w);
    WindowBounds(l, limit, w + 1);
  }

  /** ... and no half-open interval as long as the limiter's duration sees more than
      2 * max - 1 of them. */
  lemma AtMostTwiceMaxPerInterval(limit: Limit, attempts: seq<Attempt>, from: nat)
    requires limit.max >= 1 && limit.duration >= 1 && Clocked(attempts)
    ensures Between(TryAll(Start, limit, attempts).claims, from, from + limit.duration) <= 2 * limit.max - 1
  {
    hide WellCounted, TryAll, Clocked, Between, InWindow, LateInWindow;
    var l := TryAll(Start, limit, attempts);
    var to := from + limit.duration;
    RunKeepsCounts(limit, attempts);
    if i, j :| 0 <= i < |l.claims| && 0 <= j < |l.claims|
               && from <= l.claims[i].at < to && from <= l.claims[j].at < to
               && l.claims[i].window < l.claims[j].window {
      TwoWindowsBound(l, limit, from, i, j);
    } else if i :| 0 <= i < |l.claims| && from <= l.claims[i].at < to {
      BetweenInOneWindow(l.claims, from, to, l.claims[i].window);
      WindowBounds(l, limit, l.claims[i].window);
    } else {
      NoneBetween(l.claims, from, to);
    }
  }

  /** One claim opens a window, and `n` more come at the instant it expires. */
  function Burst(limit: Limit, n: nat): seq<Attempt> {
    if n == 0 then [Attempt(0, true)] else Burst(limit, n - 1) + [Attempt(limit.duration, true)]
  }

  /** The first window counts one claim made when it opened, then as many at its last instant as
      fill it; then the key is dropped, and a second window counts the rest. */
  function BurstGrant(limit: Limit, n: nat): Grant {
    if n == 0 then Grant(0, 0, true)
    else if n < limit.max then Grant(limit.duration, 0, false)
    else Grant(limit.duration, 1, n == limit.max)
  }

  function BurstGrants(limit: Limit, n: nat): (claims: seq<Grant>)
    ensures |claims| == n + 1
  {
    if n == 0 then [BurstGrant(limit, 0)] else BurstGrants(limit, n - 1) + [BurstGrant(limit, n)]
  }

  function BurstLog(limit: Limit, n: nat): Log {
    if n < limit.max
    then Log(Some(Window(n + 1, limit.duration)), [0], BurstGrants(limit, n), if n == 0 then 0 else limit.duration)
    else Log(Some(Window(n + 1 - limit.max, 2 * limit.duration)), [0, limit.duration], BurstGrants(limit, n),
             limit.duration)
  }

  lemma BurstTry(limit: Limit, n: nat)
    requires limit.max >= 1 && limit.duration >= 1 && 1 <= n <= 2 * limit.max - 1
    ensures Try(BurstLog(limit, n - 1), limit, Attempt(limit.duration, true)) == BurstLog(limit, n)
  {
    assert BurstGrants(limit, n) == BurstGrants(limit, n - 1) + [BurstGrant(limit, n)];
    hide BurstGrants;
    if n < limit.max { return; }
    if n == limit.max { return; }
  }

  lemma TryMore(limit: Limit, attempts: seq<Attempt>, a: Attempt)
    ensures TryAll(Start, limit, attempts + [a]) == Try(TryAll(Start, limit, attempts), limit, a)
  {
    assert (attempts + [a])[..|attempts|] == attempts;
  }

  lemma {:induction false} BurstRuns(limit: Limit, n: nat)
    requires limit.max >= 1 && limit.duration >= 1 && n <= 2 * limit.max - 1
    ensures TryAll(Start, limit, Burst(limit, n)) == BurstLog(limit, n)
  {
    if n == 0 {
      FirstTry(limit);
    } else {
      hide TryAll, Try, BurstLog;
      BurstRuns(limit, n - 1);
      TryMore(limit, Burst(limit, n - 1), Attempt(limit.duration, true));
      BurstTry(limit, n);
    }
  }

  lemma FirstTry(limit: Limit)
    requires limit.max >= 1 && limit.duration >= 1
    ensures TryAll(Start, limit, Burst(limit, 0)) == BurstLog(limit, 0)
  {
    assert Burst(limit, 0) == [] + [Attempt(0, true)];
    TryMore(limit, [], Attempt(0, true));
    assert TryAll(Start, limit, []) == Start;
    hide TryAll;
  }

  lemma {:induction false} BurstBetween(limit: Limit, n: nat)
    requires limit.max >= 1 && limit.duration >= 1
    ensures Between(BurstGrants(limit, n), limit.duration, 2 * limit.duration) == n
  {
    var claims := BurstGrants(limit, n);
    if n == 0 {
      assert claims[..0] == [];
    } else {
      BurstBetween(limit, n - 1);
      assert claims[..|claims| - 1] == BurstGrants(limit, n - 1);
    }
  }

  lemma {:induction false} BurstClocked(limit: Limit, n: nat)
    ensures Clocked(Burst(limit, n))
    ensures Burst(limit, n)[|Burst(limit, n)| - 1].clock <= limit.duration
  {
    if n > 0 { BurstClocked(limit, n - 1); }
  }

  /** The bound is reached, whatever the limit and the duration. */
  lemma TwiceMaxMinusOneIsReached(limit: Limit)
    requires limit.max >= 1 && limit.duration >= 1
    ensures var attempts := Burst(limit, 2 * limit.max - 1);
      && Clocked(attempts)
      && Between(TryAll(Start, limit, attempts).claims, limit.duration, 2 * limit.duration) == 2 * limit.max - 1
  {
    hide TryAll, Burst, BurstGrants, Between, Clocked;
    BurstRuns(limit, 2 * limit.max - 1);
    BurstBetween(limit, 2 * limit.max - 1);
    BurstClocked(limit, 2 * limit.max - 1);
  }
}

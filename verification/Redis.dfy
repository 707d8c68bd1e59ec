/** The Redis values the scripts work on: lists, and sorted sets kept in rank order.
    A list is a sequence whose index 0 is the left end (LPUSH) and whose last index is
    the right end (RPUSH, RPOP). */
module Redis {

  datatype Option<+T> = None | Some(value: T)

  // ---------------------------------------------------------------- lists

  /** LREM list 1 x: drop the leftmost occurrence. */
  function RemoveFirst<T(==)>(s: seq<T>, x: T): seq<T> {
    if s == [] then []
    else if s[0] == x then s[1..]
    else [s[0]] + RemoveFirst(s[1..], x)
  }

  /** LREM list 0 x: drop every occurrence. */
  function RemoveAll<T(==)>(s: seq<T>, x: T): seq<T> {
    if s == [] then []
    else if s[0] == x then RemoveAll(s[1..], x)
    else [s[0]] + RemoveAll(s[1..], x)
  }

  lemma {:induction false} RemoveFirstMembers<T>(s: seq<T>, x: T)
    ensures multiset(RemoveFirst(s, x)) == multiset(s) - multiset{x}
  {
    if s != [] {
      assert s == [s[0]] + s[1..];
      if s[0] != x { RemoveFirstMembers(s[1..], x); }
    }
  }

  lemma {:induction false} RemoveAllMembers<T>(s: seq<T>, x: T)
    ensures multiset(RemoveAll(s, x)) == multiset(s)[x := 0]
  {
    if s != [] {
      assert s == [s[0]] + s[1..];
      RemoveAllMembers(s[1..], x);
    }
  }

  function Reverse<T>(s: seq<T>): (r: seq<T>)
    ensures |r| == |s|
  {
    if s == [] then [] else Reverse(s[1..]) + [s[0]]
  }

  lemma {:induction false} ReverseKeepsMembers<T>(s: seq<T>)
    ensures multiset(Reverse(s)) == multiset(s)
  {
    if s != [] {
      ReverseKeepsMembers(s[1..]);
      assert s == [s[0]] + s[1..];
    }
  }

  lemma {:induction false} ReverseConcat<T>(a: seq<T>, b: seq<T>)
    ensures Reverse(a + b) == Reverse(b) + Reverse(a)
  {
    if a == [] {
      assert a + b == b;
    } else {
      assert (a + b)[1..] == a[1..] + b;
      ReverseConcat(a[1..], b);
      assert Reverse(b) + Reverse(a[1..]) + [a[0]] == Reverse(b) + (Reverse(a[1..]) + [a[0]]);
    }
  }

  lemma ReverseLast<T>(s: seq<T>, x: T)
    ensures Reverse(s + [x]) == [x] + Reverse(s)
  {
    ReverseConcat(s, [x]);
  }

  lemma {:induction false} RemoveAllConcat<T>(a: seq<T>, b: seq<T>, x: T)
    ensures RemoveAll(a + b, x) == RemoveAll(a, x) + RemoveAll(b, x)
  {
    if a == [] {
      assert a + b == b;
    } else {
      assert (a + b)[1..] == a[1..] + b;
      RemoveAllConcat(a[1..], b, x);
    }
  }

  lemma {:induction false} ReverseRemoveAll<T>(s: seq<T>, x: T)
    ensures Reverse(RemoveAll(s, x)) == RemoveAll(Reverse(s), x)
    ensures x in Reverse(s) <==> x in s
    ensures x !in s ==> RemoveAll(s, x) == s
  {
    if s != [] {
      ReverseRemoveAll(s[1..], x);
      RemoveAllConcat(Reverse(s[1..]), [s[0]], x);
      assert s == [s[0]] + s[1..];
    }
  }

  lemma {:induction false} ReverseInvolutes<T>(s: seq<T>)
    ensures Reverse(Reverse(s)) == s
  {
    if s != [] {
      ReverseInvolutes(s[1..]);
      ReverseLast(Reverse(s[1..]), s[0]);
    }
  }

  // ---------------------------------------------------------------- sorted sets

  /** A member of a sorted set. Members are ranked by score, ties by member. */
  datatype Entry = Entry(score: nat, member: nat)

  type Zset = seq<Entry>

  predicate Before(a: Entry, b: Entry) {
    a.score < b.score || (a.score == b.score && a.member < b.member)
  }

  lemma BeforeIsStrict(a: Entry, b: Entry)
    ensures !(Before(a, b) && Before(b, a)) && !Before(a, a)
  {
  }

  predicate Ranked(z: Zset) {
    forall i, j :: 0 <= i < j < |z| ==> Before(z[i], z[j])
  }

  function Members(z: Zset): (r: seq<nat>)
    ensures |r| == |z|
  {
    if z == [] then [] else [z[0].member] + Members(z[1..])
  }

  lemma {:induction false} MembersAt(z: Zset, i: nat)
    requires i < |z|
    ensures Members(z)[i] == z[i].member
  {
    if i > 0 { MembersAt(z[1..], i - 1); }
  }

  lemma {:induction false} MembersConcat(a: Zset, b: Zset)
    ensures Members(a + b) == Members(a) + Members(b)
  {
    if a == [] {
      assert a + b == b;
    } else {
      assert (a + b)[1..] == a[1..] + b;
      MembersConcat(a[1..], b);
    }
  }

  lemma MembersSplit(z: Zset, k: nat)
    requires k <= |z|
    ensures multiset(Members(z)) == multiset(Members(z[..k])) + multiset(Members(z[k..]))
  {
    assert z == z[..k] + z[k..];
    MembersConcat(z[..k], z[k..]);
  }

  predicate Has(z: Zset, m: nat) {
    m in Members(z)
  }

  /** ZREM z m. */
  function Zrem(z: Zset, m: nat): Zset {
    if z == [] then []
    else if z[0].member == m then Zrem(z[1..], m)
    else [z[0]] + Zrem(z[1..], m)
  }

  /** Put an entry at its rank. */
  function Insert(z: Zset, e: Entry): Zset {
    if z == [] then [e]
    else if Before(e, z[0]) then [e] + z
    else [z[0]] + Insert(z[1..], e)
  }

  /** ZADD z score m: a present member is moved to its new score. */
  function Zadd(z: Zset, score: nat, m: nat): Zset {
    Insert(Zrem(z, m), Entry(score, m))
  }

  lemma {:induction false} ZremMembers(z: Zset, m: nat)
    ensures multiset(Members(Zrem(z, m))) == multiset(Members(z))[m := 0]
  {
    if z != [] {
      assert Members(z) == [z[0].member] + Members(z[1..]);
      ZremMembers(z[1..], m);
      if z[0].member != m {
        assert Members(Zrem(z, m)) == [z[0].member] + Members(Zrem(z[1..], m));
      }
    }
  }

  lemma {:induction false} InsertMembers(z: Zset, e: Entry)
    ensures multiset(Members(Insert(z, e))) == multiset(Members(z)) + multiset{e.member}
  {
    if z == [] || Before(e, z[0]) {
      assert Members([e] + z) == [e.member] + Members(z);
    } else {
      assert Members(z) == [z[0].member] + Members(z[1..]);
      InsertMembers(z[1..], e);
      assert Members(Insert(z, e)) == [z[0].member] + Members(Insert(z[1..], e));
    }
  }

  lemma ZaddMembers(z: Zset, score: nat, m: nat)
    ensures multiset(Members(Zadd(z, score, m))) == multiset(Members(z))[m := 1]
  {
    ZremMembers(z, m);
    InsertMembers(Zrem(z, m), Entry(score, m));
  }

  lemma ZaddHas(z: Zset, score: nat, m: nat, x: nat)
    ensures Has(Zadd(z, score, m), x) <==> Has(z, x) || x == m
  {
    ZaddMembers(z, score, m);
    assert Has(Zadd(z, score, m), x) <==> x in multiset(Members(Zadd(z, score, m)));
    assert Has(z, x) <==> x in multiset(Members(z));
  }

  lemma ZremHas(z: Zset, m: nat, x: nat)
    ensures Has(Zrem(z, m), x) <==> Has(z, x) && x != m
  {
    ZremMembers(z, m);
    assert Has(Zrem(z, m), x) <==> x in multiset(Members(Zrem(z, m)));
    assert Has(z, x) <==> x in multiset(Members(z));
  }

  lemma {:induction false} ZremEntries(z: Zset, m: nat, e: Entry)
    ensures e in Zrem(z, m) <==> e in z && e.member != m
  {
    if z != [] {
      ZremEntries(z[1..], m, e);
      assert e in z <==> e == z[0] || e in z[1..];
    }
  }

  lemma {:induction false} InsertEntries(z: Zset, x: Entry, e: Entry)
    ensures e in Insert(z, x) <==> e in z || e == x
  {
    if z != [] {
      InsertEntries(z[1..], x, e);
      assert e in z <==> e == z[0] || e in z[1..];
    }
  }

  lemma ZaddEntries(z: Zset, score: nat, m: nat, e: Entry)
    ensures e in Zadd(z, score, m) <==> (e in z && e.member != m) || e == Entry(score, m)
  {
    InsertEntries(Zrem(z, m), Entry(score, m), e);
    ZremEntries(z, m, e);
  }

  lemma {:induction false} InsertRanked(z: Zset, e: Entry)
    requires Ranked(z) && forall x :: x in z ==> x.member != e.member
    ensures Ranked(Insert(z, e))
  {
    if z != [] && !Before(e, z[0]) {
      InsertRanked(z[1..], e);
      var r := Insert(z[1..], e);
      forall j | 0 <= j < |r| ensures Before(z[0], r[j]) {
        InsertEntries(z[1..], e, r[j]);
      }
    }
  }

  lemma {:induction false} ZremRanked(z: Zset, m: nat)
    requires Ranked(z)
    ensures Ranked(Zrem(z, m))
  {
    if z != [] {
      ZremRanked(z[1..], m);
      var r := Zrem(z[1..], m);
      forall j | 0 <= j < |r| ensures Before(z[0], r[j]) {
        ZremEntries(z[1..], m, r[j]);
      }
    }
  }

  lemma ZaddRanked(z: Zset, score: nat, m: nat)
    requires Ranked(z)
    ensures Ranked(Zadd(z, score, m))
  {
    ZremRanked(z, m);
    forall x | x in Zrem(z, m) ensures x.member != m { ZremEntries(z, m, x); }
    InsertRanked(Zrem(z, m), Entry(score, m));
  }

  /** How many leading entries have a score of at most `max`: on a ranked set these are
      exactly the members ZRANGEBYSCORE z 0 max returns, in the same order. */
  function CountUpTo(z: Zset, max: nat): (n: nat)
    ensures n <= |z|
    ensures forall i :: 0 <= i < n ==> z[i].score <= max
    ensures n < |z| ==> z[n].score > max
  {
    if z == [] || z[0].score > max then 0 else 1 + CountUpTo(z[1..], max)
  }

  lemma CountUpToComplete(z: Zset, max: nat)
    requires Ranked(z)
    ensures forall i :: 0 <= i < |z| ==> (i < CountUpTo(z, max) <==> z[i].score <= max)
  {
  }

  function Min(a: int, b: int): int { if a < b then a else b }

  function Max(a: int, b: int): int { if a < b then b else a }
}

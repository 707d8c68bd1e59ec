/** Numbers as Redis stores them: decimal strings, and how Lua compares such strings. */
module Decimals {

  function Decimal(n: nat): string {
    if n < 10 then ["0123456789"[n]] else Decimal(n / 10) + ["0123456789"[n % 10]]
  }

  lemma {:induction false} DecimalInjective(m: nat, n: nat)
    requires Decimal(m) == Decimal(n)
    ensures m == n
  {
    DigitsDiffer(m % 10, n % 10);
    LastDigit(m);
    LastDigit(n);
    DecimalNotEmpty(m / 10);
    DecimalNotEmpty(n / 10);
    if m >= 10 && n >= 10 {
      assert Decimal(m / 10) == Decimal(m)[..|Decimal(m)| - 1];
      assert Decimal(n / 10) == Decimal(n)[..|Decimal(n)| - 1];
      DecimalInjective(m / 10, n / 10);
    }
  }

  lemma DecimalNotEmpty(n: nat)
    ensures |Decimal(n)| > 0
  {
  }

  lemma LastDigit(n: nat)
    ensures |Decimal(n)| > 0 && Decimal(n)[|Decimal(n)| - 1] == "0123456789"[n % 10]
    ensures |Decimal(n)| == 1 <==> n < 10
  {
    DecimalNotEmpty(n / 10);
  }

  lemma DigitsDiffer(a: nat, b: nat)
    requires a < 10 && b < 10
    ensures "0123456789"[a] == "0123456789"[b] ==> a == b
  {
    var s := "0123456789";
    assert s[0] == '0' && s[1] == '1' && s[2] == '2' && s[3] == '3' && s[4] == '4';
    assert s[5] == '5' && s[6] == '6' && s[7] == '7' && s[8] == '8' && s[9] == '9';
  }

  /** Lua's `<=` on strings. */
  predicate TextLe(a: string, b: string) {
    a == [] || (b != [] && (a[0] < b[0] || (a[0] == b[0] && TextLe(a[1..], b[1..]))))
  }

  lemma {:induction false} TextLeLast(a: string, b: string, c: char, d: char)
    requires |a| == |b|
    ensures TextLe(a + [c], b + [d]) <==> if a == b then c <= d else TextLe(a, b)
  {
    if a != [] {
      assert (a + [c])[1..] == a[1..] + [c] && (b + [d])[1..] == b[1..] + [d];
      TextLeLast(a[1..], b[1..], c, d);
      if a[0] == b[0] { assert a == b <==> a[1..] == b[1..]; }
    } else {
      assert TextLe([c], [d]) <==> c <= d by { assert [c][1..] == [] && [d][1..] == []; }
      assert [] + [c] == [c] && [] + [d] == [d];
    }
  }

  lemma DigitOrder(a: nat, b: nat)
    requires a < 10 && b < 10
    ensures "0123456789"[a] <= "0123456789"[b] <==> a <= b
  {
    var s := "0123456789";
    assert s[0] == '0' && s[1] == '1' && s[2] == '2' && s[3] == '3' && s[4] == '4';
    assert s[5] == '5' && s[6] == '6' && s[7] == '7' && s[8] == '8' && s[9] == '9';
  }

  /** Numbers of equally many digits compare as strings the way they compare as numbers. */
  lemma {:induction false} SameLengthOrder(m: nat, n: nat)
    requires |Decimal(m)| == |Decimal(n)|
    ensures TextLe(Decimal(m), Decimal(n)) <==> m <= n
  {
    LastDigit(m);
    LastDigit(n);
    DigitOrder(m % 10, n % 10);
    if m < 10 {
      TextLeLast([], [], "0123456789"[m], "0123456789"[n]);
      assert [] + Decimal(m) == Decimal(m) && [] + Decimal(n) == Decimal(n);
    } else {
      SameLengthOrder(m / 10, n / 10);
      if Decimal(m / 10) == Decimal(n / 10) { DecimalInjective(m / 10, n / 10); }
      TextLeLast(Decimal(m / 10), Decimal(n / 10), "0123456789"[m % 10], "0123456789"[n % 10]);
    }
  }

  /** The number left when the last `d` digits are dropped. */
  function Leading(n: nat, d: nat): nat {
    if d == 0 then n else Leading(n / 10, d - 1)
  }

  lemma {:induction false} LeadingDigits(n: nat, d: nat)
    requires d < |Decimal(n)|
    ensures Decimal(Leading(n, d)) == Decimal(n)[..|Decimal(n)| - d]
  {
    if d > 0 {
      LastDigit(n);
      LeadingDigits(n / 10, d - 1);
    } else {
      assert Decimal(n)[..|Decimal(n)|] == Decimal(n);
    }
  }

  lemma {:induction false} TextLePrefix(a: string, b: string)
    ensures |a| <= |b| ==> (TextLe(a, b) <==> TextLe(a, b[..|a|]))
    ensures |a| > |b| ==> (TextLe(a, b) <==> TextLe(a[..|b|], b) && a[..|b|] != b)
  {
    if a != [] && b != [] {
      TextLePrefix(a[1..], b[1..]);
      if |a| <= |b| {
        assert b[..|a|][1..] == b[1..][..|a[1..]|];
      } else {
        assert a[..|b|][1..] == a[1..][..|b[1..]|];
        assert a[0] == b[0] ==> (a[..|b|] == b <==> a[1..][..|b[1..]|] == b[1..]);
      }
    } else if a == [] {
      assert b[..0] == [];
    }
  }

  /** In general the comparison sees only as many digits of the longer number as the shorter one
      has. */
  lemma TextOrder(m: nat, n: nat)
    ensures var a, b := |Decimal(m)|, |Decimal(n)|;
      TextLe(Decimal(m), Decimal(n)) <==> if a <= b then m <= Leading(n, b - a) else Leading(m, a - b) < n
  {
    hide Decimal, TextLe;
    var a, b := |Decimal(m)|, |Decimal(n)|;
    DecimalNotEmpty(m);
    DecimalNotEmpty(n);
    TextLePrefix(Decimal(m), Decimal(n));
    if a <= b {
      LeadingDigits(n, b - a);
      SameLengthOrder(m, Leading(n, b - a));
    } else {
      LeadingDigits(m, a - b);
      SameLengthOrder(Leading(m, a - b), n);
      if Decimal(Leading(m, a - b)) == Decimal(n) { DecimalInjective(Leading(m, a - b), n); }
    }
  }

  lemma {:induction false} FewerDigits(m: nat, n: nat)
    requires |Decimal(m)| < |Decimal(n)|
    ensures m < n
  {
    LastDigit(m);
    LastDigit(n);
    if m >= 10 {
      assert |Decimal(m)| == |Decimal(m / 10)| + 1 && |Decimal(n)| == |Decimal(n / 10)| + 1;
      FewerDigits(m / 10, n / 10);
    }
  }

  /** Equally many digits, or the shorter number is at most the leading digits of the longer one. */
  predicate ReadsRight(m: nat, n: nat) {
    var a, b := |Decimal(m)|, |Decimal(n)|;
    a == b || (a < b && m <= Leading(n, b - a)) || (a > b && n <= Leading(m, a - b))
  }

  /** Exactly then the comparison of the strings is that of the numbers. */
  lemma ReadsRightIff(m: nat, n: nat)
    ensures (TextLe(Decimal(m), Decimal(n)) <==> m <= n) <==> ReadsRight(m, n)
  {
    hide TextLe, Decimal, Leading;
    TextOrder(m, n);
    if |Decimal(m)| == |Decimal(n)| {
      SameLengthOrder(m, n);
    } else if |Decimal(m)| < |Decimal(n)| {
      FewerDigits(m, n);
    } else {
      FewerDigits(n, m);
    }
  }
}

/**
 * String and sequence helpers that stand for the JavaScript built-ins the core
 * uses: `slice(0, n)`, `reverse()`, `replace(/[...]/g, "")`, `repeat`, `Number#toString()`,
 * the default `Array#sort()` order on strings, and `toUpperCase` on ASCII.
 */
module Text {

  /** `s.slice(0, n)` for a non-negative n (also `limit(n)` on a query's rows). */
  function Take<T>(s: seq<T>, n: nat): (r: seq<T>)
    ensures |r| == if n < |s| then n else |s|
    ensures r <= s
  {
    if n < |s| then s[..n] else s
  }

  /** `Array#reverse()`: the element at i moves to the mirrored position. */
  function Reverse<T>(s: seq<T>): seq<T>
  {
    seq(|s|, i requires 0 <= i < |s| => s[|s| - 1 - i])
  }

  /** Reversing a concatenation reverses and swaps the parts. */
  lemma ReverseAppend<T>(a: seq<T>, b: seq<T>)
    ensures Reverse(a + b) == Reverse(b) + Reverse(a)
  {
    var l, r := Reverse(a + b), Reverse(b) + Reverse(a);
    assert |l| == |r|;
    forall i | 0 <= i < |l|
      ensures l[i] == r[i]
    {
      if i < |b| {
        assert l[i] == (a + b)[|a| + |b| - 1 - i] == b[|b| - 1 - i];
      } else {
        assert l[i] == (a + b)[|a| + |b| - 1 - i] == a[|a| - 1 - (i - |b|)];
      }
    }
  }

  /** Reversing a concatenation whose first part has at most one element moves that part to the end. */
  lemma ReverseShortHead<T>(head: seq<T>, rest: seq<T>)
    requires |head| <= 1
    ensures Reverse(head + rest) == Reverse(rest) + head
  {
    ReverseAppend(head, rest);
    assert Reverse(head) == head;
  }

  /** A mirror image of a prefix of a mirror image is a suffix of the original. */
  lemma MirroredPrefix<T>(s: seq<T>, whole: seq<T>, k: nat, r: seq<T>)
    requires k <= |s| == |whole|
    requires forall i :: 0 <= i < |whole| ==> whole[i] == s[|s| - 1 - i]
    requires |r| == k
    requires forall i :: 0 <= i < k ==> r[i] == whole[k - 1 - i]
    ensures r == s[|s| - k..]
  {
    forall i | 0 <= i < k
      ensures r[i] == s[|s| - k..][i]
    {
      assert whole[k - 1 - i] == s[|s| - 1 - (k - 1 - i)];
    }
  }

  /** Taking the first n of the reversed sequence and reversing back keeps the last n, in order. */
  lemma LastOfReversed<T>(s: seq<T>, n: nat)
    ensures var k := if n < |s| then n else |s|;
      Reverse(Take(Reverse(s), n)) == s[|s| - k..]
  {
    var k := if n < |s| then n else |s|;
    var whole := Reverse(s);
    var page := Take(whole, n);
    assert page == whole[..k];
    var r := Reverse(page);
    forall i | 0 <= i < k
      ensures r[i] == whole[k - 1 - i]
    {
      assert r[i] == page[k - 1 - i];
    }
    MirroredPrefix(s, whole, k, r);
  }

  /** `s.replace(/[cs]/g, "")`: every character in cs is deleted, the rest keep their order. */
  function RemoveAll(s: string, cs: set<char>): (r: string)
    ensures |r| <= |s|
    ensures forall i :: 0 <= i < |r| ==> r[i] !in cs
  {
    if s == [] then []
    else (if s[0] in cs then [] else [s[0]]) + RemoveAll(s[1..], cs)
  }

  lemma {:induction false} RemoveAllConcat(a: string, b: string, cs: set<char>)
    ensures RemoveAll(a + b, cs) == RemoveAll(a, cs) + RemoveAll(b, cs)
  {
    if a == [] {
      assert a + b == b;
    } else {
      assert (a + b)[0] == a[0];
      assert (a + b)[1..] == a[1..] + b;
      RemoveAllConcat(a[1..], b, cs);
    }
  }

  lemma {:induction false} RemoveAllKeeps(s: string, cs: set<char>)
    requires forall i :: 0 <= i < |s| ==> s[i] !in cs
    ensures RemoveAll(s, cs) == s
  {
    if s != [] {
      RemoveAllKeeps(s[1..], cs);
    }
  }

  /** `c.repeat(n)` for a one-character string. */
  function RepeatChar(c: char, n: nat): (r: string)
    ensures |r| == n
    ensures forall i :: 0 <= i < n ==> r[i] == c
  {
    if n == 0 then [] else [c] + RepeatChar(c, n - 1)
  }

  predicate IsDigit(c: char) { '0' <= c <= '9' }

  predicate IsHexDigit(c: char) { '0' <= c <= '9' || 'a' <= c <= 'f' || 'A' <= c <= 'F' }

  predicate AllDigits(s: string) { forall i :: 0 <= i < |s| ==> IsDigit(s[i]) }

  function DigitChar(d: nat): char
    requires d < 10
  {
    ['0', '1', '2', '3', '4', '5', '6', '7', '8', '9'][d]
  }

  function DigitValue(c: char): nat
    requires IsDigit(c)
  {
    (c as int - '0' as int) as nat
  }

  /** The decimal digits of n, most significant first, as `n.toString()` prints them. */
  function NatToString(n: nat): (r: string)
    ensures |r| >= 1 && AllDigits(r)
    ensures r[0] == '0' ==> n == 0
  {
    if n < 10 then [DigitChar(n)] else NatToString(n / 10) + [DigitChar(n % 10)]
  }

  /** The number a string of decimal digits denotes. */
  function DecimalValue(s: string): nat
    requires AllDigits(s)
  {
    if s == [] then 0 else 10 * DecimalValue(s[..|s| - 1]) + DigitValue(s[|s| - 1])
  }

  /** Printing a natural number loses nothing: its digits read back as the number. */
  lemma {:induction false} NatToStringRoundTrip(n: nat)
    ensures DecimalValue(NatToString(n)) == n
  {
    if n >= 10 {
      var r := NatToString(n);
      assert r[..|r| - 1] == NatToString(n / 10);
      NatToStringRoundTrip(n / 10);
    }
  }

  /** `String(n)` for an integer. */
  function IntToString(n: int): (r: string)
    ensures |r| >= 1
    ensures n >= 0 ==> r == NatToString(n)
    ensures n < 0 ==> r == "-" + NatToString(-n)
  {
    if n < 0 then "-" + NatToString(-n) else NatToString(n)
  }

  /**
   * `(cents / 100).toFixed(2)` for a whole number of cents: the sign, then
   * the digits of the magnitude.
   */
  function CentsToFixed(cents: int): (r: string)
    ensures |r| >= 4 && r[|r| - 3] == '.'
    ensures (r[0] == '-') <==> cents < 0
  {
    if cents < 0 then "-" + FixedDigits(-cents) else FixedDigits(cents)
  }

  /** The whole units of m cents, a dot and exactly two digits of cents. */
  function FixedDigits(m: nat): (r: string)
    ensures |r| >= 4 && r[0] != '-' && r[|r| - 3] == '.'
  {
    NatToString(m / 100) + "." + [DigitChar(m % 100 / 10), DigitChar(m % 10)]
  }

  /** The printed magnitude reads back as the number of cents: units before the dot, cents after it. */
  lemma FixedDigitsRoundTrip(m: nat)
    ensures var r := FixedDigits(m);
      && AllDigits(r[..|r| - 3]) && AllDigits(r[|r| - 2..])
      && 100 * DecimalValue(r[..|r| - 3]) + DecimalValue(r[|r| - 2..]) == m
  {
    var q, rem := m / 100, m % 100;
    assert m == 100 * q + rem;
    var tail := [DigitChar(rem / 10), DigitChar(rem % 10)];
    var r := FixedDigits(m);
    assert r == NatToString(q) + "." + tail;
    SplitAtDot(NatToString(q), tail);
    NatToStringRoundTrip(q);
    TwoDigitsValue(rem);
    assert DecimalValue(r[..|r| - 3]) == q;
    assert DecimalValue(r[|r| - 2..]) == rem;
  }

  lemma SplitAtDot(units: string, tail: string)
    requires |tail| == 2
    ensures var s := units + "." + tail; s[..|s| - 3] == units && s[|s| - 2..] == tail
  {
    var s := units + "." + tail;
    assert s[..|s| - 3] == units;
    assert s[|s| - 2..] == tail;
  }

  /** Two digits printed for a number below 100 read back as that number. */
  lemma TwoDigitsValue(n: nat)
    requires n < 100
    ensures AllDigits([DigitChar(n / 10), DigitChar(n % 10)])
    ensures DecimalValue([DigitChar(n / 10), DigitChar(n % 10)]) == n
  {
    var hi := [DigitChar(n / 10)];
    var tail := hi + [DigitChar(n % 10)];
    DigitCharValue(n / 10);
    DigitCharValue(n % 10);
    assert tail[..1] == hi && hi[..0] == [];
    assert DecimalValue(hi) == n / 10;
  }

  lemma DigitCharValue(d: nat)
    requires d < 10
    ensures IsDigit(DigitChar(d)) && DigitValue(DigitChar(d)) == d
  {
  }

  /** `c.toUpperCase()` on the ASCII range, where the ids it is applied to live. */
  function UpperAscii(s: string): (r: string)
    ensures |r| == |s|
    ensures forall i :: 0 <= i < |s| ==> !('a' <= r[i] <= 'z')
    ensures forall i :: 0 <= i < |s| ==> r[i] == if 'a' <= s[i] <= 'z' then (s[i] as int - 32) as char else s[i]
  {
    if s == [] then []
    else [if 'a' <= s[0] <= 'z' then (s[0] as int - 32) as char else s[0]] + UpperAscii(s[1..])
  }

  // ---------------------------------------------------------------------------
  // The order `Array#prototype.sort()` uses on strings: lexicographic on characters.

  predicate StrLess(a: string, b: string)
  {
    if a == [] then b != []
    else if b == [] then false
    else if a[0] != b[0] then a[0] < b[0]
    else StrLess(a[1..], b[1..])
  }

  predicate StrLessEq(a: string, b: string) { a == b || StrLess(a, b) }

  lemma {:induction false} StrLessIrreflexive(a: string)
    ensures !StrLess(a, a)
  {
    if a != [] {
      StrLessIrreflexive(a[1..]);
    }
  }

  lemma {:induction false} StrLessAsymmetric(a: string, b: string)
    requires StrLess(a, b)
    ensures !StrLess(b, a)
  {
    if a != [] && b != [] && a[0] == b[0] {
      StrLessAsymmetric(a[1..], b[1..]);
    }
  }

  lemma {:induction false} StrLessTransitive(a: string, b: string, c: string)
    requires StrLess(a, b) && StrLess(b, c)
    ensures StrLess(a, c)
  {
    if a != [] && b != [] && c != [] && a[0] == b[0] && b[0] == c[0] {
      StrLessTransitive(a[1..], b[1..], c[1..]);
    }
  }

  lemma {:induction false} StrLessTotal(a: string, b: string)
    requires a != b
    ensures StrLess(a, b) || StrLess(b, a)
  {
    if a != [] && b != [] && a[0] == b[0] {
      assert a == [a[0]] + a[1..] && b == [b[0]] + b[1..];
      StrLessTotal(a[1..], b[1..]);
    }
  }
}

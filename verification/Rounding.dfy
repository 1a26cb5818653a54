/** Python's rounding and sorting over exact numbers. */
module Rounding {

  /** `round(x)`: to the nearest integer, ties to the even one. */
  function RoundHalfEven(x: real): int {
    var m := x.Floor;
    var f := x - m as real;
    if f < 0.5 then m
    else if f > 0.5 then m + 1
    else if m % 2 == 0 then m
    else m + 1
  }

  /** `round(x, digits)` with `scale` the power of ten. */
  function RoundAt(x: real, scale: real): real
    requires scale > 0.0
  {
    RoundHalfEven(x * scale) as real / scale
  }

  lemma RoundHalfEvenClose(x: real)
    ensures -0.5 <= RoundHalfEven(x) as real - x <= 0.5
  {
  }

  lemma RoundHalfEvenMonotone(x: real, y: real)
    requires x <= y
    ensures RoundHalfEven(x) <= RoundHalfEven(y)
  {
    assert x.Floor <= y.Floor;
  }

  lemma RoundAtClose(x: real, scale: real)
    requires scale > 0.0
    ensures -0.5 / scale <= RoundAt(x, scale) - x <= 0.5 / scale
    ensures x >= 0.0 ==> RoundAt(x, scale) >= 0.0
  {
    RoundHalfEvenClose(x * scale);
    var r := RoundHalfEven(x * scale) as real;
    Divide(-0.5, r - x * scale, scale);
    Divide(r - x * scale, 0.5, scale);
    Quotient(r, x, scale);
    if x >= 0.0 {
      assert x * scale >= 0.0;
      assert r >= 0.0;
    }
  }

  /** A rounded value times the scale is an integer. */
  lemma RoundedTimesScale(x: real, scale: real)
    requires scale > 0.0
    ensures RoundAt(x, scale) * scale == RoundHalfEven(x * scale) as real
  {
  }

  lemma Divide(a: real, b: real, scale: real)
    requires a <= b && scale > 0.0
    ensures a / scale <= b / scale
  {
  }

  lemma Quotient(r: real, x: real, scale: real)
    requires scale > 0.0
    ensures (r - x * scale) / scale == r / scale - x
  {
    assert x * scale / scale == x;
  }

  // ------------------------------------------------------------------ sorting

  function Insert(x: real, s: seq<real>): seq<real> {
    if s == [] || x <= s[0] then [x] + s else [s[0]] + Insert(x, s[1..])
  }

  /** `sorted(values)`. */
  function Sort(s: seq<real>): seq<real> {
    if s == [] then [] else Insert(s[0], Sort(s[1..]))
  }

  predicate Ordered(s: seq<real>) {
    forall i, j :: 0 <= i <= j < |s| ==> s[i] <= s[j]
  }

  lemma {:induction false} InsertKeepsValues(x: real, s: seq<real>)
    ensures multiset(Insert(x, s)) == multiset{x} + multiset(s)
  {
    if s != [] && x > s[0] {
      InsertKeepsValues(x, s[1..]);
      assert s == [s[0]] + s[1..];
    }
  }

  lemma {:induction false} InsertAbove(x: real, s: seq<real>, low: real)
    requires low <= x && forall i :: 0 <= i < |s| ==> low <= s[i]
    ensures forall i :: 0 <= i < |Insert(x, s)| ==> low <= Insert(x, s)[i]
  {
    if s != [] && x > s[0] {
      InsertAbove(x, s[1..], low);
    }
  }

  lemma {:induction false} InsertOrdered(x: real, s: seq<real>)
    requires Ordered(s)
    ensures Ordered(Insert(x, s))
  {
    if s != [] && x > s[0] {
      InsertOrdered(x, s[1..]);
      InsertAbove(x, s[1..], s[0]);
      assert Insert(x, s) == [s[0]] + Insert(x, s[1..]);
    } else {
      assert Insert(x, s) == [x] + s;
    }
    hide Insert;
  }

  /** A sorted copy: the same values, in order. */
  lemma {:induction false} SortIsSorted(s: seq<real>)
    ensures Ordered(Sort(s)) && multiset(Sort(s)) == multiset(s) && |Sort(s)| == |s|
  {
    if s != [] {
      SortIsSorted(s[1..]);
      InsertOrdered(s[0], Sort(s[1..]));
      InsertKeepsValues(s[0], Sort(s[1..]));
      assert s == [s[0]] + s[1..];
    }
    assert |multiset(Sort(s))| == |Sort(s)| && |multiset(s)| == |s|;
  }

  /** How many values are at most v. */
  function AtMost(s: seq<real>, v: real): nat {
    if s == [] then 0 else (if s[0] <= v then 1 else 0) + AtMost(s[1..], v)
  }

  /** How many values are strictly below v. */
  function StrictlyBelow(s: seq<real>, v: real): nat {
    if s == [] then 0 else (if s[0] < v then 1 else 0) + StrictlyBelow(s[1..], v)
  }

  lemma {:induction false} InsertCounts(x: real, s: seq<real>, v: real)
    ensures AtMost(Insert(x, s), v) == AtMost([x] + s, v)
    ensures StrictlyBelow(Insert(x, s), v) == StrictlyBelow([x] + s, v)
  {
    assert ([x] + s)[1..] == s;
    if s != [] && x > s[0] {
      InsertCounts(x, s[1..], v);
      assert ([x] + s[1..])[1..] == s[1..];
    }
  }

  /** Sorting changes no count. */
  lemma {:induction false} SortCounts(s: seq<real>, v: real)
    ensures AtMost(Sort(s), v) == AtMost(s, v) && StrictlyBelow(Sort(s), v) == StrictlyBelow(s, v)
  {
    if s != [] {
      SortCounts(s[1..], v);
      InsertCounts(s[0], Sort(s[1..]), v);
      assert ([s[0]] + Sort(s[1..]))[1..] == Sort(s[1..]);
    }
  }

  /** In a sorted sequence the first k + 1 values are at most s[k], and only earlier ones below it. */
  lemma {:induction false} OrderedCounts(s: seq<real>, k: nat)
    requires Ordered(s) && k < |s|
    ensures AtMost(s, s[k]) >= k + 1 && StrictlyBelow(s, s[k]) <= k
  {
    if k == 0 {
      NoneBelow(s, s[0]);
    } else {
      assert s[1..][k - 1] == s[k];
      OrderedCounts(s[1..], k - 1);
    }
  }

  lemma {:induction false} NoneBelow(s: seq<real>, v: real)
    requires forall i :: 0 <= i < |s| ==> v <= s[i]
    ensures StrictlyBelow(s, v) == 0
  {
    if s != [] {
      NoneBelow(s[1..], v);
    }
  }

  /** The k-th smallest value, by counting samples in any order. */
  lemma OrderStatistic(s: seq<real>, k: nat)
    requires k < |s|
    ensures |Sort(s)| == |s|
    ensures AtMost(s, Sort(s)[k]) >= k + 1 && StrictlyBelow(s, Sort(s)[k]) <= k
  {
    SortIsSorted(s);
    SortCounts(s, Sort(s)[k]);
    OrderedCounts(Sort(s), k);
  }
}

/** The tiled log-probability kernel of the QLoRA trainer, over exact reals.

    The kernel walks the vocabulary in tiles and merges one log-sum-exp per tile
    into a running pair (runMax, runSum). It stands in for the untiled computation
    `z[target] - log(sum(exp(z)))`; the lemmas below say exactly how the two relate. */
module LogProbKernel {
  import opened Wrappers

  /** The elementary functions the tensor library supplies. */
  datatype Elementary = Elementary(expFn: real -> real, logFn: real -> real, tanhFn: real -> real) {
    function Exp(x: real): real { expFn(x) }
    function Log(x: real): real { logFn(x) }
    function Tanh(x: real): real { tanhFn(x) }

    /** The laws of exp and log that the merge relies on. `Plus` and `Less` only steer the
        solver to the instances it needs. */
    ghost predicate Lawful() {
      && (forall x :: Exp(x) > 0.0)
      && (forall x, y {:trigger Plus(x, y)} :: Exp(Plus(x, y)) == Times(Exp(x), Exp(y)))
      && (forall x, y {:trigger Less(x, y)} :: Less(x, y) ==> Exp(x) < Exp(y))
      && (forall y :: y > 0.0 ==> Exp(Log(y)) == y)
    }
  }

  function Plus(x: real, y: real): real { x + y }

  /** Multiplication by name: the proofs below fold and unfold it one product at a time. */
  function Times(x: real, y: real): real { x * y }

  /** Division by name. */
  function Over(x: real, y: real): real
    requires y != 0.0
  {
    x / y
  }

  predicate Less(x: real, y: real) { x < y }

  /** A running maximum starts below every real number. */
  datatype Extended = NegInf | Fin(value: real)

  predicate Below(a: Extended, r: real) { a.NegInf? || a.value < r }

  function Greater(a: Extended, r: real): real {
    if Below(a, r) then r else a.value
  }

  /** exp(a - m), which is 0 for a == -infinity. */
  function ExpDiff(el: Elementary, a: Extended, m: real): real {
    if a.NegInf? then 0.0 else el.Exp(a.value - m)
  }

  function Min(a: nat, b: nat): nat { if a <= b then a else b }

  // ---------------------------------------------------------------- one row

  function Sum(z: seq<real>): real {
    if z == [] then 0.0 else z[0] + Sum(z[1..])
  }

  function SumExp(el: Elementary, z: seq<real>): real {
    if z == [] then 0.0 else el.Exp(z[0]) + SumExp(el, z[1..])
  }

  /** The untiled log-sum-exp. */
  function LogSumExp(el: Elementary, z: seq<real>): real {
    el.Log(SumExp(el, z))
  }

  /** The sum of p * z with p = exp(z - lse). */
  function WeightedSum(el: Elementary, z: seq<real>, lse: real): real {
    if z == [] then 0.0 else Times(el.Exp(z[0] - lse), z[0]) + WeightedSum(el, z[1..], lse)
  }

  /** The sum of p * p. */
  function SquareSum(el: Elementary, z: seq<real>, lse: real): real {
    if z == [] then 0.0 else Times(el.Exp(z[0] - lse), el.Exp(z[0] - lse)) + SquareSum(el, z[1..], lse)
  }

  /** Index of the first maximal entry, as `max(dim=-1)` returns it. */
  function ArgMax(z: seq<real>): (k: nat)
    requires z != []
    ensures k < |z|
    ensures forall j :: 0 <= j < |z| ==> z[j] <= z[k]
    ensures forall j :: 0 <= j < k ==> z[j] < z[k]
  {
    if |z| == 1 then 0
    else
      var k := ArgMax(z[..|z| - 1]);
      assert forall j :: 0 <= j < |z| - 1 ==> z[j] == z[..|z| - 1][j];
      if z[|z| - 1] > z[k] then |z| - 1 else k
  }

  function Max(z: seq<real>): real
    requires z != []
  {
    z[ArgMax(z)]
  }

  /** What the kernel accumulates for one row. */
  datatype RowState = RowState(runMax: Extended, runSum: real, zSum: real, xSum: real, sqSum: real, amaxIdx: nat)

  const START := RowState(NegInf, 0.0, 0.0, 0.0, 0.0, 0)

  predicate Overtakes(s: RowState, z: seq<real>, v: nat)
    requires z != []
  {
    Below(s.runMax, Max(z)) || (s.runMax == Fin(Max(z)) && v + ArgMax(z) < s.amaxIdx)
  }

  /** One vocabulary tile `z`, whose first column is `v`, merged into the row state. */
  function Merge(el: Elementary, s: RowState, z: seq<real>, v: nat): RowState
    requires z != []
  {
    var m := if Overtakes(s, z, v) then Fin(Max(z)) else s.runMax;
    var lse := LogSumExp(el, z);
    var merged := Greater(m, lse);
    RowState(
      Fin(merged),
      Times(s.runSum, ExpDiff(el, m, merged)) + el.Exp(lse - merged),
      s.zSum + Sum(z),
      s.xSum + WeightedSum(el, z, lse),
      s.sqSum + SquareSum(el, z, lse),
      if Overtakes(s, z, v) then v + ArgMax(z) else s.amaxIdx)
  }

  /** All tiles from column `v` on, left to right. */
  function Run(el: Elementary, s: RowState, z: seq<real>, c: nat, v: nat): RowState
    requires c >= 1
    decreases |z| - v
  {
    if v >= |z| then s
    else
      var e := Min(v + c, |z|);
      Run(el, Merge(el, s, z[v..e], v), z, c, e)
  }

  /** runMax + log(runSum); the maximum is finite once a tile has been merged. */
  function LogPartition(el: Elementary, s: RowState): real {
    (if s.runMax.NegInf? then 0.0 else s.runMax.value) + el.Log(s.runSum)
  }

  /** The kernel's log-partition value for a row. */
  function LogZ(el: Elementary, z: seq<real>, c: nat): real
    requires c >= 1 && z != []
  {
    LogPartition(el, FinalState(el, z, c))
  }

  function TilesLeft(len: nat, c: nat, v: nat): nat
    requires c >= 1
    decreases len - v
  {
    if v >= len then 0 else 1 + TilesLeft(len, c, Min(v + c, len))
  }

  /** `best` is the largest tile log-sum-exp so far. The remaining tiles keep up with it when
      none has an entry above the best of the tiles before it. It reads the input alone. */
  predicate NeverOvertaken(el: Elementary, best: real, z: seq<real>, c: nat, v: nat)
    requires c >= 1
    decreases |z| - v
  {
    v >= |z| ||
    var e := Min(v + c, |z|);
    && Max(z[v..e]) <= best
    && NeverOvertaken(el, Greater(Fin(best), LogSumExp(el, z[v..e])), z, c, e)
  }

  /** No tile after the first has an entry above the log-sum-exp of every tile before it. */
  predicate FirstTilesDominate(el: Elementary, z: seq<real>, c: nat)
    requires c >= 1 && z != []
  {
    var e := Min(c, |z|);
    NeverOvertaken(el, LogSumExp(el, z[..e]), z, c, e)
  }

  // ------------------------------------------------------------ small facts

  lemma SumSplit(z: seq<real>, v: nat)
    requires v <= |z|
    ensures Sum(z) == Sum(z[..v]) + Sum(z[v..])
  {
    if v == 0 {
      assert z[v..] == z;
    } else {
      assert z[..v][1..] == z[1..][..v - 1] && z[1..][v - 1..] == z[v..];
      SumSplit(z[1..], v - 1);
    }
  }

  lemma SumExpSplit(el: Elementary, z: seq<real>, v: nat)
    requires v <= |z|
    ensures SumExp(el, z) == SumExp(el, z[..v]) + SumExp(el, z[v..])
  {
    if v == 0 {
      assert z[v..] == z;
    } else {
      assert z[..v][1..] == z[1..][..v - 1] && z[1..][v - 1..] == z[v..];
      SumExpSplit(el, z[1..], v - 1);
    }
  }

  lemma SumExpAbove(el: Elementary, z: seq<real>, k: nat)
    requires el.Lawful() && k < |z|
    ensures SumExp(el, z) >= el.Exp(z[k]) > 0.0
  {
    if k == 0 {
      SumExpNonNegative(el, z[1..]);
    } else {
      SumExpAbove(el, z[1..], k - 1);
    }
  }

  lemma SumExpNonNegative(el: Elementary, z: seq<real>)
    requires el.Lawful()
    ensures SumExp(el, z) >= 0.0
  {
    if z != [] {
      SumExpNonNegative(el, z[1..]);
    }
  }

  lemma ExpSum(el: Elementary, x: real, y: real, s: real)
    requires el.Lawful() && s == x + y
    ensures el.Exp(s) == Times(el.Exp(x), el.Exp(y))
  {
    assert Plus(x, y) == s;
  }

  lemma ExpShift(el: Elementary, x: real, m: real)
    requires el.Lawful()
    ensures Times(el.Exp(x - m), el.Exp(m)) == el.Exp(x)
  {
    ExpSum(el, x - m, m, x);
  }

  lemma ExpMonotone(el: Elementary, x: real, y: real)
    requires el.Lawful()
    ensures x < y <==> el.Exp(x) < el.Exp(y)
    ensures x == y <==> el.Exp(x) == el.Exp(y)
  {
    assert Less(x, y) || Less(y, x) || x == y;
  }

  lemma LogMonotone(el: Elementary, x: real, y: real)
    requires el.Lawful() && 0.0 < x && 0.0 < y
    ensures x < y <==> el.Log(x) < el.Log(y)
    ensures x == y <==> el.Log(x) == el.Log(y)
  {
    ExpMonotone(el, el.Log(x), el.Log(y));
  }

  /** A tile's log-sum-exp is never below its largest entry. */
  lemma LseAboveMax(el: Elementary, z: seq<real>)
    requires el.Lawful() && z != []
    ensures Max(z) <= LogSumExp(el, z)
    ensures el.Exp(LogSumExp(el, z)) == SumExp(el, z) > 0.0
  {
    SumExpAbove(el, z, ArgMax(z));
    ExpMonotone(el, LogSumExp(el, z), Max(z));
  }

  // -------------------------------------------------- the merge, one tile

  /** The total weight a state stands for: runSum * exp(runMax). */
  function Mass(el: Elementary, s: RowState): real {
    if s.runMax.NegInf? then 0.0 else Times(s.runSum, el.Exp(s.runMax.value))
  }

  lemma ExpZero(el: Elementary, zero: real)
    requires el.Lawful() && zero == 0.0
    ensures el.Exp(zero) == 1.0
  {
    ExpSum(el, zero, zero, zero);
    IdempotentIsOne(el.Exp(zero));
  }

  lemma IdempotentIsOne(e: real)
    requires e == Times(e, e) && e > 0.0
    ensures e == 1.0
  {
    assert (e - 1.0) * e == 0.0;
  }

  lemma Rescale(a: real, p: real, q: real, m: real, x: real, y: real)
    requires Times(p, m) == x && Times(q, m) == y
    ensures Times(Times(a, p) + q, m) == Times(a, x) + y
  {
    assert a * p * m == a * (p * m);
  }

  /** Changing the reference exponent from `merged` back to 0. */
  lemma RescaledMass(el: Elementary, a: real, m: real, lse: real, merged: real)
    requires el.Lawful()
    ensures Times(Times(a, el.Exp(m - merged)) + el.Exp(lse - merged), el.Exp(merged))
            == Times(a, el.Exp(m)) + el.Exp(lse)
  {
    ExpShift(el, m, merged);
    ExpShift(el, lse, merged);
    Rescale(a, el.Exp(m - merged), el.Exp(lse - merged), el.Exp(merged), el.Exp(m), el.Exp(lse));
  }

  lemma ShrinkSum(a: real, p: real, q: real)
    requires a > 0.0 && 0.0 < p <= 1.0 && 0.0 < q <= 1.0
    ensures 0.0 < Times(a, p) + q <= a + 1.0
  {
    assert a * p <= a * 1.0;
  }

  lemma AtMostOne(el: Elementary, x: real)
    requires el.Lawful() && x <= 0.0
    ensures 0.0 < el.Exp(x) <= 1.0
  {
    ExpZero(el, 0.0);
    ExpMonotone(el, x, 0.0);
  }

  lemma SumStaysSmall(el: Elementary, a: real, m: real, lse: real, merged: real)
    requires el.Lawful() && a > 0.0 && m <= merged && lse <= merged
    ensures 0.0 < Times(a, el.Exp(m - merged)) + el.Exp(lse - merged) <= a + 1.0
  {
    AtMostOne(el, m - merged);
    AtMostOne(el, lse - merged);
    ShrinkSum(a, el.Exp(m - merged), el.Exp(lse - merged));
  }

  /** The merge with its case split resolved, for a state that has seen a tile. */
  lemma MergeShape(el: Elementary, s: RowState, z: seq<real>, v: nat)
    requires z != [] && s.runMax.Fin?
    requires Max(z) <= LogSumExp(el, z)
    ensures var m := Greater(s.runMax, Max(z));
            var lse := LogSumExp(el, z);
            var merged := Greater(s.runMax, lse);
            && Merge(el, s, z, v).runMax == Fin(merged)
            && m <= merged && lse <= merged
            && Merge(el, s, z, v).runSum == Times(s.runSum, el.Exp(m - merged)) + el.Exp(lse - merged)
  {
  }

  /** Merging keeps the weight of the tile, but re-weights the old sum by the tile's
      maximum whenever the tile overtakes. */
  lemma MergeMass(el: Elementary, s: RowState, z: seq<real>, v: nat)
    requires el.Lawful() && z != []
    requires s.runMax.Fin? && s.runSum > 0.0
    ensures var t := Merge(el, s, z, v);
            && t.runMax == Fin(Greater(s.runMax, LogSumExp(el, z)))
            && 0.0 < t.runSum <= s.runSum + 1.0
            && Mass(el, t) == Times(s.runSum, el.Exp(Greater(s.runMax, Max(z)))) + SumExp(el, z)
  {
    var m := Greater(s.runMax, Max(z));
    var lse := LogSumExp(el, z);
    var merged := Greater(s.runMax, lse);
    LseAboveMax(el, z);
    MergeShape(el, s, z, v);
    RescaledMass(el, s.runSum, m, lse, merged);
    SumStaysSmall(el, s.runSum, m, lse, merged);
  }

  lemma FirstMerge(el: Elementary, z: seq<real>)
    requires el.Lawful() && z != []
    ensures var t := Merge(el, START, z, 0);
            && t.runMax == Fin(LogSumExp(el, z)) && t.runSum == 1.0
            && t.xSum == WeightedSum(el, z, LogSumExp(el, z)) && t.sqSum == SquareSum(el, z, LogSumExp(el, z))
            && t.amaxIdx == ArgMax(z)
  {
    LseAboveMax(el, z);
    ExpZero(el, 0.0);
  }

  // ------------------------------------------------------------ whole rows

  /** From any proper state the kernel never under-counts the remaining columns, and counts
      them exactly if and only if no remaining tile overtakes. */
  lemma {:induction false} RunMass(el: Elementary, s: RowState, z: seq<real>, c: nat, v: nat)
    requires el.Lawful() && c >= 1 && v <= |z|
    requires s.runMax.Fin? && s.runSum > 0.0
    ensures var t := Run(el, s, z, c, v);
            && t.runMax.Fin? && t.runSum > 0.0
            && t.runSum <= s.runSum + TilesLeft(|z|, c, v) as real
            && Mass(el, t) >= Mass(el, s) + SumExp(el, z[v..])
            && (Mass(el, t) == Mass(el, s) + SumExp(el, z[v..])
                <==> NeverOvertaken(el, s.runMax.value, z, c, v))
    decreases |z| - v
  {
    if v < |z| {
      var e := Min(v + c, |z|);
      var tile := z[v..e];
      hide SumExp, LogSumExp, Merge, Max, Elementary.Lawful;
      MergeMass(el, s, tile, v);
      RunMass(el, Merge(el, s, tile, v), z, c, e);
      assert z[v..][..e - v] == tile && z[v..][e - v..] == z[e..];
      SumExpSplit(el, z[v..], e - v);
      ExpMonotone(el, s.runMax.value, Greater(s.runMax, Max(tile)));
      Heavier(s.runSum, el.Exp(s.runMax.value), el.Exp(Greater(s.runMax, Max(tile))));
    }
  }

  lemma Heavier(a: real, x: real, y: real)
    requires a > 0.0 && x <= y
    ensures Times(a, x) <= Times(a, y)
    ensures Times(a, x) == Times(a, y) <==> x == y
  {
    assert a * (y - x) >= 0.0;
    if x < y {
      assert a * (y - x) > 0.0;
    }
  }

  /** The running maximum never exceeds the untiled log-sum-exp. */
  lemma {:induction false} RunMaxBounded(el: Elementary, s: RowState, z: seq<real>, c: nat, v: nat, bound: real)
    requires el.Lawful() && c >= 1 && v <= |z|
    requires s.runMax.Fin? && s.runSum > 0.0 && s.runMax.value <= bound
    requires SumExp(el, z) <= el.Exp(bound)
    ensures var t := Run(el, s, z, c, v);
            t.runMax.Fin? && t.runMax.value <= bound
    decreases |z| - v
  {
    if v < |z| {
      var e := Min(v + c, |z|);
      var tile := z[v..e];
      MergeMass(el, s, tile, v);
      LseAboveMax(el, tile);
      TileBelowRow(el, z, v, e);
      ExpMonotone(el, bound, LogSumExp(el, tile));
      RunMaxBounded(el, Merge(el, s, tile, v), z, c, e, bound);
    }
  }

  lemma TileBelowRow(el: Elementary, z: seq<real>, v: nat, e: nat)
    requires el.Lawful() && v <= e <= |z|
    ensures SumExp(el, z[v..e]) <= SumExp(el, z)
  {
    SumExpSplit(el, z, e);
    SumExpSplit(el, z[..e], v);
    assert z[..e][v..] == z[v..e];
    SumExpNonNegative(el, z[e..]);
    SumExpNonNegative(el, z[..e][..v]);
  }

  function FinalState(el: Elementary, z: seq<real>, c: nat): RowState
    requires c >= 1
  {
    Run(el, START, z, c, 0)
  }

  /** What the first tile leaves, and what the remaining tiles then make of it. */
  lemma FinalMass(el: Elementary, z: seq<real>, c: nat)
    requires el.Lawful() && c >= 1 && z != []
    ensures var t := FinalState(el, z, c);
            && t.runMax.Fin? && t.runMax.value <= LogSumExp(el, z)
            && 0.0 < t.runSum <= TilesLeft(|z|, c, 0) as real
            && Mass(el, t) >= SumExp(el, z)
            && (Mass(el, t) == SumExp(el, z) <==> FirstTilesDominate(el, z, c))
  {
    var e := Min(c, |z|);
    var tile := z[..e];
    assert z[0..e] == tile;
    var s1 := Merge(el, START, tile, 0);
    FirstMerge(el, tile);
    LseAboveMax(el, tile);
    LseAboveMax(el, z);
    RunMass(el, s1, z, c, e);
    SumExpSplit(el, z, e);
    TileBelowRow(el, z, 0, e);
    ExpMonotone(el, LogSumExp(el, z), LogSumExp(el, tile));
    RunMaxBounded(el, s1, z, c, e, LogSumExp(el, z));
  }

  lemma LogZMass(el: Elementary, z: seq<real>, c: nat)
    requires el.Lawful() && c >= 1 && z != []
    ensures el.Exp(LogZ(el, z, c)) == Mass(el, FinalState(el, z, c))
  {
    FinalMass(el, z, c);
    var t := FinalState(el, z, c);
    ExpSum(el, el.Log(t.runSum), t.runMax.value, LogZ(el, z, c));
  }

  /** MAIN RESULT. For every row and tile width the kernel's partition value is at least the
      untiled log-sum-exp, exceeds it by at most the logarithm of the number of tiles, and
      equals it exactly when no tile after the first rises above the tiles before it. */
  lemma LogZRefinesLogSumExp(el: Elementary, z: seq<real>, c: nat)
    requires el.Lawful() && c >= 1 && z != []
    ensures LogSumExp(el, z) <= LogZ(el, z, c)
    ensures LogZ(el, z, c) <= LogSumExp(el, z) + el.Log(TilesLeft(|z|, c, 0) as real)
    ensures LogZ(el, z, c) == LogSumExp(el, z) <==> FirstTilesDominate(el, z, c)
  {
    FinalMass(el, z, c);
    LogZMass(el, z, c);
    LseAboveMax(el, z);
    ExpMonotone(el, LogZ(el, z, c), LogSumExp(el, z));
    LogMonotone(el, FinalState(el, z, c).runSum, TilesLeft(|z|, c, 0) as real);
  }

  /** One tile that covers the vocabulary is always exact. */
  lemma SingleTileExact(el: Elementary, z: seq<real>, c: nat)
    requires el.Lawful() && z != [] && c >= |z|
    ensures LogZ(el, z, c) == LogSumExp(el, z)
  {
    LogZRefinesLogSumExp(el, z, c);
  }

  /** The kernel is not the untiled computation: two one-column tiles with logits 0 and 1
      already overstate the partition value. */
  lemma AscendingTilesOverstate(el: Elementary)
    requires el.Lawful()
    ensures LogZ(el, [0.0, 1.0], 1) > LogSumExp(el, [0.0, 1.0])
  {
    var z := [0.0, 1.0];
    assert z[..1] == [0.0] && z[1..2] == [1.0] && [0.0][1..] == [] && [1.0][1..] == [];
    ExpZero(el, 0.0);
    assert SumExp(el, [0.0]) == 1.0;
    assert LogSumExp(el, [0.0]) == 0.0 by {
      assert el.Exp(el.Log(1.0)) == 1.0;
      ExpMonotone(el, el.Log(1.0), 0.0);
    }
    assert ArgMax([1.0]) == 0;
    assert !NeverOvertaken(el, 0.0, z, 1, 1);
    LogZRefinesLogSumExp(el, z, 1);
  }

  /** The tile count in the bound is the rounded-up quotient len / c. */
  lemma {:induction false} TileCount(len: nat, c: nat, v: nat)
    requires c >= 1 && v <= len
    ensures var n := TilesLeft(len, c, v); len - v <= n * c < len - v + c
    decreases len - v
  {
    if v < len {
      var e := Min(v + c, len);
      TileCount(len, c, e);
      var n := TilesLeft(len, c, e);
      assert (n + 1) * c == n * c + c;
      if e == len {
        assert n == 0;
      }
    }
  }

  // ----------------------------------------------- row sums and the top entry

  lemma {:induction false} RunZSum(el: Elementary, s: RowState, z: seq<real>, c: nat, v: nat)
    requires c >= 1 && v <= |z|
    ensures Run(el, s, z, c, v).zSum == s.zSum + Sum(z[v..])
    decreases |z| - v
  {
    if v < |z| {
      var e := Min(v + c, |z|);
      RunZSum(el, Merge(el, s, z[v..e], v), z, c, e);
      assert z[v..][..e - v] == z[v..e] && z[v..][e - v..] == z[e..];
      SumSplit(z[v..], e - v);
    }
  }

  /** The row sum does not depend on the tiling. */
  lemma ZSumIsRowSum(el: Elementary, z: seq<real>, c: nat)
    requires c >= 1
    ensures FinalState(el, z, c).zSum == Sum(z)
  {
    RunZSum(el, START, z, c, 0);
    assert z[0..] == z;
  }

  /** The tile that holds column `g`, at or after `v`, rises above `best`. */
  predicate Surfaces(el: Elementary, best: real, z: seq<real>, c: nat, v: nat, g: nat)
    requires c >= 1 && v <= g < |z|
    decreases |z| - v
  {
    var e := Min(v + c, |z|);
    if g < e then Max(z[v..e]) > best
    else Surfaces(el, Greater(Fin(best), LogSumExp(el, z[v..e])), z, c, e, g)
  }

  /** The row's first maximal entry lies in the first tile or above every earlier tile. */
  predicate WinnerSurfaces(el: Elementary, z: seq<real>, c: nat)
    requires c >= 1 && z != []
  {
    var g := ArgMax(z);
    var e := Min(c, |z|);
    g < e || Surfaces(el, LogSumExp(el, z[..e]), z, c, e, g)
  }

  lemma {:induction false} WinnerStays(el: Elementary, s: RowState, z: seq<real>, c: nat, v: nat, g: nat)
    requires el.Lawful() && c >= 1 && v <= |z| && g < |z| && g == ArgMax(z)
    requires s.runMax.Fin? && z[g] <= s.runMax.value && s.amaxIdx == g < v
    ensures Run(el, s, z, c, v).amaxIdx == g
    decreases |z| - v
  {
    if v < |z| {
      var e := Min(v + c, |z|);
      assert Max(z[v..e]) == z[v + ArgMax(z[v..e])] <= z[g];
      WinnerStays(el, Merge(el, s, z[v..e], v), z, c, e, g);
    }
  }

  lemma {:induction false} LoserStays(el: Elementary, s: RowState, z: seq<real>, c: nat, v: nat, g: nat)
    requires c >= 1 && s.amaxIdx != g < v <= |z|
    ensures Run(el, s, z, c, v).amaxIdx != g
    decreases |z| - v
  {
    if v < |z| {
      var e := Min(v + c, |z|);
      LoserStays(el, Merge(el, s, z[v..e], v), z, c, e, g);
    }
  }

  lemma ArgMaxOfTile(z: seq<real>, v: nat, e: nat)
    requires v < e <= |z| && v <= ArgMax(z) < e
    ensures v + ArgMax(z[v..e]) == ArgMax(z)
  {
    hide ArgMax;
    var tile := z[v..e];
    var g, k := ArgMax(z), ArgMax(tile);
    assert tile[k] == z[v + k] && tile[g - v] == z[g];
    assert z[v + k] <= z[g] && tile[g - v] <= tile[k];
    assert v + k >= g;
    assert k <= g - v;
  }

  lemma {:induction false} RunWinner(el: Elementary, s: RowState, z: seq<real>, c: nat, v: nat)
    requires el.Lawful() && c >= 1 && z != [] && v <= ArgMax(z)
    requires s.runMax.Fin? && s.runSum > 0.0 && s.amaxIdx < v
    ensures Run(el, s, z, c, v).amaxIdx == ArgMax(z)
       <==> Surfaces(el, s.runMax.value, z, c, v, ArgMax(z))
    decreases |z| - v
  {
    var g := ArgMax(z);
    var e := Min(v + c, |z|);
    var tile := z[v..e];
    var t := Merge(el, s, tile, v);
    MergeMass(el, s, tile, v);
    LseAboveMax(el, tile);
    if g < e {
      ArgMaxOfTile(z, v, e);
      if Max(tile) > s.runMax.value {
        WinnerStays(el, t, z, c, e, g);
      } else {
        LoserStays(el, t, z, c, e, g);
      }
    } else {
      RunWinner(el, t, z, c, e);
    }
  }

  /** The kernel's top-1 index is the row's first maximum exactly when that maximum
      surfaces: later tiles are compared with a log-sum, not with the largest entry. */
  lemma TopIndexCorrectIff(el: Elementary, z: seq<real>, c: nat)
    requires el.Lawful() && c >= 1 && z != []
    ensures FinalState(el, z, c).amaxIdx == ArgMax(z) <==> WinnerSurfaces(el, z, c)
  {
    var e := Min(c, |z|);
    var tile := z[..e];
    assert z[0..e] == tile;
    FirstMerge(el, tile);
    LseAboveMax(el, tile);
    var s1 := Merge(el, START, tile, 0);
    if ArgMax(z) < e {
      ArgMaxOfTile(z, 0, e);
      WinnerStays(el, s1, z, c, e, ArgMax(z));
    } else {
      RunWinner(el, s1, z, c, e);
    }
  }

  /** The failing input: with two columns per tile, the larger third entry is not above the
      log-sum of the first two, so the index of the first tile stays. */
  lemma TopIndexMisses(el: Elementary)
    requires el.Lawful()
    ensures var z := [0.0, 0.0, el.Log(2.0)];
      ArgMax(z) == 2 && FinalState(el, z, 2).amaxIdx != 2
  {
    var z := [0.0, 0.0, el.Log(2.0)];
    ExpZero(el, 0.0);
    ExpMonotone(el, 0.0, el.Log(2.0));
    assert z[..2] == [0.0, 0.0] && z[2..3] == [el.Log(2.0)];
    assert [0.0, 0.0][1..] == [0.0] && [0.0][1..] == [];
    assert SumExp(el, [0.0]) == 1.0;
    assert SumExp(el, [0.0, 0.0]) == 2.0;
    assert ArgMax(z) == 2 && ArgMax([el.Log(2.0)]) == 0;
    assert !Surfaces(el, LogSumExp(el, z[..2]), z, 2, 2, 2);
    TopIndexCorrectIff(el, z, 2);
  }

  // ------------------------------------------------- entropy and squared mass

  /** Entropy of the softmax distribution, from its definition. */
  function Entropy(el: Elementary, z: seq<real>): real { -PlogP(el, z, SumExp(el, z)) }

  function Share(el: Elementary, x: real, total: real): real { if total == 0.0 then 0.0 else el.Exp(x) / total }

  function PlogP(el: Elementary, z: seq<real>, total: real): real {
    if z == [] then 0.0
    else Times(Share(el, z[0], total), el.Log(Share(el, z[0], total))) + PlogP(el, z[1..], total)
  }

  /** The logarithm of the sum of the squared softmax probabilities. */
  function LogSumSquares(el: Elementary, z: seq<real>): real { el.Log(Squares(el, z, SumExp(el, z))) }

  function Squares(el: Elementary, z: seq<real>, total: real): real {
    if z == [] then 0.0 else Times(Share(el, z[0], total), Share(el, z[0], total)) + Squares(el, z[1..], total)
  }

  /** The two remaining outputs, as the kernel computes them from a final state. */
  function EntropyOut(el: Elementary, s: RowState): real {
    LogPartition(el, s) - (if s.runSum == 0.0 then 0.0 else s.xSum / s.runSum)
  }

  function LogSumSqOut(el: Elementary, s: RowState): real { el.Log(s.sqSum) - 2.0 * el.Log(s.runSum) }

  lemma LogOfExp(el: Elementary, x: real)
    requires el.Lawful()
    ensures el.Log(el.Exp(x)) == x
  {
    ExpMonotone(el, el.Log(el.Exp(x)), x);
  }

  lemma ShareIsExp(el: Elementary, x: real, lse: real)
    requires el.Lawful()
    ensures Share(el, x, el.Exp(lse)) == el.Exp(x - lse)
  {
    ExpShift(el, x, lse);
    var p, m := el.Exp(x - lse), el.Exp(lse);
    assert p * m / m == p;
  }

  lemma Distribute(p: real, x: real, lse: real)
    ensures Times(p, x - lse) == Times(p, x) - Times(p, lse)
  {
  }

  lemma {:induction false} PlogPSplits(el: Elementary, z: seq<real>, lse: real)
    requires el.Lawful()
    ensures PlogP(el, z, el.Exp(lse)) == WeightedSum(el, z, lse) - Times(MassAt(el, z, lse), lse)
  {
    if z != [] {
      PlogPSplits(el, z[1..], lse);
      ShareIsExp(el, z[0], lse);
      LogOfExp(el, z[0] - lse);
      Distribute(el.Exp(z[0] - lse), z[0], lse);
      AddProducts(el.Exp(z[0] - lse), MassAt(el, z[1..], lse), lse);
    }
  }

  lemma AddProducts(a: real, b: real, x: real)
    ensures Times(a, x) + Times(b, x) == Times(a + b, x)
  {
  }

  /** The probabilities' sum. */
  function MassAt(el: Elementary, z: seq<real>, lse: real): real {
    if z == [] then 0.0 else el.Exp(z[0] - lse) + MassAt(el, z[1..], lse)
  }

  lemma {:induction false} MassScales(el: Elementary, z: seq<real>, lse: real)
    requires el.Lawful()
    ensures Times(MassAt(el, z, lse), el.Exp(lse)) == SumExp(el, z)
  {
    if z != [] {
      MassScales(el, z[1..], lse);
      ExpShift(el, z[0], lse);
      AddProducts(el.Exp(z[0] - lse), MassAt(el, z[1..], lse), el.Exp(lse));
    }
  }

  lemma {:induction false} SquaresAgree(el: Elementary, z: seq<real>, lse: real)
    requires el.Lawful()
    ensures Squares(el, z, el.Exp(lse)) == SquareSum(el, z, lse)
  {
    if z != [] {
      SquaresAgree(el, z[1..], lse);
      ShareIsExp(el, z[0], lse);
    }
  }

  lemma MassIsOne(el: Elementary, z: seq<real>)
    requires el.Lawful() && z != []
    ensures MassAt(el, z, LogSumExp(el, z)) == 1.0
  {
    LseAboveMax(el, z);
    MassScales(el, z, LogSumExp(el, z));
    var a, m := MassAt(el, z, LogSumExp(el, z)), SumExp(el, z);
    UnitFactor(a, m);
  }

  lemma UnitFactor(a: real, m: real)
    requires Times(a, m) == m && m > 0.0
    ensures a == 1.0
  {
    assert (a - 1.0) * m == 0.0;
  }

  lemma LseOfOne(el: Elementary, x: real)
    requires el.Lawful()
    ensures LogSumExp(el, [x]) == x && SumExp(el, [x]) == el.Exp(x)
  {
    assert [x][1..] == [];
    assert SumExp(el, [x]) == el.Exp(x);
    LogOfExp(el, x);
  }

  /** With one tile that covers the vocabulary the entropy and the squared mass are those of the
      softmax distribution. */
  lemma SingleTileMoments(el: Elementary, z: seq<real>, c: nat)
    requires el.Lawful() && z != [] && c >= |z|
    ensures EntropyOut(el, FinalState(el, z, c)) == Entropy(el, z)
    ensures LogSumSqOut(el, FinalState(el, z, c)) == LogSumSquares(el, z)
  {
    var lse := LogSumExp(el, z);
    assert z[0..|z|] == z;
    FirstMerge(el, z);
    LseAboveMax(el, z);
    var t := FinalState(el, z, c);
    assert Run(el, Merge(el, START, z, 0), z, c, |z|) == Merge(el, START, z, 0);
    assert t == Merge(el, START, z, 0);
    ExpZero(el, 0.0);
    LogOfExp(el, 0.0);
    PlogPSplits(el, z, lse);
    MassIsOne(el, z);
    SquaresAgree(el, z, lse);
  }

  // the two moments over several tiles

  /** The running sum of tile means, from column v on: every tile is weighted within itself. */
  function TileMeans(el: Elementary, z: seq<real>, c: nat, v: nat): real
    requires c >= 1
    decreases |z| - v
  {
    if v >= |z| then 0.0
    else
      var e := Min(v + c, |z|);
      WeightedSum(el, z[v..e], LogSumExp(el, z[v..e])) + TileMeans(el, z, c, e)
  }

  function TileSquares(el: Elementary, z: seq<real>, c: nat, v: nat): real
    requires c >= 1
    decreases |z| - v
  {
    if v >= |z| then 0.0
    else
      var e := Min(v + c, |z|);
      SquareSum(el, z[v..e], LogSumExp(el, z[v..e])) + TileSquares(el, z, c, e)
  }

  /** The largest log-sum-exp of the tiles from column v on, and of `best`. */
  function Peak(el: Elementary, best: Extended, z: seq<real>, c: nat, v: nat): Extended
    requires c >= 1
    decreases |z| - v
  {
    if v >= |z| then best
    else
      var e := Min(v + c, |z|);
      Peak(el, Fin(Greater(best, LogSumExp(el, z[v..e]))), z, c, e)
  }

  lemma {:induction false} RunMoments(el: Elementary, s: RowState, z: seq<real>, c: nat, v: nat)
    requires c >= 1
    ensures Run(el, s, z, c, v).xSum == s.xSum + TileMeans(el, z, c, v)
    ensures Run(el, s, z, c, v).sqSum == s.sqSum + TileSquares(el, z, c, v)
    decreases |z| - v
  {
    if v < |z| {
      var e := Min(v + c, |z|);
      RunMoments(el, Merge(el, s, z[v..e], v), z, c, e);
    }
  }

  lemma {:induction false} RunPeak(el: Elementary, s: RowState, z: seq<real>, c: nat, v: nat)
    requires el.Lawful() && c >= 1
    ensures Run(el, s, z, c, v).runMax == Peak(el, s.runMax, z, c, v)
    decreases |z| - v
  {
    if v < |z| {
      var e := Min(v + c, |z|);
      LseAboveMax(el, z[v..e]);
      RunPeak(el, Merge(el, s, z[v..e], v), z, c, e);
    }
  }

  lemma {:induction false} PeakGrows(el: Elementary, best: Extended, z: seq<real>, c: nat, v: nat)
    requires c >= 1 && best.Fin?
    ensures Peak(el, best, z, c, v).Fin? && best.value <= Peak(el, best, z, c, v).value
    decreases |z| - v
  {
    if v < |z| {
      var e := Min(v + c, |z|);
      PeakGrows(el, Fin(Greater(best, LogSumExp(el, z[v..e]))), z, c, e);
    }
  }

  /** The sum of exp(x) * x, and of exp(x) * exp(x). */
  function RawSum(el: Elementary, z: seq<real>): real {
    if z == [] then 0.0 else Times(el.Exp(z[0]), z[0]) + RawSum(el, z[1..])
  }

  function RawSquares(el: Elementary, z: seq<real>): real {
    if z == [] then 0.0 else Times(el.Exp(z[0]), el.Exp(z[0])) + RawSquares(el, z[1..])
  }

  lemma RawSplit(el: Elementary, z: seq<real>, v: nat)
    requires v <= |z|
    ensures RawSum(el, z) == RawSum(el, z[..v]) + RawSum(el, z[v..])
    ensures RawSquares(el, z) == RawSquares(el, z[..v]) + RawSquares(el, z[v..])
  {
    if v == 0 {
      assert z[v..] == z;
    } else {
      assert z[..v][1..] == z[1..][..v - 1] && z[1..][v - 1..] == z[v..];
      RawSplit(el, z[1..], v - 1);
    }
  }

  lemma Regroup(p: real, m: real, x: real, y: real)
    requires Times(p, m) == x
    ensures Times(Times(p, y), m) == Times(x, y)
    ensures Times(Times(p, p), Times(m, m)) == Times(x, x)
  {
    assert p * y * m == p * m * y;
    assert p * p * (m * m) == (p * m) * (p * m);
  }

  /** Scaling a tile's own weights back gives the raw sums. */
  lemma {:induction false} WeightedRaw(el: Elementary, z: seq<real>, lse: real)
    requires el.Lawful()
    ensures Times(WeightedSum(el, z, lse), el.Exp(lse)) == RawSum(el, z)
    ensures Times(SquareSum(el, z, lse), Times(el.Exp(lse), el.Exp(lse))) == RawSquares(el, z)
  {
    if z != [] {
      var m, p := el.Exp(lse), el.Exp(z[0] - lse);
      WeightedRaw(el, z[1..], lse);
      ExpShift(el, z[0], lse);
      Regroup(p, m, el.Exp(z[0]), z[0]);
      AddProducts(Times(p, z[0]), WeightedSum(el, z[1..], lse), m);
      AddProducts(Times(p, p), SquareSum(el, z[1..], lse), Times(m, m));
    }
  }

  /** How far the tile means, all weighted with `scale`, miss the weights of the tiles. */
  function Shortfall(el: Elementary, scale: real, z: seq<real>, c: nat, v: nat): real
    requires c >= 1
    decreases |z| - v
  {
    if v >= |z| then 0.0
    else
      var e := Min(v + c, |z|);
      var tile := z[v..e];
      Times(scale - SumExp(el, tile), WeightedSum(el, tile, LogSumExp(el, tile))) + Shortfall(el, scale, z, c, e)
  }

  function SquareGap(el: Elementary, scale: real, z: seq<real>, c: nat, v: nat): real
    requires c >= 1
    decreases |z| - v
  {
    if v >= |z| then 0.0
    else
      var e := Min(v + c, |z|);
      var tile := z[v..e];
      Times(Times(scale, scale) - Times(SumExp(el, tile), SumExp(el, tile)), SquareSum(el, tile, LogSumExp(el, tile)))
        + SquareGap(el, scale, z, c, e)
  }

  lemma TakeAway(a: real, b: real, x: real)
    ensures Times(a - b, x) == Times(a, x) - Times(x, b)
  {
  }

  lemma SplitProduct(a: real, x: real, y: real)
    ensures Times(a, x + y) == Times(a, x) + Times(a, y)
    ensures Times(a, 0.0) == 0.0
  {
  }

  lemma {:induction false} ShortfallIs(el: Elementary, scale: real, z: seq<real>, c: nat, v: nat)
    requires el.Lawful() && c >= 1 && v <= |z|
    ensures Shortfall(el, scale, z, c, v) == Times(scale, TileMeans(el, z, c, v)) - RawSum(el, z[v..])
    ensures SquareGap(el, scale, z, c, v) == Times(Times(scale, scale), TileSquares(el, z, c, v)) - RawSquares(el, z[v..])
    decreases |z| - v
  {
    hide Times, WeightedSum, SquareSum, SumExp, LogSumExp, Elementary.Lawful;
    SplitProduct(scale, 0.0, 0.0);
    SplitProduct(Times(scale, scale), 0.0, 0.0);
    if v < |z| {
      var e := Min(v + c, |z|);
      var tile := z[v..e];
      var lse, weight := LogSumExp(el, tile), SumExp(el, tile);
      ShortfallIs(el, scale, z, c, e);
      LseAboveMax(el, tile);
      WeightedRaw(el, tile, lse);
      TakeAway(scale, weight, WeightedSum(el, tile, lse));
      TakeAway(Times(scale, scale), Times(weight, weight), SquareSum(el, tile, lse));
      SplitProduct(scale, WeightedSum(el, tile, lse), TileMeans(el, z, c, e));
      SplitProduct(Times(scale, scale), SquareSum(el, tile, lse), TileSquares(el, z, c, e));
      assert z[v..][..e - v] == tile && z[v..][e - v..] == z[e..];
      RawSplit(el, z[v..], e - v);
    } else {
      assert z[v..] == [];
    }
  }

  /** The weight at which the final state counts every tile: the row's true weight, shared by the
      running sum. It is exp(runMax) when the partition value is exact. */
  function Scale(el: Elementary, z: seq<real>, c: nat): real
    requires c >= 1
  {
    var t := FinalState(el, z, c);
    if t.runSum == 0.0 then 0.0 else SumExp(el, z) / t.runSum
  }

  lemma ScaleTimesSum(el: Elementary, z: seq<real>, c: nat)
    requires el.Lawful() && c >= 1 && z != []
    ensures var t := FinalState(el, z, c);
      && t.runSum > 0.0 && Times(Scale(el, z, c), t.runSum) == SumExp(el, z) > 0.0
      && t.runMax == Peak(el, NegInf, z, c, 0) && t.runMax.Fin?
      && (FirstTilesDominate(el, z, c) ==> Scale(el, z, c) == el.Exp(t.runMax.value))
  {
    hide SumExp, LogSumExp, TilesLeft, FirstTilesDominate, Times, Peak, Elementary.Exp;
    FinalMass(el, z, c);
    LseAboveMax(el, z);
    RunPeak(el, START, z, c, 0);
    var t := FinalState(el, z, c);
    hide FinalState;
    QuotientTimes(SumExp(el, z), t.runSum);
    if FirstTilesDominate(el, z, c) {
      QuotientIs(SumExp(el, z), t.runSum, el.Exp(t.runMax.value));
    }
  }

  lemma QuotientTimes(a: real, n: real)
    requires n > 0.0
    ensures Times(a / n, n) == a
  {
  }

  lemma QuotientIs(a: real, n: real, x: real)
    requires n > 0.0 && a == Times(n, x)
    ensures a / n == x
  {
    assert n * x / n == x;
  }

  lemma EntropyIs(el: Elementary, z: seq<real>)
    requires el.Lawful() && z != []
    ensures SumExp(el, z) > 0.0
    ensures Entropy(el, z) == LogSumExp(el, z) - RawSum(el, z) / SumExp(el, z)
  {
    var lse := LogSumExp(el, z);
    LseAboveMax(el, z);
    PlogPSplits(el, z, lse);
    MassIsOne(el, z);
    WeightedRaw(el, z, lse);
    TimesQuotient(WeightedSum(el, z, lse), SumExp(el, z));
  }

  lemma TimesQuotient(x: real, n: real)
    requires n > 0.0
    ensures Times(x, n) / n == x
  {
  }

  lemma ShareOfMean(x: real, sum: real, scale: real, total: real)
    requires sum > 0.0 && total > 0.0 && Times(scale, sum) == total
    ensures x / sum == Times(scale, x) / total
  {
    var q := x / sum;
    assert q * sum == x;
    assert scale * x == q * total by {
      assert scale * (q * sum) == q * (scale * sum);
    }
    assert q * total / total == q;
  }

  /** MAIN RESULT. The entropy output, for every row and tile width: it is off by what the
      partition value is off, and by the shortfall of the tile means. */
  lemma EntropyError(el: Elementary, z: seq<real>, c: nat)
    requires el.Lawful() && c >= 1 && z != []
    ensures SumExp(el, z) > 0.0
    ensures EntropyOut(el, FinalState(el, z, c))
      == Entropy(el, z) + (LogZ(el, z, c) - LogSumExp(el, z)) - Shortfall(el, Scale(el, z, c), z, c, 0) / SumExp(el, z)
  {
    var t, total, scale := FinalState(el, z, c), SumExp(el, z), Scale(el, z, c);
    ScaleTimesSum(el, z, c);
    EntropyIs(el, z);
    RunMoments(el, START, z, c, 0);
    ShortfallIs(el, scale, z, c, 0);
    assert z[0..] == z;
    ShareOfMean(t.xSum, t.runSum, scale, total);
    DifferenceShare(Times(scale, t.xSum), RawSum(el, z), total);
  }

  lemma DifferenceShare(a: real, b: real, n: real)
    requires n > 0.0
    ensures (a - b) / n == a / n - b / n
  {
  }

  /** MAIN RESULT. Where the partition value is exact, the entropy is right exactly when the
      shortfall at the largest tile log-sum-exp is zero. The condition reads the input alone. */
  lemma EntropyCorrectIff(el: Elementary, z: seq<real>, c: nat)
    requires el.Lawful() && c >= 1 && z != [] && FirstTilesDominate(el, z, c)
    ensures Peak(el, NegInf, z, c, 0).Fin?
    ensures EntropyOut(el, FinalState(el, z, c)) == Entropy(el, z)
      <==> Shortfall(el, el.Exp(Peak(el, NegInf, z, c, 0).value), z, c, 0) == 0.0
  {
    ScaleTimesSum(el, z, c);
    EntropyError(el, z, c);
    LogZRefinesLogSumExp(el, z, c);
    ZeroShare(Shortfall(el, Scale(el, z, c), z, c, 0), SumExp(el, z));
  }

  lemma ZeroShare(a: real, n: real)
    requires n > 0.0
    ensures a / n == 0.0 <==> a == 0.0
  {
    assert a / n * n == a;
  }

  // the squared mass

  lemma ProductPositive(x: real, y: real)
    requires x > 0.0 && y > 0.0
    ensures Times(x, y) > 0.0
  {
    assert x * y > 0.0;
  }

  lemma SquareSumPositive(el: Elementary, z: seq<real>, lse: real)
    requires el.Lawful()
    ensures SquareSum(el, z, lse) >= 0.0 && (z != [] ==> SquareSum(el, z, lse) > 0.0)
  {
    if z != [] {
      SquareSumPositive(el, z[1..], lse);
      ProductPositive(el.Exp(z[0] - lse), el.Exp(z[0] - lse));
    }
  }

  lemma {:induction false} TileSquaresPositive(el: Elementary, z: seq<real>, c: nat, v: nat)
    requires el.Lawful() && c >= 1
    ensures TileSquares(el, z, c, v) >= 0.0 && (v < |z| ==> TileSquares(el, z, c, v) > 0.0)
    decreases |z| - v
  {
    if v < |z| {
      var e := Min(v + c, |z|);
      SquareSumPositive(el, z[v..e], LogSumExp(el, z[v..e]));
      TileSquaresPositive(el, z, c, e);
    }
  }

  /** exp of the output, times the squared running sum, is the accumulated square sum. */
  lemma ExpOfSquares(el: Elementary, sq: real, sum: real)
    requires el.Lawful() && sq > 0.0 && sum > 0.0
    ensures Times(el.Exp(el.Log(sq) - 2.0 * el.Log(sum)), Times(sum, sum)) == sq
  {
    var b := el.Log(sum);
    ExpSum(el, b, b, 2.0 * b);
    ExpShift(el, el.Log(sq), 2.0 * b);
  }

  lemma SquaresTimesTotal(el: Elementary, z: seq<real>)
    requires el.Lawful() && z != []
    ensures Times(Squares(el, z, SumExp(el, z)), Times(SumExp(el, z), SumExp(el, z))) == RawSquares(el, z)
    ensures Squares(el, z, SumExp(el, z)) > 0.0
  {
    LseAboveMax(el, z);
    SquaresAgree(el, z, LogSumExp(el, z));
    WeightedRaw(el, z, LogSumExp(el, z));
    SquareSumPositive(el, z, LogSumExp(el, z));
  }

  lemma CompareScaled(a: real, b: real, sum: real, scale: real, total: real, sq: real, raw: real)
    requires sum > 0.0 && total > 0.0 && Times(scale, sum) == total
    requires Times(a, Times(sum, sum)) == sq && Times(b, Times(total, total)) == raw
    ensures Times(Times(scale, scale), sq) >= raw <==> a >= b
    ensures Times(Times(scale, scale), sq) == raw <==> a == b
  {
    var n := total * total;
    assert Times(Times(scale, scale), sq) == a * n by {
      assert scale * scale * (a * (sum * sum)) == a * ((scale * sum) * (scale * sum));
    }
    ProductPositive(total, total);
    Ordered(a, b, n);
  }

  lemma Ordered(a: real, b: real, n: real)
    requires n > 0.0
    ensures a * n >= b * n <==> a >= b
    ensures a * n == b * n <==> a == b
  {
    assert (a - b) * n == a * n - b * n;
    if a > b {
      assert (a - b) * n > 0.0;
    } else if a < b {
      assert (b - a) * n > 0.0;
    }
  }

  /** MAIN RESULT. The squared-mass output, for every row and tile width: it is too large, right
      or too small exactly as its gap is positive, zero or negative. */
  lemma SquaresCorrectIff(el: Elementary, z: seq<real>, c: nat)
    requires el.Lawful() && c >= 1 && z != []
    ensures var out, gap := LogSumSqOut(el, FinalState(el, z, c)), SquareGap(el, Scale(el, z, c), z, c, 0);
      && (out >= LogSumSquares(el, z) <==> gap >= 0.0)
      && (out == LogSumSquares(el, z) <==> gap == 0.0)
  {
    var t, total, scale := FinalState(el, z, c), SumExp(el, z), Scale(el, z, c);
    hide Times, Scale, SumExp, Squares, SquareGap, TileSquares, RawSquares, FinalState, Elementary.Lawful;
    ScaleTimesSum(el, z, c);
    assert t.sqSum == TileSquares(el, z, c, 0) by { FinalMoments(el, z, c); }
    TileSquaresPositive(el, z, c, 0);
    ShortfallIs(el, scale, z, c, 0);
    assert z[0..] == z;
    ExpOfSquares(el, t.sqSum, t.runSum);
    SquaresTimesTotal(el, z);
    var a, b := el.Exp(LogSumSqOut(el, t)), Squares(el, z, total);
    CompareScaled(a, b, t.runSum, scale, total, t.sqSum, RawSquares(el, z));
    assert el.Exp(LogSumSquares(el, z)) == b by { ExpLog(el, b); }
    ExpMonotone(el, LogSumSqOut(el, t), LogSumSquares(el, z));
  }

  lemma ExpLog(el: Elementary, y: real)
    requires el.Lawful() && y > 0.0
    ensures el.Exp(el.Log(y)) == y
  {
  }

  lemma FinalMoments(el: Elementary, z: seq<real>, c: nat)
    requires c >= 1
    ensures FinalState(el, z, c).xSum == TileMeans(el, z, c, 0) && FinalState(el, z, c).sqSum == TileSquares(el, z, c, 0)
  {
    RunMoments(el, START, z, c, 0);
  }

  /** All tiles weigh the same: each has the log-sum-exp `level`. */
  predicate EvenTiles(el: Elementary, level: real, z: seq<real>, c: nat, v: nat)
    requires c >= 1
    decreases |z| - v
  {
    v >= |z| ||
    var e := Min(v + c, |z|);
    LogSumExp(el, z[v..e]) == level && EvenTiles(el, level, z, c, e)
  }

  lemma GapOfTile(scale: real, weight: real, sq: real)
    requires 0.0 < weight <= scale && sq > 0.0
    ensures Times(Times(scale, scale) - Times(weight, weight), sq) >= 0.0
    ensures Times(Times(scale, scale) - Times(weight, weight), sq) == 0.0 <==> weight == scale
  {
    var d := scale * scale - weight * weight;
    assert d == (scale - weight) * (scale + weight);
    assert d >= 0.0;
    if weight < scale {
      assert (scale - weight) * (scale + weight) > 0.0;
      assert d * sq > 0.0;
    }
  }

  lemma {:induction false} GapAtPeak(el: Elementary, level: real, best: Extended, z: seq<real>, c: nat, v: nat)
    requires el.Lawful() && c >= 1 && Peak(el, best, z, c, v).Fin? && Peak(el, best, z, c, v).value <= level
    ensures SquareGap(el, el.Exp(level), z, c, v) >= 0.0
    ensures SquareGap(el, el.Exp(level), z, c, v) == 0.0 <==> EvenTiles(el, level, z, c, v)
    decreases |z| - v
  {
    if v < |z| {
      var e := Min(v + c, |z|);
      var tile := z[v..e];
      var lse := LogSumExp(el, tile);
      PeakGrows(el, Fin(Greater(best, lse)), z, c, e);
      GapAtPeak(el, level, Fin(Greater(best, lse)), z, c, e);
      LseAboveMax(el, tile);
      ExpMonotone(el, level, lse);
      SquareSumPositive(el, tile, lse);
      GapOfTile(el.Exp(level), SumExp(el, tile), SquareSum(el, tile, lse));
    }
  }

  /** MAIN RESULT. Where the partition value is exact, the squared mass is never too small, and
      right exactly when all tiles have the same log-sum-exp. */
  lemma SquaresWhenExact(el: Elementary, z: seq<real>, c: nat)
    requires el.Lawful() && c >= 1 && z != [] && FirstTilesDominate(el, z, c)
    ensures Peak(el, NegInf, z, c, 0).Fin?
    ensures LogSumSqOut(el, FinalState(el, z, c)) >= LogSumSquares(el, z)
    ensures LogSumSqOut(el, FinalState(el, z, c)) == LogSumSquares(el, z)
      <==> EvenTiles(el, Peak(el, NegInf, z, c, 0).value, z, c, 0)
  {
    ScaleTimesSum(el, z, c);
    SquaresCorrectIff(el, z, c);
    GapAtPeak(el, Peak(el, NegInf, z, c, 0).value, NegInf, z, c, 0);
  }

  /** Across tiles they are not rescaled: on two one-column tiles with logits 0 and -1 the
      partition value is exact and the entropy is still too large. */
  lemma EntropyOffAcrossTiles(el: Elementary)
    requires el.Lawful()
    ensures var z := [0.0, -1.0];
      LogZ(el, z, 1) == LogSumExp(el, z) && EntropyOut(el, FinalState(el, z, 1)) > Entropy(el, z)
  {
    var z := [0.0, -1.0];
    TwoTiles(el);
    var lse := LogSumExp(el, z);
    LseAboveMax(el, z);
    PlogPSplits(el, z, lse);
    MassIsOne(el, z);
    ExpZero(el, 0.0);
    ExpMonotone(el, -1.0, 0.0);
    TwoTerms(el, lse);
    ExpShift(el, -1.0, lse);
    SmallerShare(el.Exp(-1.0 - lse), el.Exp(lse), el.Exp(-1.0));
  }

  lemma TwoTerms(el: Elementary, lse: real)
    requires el.Lawful()
    ensures WeightedSum(el, [0.0, -1.0], lse) == -el.Exp(-1.0 - lse)
    ensures SumExp(el, [0.0, -1.0]) == 1.0 + el.Exp(-1.0)
  {
    assert [0.0, -1.0][1..] == [-1.0] && [-1.0][1..] == [];
    ExpZero(el, 0.0);
    assert SumExp(el, [-1.0]) == el.Exp(-1.0);
    assert WeightedSum(el, [-1.0], lse) == Times(el.Exp(-1.0 - lse), -1.0);
  }

  lemma TwoTiles(el: Elementary)
    requires el.Lawful()
    ensures var z, t := [0.0, -1.0], FinalState(el, [0.0, -1.0], 1);
      && t.xSum == -1.0 && t.runSum == 1.0 + el.Exp(-1.0) && LogZ(el, z, 1) == LogSumExp(el, z)
  {
    var z := [0.0, -1.0];
    var s1 := Merge(el, START, [0.0], 0);
    assert z[0..1] == [0.0] && z[..1] == [0.0] && z[1..2] == [-1.0] && [-1.0][1..] == [] && [0.0][1..] == [];
    ExpZero(el, 0.0);
    LseOfOne(el, 0.0);
    LseOfOne(el, -1.0);
    FirstMerge(el, [0.0]);
    assert ArgMax([-1.0]) == 0;
    assert NeverOvertaken(el, 0.0, z, 1, 1);
    LogZRefinesLogSumExp(el, z, 1);
    var t := Merge(el, s1, [-1.0], 1);
    assert Run(el, t, z, 1, 2) == t;
    assert Run(el, s1, z, 1, 1) == t;
    assert FinalState(el, z, 1) == t;
    assert WeightedSum(el, [0.0], 0.0) == 0.0;
    assert WeightedSum(el, [-1.0], -1.0) == -1.0;
  }

  /** On the same input the squared mass is too large as well: the two tiles weigh 1 and exp(-1). */
  lemma SquaresOffAcrossTiles(el: Elementary)
    requires el.Lawful()
    ensures var z := [0.0, -1.0]; LogSumSqOut(el, FinalState(el, z, 1)) > LogSumSquares(el, z)
  {
    var z := [0.0, -1.0];
    assert z[0..1] == [0.0] && z[..1] == [0.0] && z[1..2] == [-1.0] && [-1.0][1..] == [] && [0.0][1..] == [];
    LseOfOne(el, 0.0);
    LseOfOne(el, -1.0);
    assert ArgMax([-1.0]) == 0;
    assert NeverOvertaken(el, 0.0, z, 1, 1);
    assert FirstTilesDominate(el, z, 1);
    UnevenTiles(el, Peak(el, NegInf, z, 1, 0).value);
    hide EvenTiles;
    SquaresWhenExact(el, z, 1);
  }

  lemma UnevenTiles(el: Elementary, level: real)
    requires el.Lawful()
    ensures !EvenTiles(el, level, [0.0, -1.0], 1, 0)
  {
    var z := [0.0, -1.0];
    assert z[0..1] == [0.0] && z[1..2] == [-1.0];
    LseOfOne(el, 0.0);
    LseOfOne(el, -1.0);
    hide EvenTiles;
    UnevenHere(el, level, z, 1, 0);
  }

  lemma UnevenHere(el: Elementary, level: real, z: seq<real>, c: nat, v: nat)
    requires c >= 1 && v + c < |z| && LogSumExp(el, z[v..v + c]) != LogSumExp(el, z[v + c..Min(v + c + c, |z|)])
    ensures !EvenTiles(el, level, z, c, v)
  {
  }

  lemma SmallerShare(w: real, total: real, part: real)
    requires Times(w, total) == part && total == 1.0 + part && 0.0 < part < 1.0
    ensures w < 1.0 / (1.0 + part)
  {
    assert w == part / total;
  }

  // ------------------------------------------------------------- tile grid

  /** The first indices of the tiles of `range(v, len, c)`. */
  function Starts(len: nat, c: nat, v: nat): seq<nat>
    requires c >= 1
    decreases len - v
  {
    if v >= len then [] else [v] + Starts(len, c, Min(v + c, len))
  }

  predicate InTile(len: nat, c: nat, start: int, j: nat) {
    start <= j < start + c && j < len
  }

  /** Every index lies in exactly one tile. */
  lemma {:induction false} OneTile(len: nat, c: nat, v: nat, j: nat) returns (k: nat)
    requires c >= 1 && v <= j < len
    ensures k < |Starts(len, c, v)| && InTile(len, c, Starts(len, c, v)[k], j)
    ensures forall i :: 0 <= i < |Starts(len, c, v)| && InTile(len, c, Starts(len, c, v)[i], j) ==> i == k
    decreases len - v
  {
    var e := Min(v + c, len);
    var rest := Starts(len, c, e);
    assert Starts(len, c, v) == [v] + rest;
    if j < e {
      k := 0;
      StartsFrom(len, c, e);
    } else {
      var k' := OneTile(len, c, e, j);
      k := k' + 1;
      forall i | 0 <= i < |Starts(len, c, v)| && InTile(len, c, Starts(len, c, v)[i], j)
        ensures i == k
      {
        if i > 0 {
          assert Starts(len, c, v)[i] == rest[i - 1];
        }
      }
    }
  }

  lemma {:induction false} StartsFrom(len: nat, c: nat, v: nat)
    requires c >= 1
    ensures forall i :: 0 <= i < |Starts(len, c, v)| ==> v <= Starts(len, c, v)[i]
    decreases len - v
  {
    if v < len {
      StartsFrom(len, c, Min(v + c, len));
    }
  }

  /** The (token tile, vocabulary tile) pairs of the two nested loops, in visiting order. */
  function Across(t: nat, starts: seq<nat>): seq<(int, int)> {
    if starts == [] then [] else [(t, starts[0])] + Across(t, starts[1..])
  }

  function Grid(tokens: seq<nat>, columns: seq<nat>): seq<(int, int)> {
    if tokens == [] then [] else Across(tokens[0], columns) + Grid(tokens[1..], columns)
  }

  lemma {:induction false} AcrossAt(t: nat, starts: seq<nat>)
    ensures |Across(t, starts)| == |starts|
    ensures forall k :: 0 <= k < |starts| ==> Across(t, starts)[k] == (t, starts[k])
  {
    if starts != [] {
      AcrossAt(t, starts[1..]);
    }
  }

  predicate Visits(n: nat, vocab: nat, c: nat, cell: (int, int), i: nat, j: nat) {
    InTile(n, TOKEN_CHUNK, cell.0, i) && InTile(vocab, c, cell.1, j)
  }

  lemma {:induction false} CellInGrid(n: nat, vocab: nat, c: nat, v: nat, i: nat, j: nat) returns (k: nat)
    requires c >= 1 && v <= i < n && j < vocab
    ensures var g := Grid(Starts(n, TOKEN_CHUNK, v), Starts(vocab, c, 0));
            && k < |g| && Visits(n, vocab, c, g[k], i, j)
            && forall k' :: 0 <= k' < |g| && Visits(n, vocab, c, g[k'], i, j) ==> k' == k
    decreases n - v
  {
    var columns := Starts(vocab, c, 0);
    var row := Across(v, columns);
    var e := Min(v + TOKEN_CHUNK, n);
    var below := Grid(Starts(n, TOKEN_CHUNK, e), columns);
    GridIs(n, v, columns);
    AcrossAt(v, columns);
    hide Grid, Across, Starts;
    if i < e {
      k := OneTile(vocab, c, 0, j);
      CellInRow(n, vocab, c, v, i, j, k, row, below);
    } else {
      var k' := CellInGrid(n, vocab, c, e, i, j);
      k := |row| + k';
      CellBelow(n, vocab, c, v, i, j, k', row, below);
    }
  }

  lemma GridIs(n: nat, v: nat, columns: seq<nat>)
    requires v < n
    ensures Grid(Starts(n, TOKEN_CHUNK, v), columns)
      == Across(v, columns) + Grid(Starts(n, TOKEN_CHUNK, Min(v + TOKEN_CHUNK, n)), columns)
  {
    assert Starts(n, TOKEN_CHUNK, v)[1..] == Starts(n, TOKEN_CHUNK, Min(v + TOKEN_CHUNK, n));
  }

  /** The cell lies in this token tile: its column tile decides, and nothing further below visits it. */
  lemma CellInRow(n: nat, vocab: nat, c: nat, v: nat, i: nat, j: nat, k: nat, row: seq<(int, int)>, below: seq<(int, int)>)
    requires c >= 1 && v <= i < Min(v + TOKEN_CHUNK, n) && j < vocab
    requires row == Across(v, Starts(vocab, c, 0)) && |row| == |Starts(vocab, c, 0)|
    requires forall q :: 0 <= q < |row| ==> row[q] == (v, Starts(vocab, c, 0)[q])
    requires below == Grid(Starts(n, TOKEN_CHUNK, Min(v + TOKEN_CHUNK, n)), Starts(vocab, c, 0))
    requires k < |row| && InTile(vocab, c, Starts(vocab, c, 0)[k], j)
    requires forall q :: 0 <= q < |row| && InTile(vocab, c, Starts(vocab, c, 0)[q], j) ==> q == k
    ensures Visits(n, vocab, c, (row + below)[k], i, j)
    ensures forall q :: 0 <= q < |row + below| && Visits(n, vocab, c, (row + below)[q], i, j) ==> q == k
  {
    hide Grid, Across, Starts;
    forall q | 0 <= q < |row + below| && Visits(n, vocab, c, (row + below)[q], i, j) ensures q == k {
      if q >= |row| {
        assert (row + below)[q] == below[q - |row|];
        GridBelow(n, vocab, c, Min(v + TOKEN_CHUNK, n), q - |row|);
      }
    }
  }

  lemma CellBelow(n: nat, vocab: nat, c: nat, v: nat, i: nat, j: nat, k: nat, row: seq<(int, int)>, below: seq<(int, int)>)
    requires Min(v + TOKEN_CHUNK, n) <= i
    requires forall q :: 0 <= q < |row| ==> row[q].0 == v
    requires k < |below| && Visits(n, vocab, c, below[k], i, j)
    requires forall q :: 0 <= q < |below| && Visits(n, vocab, c, below[q], i, j) ==> q == k
    ensures Visits(n, vocab, c, (row + below)[|row| + k], i, j)
    ensures forall q :: 0 <= q < |row + below| && Visits(n, vocab, c, (row + below)[q], i, j) ==> q == |row| + k
  {
    assert forall q :: |row| <= q < |row + below| ==> (row + below)[q] == below[q - |row|];
  }

  lemma {:induction false} GridBelow(n: nat, vocab: nat, c: nat, v: nat, k: nat)
    requires c >= 1 && k < |Grid(Starts(n, TOKEN_CHUNK, v), Starts(vocab, c, 0))|
    ensures v <= Grid(Starts(n, TOKEN_CHUNK, v), Starts(vocab, c, 0))[k].0
    decreases n - v
  {
    var tokens, e := Starts(n, TOKEN_CHUNK, v), Min(v + TOKEN_CHUNK, n);
    assert tokens[1..] == Starts(n, TOKEN_CHUNK, e);
    var row := Across(v, Starts(vocab, c, 0));
    AcrossAt(v, Starts(vocab, c, 0));
    if k >= |row| {
      GridBelow(n, vocab, c, e, k - |row|);
    }
  }

  /** Every (row, column) cell is visited by exactly one pair of tiles. */
  lemma EveryCellVisitedOnce(n: nat, vocab: nat, c: nat, i: nat, j: nat)
    requires c >= 1 && i < n && j < vocab
    ensures var g := Grid(Starts(n, TOKEN_CHUNK, 0), Starts(vocab, c, 0));
            exists k :: 0 <= k < |g| && Visits(n, vocab, c, g[k], i, j)
              && forall k' :: 0 <= k' < |g| && Visits(n, vocab, c, g[k'], i, j) ==> k' == k
  {
    var k := CellInGrid(n, vocab, c, 0, i, j);
  }

  // ------------------------------------------------------------ the kernel

  const TOKEN_CHUNK: nat := 128

  /** The arguments from which each logit is computed. */
  datatype Head = Head(
    hidden: seq<seq<real>>,
    weight: seq<seq<real>>,
    bias: Option<seq<real>>,
    temperature: real,
    softcap: Option<real>,
    logitScale: real)
  {
    /** The shapes the matrix product demands, and non-zero divisors. */
    predicate WellShaped() {
      && (forall i, j :: 0 <= i < |hidden| && 0 <= j < |weight| ==> |hidden[i]| == |weight[j]|)
      && (bias.Some? ==> |bias.value| == |weight|)
      && temperature != 0.0
      && softcap != Some(0.0)
    }

    /** One entry of a tile: product, bias, scale, soft cap, temperature. */
    function Logit(el: Elementary, i: nat, j: nat): real
      requires WellShaped() && i < |hidden| && j < |weight|
    {
      var raw := Dot(hidden[i], weight[j]) + (if bias.Some? then bias.value[j] else 0.0);
      var scaled := Times(raw, logitScale);
      var capped := if softcap.Some? then Times(softcap.value, el.Tanh(Over(scaled, softcap.value))) else scaled;
      Times(capped, Over(1.0, temperature))
    }

    /** The untiled row of logits. */
    function Row(el: Elementary, i: nat): (z: seq<real>)
      requires WellShaped() && i < |hidden|
      ensures |z| == |weight|
    {
      seq(|weight|, j requires 0 <= j < |weight| => Logit(el, i, j))
    }
  }

  function Dot(a: seq<real>, b: seq<real>): real
    requires |a| == |b|
  {
    if a == [] then 0.0 else a[0] * b[0] + Dot(a[1..], b[1..])
  }

  /** The logit a target selects; a target outside the vocabulary selects nothing. */
  function Gathered(z: seq<real>, target: int): real {
    if 0 <= target < |z| then z[target] else 0.0
  }

  /** The untiled log-probability. */
  function LogProb(el: Elementary, z: seq<real>, target: int): real {
    Gathered(z, target) - LogSumExp(el, z)
  }

  /** The five outputs of a row. */
  datatype Output = Output(logprob: real, entropy: real, logSumSq: real, mean: real, top1: bool)

  /** As its final state gives them. */
  ghost predicate RowDone(el: Elementary, z: seq<real>, target: int, c: nat, out: Output)
    requires c >= 1 && z != []
  {
    var t := FinalState(el, z, c);
    && out.logprob == Gathered(z, target) - LogZ(el, z, c)
    && out.entropy == EntropyOut(el, t) && out.logSumSq == LogSumSqOut(el, t)
    && out.mean == t.zSum / |z| as real
    && (out.top1 <==> t.amaxIdx == target)
  }

  /** The two moments of a row against the softmax distribution, for every tile width. */
  ghost predicate MomentsCorrect(el: Elementary, z: seq<real>, c: nat, entropy: real, logSumSq: real)
    requires c >= 1 && z != []
  {
    var total, scale, peak := SumExp(el, z), Scale(el, z, c), Peak(el, NegInf, z, c, 0);
    && total > 0.0 && peak.Fin?
    && entropy == Entropy(el, z) + (LogZ(el, z, c) - LogSumExp(el, z)) - Shortfall(el, scale, z, c, 0) / total
    && (logSumSq >= LogSumSquares(el, z) <==> SquareGap(el, scale, z, c, 0) >= 0.0)
    && (logSumSq == LogSumSquares(el, z) <==> SquareGap(el, scale, z, c, 0) == 0.0)
    && (FirstTilesDominate(el, z, c) ==>
          && (entropy == Entropy(el, z) <==> Shortfall(el, el.Exp(peak.value), z, c, 0) == 0.0)
          && logSumSq >= LogSumSquares(el, z)
          && (logSumSq == LogSumSquares(el, z) <==> EvenTiles(el, peak.value, z, c, 0)))
    && (c >= |z| ==> entropy == Entropy(el, z) && logSumSq == LogSumSquares(el, z))
  }

  lemma MomentsAreCorrect(el: Elementary, z: seq<real>, c: nat)
    requires el.Lawful() && c >= 1 && z != []
    ensures MomentsCorrect(el, z, c, EntropyOut(el, FinalState(el, z, c)), LogSumSqOut(el, FinalState(el, z, c)))
  {
    hide SumExp, Scale, Peak, Shortfall, SquareGap, Entropy, LogSumSquares, EntropyOut, LogSumSqOut, FinalState, FirstTilesDominate,
      EvenTiles, LogZ, LogSumExp, Elementary.Lawful;
    EntropyError(el, z, c);
    SquaresCorrectIff(el, z, c);
    ScaleTimesSum(el, z, c);
    if FirstTilesDominate(el, z, c) {
      EntropyCorrectIff(el, z, c);
      SquaresWhenExact(el, z, c);
    }
    if c >= |z| {
      SingleTileMoments(el, z, c);
    }
  }

  /** Against the untiled computation. */
  ghost predicate RowCorrect(el: Elementary, z: seq<real>, target: int, c: nat, out: Output)
    requires c >= 1 && z != []
  {
    && out.logprob <= LogProb(el, z, target)
    && out.logprob >= LogProb(el, z, target) - el.Log(TilesLeft(|z|, c, 0) as real)
    && (out.logprob == LogProb(el, z, target) <==> FirstTilesDominate(el, z, c))
    && MomentsCorrect(el, z, c, out.entropy, out.logSumSq)
    && Times(out.mean, |z| as real) == Sum(z)
    && ((out.top1 <==> ArgMax(z) == target) <==>
          WinnerSurfaces(el, z, c) || (target != ArgMax(z) && target != FinalState(el, z, c).amaxIdx))
  }

  lemma MeanTimesCount(total: real, n: nat)
    requires n >= 1
    ensures Times(total / n as real, n as real) == total
  {
  }

  lemma RowDoneIsCorrect(el: Elementary, z: seq<real>, target: int, c: nat, out: Output)
    requires el.Lawful() && c >= 1 && z != []
    requires RowDone(el, z, target, c, out)
    ensures RowCorrect(el, z, target, c, out)
  {
    MomentsAreCorrect(el, z, c);
    hide MomentsCorrect;
    LogZRefinesLogSumExp(el, z, c);
    ZSumIsRowSum(el, z, c);
    MeanTimesCount(FinalState(el, z, c).zSum, |z|);
    TopIndexCorrectIff(el, z, c);
  }

  /** The running vectors of one token tile, one entry per row. */
  datatype Running = Running(runMax: seq<Extended>, runSum: seq<real>, zSum: seq<real>, xSum: seq<real>, sqSum: seq<real>,
    amaxIdx: seq<nat>)
  {
    predicate Rows(m: nat) { |runMax| == |runSum| == |zSum| == |xSum| == |sqSum| == |amaxIdx| == m }

    function At(r: nat): RowState
      requires Rows(|runMax|) && r < |runMax|
    {
      RowState(runMax[r], runSum[r], zSum[r], xSum[r], sqSum[r], amaxIdx[r])
    }
  }

  /** The first half of a merge: the running maximum and the index of the top entry. */
  method MergeMax(s: Running, z: seq<seq<real>>, v0: nat) returns (runMax: seq<Extended>, amaxIdx: seq<nat>)
    requires s.Rows(|z|) && forall r :: 0 <= r < |z| ==> z[r] != []
    ensures |runMax| == |amaxIdx| == |z|
    ensures forall r :: 0 <= r < |z| ==>
      && runMax[r] == (if Overtakes(s.At(r), z[r], v0) then Fin(Max(z[r])) else s.runMax[r])
      && amaxIdx[r] == (if Overtakes(s.At(r), z[r], v0) then v0 + ArgMax(z[r]) else s.amaxIdx[r])
  {
    hide ArgMax, Max, Below;
    var m := |z|;
    var cmax := seq(m, r requires 0 <= r < m => Max(z[r]));
    var cidx: seq<nat> := seq(m, r requires 0 <= r < m => ArgMax(z[r]) + v0);
    var upd := seq(m, r requires 0 <= r < m =>
      Below(s.runMax[r], cmax[r]) || (s.runMax[r] == Fin(cmax[r]) && cidx[r] < s.amaxIdx[r]));
    runMax := seq(m, r requires 0 <= r < m => if upd[r] then Fin(cmax[r]) else s.runMax[r]);
    amaxIdx := seq(m, r requires 0 <= r < m => if upd[r] then cidx[r] else s.amaxIdx[r]);
  }

  /** The vector operations that merge one tile into all rows at once. */
  method MergeTile(el: Elementary, s: Running, z: seq<seq<real>>, v0: nat) returns (t: Running)
    requires s.Rows(|z|) && forall r :: 0 <= r < |z| ==> z[r] != []
    ensures t.Rows(|z|)
    ensures forall r :: 0 <= r < |z| ==> t.At(r) == Merge(el, s.At(r), z[r], v0)
  {
    hide ArgMax, Max, LogSumExp, ExpDiff, Times, Sum, WeightedSum, SquareSum, Greater, Overtakes, Elementary.Exp;
    var m := |z|;
    var runMax, amaxIdx := MergeMax(s, z, v0);
    var lse := seq(m, r requires 0 <= r < m => LogSumExp(el, z[r]));
    var mergedMax := seq(m, r requires 0 <= r < m => Greater(runMax[r], lse[r]));
    var runSum := seq(m, r requires 0 <= r < m =>
      Times(s.runSum[r], ExpDiff(el, runMax[r], mergedMax[r])) + el.Exp(lse[r] - mergedMax[r]));
    var xSum := seq(m, r requires 0 <= r < m => s.xSum[r] + WeightedSum(el, z[r], lse[r]));
    var sqSum := seq(m, r requires 0 <= r < m => s.sqSum[r] + SquareSum(el, z[r], lse[r]));
    var zSum := seq(m, r requires 0 <= r < m => s.zSum[r] + Sum(z[r]));
    runMax := seq(m, r requires 0 <= r < m => Fin(mergedMax[r]));
    t := Running(runMax, runSum, zSum, xSum, sqSum, amaxIdx);
  }

  /** One tile of logits: rows t0 .. t1, columns v0 .. v1. */
  method LogitTile(el: Elementary, head: Head, t0: nat, t1: nat, v0: nat, v1: nat) returns (z: seq<seq<real>>)
    requires head.WellShaped() && t0 <= t1 <= |head.hidden| && v0 <= v1 <= |head.weight|
    ensures |z| == t1 - t0
    ensures forall r :: 0 <= r < |z| ==> z[r] == head.Row(el, t0 + r)[v0..v1]
  {
    z := seq(t1 - t0, r requires 0 <= r < t1 - t0 =>
      seq(v1 - v0, k requires 0 <= k < v1 - v0 => head.Logit(el, t0 + r, v0 + k)));
  }

  /** Row r is on its way to its final state, with the tiles from column v on still to come. */
  ghost predicate Underway(el: Elementary, s: Running, rows: seq<seq<real>>, c: nat, v: nat)
    requires c >= 1
  {
    && s.Rows(|rows|)
    && forall r :: 0 <= r < |rows| ==> Run(el, s.At(r), rows[r], c, v) == FinalState(el, rows[r], c)
  }

  ghost predicate GatheredUpTo(targetLogit: seq<real>, rows: seq<seq<real>>, tgt: seq<int>, v: nat)
    requires |rows| == |tgt|
  {
    && |targetLogit| == |rows|
    && forall r :: 0 <= r < |rows| && v <= |rows[r]| ==> targetLogit[r] == Gathered(rows[r][..v], tgt[r])
  }

  lemma StillUnderway(el: Elementary, s: Running, t: Running, z: seq<seq<real>>, rows: seq<seq<real>>, c: nat, v: nat, len: nat)
    requires c >= 1 && Underway(el, s, rows, c, v) && v < len
    requires |z| == |rows| && t.Rows(|rows|)
    requires forall r :: 0 <= r < |rows| ==> |rows[r]| == len && z[r] == rows[r][v..Min(v + c, len)]
    requires forall r :: 0 <= r < |rows| ==> t.At(r) == Merge(el, s.At(r), z[r], v)
    ensures Underway(el, t, rows, c, Min(v + c, len))
  {
  }

  /** Rows whose target falls into the tile take their logit from it. */
  method Gather(sofar: seq<real>, tgt: seq<int>, z: seq<seq<real>>, v0: nat, v1: nat, ghost rows: seq<seq<real>>)
    returns (targetLogit: seq<real>)
    requires |rows| == |tgt| == |z| && v0 < v1 && GatheredUpTo(sofar, rows, tgt, v0)
    requires forall r :: 0 <= r < |rows| ==> v1 <= |rows[r]| && z[r] == rows[r][v0..v1]
    ensures GatheredUpTo(targetLogit, rows, tgt, v1)
  {
    targetLogit := seq(|tgt|, r requires 0 <= r < |tgt| =>
      if v0 <= tgt[r] < v1 then z[r][tgt[r] - v0] else sofar[r]);
  }

  lemma AcrossUnfolds(t0: nat, vocab: nat, c: nat, v: nat)
    requires c >= 1 && v < vocab
    ensures Across(t0, Starts(vocab, c, v)) == [(t0, v)] + Across(t0, Starts(vocab, c, Min(v + c, vocab)))
  {
    assert Starts(vocab, c, v)[1..] == Starts(vocab, c, Min(v + c, vocab));
  }

  /** The body of the inner loop. */
  method OneTileStep(el: Elementary, head: Head, tgt: seq<int>, chunk: nat, t0: nat, v0: nat,
      s: Running, targetLogit: seq<real>, ghost rows: seq<seq<real>>)
    returns (s': Running, targetLogit': seq<real>)
    requires head.WellShaped() && chunk >= 1 && v0 < |head.weight|
    requires |rows| == |tgt| && t0 + |rows| <= |head.hidden|
    requires forall r :: 0 <= r < |rows| ==> rows[r] == head.Row(el, t0 + r)
    requires Underway(el, s, rows, chunk, v0) && GatheredUpTo(targetLogit, rows, tgt, v0)
    ensures Underway(el, s', rows, chunk, Min(v0 + chunk, |head.weight|))
    ensures GatheredUpTo(targetLogit', rows, tgt, Min(v0 + chunk, |head.weight|))
  {
    var v1 := Min(v0 + chunk, |head.weight|);
    var z := LogitTile(el, head, t0, t0 + |tgt|, v0, v1);
    targetLogit' := Gather(targetLogit, tgt, z, v0, v1, rows);
    s' := MergeTile(el, s, z, v0);
    StillUnderway(el, s, s', z, rows, chunk, v0, |head.weight|);
  }

  /** -infinity maxima, zero sums and zero target logits. */
  method StartRunning(el: Elementary, chunk: nat, tgt: seq<int>, ghost rows: seq<seq<real>>)
    returns (s: Running, targetLogit: seq<real>)
    requires chunk >= 1 && |rows| == |tgt|
    ensures Underway(el, s, rows, chunk, 0)
    ensures GatheredUpTo(targetLogit, rows, tgt, 0)
  {
    var m := |tgt|;
    var zeros := seq(m, _ => 0.0);
    s := Running(seq(m, _ => NegInf), zeros, zeros, zeros, zeros, seq(m, _ => 0));
    targetLogit := seq(m, _ => 0.0);
    assert forall r :: 0 <= r < m ==> s.At(r) == START;
  }

  /** The inner loop: all vocabulary tiles for the rows t0 .. t1. */
  method TokenTile(el: Elementary, head: Head, tgt: seq<int>, chunk: nat, t0: nat, ghost rows: seq<seq<real>>)
    returns (s: Running, targetLogit: seq<real>, ghost visits: seq<(int, int)>)
    requires head.WellShaped() && |head.weight| >= 1 && chunk >= 1
    requires |rows| == |tgt| && t0 + |rows| <= |head.hidden|
    requires forall r :: 0 <= r < |rows| ==> rows[r] == head.Row(el, t0 + r)
    ensures Underway(el, s, rows, chunk, |head.weight|)
    ensures GatheredUpTo(targetLogit, rows, tgt, |head.weight|)
    ensures visits == Across(t0, Starts(|head.weight|, chunk, 0))
  {
    hide Underway, GatheredUpTo, Head.Row;
    var vocab := |head.weight|;
    s, targetLogit := StartRunning(el, chunk, tgt, rows);
    visits := [];
    var v0: nat := 0;
    while v0 < vocab
      invariant 0 <= v0 <= vocab
      invariant visits + Across(t0, Starts(vocab, chunk, v0)) == Across(t0, Starts(vocab, chunk, 0))
      invariant Underway(el, s, rows, chunk, v0)
      invariant GatheredUpTo(targetLogit, rows, tgt, v0)
    {
      s, targetLogit := OneTileStep(el, head, tgt, chunk, t0, v0, s, targetLogit, rows);
      AcrossUnfolds(t0, vocab, chunk, v0);
      visits := visits + [(t0, v0)];
      v0 := Min(v0 + chunk, vocab);
    }
  }

  lemma GridUnfolds(n: nat, t0: nat, columns: seq<nat>)
    requires t0 < n
    ensures Grid(Starts(n, TOKEN_CHUNK, t0), columns)
         == Across(t0, columns) + Grid(Starts(n, TOKEN_CHUNK, Min(t0 + TOKEN_CHUNK, n)), columns)
  {
    assert Starts(n, TOKEN_CHUNK, t0)[1..] == Starts(n, TOKEN_CHUNK, Min(t0 + TOKEN_CHUNK, n));
  }

  /** Row i of the output vectors. */
  function OutputAt(logprobs: array<real>, entropy: array<real>, logSumSq: array<real>, meanLogits: array<real>,
      isTop1: array<bool>, i: nat): Output
    requires i < logprobs.Length == entropy.Length == logSumSq.Length == meanLogits.Length == isTop1.Length
    reads logprobs, entropy, logSumSq, meanLogits, isTop1
  {
    Output(logprobs[i], entropy[i], logSumSq[i], meanLogits[i], isTop1[i])
  }

  /** The kernel. Each output row is written once, by the token tile that owns it. */
  method Apply(el: Elementary, head: Head, targets: seq<int>, chunk: nat)
    returns (logprobs: array<real>, entropy: array<real>, logSumSq: array<real>, meanLogits: array<real>, isTop1: array<bool>,
      ghost visits: seq<(int, int)>)
    requires el.Lawful() && head.WellShaped()
    requires |targets| == |head.hidden| && |head.weight| >= 1 && chunk >= 1
    ensures logprobs.Length == entropy.Length == logSumSq.Length == meanLogits.Length == isTop1.Length == |head.hidden|
    ensures visits == Grid(Starts(|head.hidden|, TOKEN_CHUNK, 0), Starts(|head.weight|, chunk, 0))
    ensures forall i :: 0 <= i < |head.hidden| ==>
      RowCorrect(el, head.Row(el, i), targets[i], chunk, OutputAt(logprobs, entropy, logSumSq, meanLogits, isTop1, i))
  {
    hide Underway, GatheredUpTo, RowDone, RowCorrect, OutputAt, Head.Row, Head.WellShaped, Elementary.Lawful;
    var n, vocab := |head.hidden|, |head.weight|;
    ghost var rows := seq(n, i requires 0 <= i < n => head.Row(el, i));
    logprobs, entropy, logSumSq := new real[n], new real[n], new real[n];
    meanLogits, isTop1 := new real[n], new bool[n];
    ghost var columns := Starts(vocab, chunk, 0);
    visits := [];
    var t0: nat := 0;
    while t0 < n
      invariant 0 <= t0 <= n
      invariant visits + Grid(Starts(n, TOKEN_CHUNK, t0), columns) == Grid(Starts(n, TOKEN_CHUNK, 0), columns)
      invariant forall i :: 0 <= i < t0 ==>
        RowDone(el, rows[i], targets[i], chunk, OutputAt(logprobs, entropy, logSumSq, meanLogits, isTop1, i))
    {
      var t1 := Min(t0 + TOKEN_CHUNK, n);
      ghost var tileVisits := FillRows(el, head, targets, chunk, t0, t1, rows, logprobs, entropy, logSumSq, meanLogits, isTop1);
      visits := visits + tileVisits;
      GridUnfolds(n, t0, columns);
      t0 := t1;
    }
    AllCorrect(el, rows, targets, chunk, seq(n, i requires 0 <= i < n reads logprobs, entropy, logSumSq, meanLogits, isTop1 =>
      OutputAt(logprobs, entropy, logSumSq, meanLogits, isTop1, i)));
  }

  /** One token tile, from its logits to its rows of the outputs. */
  method FillRows(el: Elementary, head: Head, targets: seq<int>, chunk: nat, t0: nat, t1: nat, ghost rows: seq<seq<real>>,
      logprobs: array<real>, entropy: array<real>, logSumSq: array<real>, meanLogits: array<real>, isTop1: array<bool>)
    returns (ghost visits: seq<(int, int)>)
    requires head.WellShaped() && |head.weight| >= 1 && chunk >= 1
    requires t0 <= t1 <= |targets| == |head.hidden| == |rows|
    requires forall i :: 0 <= i < |rows| ==> rows[i] == head.Row(el, i) && rows[i] != []
    requires logprobs.Length == entropy.Length == logSumSq.Length == meanLogits.Length == isTop1.Length == |rows|
    requires logprobs != entropy && logprobs != logSumSq && logprobs != meanLogits
    requires entropy != logSumSq && entropy != meanLogits && logSumSq != meanLogits
    modifies logprobs, entropy, logSumSq, meanLogits, isTop1
    ensures visits == Across(t0, Starts(|head.weight|, chunk, 0))
    ensures forall i :: 0 <= i < t0 ==>
      OutputAt(logprobs, entropy, logSumSq, meanLogits, isTop1, i) == old(OutputAt(logprobs, entropy, logSumSq, meanLogits, isTop1, i))
    ensures forall i :: t0 <= i < t1 ==>
      RowDone(el, rows[i], targets[i], chunk, OutputAt(logprobs, entropy, logSumSq, meanLogits, isTop1, i))
  {
    hide Underway, GatheredUpTo, RowDone, OutputAt, Head.Row, Head.WellShaped;
    var s, targetLogit, tileVisits := TokenTile(el, head, targets[t0..t1], chunk, t0, rows[t0..t1]);
    visits := tileVisits;
    WriteRows(el, s, targetLogit, |head.weight|, t0, targets[t0..t1], chunk, rows[t0..t1],
      logprobs, entropy, logSumSq, meanLogits, isTop1);
    forall i | t0 <= i < t1
      ensures RowDone(el, rows[i], targets[i], chunk, OutputAt(logprobs, entropy, logSumSq, meanLogits, isTop1, i))
    {
      assert rows[i] == rows[t0..t1][i - t0];
    }
  }

  lemma AllCorrect(el: Elementary, rows: seq<seq<real>>, targets: seq<int>, c: nat, outs: seq<Output>)
    requires el.Lawful() && c >= 1 && |rows| == |targets| == |outs|
    requires forall i :: 0 <= i < |rows| ==> rows[i] != [] && RowDone(el, rows[i], targets[i], c, outs[i])
    ensures forall i :: 0 <= i < |rows| ==> RowCorrect(el, rows[i], targets[i], c, outs[i])
  {
    hide RowDone, RowCorrect;
    forall i | 0 <= i < |rows| ensures RowCorrect(el, rows[i], targets[i], c, outs[i]) {
      RowDoneIsCorrect(el, rows[i], targets[i], c, outs[i]);
    }
  }

  /** The slice assignments that store a finished token tile. */
  method WriteRows(el: Elementary, s: Running, targetLogit: seq<real>, vocab: nat, t0: nat, tgt: seq<int>, chunk: nat,
      ghost rows: seq<seq<real>>, logprobs: array<real>, entropy: array<real>, logSumSq: array<real>,
      meanLogits: array<real>, isTop1: array<bool>)
    requires chunk >= 1 && vocab >= 1 && |rows| == |tgt|
    requires forall r :: 0 <= r < |rows| ==> |rows[r]| == vocab
    requires Underway(el, s, rows, chunk, vocab) && GatheredUpTo(targetLogit, rows, tgt, vocab)
    requires t0 + |rows| <= logprobs.Length == entropy.Length == logSumSq.Length == meanLogits.Length == isTop1.Length
    requires logprobs != entropy && logprobs != logSumSq && logprobs != meanLogits
    requires entropy != logSumSq && entropy != meanLogits && logSumSq != meanLogits
    modifies logprobs, entropy, logSumSq, meanLogits, isTop1
    ensures forall i :: 0 <= i < t0 ==>
      OutputAt(logprobs, entropy, logSumSq, meanLogits, isTop1, i) == old(OutputAt(logprobs, entropy, logSumSq, meanLogits, isTop1, i))
    ensures forall r :: 0 <= r < |rows| ==>
      RowDone(el, rows[r], tgt[r], chunk, OutputAt(logprobs, entropy, logSumSq, meanLogits, isTop1, t0 + r))
  {
    hide EntropyOut, LogSumSqOut, LogPartition, RowDone, Underway, GatheredUpTo;
    var m := |tgt|;
    RowsReady(el, s, targetLogit, vocab, tgt, chunk, rows);
    var states := seq(m, r requires 0 <= r < m => s.At(r));
    var logZ := seq(m, r requires 0 <= r < m => LogPartition(el, states[r]));
    Store(logprobs, t0, seq(m, r requires 0 <= r < m => targetLogit[r] - logZ[r]));
    Store(entropy, t0, seq(m, r requires 0 <= r < m => EntropyOut(el, states[r])));
    Store(logSumSq, t0, seq(m, r requires 0 <= r < m => LogSumSqOut(el, states[r])));
    Store(meanLogits, t0, seq(m, r requires 0 <= r < m => s.zSum[r] / vocab as real));
    Store(isTop1, t0, seq(m, r requires 0 <= r < m => s.amaxIdx[r] == tgt[r]));
    forall r | 0 <= r < m
      ensures RowDone(el, rows[r], tgt[r], chunk, OutputAt(logprobs, entropy, logSumSq, meanLogits, isTop1, t0 + r))
    {
      assert OutputAt(logprobs, entropy, logSumSq, meanLogits, isTop1, t0 + r) == OutputOf(el, s.At(r), targetLogit[r], tgt[r], vocab);
    }
  }

  /** A slice assignment. */
  method Store<T>(a: array<T>, t0: nat, values: seq<T>)
    requires t0 + |values| <= a.Length
    modifies a
    ensures forall i :: t0 <= i < t0 + |values| ==> a[i] == values[i - t0]
    ensures forall i :: 0 <= i < t0 || t0 + |values| <= i < a.Length ==> a[i] == old(a[i])
  {
    forall i | t0 <= i < t0 + |values| {
      a[i] := values[i - t0];
    }
  }

  /** A row's outputs from its final state. */
  function OutputOf(el: Elementary, t: RowState, targetLogit: real, target: int, vocab: nat): Output
    requires vocab >= 1
  {
    Output(targetLogit - LogPartition(el, t), EntropyOut(el, t), LogSumSqOut(el, t), t.zSum / vocab as real, t.amaxIdx == target)
  }

  /** Once all tiles are merged the states hold what the outputs need. */
  lemma RowsReady(el: Elementary, s: Running, targetLogit: seq<real>, vocab: nat, tgt: seq<int>, chunk: nat, rows: seq<seq<real>>)
    requires chunk >= 1 && vocab >= 1 && |rows| == |tgt|
    requires forall r :: 0 <= r < |rows| ==> |rows[r]| == vocab
    requires Underway(el, s, rows, chunk, vocab) && GatheredUpTo(targetLogit, rows, tgt, vocab)
    ensures s.Rows(|rows|) && |targetLogit| == |rows|
    ensures forall r :: 0 <= r < |rows| ==>
      rows[r] != [] && RowDone(el, rows[r], tgt[r], chunk, OutputOf(el, s.At(r), targetLogit[r], tgt[r], vocab))
  {
    forall r | 0 <= r < |rows|
      ensures RowDone(el, rows[r], tgt[r], chunk, OutputOf(el, s.At(r), targetLogit[r], tgt[r], vocab))
    {
      assert rows[r][..vocab] == rows[r];
      assert s.At(r) == FinalState(el, rows[r], chunk);
    }
  }
}

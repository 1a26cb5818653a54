/** What a logit is: the head that the kernel applies before its row computation, described by how
    it answers to its weights, bias, scale, soft cap and temperature; and what the untiled values
    mean that the kernel's outputs are compared with. */
module LogitHead {
  import opened Wrappers
  import opened LogProbKernel

  // ------------------------------------------------------------- inner products

  /** The k-th unit vector of n entries. */
  function Unit(k: nat, n: nat): seq<real> {
    seq(n, i => if i == k then 1.0 else 0.0)
  }

  function Added(a: seq<real>, b: seq<real>): seq<real>
    requires |a| == |b|
  {
    seq(|a|, i requires 0 <= i < |a| => a[i] + b[i])
  }

  function Multiplied(c: real, a: seq<real>): seq<real> { seq(|a|, i requires 0 <= i < |a| => Times(c, a[i])) }

  lemma {:induction false} DotZero(a: seq<real>, b: seq<real>)
    requires |a| == |b| && forall i :: 0 <= i < |b| ==> b[i] == 0.0
    ensures Dot(a, b) == 0.0
  {
    if a != [] {
      DotZero(a[1..], b[1..]);
    }
  }

  lemma {:induction false} DotUnit(a: seq<real>, k: nat)
    requires k < |a|
    ensures Dot(a, Unit(k, |a|)) == a[k]
  {
    var u := Unit(k, |a|);
    if k == 0 {
      DotZero(a[1..], u[1..]);
    } else {
      assert u[1..] == Unit(k - 1, |a[1..]|);
      DotUnit(a[1..], k - 1);
    }
  }

  lemma {:induction false} DotAdded(a: seq<real>, b: seq<real>, c: seq<real>)
    requires |a| == |b| == |c|
    ensures Dot(a, Added(b, c)) == Dot(a, b) + Dot(a, c)
  {
    if a != [] {
      assert Added(b, c)[1..] == Added(b[1..], c[1..]);
      DotAdded(a[1..], b[1..], c[1..]);
    }
  }

  lemma {:induction false} DotMultiplied(a: seq<real>, c: real, b: seq<real>)
    requires |a| == |b|
    ensures Dot(a, Multiplied(c, b)) == Times(c, Dot(a, b))
  {
    if a != [] {
      assert Multiplied(c, b)[1..] == Multiplied(c, b[1..]);
      DotMultiplied(a[1..], c, b[1..]);
      assert Multiplied(c, b)[0] == c * b[0];
      assert a[0] * (c * b[0]) == c * (a[0] * b[0]);
      assert c * (a[0] * b[0] + Dot(a[1..], b[1..])) == c * (a[0] * b[0]) + c * Dot(a[1..], b[1..]);
    }
  }

  // ------------------------------------------------------------------ the head

  /** The head with one weight row replaced. */
  function WithRow(head: Head, j: nat, w: seq<real>): Head
    requires j < |head.weight|
  {
    head.(weight := head.weight[j := w])
  }

  predicate Plain(head: Head) { head.bias.None? && head.softcap.None? }

  function Width(head: Head, i: nat): nat
    requires i < |head.hidden|
  {
    |head.hidden[i]|
  }

  /** MAIN RESULT. A logit reads its own hidden row and its own weight row and nothing else of
      the two matrices. */
  lemma LogitIsLocal(el: Elementary, head: Head, other: Head, i: nat, j: nat)
    requires head.WellShaped() && other.WellShaped()
    requires i < |head.hidden| == |other.hidden| && j < |head.weight| == |other.weight|
    requires head.hidden[i] == other.hidden[i] && head.weight[j] == other.weight[j]
    requires head.bias == other.bias && head.temperature == other.temperature
    requires head.softcap == other.softcap && head.logitScale == other.logitScale
    ensures head.Logit(el, i, j) == other.Logit(el, i, j)
  {
  }

  /** MAIN RESULT. Without bias and cap, entry k of the hidden row is read off by the k-th unit
      vector, scaled and divided by the temperature. */
  lemma LogitOfUnit(el: Elementary, head: Head, i: nat, j: nat, k: nat)
    requires head.WellShaped() && Plain(head) && i < |head.hidden| && j < |head.weight|
    requires k < Width(head, i) && head.weight[j] == Unit(k, Width(head, i))
    ensures head.Logit(el, i, j) == head.hidden[i][k] * head.logitScale / head.temperature
  {
    DotUnit(head.hidden[i], k);
    LogitIs(el, head, i, j);
  }

  /** The logit before the temperature. */
  function Capped(el: Elementary, head: Head, i: nat, j: nat): real
    requires head.WellShaped() && i < |head.hidden| && j < |head.weight|
  {
    var scaled := Times(Dot(head.hidden[i], head.weight[j]) + (if head.bias.Some? then head.bias.value[j] else 0.0), head.logitScale);
    if head.softcap.Some? then Times(head.softcap.value, el.Tanh(Over(scaled, head.softcap.value))) else scaled
  }

  lemma LogitIs(el: Elementary, head: Head, i: nat, j: nat)
    requires head.WellShaped() && i < |head.hidden| && j < |head.weight|
    ensures head.Logit(el, i, j) == Over(Capped(el, head, i, j), head.temperature)
  {
    OverTemperature(Capped(el, head, i, j), head.temperature);
  }

  lemma OverTemperature(a: real, t: real)
    requires t != 0.0
    ensures Times(a, Over(1.0, t)) == Over(a, t)
  {
  }

  /** MAIN RESULT. Without bias and cap a logit is linear in its weight row. With the unit
      vectors this fixes it for every weight row. */
  lemma LogitIsLinear(el: Elementary, head: Head, i: nat, j: nat, u: seq<real>, v: seq<real>, c: real)
    requires head.WellShaped() && Plain(head) && i < |head.hidden| && j < |head.weight|
    requires |u| == |v| == |head.weight[j]|
    ensures WithRow(head, j, Added(u, v)).WellShaped() && WithRow(head, j, Multiplied(c, u)).WellShaped()
    ensures WithRow(head, j, u).WellShaped() && WithRow(head, j, v).WellShaped()
    ensures WithRow(head, j, Added(u, v)).Logit(el, i, j) == WithRow(head, j, u).Logit(el, i, j) + WithRow(head, j, v).Logit(el, i, j)
    ensures WithRow(head, j, Multiplied(c, u)).Logit(el, i, j) == Times(c, WithRow(head, j, u).Logit(el, i, j))
  {
    var h, s, t := head.hidden[i], head.logitScale, head.temperature;
    DotAdded(h, u, v);
    DotMultiplied(h, c, u);
    RowLogitIs(el, head, i, j, Added(u, v));
    RowLogitIs(el, head, i, j, Multiplied(c, u));
    RowLogitIs(el, head, i, j, u);
    RowLogitIs(el, head, i, j, v);
    Distributes(Dot(h, u), Dot(h, v), c, s, t);
    hide Head.Logit, Dot, Times, Over, Added, Multiplied;
  }

  lemma RowLogitIs(el: Elementary, head: Head, i: nat, j: nat, w: seq<real>)
    requires head.WellShaped() && Plain(head) && i < |head.hidden| && j < |head.weight| && |w| == |head.weight[j]|
    ensures WithRow(head, j, w).WellShaped()
    ensures WithRow(head, j, w).Logit(el, i, j) == Over(Times(Dot(head.hidden[i], w), head.logitScale), head.temperature)
  {
    LogitIs(el, WithRow(head, j, w), i, j);
    hide Times, Over, Head.Logit, Dot;
  }

  lemma Distributes(x: real, y: real, c: real, s: real, t: real)
    requires t != 0.0
    ensures Over(Times(x + y, s), t) == Over(Times(x, s), t) + Over(Times(y, s), t)
    ensures Over(Times(Times(c, x), s), t) == Times(c, Over(Times(x, s), t))
  {
    assert (x + y) * s == x * s + y * s;
    assert (c * x) * s == c * (x * s);
    assert (x * s + y * s) / t == x * s / t + y * s / t;
    assert c * (x * s) / t == c * (x * s / t);
  }

  /** MAIN RESULT. A bias shifts the uncapped logit by its own entry, scaled and divided by the
      temperature. */
  lemma BiasShifts(el: Elementary, head: Head, i: nat, j: nat)
    requires head.WellShaped() && head.softcap.None? && head.bias.Some? && i < |head.hidden| && j < |head.weight|
    ensures head.Logit(el, i, j)
      == head.(bias := None).Logit(el, i, j) + head.bias.value[j] * head.logitScale / head.temperature
  {
    LogitIs(el, head, i, j);
    LogitIs(el, head.(bias := None), i, j);
    Distributes(Dot(head.hidden[i], head.weight[j]), head.bias.value[j], 1.0, head.logitScale, head.temperature);
    assert Over(Times(head.bias.value[j], head.logitScale), head.temperature) == head.bias.value[j] * head.logitScale / head.temperature;
    hide Times, Over, Head.Logit, Dot;
  }

  /** The head without its cap, at temperature 1. */
  function Uncapped(head: Head): Head { head.(softcap := None, temperature := 1.0) }

  /** MAIN RESULT. Scaling comes before the cap and the temperature after it: a capped logit is
      the cap times the tanh of the uncapped one in units of the cap, over the temperature. */
  lemma CapThenTemperature(el: Elementary, head: Head, i: nat, j: nat)
    requires head.WellShaped() && head.softcap.Some? && i < |head.hidden| && j < |head.weight|
    ensures Uncapped(head).WellShaped()
    ensures head.Logit(el, i, j)
      == head.softcap.value * el.Tanh(Uncapped(head).Logit(el, i, j) / head.softcap.value) / head.temperature
  {
    LogitIs(el, head, i, j);
    LogitIs(el, Uncapped(head), i, j);
    var x := Capped(el, Uncapped(head), i, j);
    assert Over(x, 1.0) == x;
    hide Head.Logit, Dot;
  }

  function Abs(x: real): real { if x < 0.0 then -x else x }

  lemma ShorterProduct(a: real, x: real)
    requires -1.0 <= x <= 1.0
    ensures Abs(a * x) <= Abs(a)
  {
    if a >= 0.0 {
      assert a * x <= a && a * x >= -a;
    } else {
      assert a * x >= a && a * x <= -a;
    }
  }

  /** A cap bounds every logit by the cap over the temperature, since tanh stays within 1. */
  lemma CapBounds(el: Elementary, head: Head, i: nat, j: nat)
    requires head.WellShaped() && head.softcap.Some? && i < |head.hidden| && j < |head.weight|
    requires forall x :: -1.0 <= el.Tanh(x) <= 1.0
    ensures Abs(head.Logit(el, i, j)) <= Abs(head.softcap.value / head.temperature)
  {
    CapThenTemperature(el, head, i, j);
    var cap, t := head.softcap.value, head.temperature;
    var x := el.Tanh(Uncapped(head).Logit(el, i, j) / cap);
    hide Head.Logit;
    assert cap * x / t == cap / t * x;
    ShorterProduct(cap / t, x);
  }

  /** Temperature divides every logit, cap or not. */
  lemma TemperatureDivides(el: Elementary, head: Head, i: nat, j: nat)
    requires head.WellShaped() && i < |head.hidden| && j < |head.weight|
    ensures head.(temperature := 1.0).WellShaped()
    ensures head.Logit(el, i, j) == head.(temperature := 1.0).Logit(el, i, j) / head.temperature
  {
    LogitIs(el, head, i, j);
    LogitIs(el, head.(temperature := 1.0), i, j);
    var x := Capped(el, head, i, j);
    assert Over(x, 1.0) == x;
    hide Head.Logit, Dot, Times;
  }

  /** One hidden entry 1 and the weights 0 and 1: the row is 0 and 1. */
  lemma RowOfTwo(el: Elementary)
    ensures var head := Head([[1.0]], [[0.0], [1.0]], None, 1.0, None, 1.0);
      head.WellShaped() && head.Row(el, 0) == [0.0, 1.0]
  {
    var head := Head([[1.0]], [[0.0], [1.0]], None, 1.0, None, 1.0);
    assert head.hidden[0] == [1.0] && head.weight[0] == [0.0] && head.weight[1] == [1.0];
    assert Dot([1.0], [0.0]) == 0.0 && Dot([1.0], [1.0]) == 1.0;
  }

  // -------------------------------------------------------- the untiled values

  /** The probabilities of the targets from j on, as their log-probabilities give them. */
  function ProbabilitiesFrom(el: Elementary, z: seq<real>, j: nat): real
    requires j <= |z|
    decreases |z| - j
  {
    if j == |z| then 0.0 else el.Exp(LogProb(el, z, j)) + ProbabilitiesFrom(el, z, j + 1)
  }

  lemma {:induction false} ProbabilitiesAreMass(el: Elementary, z: seq<real>, j: nat)
    requires j <= |z|
    ensures ProbabilitiesFrom(el, z, j) == MassAt(el, z[j..], LogSumExp(el, z))
    decreases |z| - j
  {
    if j < |z| {
      ProbabilitiesAreMass(el, z, j + 1);
      assert z[j..][1..] == z[j + 1..] && z[j..][0] == z[j];
    }
  }

  /** MAIN RESULT. The untiled log-probabilities are a distribution over the vocabulary whose odds
      are the exponentials of the logit differences; a target outside it selects a logit of 0. */
  lemma LogProbsAreSoftmax(el: Elementary, z: seq<real>)
    requires el.Lawful() && z != []
    ensures ProbabilitiesFrom(el, z, 0) == 1.0
    ensures forall i, j :: 0 <= i < |z| && 0 <= j < |z| ==> LogProb(el, z, i) - LogProb(el, z, j) == z[i] - z[j]
    ensures forall target :: target < 0 || target >= |z| ==> LogProb(el, z, target) == -LogSumExp(el, z)
  {
    ProbabilitiesAreMass(el, z, 0);
    assert z[0..] == z;
    MassIsOne(el, z);
  }

  /** The row sum behind the mean output: additive, and a single entry counts itself. */
  lemma {:induction false} SumAdds(a: seq<real>, b: seq<real>)
    ensures Sum(a + b) == Sum(a) + Sum(b)
    ensures forall x :: Sum([x]) == x
  {
    if a == [] {
      assert a + b == b;
    } else {
      assert (a + b)[1..] == a[1..] + b;
      SumAdds(a[1..], b);
    }
    forall x ensures Sum([x]) == x {
      assert [x][1..] == [];
    }
  }

  /** The token tiles start at the multiples of 128. */
  lemma {:induction false} TokenTilesOf128(n: nat, v: nat, k: nat)
    requires k < |Starts(n, TOKEN_CHUNK, v)|
    ensures Starts(n, TOKEN_CHUNK, v)[k] == v + 128 * k
    decreases n - v
  {
    if k > 0 {
      TokenTilesOf128(n, Min(v + TOKEN_CHUNK, n), k - 1);
    }
  }
}

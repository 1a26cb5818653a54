/** The reducers between the benchmark and the gate: unit economics and the safe failure. */
module ReleaseReports {
  import opened Wrappers
  import opened Json
  import opened Rounding
  import opened FileTree
  import opened Benchmark
  import Gate = EvidenceGate

  // ------------------------------------------------------------ unit economics

  /** `float(document[key])`. */
  function FloatAt(codec: Codec, d: Doc, key: string): Option<real> {
    if key in d then Gate.AsFloat(codec, d[key]) else None
  }

  /** `int(value)`: numbers are truncated towards zero. */
  function AsInt(codec: Codec, j: Json): Option<int> {
    match j
    case Bool(b) => Some(if b then 1 else 0)
    case Int(n) => Some(n)
    case Float(r) => Some(if r < 0.0 then -((-r).Floor) else r.Floor)
    case Str(s) => codec.ParseInt(s)
    case _ => None
  }

  function IntAt(codec: Codec, d: Doc, key: string): Option<int> {
    if key in d then AsInt(codec, d[key]) else None
  }

  /** What one level contributes, or nothing if it cannot support a cost estimate. */
  datatype Share = Share(seconds: real, completed: int, requested: int)

  function LevelShare(codec: Codec, j: Json): Option<Share> {
    if !j.Obj? then None
    else
      var seconds, completed := FloatAt(codec, j.fields, "wall_seconds"), IntAt(codec, j.fields, "succeeded");
      var requested, failed := IntAt(codec, j.fields, "requests"), IntAt(codec, j.fields, "failed");
      if seconds.None? || completed.None? || requested.None? || failed != Some(0) then None
      else Some(Share(seconds.value, completed.value, requested.value))
  }

  /** The levels of a report made at this rate. */
  function ReportLevels(codec: Codec, report: Doc, rate: real): Option<seq<Json>> {
    if !Field(report, "assumptions").Obj? then None
    else if FloatAt(codec, Field(report, "assumptions").fields, "instance_hourly_usd") != Some(rate) then None
    else if !Field(report, "levels").Arr? || Field(report, "levels").items == [] then None
    else Some(Field(report, "levels").items)
  }

  function Plus(a: Option<Share>, b: Option<Share>): Option<Share> {
    if a.Some? && b.Some? then
      Some(Share(a.value.seconds + b.value.seconds, a.value.completed + b.value.completed, a.value.requested + b.value.requested))
    else None
  }

  const NOTHING := Some(Share(0.0, 0, 0))

  function LevelsTotal(codec: Codec, levels: seq<Json>): Option<Share> {
    if levels == [] then NOTHING
    else Plus(LevelsTotal(codec, levels[..|levels| - 1]), LevelShare(codec, levels[|levels| - 1]))
  }

  function ReportTotal(codec: Codec, report: Doc, rate: real): Option<Share> {
    var levels := ReportLevels(codec, report, rate);
    if levels.None? then None else LevelsTotal(codec, levels.value)
  }

  /** The sums over all levels of all reports. */
  function Total(codec: Codec, reports: seq<Doc>, rate: real): Option<Share> {
    if reports == [] then NOTHING
    else Plus(Total(codec, reports[..|reports| - 1], rate), ReportTotal(codec, reports[|reports| - 1], rate))
  }

  predicate Supports(t: Option<Share>) {
    t.Some? && t.value.completed >= 1 && t.value.completed == t.value.requested && t.value.seconds > 0.0
  }

  // ------------------------------------------------ what a cost report is made of

  /** How numbers are read: truncated towards zero, booleans as 0 and 1, text by the language. */
  lemma NumbersAreRead(codec: Codec, d: Doc, key: string)
    ensures key !in d ==> FloatAt(codec, d, key) == None && IntAt(codec, d, key) == None
    ensures forall r :: key in d && d[key] == Float(r) ==>
      && FloatAt(codec, d, key) == Some(r)
      && IntAt(codec, d, key).Some? && Truncated(r, IntAt(codec, d, key).value)
    ensures forall n :: key in d && d[key] == Int(n) ==> IntAt(codec, d, key) == Some(n)
    ensures key in d && d[key] == Bool(true) ==> FloatAt(codec, d, key) == Some(1.0) && IntAt(codec, d, key) == Some(1)
    ensures key in d && d[key] == Bool(false) ==> FloatAt(codec, d, key) == Some(0.0) && IntAt(codec, d, key) == Some(0)
    ensures forall s :: key in d && d[key] == Str(s) ==>
      FloatAt(codec, d, key) == codec.ParseFloat(s) && IntAt(codec, d, key) == codec.ParseInt(s)
    ensures key in d && (d[key].Null? || d[key].Arr? || d[key].Obj?) ==> FloatAt(codec, d, key) == None && IntAt(codec, d, key) == None
  {
    hide Pow2;
  }

  /** The integer between 0 and r that is nearest to r. */
  predicate Truncated(r: real, n: int) {
    if r >= 0.0 then 0.0 <= n as real <= r < n as real + 1.0 else n as real - 1.0 < r <= n as real <= 0.0
  }

  /** A level can be used: an object with its four numbers, none of them failed. */
  predicate UsableLevel(codec: Codec, j: Json) {
    && j.Obj?
    && FloatAt(codec, j.fields, "wall_seconds").Some? && IntAt(codec, j.fields, "succeeded").Some?
    && IntAt(codec, j.fields, "requests").Some? && IntAt(codec, j.fields, "failed") == Some(0)
  }

  /** A report can be used: made at this rate, with at least one level, all of them usable. */
  predicate UsableReport(codec: Codec, report: Doc, rate: real) {
    && Field(report, "assumptions").Obj?
    && FloatAt(codec, Field(report, "assumptions").fields, "instance_hourly_usd") == Some(rate)
    && Field(report, "levels").Arr? && Field(report, "levels").items != []
    && forall i :: 0 <= i < |Field(report, "levels").items| ==> UsableLevel(codec, Field(report, "levels").items[i])
  }

  lemma LevelShareIff(codec: Codec, j: Json)
    ensures LevelShare(codec, j).Some? <==> UsableLevel(codec, j)
    ensures UsableLevel(codec, j) ==>
      LevelShare(codec, j) == Some(Share(FloatAt(codec, j.fields, "wall_seconds").value, IntAt(codec, j.fields, "succeeded").value,
        IntAt(codec, j.fields, "requests").value))
  {
    hide FloatAt, IntAt;
  }

  lemma {:induction false} LevelsTotalIff(codec: Codec, levels: seq<Json>)
    ensures LevelsTotal(codec, levels).Some? <==> forall i :: 0 <= i < |levels| ==> UsableLevel(codec, levels[i])
  {
    hide UsableLevel, LevelShare;
    if levels != [] {
      LevelsTotalIff(codec, levels[..|levels| - 1]);
      LevelShareIff(codec, levels[|levels| - 1]);
    }
  }

  /** MAIN RESULT. The reports can be added up exactly when every one of them was made at the given
      rate and has levels, all usable: one level with a failed request, or one other rate, refuses
      the whole cost report. */
  lemma {:induction false} TotalIff(codec: Codec, reports: seq<Doc>, rate: real)
    ensures Total(codec, reports, rate).Some? <==> forall i :: 0 <= i < |reports| ==> UsableReport(codec, reports[i], rate)
  {
    if reports != [] {
      var init, last := reports[..|reports| - 1], reports[|reports| - 1];
      TotalIff(codec, init, rate);
      if Field(last, "levels").Arr? {
        LevelsTotalIff(codec, Field(last, "levels").items);
      }
      hide UsableLevel, LevelsTotal, FloatAt;
      assert ReportTotal(codec, last, rate).Some? <==> UsableReport(codec, last, rate);
      hide UsableReport, ReportTotal;
    }
  }

  /** The sums are additive, and start from nothing. */
  lemma {:induction false} TotalsAdd(codec: Codec, a: seq<Doc>, b: seq<Doc>, rate: real)
    ensures Total(codec, [], rate) == Some(Share(0.0, 0, 0))
    ensures Total(codec, a + b, rate).Some? <==> Total(codec, a, rate).Some? && Total(codec, b, rate).Some?
    ensures Total(codec, a + b, rate).Some? ==>
      var x, y := Total(codec, a, rate).value, Total(codec, b, rate).value;
      Total(codec, a + b, rate).value == Share(x.seconds + y.seconds, x.completed + y.completed, x.requested + y.requested)
  {
    hide ReportTotal;
    if b == [] {
      assert a + b == a;
    } else {
      assert (a + b)[..|a + b| - 1] == a + b[..|b| - 1];
      TotalsAdd(codec, a, b[..|b| - 1], rate);
    }
  }

  lemma {:induction false} LevelTotalsAdd(codec: Codec, a: seq<Json>, b: seq<Json>)
    ensures LevelsTotal(codec, a + b) == Plus(LevelsTotal(codec, a), LevelsTotal(codec, b))
  {
    hide LevelShare;
    if b == [] {
      assert a + b == a;
    } else {
      assert (a + b)[..|a + b| - 1] == a + b[..|b| - 1];
      LevelTotalsAdd(codec, a, b[..|b| - 1]);
    }
  }

  /** What the sums must show: something completed, everything completed, and some time. */
  lemma SupportFaults(t: Share)
    ensures Supports(Some(t)) <==> !(t.completed <= 0) && !(t.completed < t.requested) && !(t.completed > t.requested) && !(t.seconds <= 0.0)
    ensures !Supports(None)
  {
  }

  /** What an instance at this hourly rate costs for so many seconds. */
  function HourlyCost(rate: real, seconds: real): real { rate * seconds / 3600.0 }

  function EstimatedTotal(t: Share, rate: real): real { HourlyCost(rate, t.seconds) }

  function EstimatedPerRequest(t: Share, rate: real): real
    requires t.completed >= 1
  {
    EstimatedTotal(t, rate) / t.completed as real
  }

  function EstimatedPerRun(t: Share, rate: real, representative: int): real
    requires t.completed >= 1
  {
    EstimatedPerRequest(t, rate) * representative as real
  }

  function CostDoc(t: Share, repeats: int, rate: real, representative: int): Doc
    requires t.completed >= 1
  {
    map["passed" := Bool(true),
        "assumption_instance_hourly_usd" := Float(rate),
        "benchmark_repeats" := Int(repeats),
        "benchmark_seconds" := Float(RoundAt(t.seconds, 1000000.0)),
        "requests_completed" := Int(t.completed),
        "requests_requested" := Int(t.requested),
        "estimated_total_benchmark_usd" := Float(RoundAt(EstimatedTotal(t, rate), 100000000.0)),
        "estimated_cost_per_request_usd" := Float(RoundAt(EstimatedPerRequest(t, rate), 100000000.0)),
        "representative_run_requests" := Int(representative),
        "estimated_cost_per_representative_run_usd" := Float(RoundAt(EstimatedPerRun(t, rate, representative), 100000000.0))]
  }

  /** The inner loop: one report's levels added to the running sums. */
  method AddLevels(codec: Codec, levels: seq<Json>, start: Share) returns (t: Option<Share>)
    ensures t == Plus(Some(start), LevelsTotal(codec, levels))
  {
    var totalSeconds, completed, requested := start.seconds, start.completed, start.requested;
    for i := 0 to |levels|
      invariant Some(Share(totalSeconds, completed, requested)) == Plus(Some(start), LevelsTotal(codec, levels[..i]))
    {
      assert levels[..i + 1][..i] == levels[..i];
      var share := LevelShare(codec, levels[i]);
      if share.None? {
        LevelsTotalFails(codec, levels, i + 1);
        return None;
      }
      totalSeconds := totalSeconds + share.value.seconds;
      completed := completed + share.value.completed;
      requested := requested + share.value.requested;
    }
    assert levels[..|levels|] == levels;
    return Some(Share(totalSeconds, completed, requested));
  }

  lemma {:induction false} LevelsTotalFails(codec: Codec, levels: seq<Json>, i: nat)
    requires i <= |levels| && LevelsTotal(codec, levels[..i]).None?
    ensures LevelsTotal(codec, levels).None?
    decreases |levels|
  {
    if i < |levels| {
      var init := levels[..|levels| - 1];
      assert init[..i] == levels[..i];
      LevelsTotalFails(codec, init, i);
    } else {
      assert levels[..i] == levels;
    }
  }

  lemma {:induction false} TotalFails(codec: Codec, reports: seq<Doc>, rate: real, i: nat)
    requires i <= |reports| && Total(codec, reports[..i], rate).None?
    ensures Total(codec, reports, rate).None?
    decreases |reports|
  {
    if i < |reports| {
      var init := reports[..|reports| - 1];
      assert init[..i] == reports[..i];
      TotalFails(codec, init, rate, i);
    } else {
      assert reports[..i] == reports;
    }
  }

  /** `summarize_benchmark_cost`: a cost report exactly when every report supports one. */
  method Summarize(codec: Codec, reports: seq<Doc>, rate: real, representative: int) returns (cost: Option<Doc>)
    ensures cost.Some? <==> rate >= 0.0 && representative >= 1 && Supports(Total(codec, reports, rate))
    ensures cost.Some? ==> cost.value == CostDoc(Total(codec, reports, rate).value, |reports|, rate, representative)
  {
    if rate < 0.0 || representative < 1 {
      return None;
    }
    var sums := Share(0.0, 0, 0);
    for i := 0 to |reports|
      invariant Some(sums) == Total(codec, reports[..i], rate)
    {
      assert reports[..i + 1][..i] == reports[..i];
      var levels := ReportLevels(codec, reports[i], rate);
      if levels.None? {
        TotalFails(codec, reports, rate, i + 1);
        return None;
      }
      var grown := AddLevels(codec, levels.value, sums);
      if grown.None? {
        TotalFails(codec, reports, rate, i + 1);
        return None;
      }
      sums := grown.value;
    }
    assert reports[..|reports|] == reports;
    if sums.completed < 1 || sums.completed != sums.requested || sums.seconds <= 0.0 {
      return None;
    }
    return Some(CostDoc(sums, |reports|, rate, representative));
  }

  // --------------------------------------------- conservation of measured cost

  function SumSeconds(levels: seq<Level>): real {
    if levels == [] then 0.0 else SumSeconds(levels[..|levels| - 1]) + levels[|levels| - 1].wall
  }

  function SumSucceeded(levels: seq<Level>): int {
    if levels == [] then 0 else SumSucceeded(levels[..|levels| - 1]) + levels[|levels| - 1].succeeded
  }

  /** A level's cost per request times its completed requests. */
  function Spend(l: Level, rate: real): real { CostPerRequest(l, rate) * l.succeeded as real }

  function SumCost(levels: seq<Level>, rate: real): real {
    if levels == [] then 0.0 else SumCost(levels[..|levels| - 1], rate) + Spend(levels[|levels| - 1], rate)
  }

  predicate Measured(levels: seq<Level>) {
    forall i :: 0 <= i < |levels| ==> levels[i].wall > 0.0 && levels[i].succeeded >= 1
  }

  lemma LevelCost(l: Level, rate: real)
    requires l.wall > 0.0 && l.succeeded >= 1
    ensures Spend(l, rate) == HourlyCost(rate, l.wall)
  {
    QuotientOfQuotient(rate, l.succeeded as real, l.wall);
  }

  lemma QuotientOfQuotient(rate: real, n: real, w: real)
    requires n > 0.0 && w > 0.0
    ensures n / w > 0.0
    ensures rate / (n / w * 3600.0) * n == rate * w / 3600.0
  {
    var q := n / w;
    assert q * w == n;
    assert q > 0.0;
    var c := rate / (q * 3600.0);
    assert c * (q * 3600.0) == rate;
    assert c * n * 3600.0 == c * (q * 3600.0) * w;
  }

  lemma HourlyCostAdds(rate: real, a: real, b: real)
    ensures HourlyCost(rate, a) + HourlyCost(rate, b) == HourlyCost(rate, a + b)
    ensures HourlyCost(rate, 0.0) == 0.0
  {
    assert rate * (a + b) == rate * a + rate * b;
  }

  /** MAIN RESULT. The level costs add up to the rate for the whole measured time. */
  lemma {:induction false} CostIsConserved(levels: seq<Level>, rate: real)
    requires Measured(levels)
    ensures SumCost(levels, rate) == HourlyCost(rate, SumSeconds(levels))
  {
    hide HourlyCost, Spend;
    HourlyCostAdds(rate, 0.0, 0.0);
    if levels != [] {
      var init, last := levels[..|levels| - 1], levels[|levels| - 1];
      CostIsConserved(init, rate);
      LevelCost(last, rate);
      HourlyCostAdds(rate, SumSeconds(init), last.wall);
    }
  }

  /** Over exact wall times the estimate per request lies between the cheapest and the dearest
      level. */
  lemma ExactEstimateBetweenLevels(levels: seq<Level>, rate: real, lo: real, hi: real)
    requires levels != [] && Measured(levels)
    requires forall i :: 0 <= i < |levels| ==> lo <= CostPerRequest(levels[i], rate) <= hi
    ensures SumSucceeded(levels) >= 1
    ensures lo <= EstimatedPerRequest(Share(SumSeconds(levels), SumSucceeded(levels), SumSucceeded(levels)), rate) <= hi
  {
    CostIsConserved(levels, rate);
    WeightedBounds(levels, rate, lo, hi);
    hide HourlyCost, Weighted;
    DivideBounds(SumCost(levels, rate), SumSucceeded(levels) as real, lo, hi);
  }

  function Weighted(price: real, n: real): real { price * n }

  lemma DivideBounds(c: real, n: real, lo: real, hi: real)
    requires n > 0.0 && Weighted(lo, n) <= c <= Weighted(hi, n)
    ensures lo <= c / n <= hi
  {
    var q := c / n;
    assert q * n == c;
    if q < lo {
      WeightedGrows(q, lo, n);
    }
    if q > hi {
      WeightedGrows(hi, q, n);
    }
  }

  lemma WeightedGrows(a: real, b: real, n: real)
    requires a < b && n > 0.0
    ensures Weighted(a, n) < Weighted(b, n)
  {
    assert (b - a) * n > 0.0;
  }

  lemma WeightedAdds(price: real, a: real, b: real)
    ensures Weighted(price, a) + Weighted(price, b) == Weighted(price, a + b)
    ensures Weighted(price, 0.0) == 0.0
  {
  }

  lemma SpendWithin(l: Level, rate: real, lo: real, hi: real)
    requires l.succeeded >= 1 && lo <= CostPerRequest(l, rate) <= hi
    ensures Weighted(lo, l.succeeded as real) <= Spend(l, rate) <= Weighted(hi, l.succeeded as real)
  {
    hide CostPerRequest;
    var c, n := CostPerRequest(l, rate), l.succeeded as real;
    assert (c - lo) * n >= 0.0;
    assert (hi - c) * n >= 0.0;
  }

  lemma {:induction false} WeightedBounds(levels: seq<Level>, rate: real, lo: real, hi: real)
    requires Measured(levels)
    requires forall i :: 0 <= i < |levels| ==> lo <= CostPerRequest(levels[i], rate) <= hi
    ensures SumSucceeded(levels) >= |levels|
    ensures Weighted(lo, SumSucceeded(levels) as real) <= SumCost(levels, rate) <= Weighted(hi, SumSucceeded(levels) as real)
  {
    hide Weighted, Spend, CostPerRequest;
    WeightedAdds(lo, 0.0, 0.0);
    WeightedAdds(hi, 0.0, 0.0);
    if levels != [] {
      var init, last := levels[..|levels| - 1], levels[|levels| - 1];
      WeightedBounds(init, rate, lo, hi);
      SpendWithin(last, rate, lo, hi);
      WeightedAdds(lo, SumSucceeded(init) as real, last.succeeded as real);
      WeightedAdds(hi, SumSucceeded(init) as real, last.succeeded as real);
      assert SumSucceeded(levels) as real == SumSucceeded(init) as real + last.succeeded as real;
    }
  }

  /** The seconds as the reports carry them, rounded to four decimals. */
  function SumRounded(levels: seq<Level>): real {
    if levels == [] then 0.0 else SumRounded(levels[..|levels| - 1]) + RoundAt(levels[|levels| - 1].wall, 10000.0)
  }

  lemma {:induction false} RoundedSecondsClose(levels: seq<Level>)
    ensures -(|levels| as real * 0.00005) <= SumRounded(levels) - SumSeconds(levels) <= |levels| as real * 0.00005
  {
    hide RoundAt;
    if levels != [] {
      RoundedSecondsClose(levels[..|levels| - 1]);
      RoundAtClose(levels[|levels| - 1].wall, 10000.0);
    }
  }

  /** MAIN RESULT. Reporting wall times with four decimals moves the estimated total by at
      most rate * levels * 0.00005 / 3600. */
  lemma RoundingMovesTotalLittle(levels: seq<Level>, rate: real, completed: int)
    requires rate >= 0.0 && Measured(levels)
    ensures var bound := HourlyCost(rate, |levels| as real * 0.00005);
      -bound <= EstimatedTotal(Share(SumRounded(levels), completed, completed), rate) - SumCost(levels, rate) <= bound
  {
    RoundedSecondsClose(levels);
    CostIsConserved(levels, rate);
    hide HourlyCost, SumCost, SumRounded, SumSeconds;
    HourlyCostClose(rate, SumRounded(levels), SumSeconds(levels), |levels| as real * 0.00005);
  }

  lemma HourlyCostClose(rate: real, a: real, b: real, d: real)
    requires rate >= 0.0 && -d <= a - b <= d
    ensures -HourlyCost(rate, d) <= HourlyCost(rate, a) - HourlyCost(rate, b) <= HourlyCost(rate, d)
  {
    assert rate * (d - (a - b)) >= 0.0;
    assert rate * (d - (b - a)) >= 0.0;
  }

  lemma DivideClose(a: real, b: real, d: real, n: real)
    requires n > 0.0 && -d <= a - b <= d
    ensures b / n - d / n <= a / n <= b / n + d / n
  {
    DivideMonotone(b - d, a, n);
    DivideMonotone(a, b + d, n);
    assert (b - d) / n == b / n - d / n && (b + d) / n == b / n + d / n;
  }

  lemma DivideMonotone(a: real, b: real, n: real)
    requires n > 0.0 && a <= b
    ensures a / n <= b / n
  {
  }

  /** MAIN RESULT. The estimate per request that the report states, before its own rounding, lies
      between the cheapest and the dearest level, give or take what rounding the wall times to
      four decimals can move: rate * levels * 0.00005 / 3600, shared by the requests. */
  lemma EstimateBetweenLevels(levels: seq<Level>, rate: real, lo: real, hi: real)
    requires levels != [] && Measured(levels) && rate >= 0.0
    requires forall i :: 0 <= i < |levels| ==> lo <= CostPerRequest(levels[i], rate) <= hi
    ensures SumSucceeded(levels) >= 1
    ensures var n := SumSucceeded(levels);
      var slack := HourlyCost(rate, |levels| as real * 0.00005) / n as real;
      lo - slack <= EstimatedPerRequest(Share(SumRounded(levels), n, n), rate) <= hi + slack
  {
    ExactEstimateBetweenLevels(levels, rate, lo, hi);
    var n := SumSucceeded(levels);
    RoundedSecondsClose(levels);
    hide HourlyCost, SumRounded, SumSeconds, SumSucceeded;
    HourlyCostClose(rate, SumRounded(levels), SumSeconds(levels), |levels| as real * 0.00005);
    DivideClose(HourlyCost(rate, SumRounded(levels)), HourlyCost(rate, SumSeconds(levels)),
      HourlyCost(rate, |levels| as real * 0.00005), n as real);
  }

  /** MAIN RESULT. What the cost report says about measured levels: its total is the money the levels
      spent, up to the rounding of the wall times and of the figure itself; its other figures are
      that total per request and per representative run, each rounded to eight decimals. */
  lemma CostReportSays(levels: seq<Level>, rate: real, repeats: int, representative: int)
    requires levels != [] && Measured(levels) && rate >= 0.0
    ensures SumSucceeded(levels) >= 1
    ensures var n := SumSucceeded(levels);
      var doc := CostDoc(Share(SumRounded(levels), n, n), repeats, rate, representative);
      var bound := HourlyCost(rate, |levels| as real * 0.00005) + 0.5 / 100000000.0;
      && Field(doc, "estimated_total_benchmark_usd").Float?
      && -bound <= Field(doc, "estimated_total_benchmark_usd").r - SumCost(levels, rate) <= bound
      && Field(doc, "requests_completed") == Int(n) && Field(doc, "requests_requested") == Int(n)
      && Field(doc, "benchmark_repeats") == Int(repeats) && Field(doc, "representative_run_requests") == Int(representative)
      && Field(doc, "assumption_instance_hourly_usd") == Float(rate) && Field(doc, "passed") == Bool(true)
      && Field(doc, "benchmark_seconds").Float? && -0.0000005 <= Field(doc, "benchmark_seconds").r - SumRounded(levels) <= 0.0000005
  {
    RoundAtClose(SumRounded(levels), 1000000.0);
    WeightedBoundsExist(levels, rate);
    var n := SumSucceeded(levels);
    var t := Share(SumRounded(levels), n, n);
    RoundingMovesTotalLittle(levels, rate, n);
    RoundAtClose(EstimatedTotal(t, rate), 100000000.0);
    hide HourlyCost, SumCost, SumRounded, SumSeconds, SumSucceeded, RoundAt, EstimatedTotal, EstimatedPerRequest, EstimatedPerRun;
    CostDocMembers(t, repeats, rate, representative);
  }

  lemma {:induction false} WeightedBoundsExist(levels: seq<Level>, rate: real)
    requires Measured(levels)
    ensures SumSucceeded(levels) >= |levels|
  {
    if levels != [] {
      WeightedBoundsExist(levels[..|levels| - 1], rate);
    }
  }

  lemma CostDocMembers(t: Share, repeats: int, rate: real, representative: int)
    requires t.completed >= 1
    ensures var doc := CostDoc(t, repeats, rate, representative);
      && Field(doc, "estimated_total_benchmark_usd") == Float(RoundAt(EstimatedTotal(t, rate), 100000000.0))
      && Field(doc, "requests_completed") == Int(t.completed) && Field(doc, "requests_requested") == Int(t.requested)
      && Field(doc, "benchmark_repeats") == Int(repeats) && Field(doc, "representative_run_requests") == Int(representative)
      && Field(doc, "assumption_instance_hourly_usd") == Float(rate) && Field(doc, "passed") == Bool(true)
      && Field(doc, "benchmark_seconds") == Float(RoundAt(t.seconds, 1000000.0))
  {
    hide RoundAt, EstimatedTotal, EstimatedPerRequest, EstimatedPerRun;
  }

  /** The two prices of the report: completed requests at the price per request cost the total, and
      a representative run costs its requests; each figure within half a unit of its eighth decimal. */
  lemma CostReportPrices(t: Share, repeats: int, rate: real, representative: int) returns (exact: real)
    requires t.completed >= 1
    ensures var doc := CostDoc(t, repeats, rate, representative);
      var price, run := Field(doc, "estimated_cost_per_request_usd"), Field(doc, "estimated_cost_per_representative_run_usd");
      && Weighted(exact, t.completed as real) == EstimatedTotal(t, rate)
      && price.Float? && run.Float? && Close(price.r, exact) && Close(run.r, Weighted(exact, representative as real))
  {
    exact := EstimatedPerRequest(t, rate);
    assert Weighted(exact, t.completed as real) == EstimatedTotal(t, rate);
    RoundAtClose(exact, 100000000.0);
    RoundAtClose(EstimatedPerRun(t, rate, representative), 100000000.0);
    assert EstimatedPerRun(t, rate, representative) == Weighted(exact, representative as real);
    hide RoundAt, EstimatedTotal, EstimatedPerRequest, EstimatedPerRun, Weighted;
  }

  /** Equal up to half a unit of the eighth decimal. */
  predicate Close(a: real, b: real) { -0.5 / 100000000.0 <= a - b <= 0.5 / 100000000.0 }
}

/** The files that the benchmark, the cost reducer and the safe-failure reducer leave for the
    gate, made from what was measured, and when the gate accepts them. */
module Producers {
  import opened Wrappers
  import opened Json
  import opened Rounding
  import opened FileTree
  import opened Benchmark
  import opened ReleaseReports
  import opened ReleaseChain
  import Gate = EvidenceGate

  // ------------------------------------------------------------- measurements

  /** One concurrency level as it was run: the replies, their latencies, the markers sent, and
      the wall time. */
  datatype Measurement = Measurement(concurrency: int, replies: seq<Reply>, latencies: seq<real>, canaries: seq<string>, wall: real) {
    predicate Proper() {
      |replies| == |latencies| == |canaries| && forall i :: 0 <= i < |canaries| ==> canaries[i] != ""
    }
  }

  /** As many latencies and markers as replies, and no empty marker. */
  type Trial = m: Measurement | m.Proper() witness Measurement(1, [], [], [], 0.0)

  function Results(m: Trial): (o: seq<RequestResult>)
    ensures |o| == |m.replies|
  {
    Outcomes(m.replies, m.latencies, m.canaries)
  }

  /** What `run_level` returns; without requests it measures no time. */
  function LevelOf(m: Trial): Level {
    Tally(m.concurrency, |m.replies|, if m.replies == [] then 0.0 else m.wall, Results(m))
  }

  predicate AllSucceeded(m: Trial) { forall i :: 0 <= i < |m.replies| ==> Results(m)[i].ok }

  function Levels(ms: seq<Trial>): seq<Level> { seq(|ms|, i requires 0 <= i < |ms| => LevelOf(ms[i])) }

  /** The release benchmark: concurrency 1, 2 and 4, and every request succeeded. */
  predicate GoodRepeat(ms: seq<Trial>) {
    && |ms| == 3 && ms[0].concurrency == 1 && ms[1].concurrency == 2 && ms[2].concurrency == 4
    && forall i :: 0 <= i < 3 ==> AllSucceeded(ms[i])
  }

  lemma {:induction false} NoFailureCounted(outcomes: seq<RequestResult>)
    ensures Count(outcomes, FAILED) == 0 <==> forall i :: 0 <= i < |outcomes| ==> outcomes[i].ok
  {
    if outcomes != [] {
      NoFailureCounted(outcomes[..|outcomes| - 1]);
    }
  }

  lemma CleanIffAllSucceeded(m: Trial)
    ensures CleanLevel(LevelOf(m)) <==> AllSucceeded(m)
  {
    hide Outcomes, Count, Latencies, Errors, Tokens;
    OutcomesClassified(m.replies, m.latencies, m.canaries);
    NoFailureCounted(Results(m));
    if AllSucceeded(m) {
      TallyWithoutFailuresIsClean(m.concurrency, if m.replies == [] then 0.0 else m.wall, Results(m));
    }
  }

  lemma CleanIffGood(ms: seq<Trial>)
    ensures CleanRepeat(Levels(ms)) <==> GoodRepeat(ms)
  {
    hide CleanLevel, Outcomes, Count, Latencies, Errors, Tokens, AllSucceeded;
    forall i | 0 <= i < |ms| ensures CleanLevel(Levels(ms)[i]) <==> AllSucceeded(ms[i]) {
      CleanIffAllSucceeded(ms[i]);
    }
  }

  // ------------------------------------------------------- the benchmark report

  /** What the gate demands of a level is that it is clean. */
  lemma LevelPassesIff(l: Level, hourly: real)
    ensures Gate.LevelPasses(LevelDoc(l, hourly)) <==> CleanLevel(l)
    ensures Field(LevelDoc(l, hourly), "concurrency") == Int(l.concurrency)
  {
    hide RoundAt, CostPerRequest;
  }

  lemma PassedBenchmarkParts(report: Doc, levels: seq<Json>)
    requires Field(report, "levels") == Arr(levels) && Gate.BenchmarkPasses(report)
    ensures |levels| == 3
    ensures LevelAsExpected(levels[0], 1) && LevelAsExpected(levels[1], 2) && LevelAsExpected(levels[2], 4)
  {
    hide Gate.LevelPasses, Hex64Text, Equal;
    assert Gate.CONCURRENCIES[0] == 1 && Gate.CONCURRENCIES[1] == 2 && Gate.CONCURRENCIES[2] == 4;
  }

  lemma ExpectedLevelIsClean(l: Level, hourly: real, concurrency: int)
    requires LevelAsExpected(Obj(LevelDoc(l, hourly)), concurrency)
    ensures CleanLevel(l) && l.concurrency == concurrency
  {
    LevelPassesIff(l, hourly);
    hide LevelDoc, CleanLevel, Gate.LevelPasses;
  }

  /** The gate accepts a benchmark report exactly when it is of a clean repeat. */
  lemma BenchmarkPassesIff(levels: seq<Level>, endpointSha: string, model: string, hourly: real)
    requires Hex64(endpointSha)
    ensures Gate.BenchmarkPasses(ReportDoc(endpointSha, model, levels, hourly)) <==> CleanRepeat(levels)
  {
    ReportMembers(levels, endpointSha, model, hourly);
    hide LevelDoc, ReportDoc, Hex64, CleanLevel, Gate.BenchmarkPasses, LevelAsExpected;
    if Gate.BenchmarkPasses(ReportDoc(endpointSha, model, levels, hourly)) {
      PassedBenchmarkParts(ReportDoc(endpointSha, model, levels, hourly), LevelDocs(levels, hourly));
      ExpectedLevelIsClean(levels[0], hourly, 1);
      ExpectedLevelIsClean(levels[1], hourly, 2);
      ExpectedLevelIsClean(levels[2], hourly, 4);
    }
    if CleanRepeat(levels) {
      CleanRepeatPasses(levels, endpointSha, model, hourly);
    }
  }

  // ------------------------------------------------------------ the cost report

  /** The report of a reducer that refuses. */
  function RefusalDoc(failureClass: string): Doc { map["passed" := Bool(false), "failure_class" := Str(failureClass)] }

  /** The file `summarize_benchmark_cost` writes. */
  function CostFile(codec: Codec, reports: seq<Doc>, rate: real, representative: int, failureClass: string): Doc {
    if rate >= 0.0 && representative >= 1 && Supports(Total(codec, reports, rate)) then
      CostDoc(Total(codec, reports, rate).value, |reports|, rate, representative)
    else RefusalDoc(failureClass)
  }

  /** A refusal says that it did not pass and names the class of the error, and nothing else; and a
      level without requests has measured no time. */
  lemma RefusalSays(failureClass: string, m: Trial)
    ensures RefusalDoc(failureClass).Keys == {"passed", "failure_class"}
    ensures RefusalDoc(failureClass)["passed"] == Bool(false) && RefusalDoc(failureClass)["failure_class"] == Str(failureClass)
    ensures LevelOf(m).concurrency == m.concurrency && LevelOf(m).requested == |m.replies|
    ensures LevelOf(m).wall == if |m.replies| == 0 then 0.0 else m.wall
  {
    hide Results;
  }

  method WriteCost(codec: Codec, reports: seq<Doc>, rate: real, representative: int, failureClass: string) returns (file: Doc)
    ensures file == CostFile(codec, reports, rate, representative, failureClass)
  {
    var cost := Summarize(codec, reports, rate, representative);
    file := if cost.Some? then cost.value else RefusalDoc(failureClass);
  }

  lemma RefusalFails(codec: Codec, failureClass: string)
    ensures !Gate.CostPasses(codec, RefusalDoc(failureClass)) && !Gate.FailurePasses(RefusalDoc(failureClass))
  {
  }

  /** Wall time and requests of the three repeats, as the reports carry them. */
  function SecondsOf(a: seq<Level>, b: seq<Level>, c: seq<Level>): real { SumRounded(a) + SumRounded(b) + SumRounded(c) }

  function RequestsOf(a: seq<Level>, b: seq<Level>, c: seq<Level>): int { SumSucceeded(a) + SumSucceeded(b) + SumSucceeded(c) }

  /** Of three clean repeats the cost file passes exactly when rate and request count are valid
      and some time and some request were measured. */
  lemma CostPassesIff(codec: Codec, a: seq<Level>, b: seq<Level>, c: seq<Level>,
      endpointSha: string, model: string, hourly: real, representative: int, failureClass: string)
    requires CleanRepeat(a) && CleanRepeat(b) && CleanRepeat(c) && Hex64(endpointSha)
    ensures var reports := [ReportDoc(endpointSha, model, a, hourly), ReportDoc(endpointSha, model, b, hourly), ReportDoc(endpointSha, model, c, hourly)];
      Gate.CostPasses(codec, CostFile(codec, reports, hourly, representative, failureClass)) <==>
        hourly >= 0.0 && representative >= 1 && SecondsOf(a, b, c) > 0.0 && RequestsOf(a, b, c) >= 1
  {
    hide ReportDoc, CleanRepeat, Hex64, Gate.CostPasses, Gate.BenchmarkPasses, CostDoc, RefusalDoc, SumRounded, SumSucceeded, Total, Supports;
    RefusalFails(codec, failureClass);
    if hourly >= 0.0 && representative >= 1 {
      CleanRunPassesGate(codec, a, b, c, endpointSha, model, hourly, representative);
    }
  }

  // ---------------------------------------------------------- the failure probe

  /** The file `assert_safe_failure` writes about a probe's report. */
  function FailureFile(codec: Codec, raw: Doc, exitCode: int, failureClass: string): Doc {
    var evidence := SafeFailure(codec, raw, exitCode);
    if evidence.Ok? then evidence.value else RefusalDoc(failureClass)
  }

  lemma FailurePassesIff(codec: Codec, raw: Doc, exitCode: int, failureClass: string)
    ensures Gate.FailurePasses(FailureFile(codec, raw, exitCode, failureClass)) <==> SafelyFailed(codec, raw, exitCode)
  {
    hide SafeFailure, SafelyFailed, ProbeCrashes, Gate.FailurePasses, Gate.CostPasses, RefusalDoc;
    SafeFailureIff(codec, raw, exitCode);
    RefusalFails(codec, failureClass);
    if SafelyFailed(codec, raw, exitCode) {
      SafeFailurePassesGate(codec, raw, exitCode);
    }
  }

  /** A probe that failed safely: a request was made, every one failed, and the first five
      failures are well coded. */
  predicate GoodProbe(m: Trial) {
    m.replies != [] && AllFailed(Results(m)) && FirstFiveWellCoded(m.replies)
  }

  function ProbeReport(m: Trial, endpointSha: string, model: string, hourly: real): Doc {
    ReportDoc(endpointSha, model, [LevelOf(m)], hourly)
  }

  lemma {:induction false} NoSuccessCounted(outcomes: seq<RequestResult>)
    ensures Count(outcomes, SUCCEEDED) == 0 <==> AllFailed(outcomes)
  {
    if outcomes != [] {
      var init := outcomes[..|outcomes| - 1];
      NoSuccessCounted(init);
      assert AllFailed(outcomes) <==> AllFailed(init) && !outcomes[|outcomes| - 1].ok;
    }
  }

  lemma AcceptedProbeFailed(codec: Codec, endpointSha: string, model: string, l: Level, hourly: real, exitCode: int)
    requires SafelyFailed(codec, ReportDoc(endpointSha, model, [l], hourly), exitCode)
    ensures l.succeeded == 0 && l.failed >= 1
  {
    SingleLevelReport(endpointSha, model, l, hourly);
    LevelNumbersRead(codec, l, hourly);
    hide LevelDoc, ReportDoc, ErrorClass, Hex64, Pow2;
    assert [Obj(LevelDoc(l, hourly))][0] == Obj(LevelDoc(l, hourly));
  }

  /** MAIN RESULT. For every probe, whatever its replies were: the evidence made from its report
      and exit code passes the gate exactly when the probe failed safely. */
  lemma ProbePassesIff(codec: Codec, m: Trial, endpointSha: string, model: string, hourly: real, failureClass: string)
    requires Hex64(endpointSha)
    ensures Gate.FailurePasses(FailureFile(codec, ProbeReport(m, endpointSha, model, hourly), ExitCode([LevelOf(m)]), failureClass))
      <==> GoodProbe(m)
  {
    var raw, exitCode := ProbeReport(m, endpointSha, model, hourly), ExitCode([LevelOf(m)]);
    hide Outcomes, ReportDoc, Gate.FailurePasses, Hex64, SafelyFailed, SafeFailure, FirstFiveWellCoded, Count, Latencies, Errors, Tokens, ExitCode,
      FailureFile;
    FailurePassesIff(codec, raw, exitCode, failureClass);
    if SafelyFailed(codec, raw, exitCode) {
      AcceptedProbeFailed(codec, endpointSha, model, LevelOf(m), hourly, exitCode);
      NoSuccessCounted(Results(m));
      assert m.replies != [] by { NothingCounted(); }
    }
    if m.replies != [] && AllFailed(Results(m)) {
      FailedRunAcceptedIff(codec, m.replies, m.latencies, m.canaries, m.concurrency, m.wall, endpointSha, model, hourly);
      SafeFailureIff(codec, raw, exitCode);
    }
  }

  lemma NothingCounted()
    ensures Count([], FAILED) == 0
  {
  }

  // ---------------------------------------------- all of it is finitely decimal

  lemma IntegerIsFloor(x: real, n: int)
    requires x == n as real
    ensures x == x.Floor as real
  {
  }

  lemma RoundedIsDecimal(x: real, scale: real, k: nat)
    requires scale > 0.0 && scale == Pow10(k)
    ensures Exact(Float(RoundAt(x, scale)))
  {
    hide RoundAt, RoundHalfEven, Pow10;
    RoundedTimesScale(x, scale);
    IntegerIsFloor(RoundAt(x, scale) * Pow10(k), RoundHalfEven(x * scale));
    assert HasDigits(RoundAt(x, scale), k);
  }

  lemma Scales()
    ensures Pow10(4) == 10000.0 && Pow10(6) == 1000000.0 && Pow10(8) == 100000000.0
  {
    assert Pow10(2) == 100.0;
    assert Pow10(4) == 10000.0;
    assert Pow10(6) == 1000000.0;
  }

  lemma TextsAreExact(s: seq<string>)
    ensures Exact(Arr(Texts(s)))
  {
  }

  lemma LevelIsExact(l: Level, hourly: real)
    ensures Exact(Obj(LevelDoc(l, hourly)))
  {
    Scales();
    var wall, cost, errors := Float(RoundAt(l.wall, 10000.0)), Float(RoundAt(CostPerRequest(l, hourly), 100000000.0)), Arr(Texts(FirstFive(l.errors)));
    RoundedIsDecimal(l.wall, 10000.0, 4);
    RoundedIsDecimal(CostPerRequest(l, hourly), 100000000.0, 8);
    TextsAreExact(FirstFive(l.errors));
    hide Exact, RoundAt, CostPerRequest, Texts, FirstFive, Pow10;
    FlatIsExact(LevelDoc(l, hourly), {wall, cost, errors});
  }

  lemma ReportIsExact(endpointSha: string, model: string, levels: seq<Level>, hourly: real)
    requires Exact(Float(hourly))
    ensures Exact(Obj(ReportDoc(endpointSha, model, levels, hourly)))
  {
    forall i | 0 <= i < |levels| ensures Exact(LevelDocs(levels, hourly)[i]) {
      LevelIsExact(levels[i], hourly);
    }
    assert Exact(Arr(LevelDocs(levels, hourly)));
    var assumptions: Doc := map["instance_hourly_usd" := Float(hourly)];
    hide Exact, LevelDocs;
    FlatIsExact(assumptions, {Float(hourly)});
    FlatIsExact(ReportDoc(endpointSha, model, levels, hourly), {Arr(LevelDocs(levels, hourly)), Obj(assumptions)});
  }

  lemma CostIsExact(t: Share, repeats: int, rate: real, representative: int)
    requires t.completed >= 1 && Exact(Float(rate))
    ensures Exact(Obj(CostDoc(t, repeats, rate, representative)))
  {
    Scales();
    var total, request, run := EstimatedTotal(t, rate), EstimatedPerRequest(t, rate), EstimatedPerRun(t, rate, representative);
    RoundedIsDecimal(t.seconds, 1000000.0, 6);
    RoundedIsDecimal(total, 100000000.0, 8);
    RoundedIsDecimal(request, 100000000.0, 8);
    RoundedIsDecimal(run, 100000000.0, 8);
    hide Exact, RoundAt, EstimatedTotal, EstimatedPerRequest, EstimatedPerRun, Pow10;
    FlatIsExact(CostDoc(t, repeats, rate, representative), {Float(rate), Float(RoundAt(t.seconds, 1000000.0)),
      Float(RoundAt(total, 100000000.0)), Float(RoundAt(request, 100000000.0)), Float(RoundAt(run, 100000000.0))});
  }

  lemma CostFileIsExact(codec: Codec, reports: seq<Doc>, rate: real, representative: int, failureClass: string)
    requires Exact(Float(rate))
    ensures Exact(Obj(CostFile(codec, reports, rate, representative, failureClass)))
  {
    hide Exact, CostDoc, Total;
    FlatIsExact(RefusalDoc(failureClass), {});
    if Supports(Total(codec, reports, rate)) {
      CostIsExact(Total(codec, reports, rate).value, |reports|, rate, representative);
    }
  }

  /** The evidence of an accepted probe, member by member. */
  lemma ProbeEvidence(codec: Codec, endpointSha: string, model: string, l: Level, hourly: real, exitCode: int)
    returns (classes: seq<string>)
    requires SafelyFailed(codec, ReportDoc(endpointSha, model, [l], hourly), exitCode)
    ensures SafeFailure(codec, ReportDoc(endpointSha, model, [l], hourly), exitCode)
      == Gate.Ok(EvidenceDoc(Str(endpointSha), Str(model), l.concurrency, l.requested, l.failed, RoundAt(l.wall, 10000.0), classes))
  {
    var raw := ReportDoc(endpointSha, model, [l], hourly);
    SafeFailureIff(codec, raw, exitCode);
    SingleLevelReport(endpointSha, model, l, hourly);
    assert Field(raw, "model") == Str(model);
    LevelNumbersRead(codec, l, hourly);
    assert FieldOr(LevelDoc(l, hourly), "wall_seconds", Float(0.0)) == Float(RoundAt(l.wall, 10000.0));
    assert [Obj(LevelDoc(l, hourly))][0] == Obj(LevelDoc(l, hourly));
    hide ReportDoc, LevelDoc, EvidenceDoc, RoundAt, ErrorClass, Hex64Text, Pow2, SortedSet;
    classes := SortedSet(AllTexts(Field(LevelDoc(l, hourly), "errors").items).value);
  }

  lemma EvidenceIsExact(endpointSha: string, model: string, concurrency: int, requests: int, failed: int, wall: real, classes: seq<string>)
    ensures Exact(Obj(EvidenceDoc(Str(endpointSha), Str(model), concurrency, requests, failed, RoundAt(wall, 10000.0), classes)))
  {
    Scales();
    RoundedIsDecimal(wall, 10000.0, 4);
    TextsAreExact(classes);
    hide Exact, RoundAt, Texts, Pow10;
    FlatIsExact(EvidenceDoc(Str(endpointSha), Str(model), concurrency, requests, failed, RoundAt(wall, 10000.0), classes),
      {Float(RoundAt(wall, 10000.0)), Arr(Texts(classes))});
  }

  lemma FailureFileIsExact(codec: Codec, endpointSha: string, model: string, l: Level, hourly: real, exitCode: int, failureClass: string)
    ensures Exact(Obj(FailureFile(codec, ReportDoc(endpointSha, model, [l], hourly), exitCode, failureClass)))
  {
    var raw := ReportDoc(endpointSha, model, [l], hourly);
    hide Exact, ReportDoc, EvidenceDoc, RoundAt, SafelyFailed, SafeFailure, ProbeCrashes;
    SafeFailureIff(codec, raw, exitCode);
    FlatIsExact(RefusalDoc(failureClass), {});
    if SafelyFailed(codec, raw, exitCode) {
      var classes := ProbeEvidence(codec, endpointSha, model, l, hourly, exitCode);
      EvidenceIsExact(endpointSha, model, l.concurrency, l.requested, l.failed, l.wall, classes);
    }
  }
}

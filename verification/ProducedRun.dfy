/** The release decision on evidence whose benchmark, cost and failure files come from the
    producers: what was measured decides, together with the files of the other parties. */
module ProducedRun {
  import opened Wrappers
  import opened Json
  import opened FileTree
  import opened EvidenceGate
  import opened Producers
  import opened VerifierReport
  import opened FinalGate
  import B = Benchmark
  import C = ReleaseChain
  import V = ReceiptBundle

  /** What was measured: three repeats of the benchmark and one failure probe of an endpoint, and
      the assumptions of the cost estimate. */
  datatype Inputs = Inputs(endpointSha: string, model: string, hourly: real, representative: int,
    first: seq<Trial>, second: seq<Trial>, third: seq<Trial>, probe: Trial, failureClass: string)
  {
    function Repeat(i: int): seq<Trial>
      requires 0 <= i < 3
    {
      if i == 0 then first else if i == 1 then second else third
    }

    function Report(i: int): Doc
      requires 0 <= i < 3
    {
      B.ReportDoc(endpointSha, model, Levels(Repeat(i)), hourly)
    }

    function Cost(codec: Codec): Doc {
      CostFile(codec, [Report(0), Report(1), Report(2)], hourly, representative, failureClass)
    }

    function Failure(codec: Codec): Doc {
      FailureFile(codec, ProbeReport(probe, endpointSha, model, hourly), B.ExitCode([LevelOf(probe)]), failureClass)
    }

    /** Every request of the repeats succeeded, at concurrency 1, 2 and 4. */
    predicate GoodRepeats() { forall i :: 0 <= i < 3 ==> GoodRepeat(Repeat(i)) }

    /** Some request was made, and its time is not rounded to nothing. */
    predicate SomethingMeasured() {
      SecondsOf(Levels(first), Levels(second), Levels(third)) > 0.0 && RequestsOf(Levels(first), Levels(second), Levels(third)) >= 1
    }

    /** What makes a measured run releasable. */
    predicate Good() {
      GoodRepeats() && hourly >= 0.0 && representative >= 1 && SomethingMeasured() && GoodProbe(probe)
    }
  }

  /** The five files are the producers'. */
  predicate Produced(e: Evidence, inputs: Inputs) {
    && (forall i :: 0 <= i < 3 ==> e.Load(BENCHMARKS[i]) == Ok(inputs.Report(i)))
    && e.Load(COST) == Ok(inputs.Cost(e.codec)) && e.Load(FAILURE) == Ok(inputs.Failure(e.codec))
  }

  /** The outcome documents of the other parties. */
  predicate OtherOutcomesPass(e: Evidence, commit: string) {
    && Loaded(e, RUN_IDENTITY) && IsTrue(Read(e, RUN_IDENTITY), "passed")
    && Loaded(e, ENVIRONMENT) && IsTrue(Read(e, ENVIRONMENT), "passed")
    && AllThere(e, METADATA)
    && MetadataPasses(e, commit, Read(e, BINDING), Read(e, RUN_IDENTITY), Read(e, ENVIRONMENT))
    && Loaded(e, REDACTION) && RedactionPasses(Read(e, REDACTION))
    && Loaded(e, TEARDOWN) && IsTrue(Read(e, TEARDOWN), "passed") && AllTrue(Read(e, TEARDOWN), TEARDOWN_FIELDS)
  }

  /** Everything the producer's gate demands of the files that are not the producers'. */
  predicate OthersPass(e: Evidence, commit: string, model: string) {
    && CommonPasses(e, commit)
    && OtherOutcomesPass(e, commit)
    && Loaded(e, GATEWAY) && GatewayPasses(Read(e, GATEWAY), model)
    && (forall i :: 0 <= i < 3 ==> e.Has(BENCHMARK_TEXTS[i]))
    && Loaded(e, RECEIPT) && ReceiptPasses(Read(e, RECEIPT), model)
    && AllThere(e, BUNDLE_FILES)
    && RollbackDocsPass(e, commit, false)
  }

  lemma LoadedAs(e: Evidence, name: Path, doc: Doc)
    requires e.Load(name) == Ok(doc)
    ensures Loaded(e, name) && Read(e, name) == doc
  {
  }

  lemma RepeatsPassIff(e: Evidence, inputs: Inputs)
    requires Produced(e, inputs) && Hex64(inputs.endpointSha)
    ensures (forall i :: 0 <= i < 3 ==> RepeatPasses(e, i))
      <==> inputs.GoodRepeats() && forall i :: 0 <= i < 3 ==> e.Has(BENCHMARK_TEXTS[i])
  {
    hide Evidence.Load, Evidence.Has, NonEmptyFile, BenchmarkPasses, GoodRepeat, Hex64, Inputs.Repeat, B.ReportDoc, Loaded, Read, Levels, C.CleanRepeat,
      CostFile, FailureFile;
    forall i | 0 <= i < 3 ensures RepeatPasses(e, i) <==> GoodRepeat(inputs.Repeat(i)) && e.Has(BENCHMARK_TEXTS[i]) {
      LoadedAs(e, BENCHMARKS[i], inputs.Report(i));
      BenchmarkPassesIff(Levels(inputs.Repeat(i)), inputs.endpointSha, inputs.model, inputs.hourly);
      CleanIffGood(inputs.Repeat(i));
      RepeatIs(e, i);
    }
  }

  lemma RepeatIs(e: Evidence, i: int)
    requires 0 <= i < 3
    ensures RepeatPasses(e, i) <==> Loaded(e, BENCHMARKS[i]) && BenchmarkPasses(Read(e, BENCHMARKS[i])) && e.Has(BENCHMARK_TEXTS[i])
  {
    hide Evidence.Load, BenchmarkPasses, NonEmptyFile;
  }

  lemma CostAndProbePassIff(codec: Codec, inputs: Inputs)
    requires Hex64(inputs.endpointSha) && inputs.GoodRepeats()
    ensures CostPasses(codec, inputs.Cost(codec)) && FailurePasses(inputs.Failure(codec)) <==> inputs.Good()
  {
    hide GoodRepeat, Hex64, CostFile, FailureFile, B.ReportDoc, B.ExitCode, CostPasses, FailurePasses, C.CleanRepeat, Levels, SecondsOf, RequestsOf, GoodProbe;
    assert inputs.Repeat(0) == inputs.first && inputs.Repeat(1) == inputs.second && inputs.Repeat(2) == inputs.third;
    CleanIffGood(inputs.first);
    CleanIffGood(inputs.second);
    CleanIffGood(inputs.third);
    CostPassesIff(codec, Levels(inputs.first), Levels(inputs.second), Levels(inputs.third),
      inputs.endpointSha, inputs.model, inputs.hourly, inputs.representative, inputs.failureClass);
    ProbePassesIff(codec, inputs.probe, inputs.endpointSha, inputs.model, inputs.hourly, inputs.failureClass);
  }

  lemma OutcomesPassIff(e: Evidence, inputs: Inputs, commit: string)
    requires Produced(e, inputs)
    ensures OutcomesPass(e, commit) <==>
      OtherOutcomesPass(e, commit) && CostPasses(e.codec, inputs.Cost(e.codec)) && FailurePasses(inputs.Failure(e.codec))
  {
    LoadedAs(e, COST, inputs.Cost(e.codec));
    LoadedAs(e, FAILURE, inputs.Failure(e.codec));
    hide Evidence.Load, Inputs.Cost, Inputs.Failure, Inputs.Report, CostPasses, FailurePasses, RedactionPasses, MetadataPasses, AllThere, AllTrue, IsTrue,
      Loaded, Read;
  }

  /** MAIN RESULT. On any evidence directory whose five files come from the producers, the
      producer's gate passes exactly when the other parties' files pass and the measurements are
      good. */
  lemma GatePassesIff(e: Evidence, inputs: Inputs, commit: string, model: string)
    requires Produced(e, inputs) && Hex64(inputs.endpointSha)
    ensures Gate5Passes(e, commit, model, false) <==> OthersPass(e, commit, model) && inputs.Good()
  {
    hide Evidence.Load, Evidence.Has, Produced, Inputs.GoodRepeats, Inputs.SomethingMeasured, Inputs.Cost, Inputs.Failure, GoodProbe,
      CommonPasses, OutcomesPass, OtherOutcomesPass, GatewayPasses, ReceiptPasses, RepeatPasses, RollbackDocsPass, AllThere,
      CostPasses, FailurePasses, Loaded, Read, Hex64;
    OutcomesPassIff(e, inputs, commit);
    RepeatsPassIff(e, inputs);
    if inputs.GoodRepeats() {
      CostAndProbePassIff(e.codec, inputs);
    }
  }

  /** MAIN RESULT. The whole decision, from what was measured: producer, verifier and final gate
      accept exactly when the measurements are good, the other parties' files pass for the model
      each phase expects, and the verifier's own conditions hold. */
  method DecideProducedRun(e: Evidence, inputs: Inputs, commit: string, model: string, finalModel: string, s: Session, redaction: Doc)
    returns (accepted: bool)
    requires e.PlainTree() && e.codec.Lawful() && Exact(Obj(redaction))
    requires Produced(e, inputs) && Hex64(inputs.endpointSha)
    ensures accepted <==>
      && inputs.Good()
      && CommitId(commit) && OthersPass(e, commit, model) && OthersPass(e, commit, finalModel)
      && V.Valid(e, commit, None, None) && DiffersFromTampers(e)
      && !s.secrets && s.receiptValid && !s.tamperedValid && RescanPasses(redaction)
  {
    hide Evidence.PlainTree, Codec.Lawful, Exact, Produced, Inputs.Good, OthersPass, Gate5Passes, V.Valid, DiffersFromTampers, RescanPasses,
      CommitId, Hex64;
    GatePassesIff(e, inputs, commit, model);
    GatePassesIff(e, inputs, commit, finalModel);
    accepted := ReleaseRun(e, commit, model, finalModel, s, redaction);
  }
}

/** The release decision as a whole: the producer's gate and index, the independent verifier on
    the same files, and the final gate over all of it. */
module FinalGate {
  import opened Wrappers
  import opened Json
  import opened FileTree
  import opened EvidenceGate
  import opened EvidenceIndex
  import opened ReceiptBundle
  import opened VerifierReport

  // --------------------------------------------------- files that stay the same

  ghost predicate SameAt(e: Evidence, f: Evidence, name: Path) {
    && e.codec == f.codec
    && (IsFile(e.tree, e.root + name) <==> IsFile(f.tree, f.root + name))
    && (IsFile(e.tree, e.root + name) ==> Content(e.tree, e.root + name) == Content(f.tree, f.root + name))
  }

  ghost predicate SameFiles(e: Evidence, f: Evidence, names: seq<Path>) {
    forall k :: 0 <= k < |names| ==> SameAt(e, f, names[k])
  }

  /** The files that the producer's half of Gate 5 reads. */
  ghost predicate SameGateFiles(e: Evidence, f: Evidence) {
    && SameFiles(e, f, COMMON_FILES) && SameFiles(e, f, METADATA) && SameFiles(e, f, OUTCOME_FILES)
    && SameFiles(e, f, [GATEWAY]) && SameFiles(e, f, BENCHMARKS) && SameFiles(e, f, BENCHMARK_TEXTS)
    && SameFiles(e, f, BUNDLE_FILES) && SameFiles(e, f, ROLLBACK_FILES)
  }

  lemma SameReads(e: Evidence, f: Evidence, name: Path)
    requires SameAt(e, f, name)
    ensures e.Load(name) == f.Load(name) && e.TextOf(name) == f.TextOf(name) && e.Has(name) == f.Has(name)
    ensures ReadObject(e.codec, e.tree, e.root + name) == ReadObject(f.codec, f.tree, f.root + name)
  {
  }

  lemma SameReadsAll(e: Evidence, f: Evidence, names: seq<Path>)
    requires SameFiles(e, f, names)
    ensures forall k :: 0 <= k < |names| ==> e.Load(names[k]) == f.Load(names[k]) && e.Has(names[k]) == f.Has(names[k])
    ensures AllThere(e, names) <==> AllThere(f, names)
  {
    forall k | 0 <= k < |names| ensures e.Load(names[k]) == f.Load(names[k]) && e.Has(names[k]) == f.Has(names[k]) {
      SameReads(e, f, names[k]);
    }
  }

  /** One document of a list, as the gate reads it. */
  lemma SameDoc(e: Evidence, f: Evidence, names: seq<Path>, k: nat, name: Path)
    requires SameFiles(e, f, names) && k < |names| && names[k] == name
    ensures Loaded(e, name) == Loaded(f, name) && Read(e, name) == Read(f, name)
  {
    SameReads(e, f, name);
  }

  lemma SameCommon(e: Evidence, f: Evidence, commit: string)
    requires SameFiles(e, f, COMMON_FILES)
    ensures CommonPasses(e, commit) <==> CommonPasses(f, commit)
    ensures e.Load(BINDING) == f.Load(BINDING)
  {
    SameReadsAll(e, f, COMMON_FILES);
    assert COMMON_FILES[0] == CONFIGURATION && COMMON_FILES[1] == MANIFEST_CHECK && COMMON_FILES[2] == BINDING;
    assert COMMON_FILES[3] == WORKER && COMMON_FILES[4] == REPORTING && COMMON_FILES[5] == ISOLATION;
    hide Evidence.Load, BindingPasses, WorkerPasses, IsTrue, AllTrue, Equal, Field;
  }

  lemma SameMetadata(e: Evidence, f: Evidence, commit: string, binding: Doc, identity: Doc, environment: Doc)
    requires SameFiles(e, f, METADATA)
    ensures MetadataPasses(e, commit, binding, identity, environment) <==> MetadataPasses(f, commit, binding, identity, environment)
  {
    assert METADATA[1] == COMMIT_TXT && METADATA[3] == MANIFEST_SHA && METADATA[4] == MODEL_ARTIFACTS && METADATA[5] == DEEP_DIGEST;
    SameReads(e, f, COMMIT_TXT);
    SameReads(e, f, MANIFEST_SHA);
    SameReads(e, f, MODEL_ARTIFACTS);
    SameReads(e, f, DEEP_DIGEST);
    assert e.Has(MODEL_ARTIFACTS) ==> Content(e.tree, e.root + MODEL_ARTIFACTS) == Content(f.tree, f.root + MODEL_ARTIFACTS);
    hide Evidence.TextOf, IsFile, Content, Says, DigitsText, Hex64, Hex64Text, Field;
  }

  lemma SameOutcomes(e: Evidence, f: Evidence, commit: string)
    requires SameFiles(e, f, METADATA) && SameFiles(e, f, OUTCOME_FILES)
    requires e.Load(BINDING) == f.Load(BINDING)
    ensures OutcomesPass(e, commit) <==> OutcomesPass(f, commit)
  {
    hide Evidence.Load, MetadataPasses, CostPasses, FailurePasses, RedactionPasses, IsTrue, AllTrue, AllThere;
    SameReadsAll(e, f, METADATA);
    SameMetadata(e, f, commit, Read(e, BINDING), Read(e, RUN_IDENTITY), Read(e, ENVIRONMENT));
    assert e.codec == f.codec by { assert SameAt(e, f, METADATA[0]); }
    assert Read(e, BINDING) == Read(f, BINDING);
    hide SameFiles, Loaded, Read;
    SameDoc(e, f, METADATA, 0, RUN_IDENTITY);
    SameDoc(e, f, OUTCOME_FILES, 0, ENVIRONMENT);
    SameDoc(e, f, OUTCOME_FILES, 1, COST);
    SameDoc(e, f, OUTCOME_FILES, 2, FAILURE);
    SameDoc(e, f, OUTCOME_FILES, 3, REDACTION);
    SameDoc(e, f, OUTCOME_FILES, 4, TEARDOWN);
  }

  lemma SameRepeats(e: Evidence, f: Evidence)
    requires SameFiles(e, f, BENCHMARKS) && SameFiles(e, f, BENCHMARK_TEXTS)
    ensures forall i :: 0 <= i < 3 ==> (RepeatPasses(e, i) <==> RepeatPasses(f, i))
  {
    SameReadsAll(e, f, BENCHMARKS);
    SameReadsAll(e, f, BENCHMARK_TEXTS);
    hide Evidence.Load, BenchmarkPasses, NonEmptyFile, SameFiles;
  }

  lemma SameRollback(e: Evidence, f: Evidence, commit: string)
    requires SameFiles(e, f, ROLLBACK_FILES) && e.Load(BINDING) == f.Load(BINDING)
    ensures RollbackDocsPass(e, commit, false) <==> RollbackDocsPass(f, commit, false)
  {
    hide Evidence.Load, RollbackPasses, VerificationPasses, RescanPasses, IsTrue;
    assert Read(e, BINDING) == Read(f, BINDING);
    hide SameFiles, Loaded, Read;
    SameDoc(e, f, ROLLBACK_FILES, 0, PREVIOUS_MANIFEST);
    SameDoc(e, f, ROLLBACK_FILES, 1, ROLLBACK_BINDING);
    SameDoc(e, f, ROLLBACK_FILES, 2, ROLLBACK_WORKER);
    SameDoc(e, f, ROLLBACK_FILES, 3, ROLLBACK_REPORTING);
    SameDoc(e, f, ROLLBACK_FILES, 4, ROLLBACK_ISOLATION);
    SameDoc(e, f, ROLLBACK_FILES, 5, ROLLBACK);
  }

  lemma SameGate(e: Evidence, f: Evidence, commit: string, model: string)
    requires SameGateFiles(e, f)
    ensures Gate5Passes(e, commit, model, false) <==> Gate5Passes(f, commit, model, false)
  {
    hide Evidence.Load, CommonPasses, OutcomesPass, GatewayPasses, ReceiptPasses, RepeatPasses, RollbackDocsPass, AllThere;
    hide SameFiles, Loaded, Read;
    SameCommon(e, f, commit);
    SameOutcomes(e, f, commit);
    SameRepeats(e, f);
    SameRollback(e, f, commit);
    SameReadsAll(e, f, BUNDLE_FILES);
    SameDoc(e, f, [GATEWAY], 0, GATEWAY);
    SameDoc(e, f, BUNDLE_FILES, 0, RECEIPT);
  }

  // ------------------------------------------------------------ adding a file

  predicate Apart(names: seq<Path>, name: Path) {
    forall k :: 0 <= k < |names| ==> names[k] != name && ".." !in names[k]
  }

  lemma WriteKeeps(e: Evidence, name: Path, content: Bytes, p: Path)
    requires e.PlainTree() && Clean(name) && ".." !in p && p != name
    ensures SameAt(e, WithFile(e, name, content), p)
  {
    var f := WithFile(e, name, content);
    assert ".." !in e.root by {
      assert forall k :: 0 <= k < |e.root| ==> CleanName(e.root[k]);
    }
    PlainResolvesToItself(e.tree, e.root + p);
    PlainResolvesToItself(f.tree, e.root + p);
    assert (e.root + p)[|e.root|..] == p && (e.root + name)[|e.root|..] == name;
  }

  lemma WriteKeepsAll(e: Evidence, name: Path, content: Bytes, names: seq<Path>)
    requires e.PlainTree() && Clean(name) && Apart(names, name)
    ensures SameFiles(e, WithFile(e, name, content), names)
  {
    forall k | 0 <= k < |names| ensures SameAt(e, WithFile(e, name, content), names[k]) {
      WriteKeeps(e, name, content, names[k]);
    }
  }

  /** A document that is written is what the gate loads. */
  lemma WrittenLoads(e: Evidence, name: Path, doc: Doc)
    requires e.PlainTree() && e.codec.Lawful() && Clean(name) && Exact(Obj(doc))
    ensures var f := WithFile(e, name, e.codec.Dump(Obj(doc))); f.PlainTree() && f.Load(name) == Ok(doc)
  {
    var f := WithFile(e, name, e.codec.Dump(Obj(doc)));
    assert f.PlainTree() by {
      assert Clean(e.root + name);
    }
    f.PlainResolve(name);
  }

  const LATE_NAMES: set<Path> := {INDEX, VERIFICATION, INDEPENDENT_REDACTION}

  lemma LateNamesAreClean()
    ensures Clean(INDEX) && Clean(VERIFICATION) && Clean(INDEPENDENT_REDACTION)
    ensures VERIFICATION != INDEPENDENT_REDACTION
  {
  }

  lemma LateNamesAreApart(name: Path)
    requires name in LATE_NAMES
    ensures Apart(COMMON_FILES, name) && Apart(METADATA, name) && Apart(OUTCOME_FILES, name) && Apart([GATEWAY], name)
    ensures Apart(BENCHMARKS, name) && Apart(BENCHMARK_TEXTS, name) && Apart(BUNDLE_FILES, name) && Apart(ROLLBACK_FILES, name)
  {
    FixedNamesStepless();
    assert "independent-verification.json"[0] == 'i' && "configuration-validation.json"[0] == 'c' && "previous-model-artifacts.json"[0] == 'p';
  }

  lemma LateFilesKeepGate(e: Evidence, name: Path, content: Bytes)
    requires e.PlainTree() && name in LATE_NAMES
    ensures SameGateFiles(e, WithFile(e, name, content))
    ensures WithFile(e, name, content).PlainTree()
  {
    LateNamesAreClean();
    LateNamesAreApart(name);
    assert Clean(e.root + name);
    hide Apart, SameFiles, Evidence.PlainTree;
    assert WithFile(e, name, content).PlainTree() by { WithFileIsPlain(e, name, content); }
    WriteKeepsAll(e, name, content, COMMON_FILES);
    WriteKeepsAll(e, name, content, METADATA);
    WriteKeepsAll(e, name, content, OUTCOME_FILES);
    WriteKeepsAll(e, name, content, [GATEWAY]);
    WriteKeepsAll(e, name, content, BENCHMARKS);
    WriteKeepsAll(e, name, content, BENCHMARK_TEXTS);
    WriteKeepsAll(e, name, content, BUNDLE_FILES);
    WriteKeepsAll(e, name, content, ROLLBACK_FILES);
  }

  lemma WithFileIsPlain(e: Evidence, name: Path, content: Bytes)
    requires e.PlainTree() && Clean(name)
    ensures WithFile(e, name, content).PlainTree()
  {
    assert Clean(e.root + name);
  }

  // ------------------------------------------------------------ the final phase

  /** The evidence once the verifier's report and the repeated redaction scan lie beside it. */
  function Complete(e: Evidence, report: Doc, redaction: Doc): Evidence {
    WithFile(WithFile(e, VERIFICATION, e.codec.Dump(Obj(report))), INDEPENDENT_REDACTION, e.codec.Dump(Obj(redaction)))
  }

  lemma CompleteLoads(e: Evidence, report: Doc, redaction: Doc)
    requires e.PlainTree() && e.codec.Lawful() && Exact(Obj(report)) && Exact(Obj(redaction))
    ensures var f := Complete(e, report, redaction);
      && f.PlainTree() && SameGateFiles(e, f)
      && f.Load(VERIFICATION) == Ok(report) && f.Load(INDEPENDENT_REDACTION) == Ok(redaction)
  {
    LateNamesAreClean();
    hide Evidence.PlainTree, Evidence.Load, Codec.Lawful, Exact, Codec.Dump, SameFiles;
    var report', redaction' := e.codec.Dump(Obj(report)), e.codec.Dump(Obj(redaction));
    var g := WithFile(e, VERIFICATION, report');
    var f := WithFile(g, INDEPENDENT_REDACTION, redaction');
    LateFilesKeepGate(e, VERIFICATION, report');
    LateFilesKeepGate(g, INDEPENDENT_REDACTION, redaction');
    WrittenLoads(e, VERIFICATION, report);
    WrittenLoads(g, INDEPENDENT_REDACTION, redaction);
    assert ".." !in VERIFICATION by { LateNameHasNoSteps(); }
    WriteKeeps(g, INDEPENDENT_REDACTION, redaction', VERIFICATION);
    SameReads(g, f, VERIFICATION);
    SameIsTransitive(e, g, f);
  }

  lemma LateNameHasNoSteps()
    ensures ".." !in VERIFICATION
  {
  }

  lemma SameIsTransitive(e: Evidence, g: Evidence, f: Evidence)
    requires SameGateFiles(e, g) && SameGateFiles(g, f)
    ensures SameGateFiles(e, f)
  {
    forall names: seq<Path> | SameFiles(e, g, names) && SameFiles(g, f, names) ensures SameFiles(e, f, names) {
      forall k | 0 <= k < |names| ensures SameAt(e, f, names[k]) {
        assert SameAt(e, g, names[k]) && SameAt(g, f, names[k]);
      }
    }
    hide SameFiles;
  }

  /** MAIN RESULT. The final gate adds exactly the two independent documents to the producer's. */
  lemma FinalGateIff(e: Evidence, commit: string, model: string, report: Doc, redaction: Doc)
    requires e.PlainTree() && e.codec.Lawful() && Exact(Obj(report)) && Exact(Obj(redaction))
    ensures Gate5Passes(Complete(e, report, redaction), commit, model, true)
      <==> Gate5Passes(e, commit, model, false) && VerificationPasses(report) && RescanPasses(redaction)
  {
    hide Gate5Passes, Complete, SameGateFiles, VerificationPasses, RescanPasses, Exact, Codec.Lawful, Evidence.PlainTree, Evidence.Load;
    var f := Complete(e, report, redaction);
    CompleteLoads(e, report, redaction);
    SameGate(e, f, commit, model);
    FinalIsProducerAndIndependent(f, commit, model);
  }

  lemma FinalIsProducerAndIndependent(e: Evidence, commit: string, model: string)
    ensures Gate5Passes(e, commit, model, true) <==>
      && Gate5Passes(e, commit, model, false)
      && Loaded(e, VERIFICATION) && Loaded(e, INDEPENDENT_REDACTION)
      && VerificationPasses(Read(e, VERIFICATION)) && RescanPasses(Read(e, INDEPENDENT_REDACTION))
  {
    hide Evidence.Load, CommonPasses, OutcomesPass, GatewayPasses, ReceiptPasses, RepeatPasses, AllThere, RollbackPasses,
      VerificationPasses, RescanPasses, Loaded, Read;
  }

  // ------------------------------------------------------------ the whole run

  lemma SameSigned(e: Evidence, f: Evidence)
    requires SameFiles(e, f, BUNDLE_FILES)
    ensures SignedFilesPresent(e) <==> SignedFilesPresent(f)
    ensures AllThere(e, BUNDLE_FILES) ==> SignedFilesPresent(e)
  {
    assert SIGNED_FILES == BUNDLE_FILES;
    hide IsFile;
    assert forall k :: 0 <= k < |BUNDLE_FILES| ==> BUNDLE_FILES[k] in SIGNED_FILES && SameAt(e, f, BUNDLE_FILES[k]);
    forall k | 0 <= k < |BUNDLE_FILES| && e.Has(BUNDLE_FILES[k]) ensures IsFile(e.tree, e.root + BUNDLE_FILES[k]) {
      e.HasMeansFile(BUNDLE_FILES[k]);
    }
  }

  lemma SameObject(e: Evidence, f: Evidence, names: seq<Path>, k: nat, name: Path)
    requires SameFiles(e, f, names) && k < |names| && names[k] == name
    ensures ReadObject(e.codec, e.tree, e.root + name) == ReadObject(f.codec, f.tree, f.root + name)
    ensures e.TextOf(name) == f.TextOf(name)
  {
    SameReads(e, f, name);
  }

  lemma SameAcceptance(e: Evidence, f: Evidence, commit: string)
    requires SameGateFiles(e, f)
    ensures Valid(e, commit, None, None) <==> Valid(f, commit, None, None)
    ensures DiffersFromTampers(e) <==> DiffersFromTampers(f)
  {
    hide SameFiles, ReadObject, Evidence.TextOf, Decide, Signed, IsTrue, CommitId, TamperImage, Zeros;
    SameObject(e, f, METADATA, 4, MODEL_ARTIFACTS);
    SameObject(e, f, METADATA, 5, DEEP_DIGEST);
    SameObject(e, f, COMMON_FILES, 2, BINDING);
    SameObject(e, f, COMMON_FILES, 3, WORKER);
    SameObject(e, f, COMMON_FILES, 4, REPORTING);
    SameObject(e, f, [GATEWAY], 0, GATEWAY);
    SameObject(e, f, BUNDLE_FILES, 0, RECEIPT);
  }

  lemma CrashedGateFails(e: Evidence, commit: string, model: string, other: string)
    requires Gate5Crashes(e, commit, model)
    ensures !Gate5Passes(e, commit, other, false)
  {
    hide Evidence.Load, CommonPasses, OutcomesPass, OutcomesCrash, GatewayPasses, RollbackDocsPass, AllThere, RepeatPasses, RepeatsCrash,
      ReceiptPasses, ReceiptCrashes;
    CrashedOutcomesFail(e, commit);
    if forall i :: 0 <= i < 3 ==> RepeatPasses(e, i) {
      NoLaterCrash(e);
      CrashedReceiptFails(Read(e, RECEIPT), other);
    }
  }

  lemma PassedGateSigned(e: Evidence, commit: string, model: string)
    requires Gate5Passes(e, commit, model, false)
    ensures SignedFilesPresent(e)
  {
    hide Evidence.Load, CommonPasses, OutcomesPass, GatewayPasses, RollbackDocsPass, AllThere, RepeatPasses, ReceiptPasses, SameFiles, SignedFilesPresent;
    assert SameFiles(e, e, BUNDLE_FILES) by { SameAsItself(e); }
    SameSigned(e, e);
  }

  lemma SameAsItself(e: Evidence)
    ensures SameGateFiles(e, e)
  {
  }

  /** MAIN RESULT. Producer, independent verifier and final gate, one after the other on the same
      files. The release is accepted exactly when the evidence passes the producer's gate, for
      the model each phase expects; the acceptance documents are valid; no identity equals the
      constant of a tamper; and the facts from outside these files are in order. */
  method ReleaseRun(e: Evidence, commit: string, model: string, finalModel: string, s: Session, redaction: Doc)
    returns (accepted: bool)
    requires e.PlainTree() && e.codec.Lawful() && Exact(Obj(redaction))
    ensures accepted <==>
      && CommitId(commit) && Gate5Passes(e, commit, model, false) && Gate5Passes(e, commit, finalModel, false)
      && Valid(e, commit, None, None) && DiffersFromTampers(e)
      && !s.secrets && s.receiptValid && !s.tamperedValid && RescanPasses(redaction)
  {
    hide Gate5Passes, Gate5Crashes, Verifies, Valid, Covers, DiffersFromTampers, SignedFilesPresent, VerificationPasses, RescanPasses;
    hide Evidence.PlainTree, Codec.Lawful, Exact, SameGateFiles, Complete, WithFile, CommitId, IndexDoc, Indexable, FailedIndex;
    var outcome, indexed := AssertEvidence(e, commit, model);
    IndexedKeepsGate(e, outcome, indexed);
    SameGate(e, indexed, commit, finalModel);
    SameAcceptance(e, indexed, commit);
    var report := VerifyBundle(indexed, true, commit, true, s);
    FinalGateIff(indexed, commit, finalModel, report, redaction);
    CompleteLoads(indexed, report, redaction);
    if CommitId(commit) {
      CommitIsText(commit);
      var final := Gate5(Complete(indexed, report, redaction), commit, finalModel, true);
      accepted := final.Ok?;
      if outcome == Outcome.Crashed {
        CrashedGateFails(e, commit, model, finalModel);
      }
      if Gate5Passes(indexed, commit, finalModel, false) {
        PassedGateSigned(indexed, commit, finalModel);
      }
    } else {
      accepted := false;
    }
  }

  lemma CommitIsText(commit: string)
    requires CommitId(commit)
    ensures commit != ""
  {
  }

  /** The producer's run writes at most its index. */
  lemma IndexedKeepsGate(e: Evidence, outcome: Outcome, indexed: Evidence)
    requires e.PlainTree()
    requires indexed == e || exists content :: indexed == WithFile(e, INDEX, content)
    ensures SameGateFiles(e, indexed) && indexed.PlainTree() && indexed.codec == e.codec
  {
    if indexed == e {
      SameAsItself(e);
    } else {
      var content :| indexed == WithFile(e, INDEX, content);
      hide SameFiles;
      LateFilesKeepGate(e, INDEX, content);
    }
  }
}

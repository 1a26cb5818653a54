/** The evidence directory of a run: the producers' files as they are written from what was
    measured, and stand-ins for the other parties. It shows that all demands can be met at once. */
module HonestTree {
  import opened Wrappers
  import opened Json
  import opened FileTree
  import opened EvidenceGate
  import opened EvidenceIndex
  import opened ReceiptBundle
  import opened IdentityTampers
  import opened ReleaseBundle
  import opened ProducedRun
  import P = Producers
  import B = Benchmark
  import opened HonestRun
  import opened VerifierReport
  import opened FinalGate
  import Text

  /** The files of the evidence directory. */
  datatype File =
    | ModelArtifacts | Repeat1 | Repeat2 | Repeat3 | CostReport | FailureEvidence | ManifestSha
    | Configuration | ManifestCheck | Binding | Worker | Reporting | Isolation | RunIdentity | Environment
    | Redaction | Teardown | Gateway | Receipt | PreviousManifest | RollbackBinding | RollbackWorker
    | RollbackReporting | RollbackIsolation | Rollback | CommitText | DeepDigest | PythonVersion
    | PreviousArtifacts | Rendering1 | Rendering2 | Rendering3 | ReceiptKey | EvidenceManifest
    | EvidenceEvents

  function PathOf(f: File): Path {
    match f
    case ModelArtifacts | Repeat1 | Repeat2 | Repeat3 | CostReport | FailureEvidence | ManifestSha => MeasuredPath(f)
    case Configuration | ManifestCheck | Binding | Worker | Reporting | Isolation | RunIdentity => CommonPath(f)
    case Environment | Redaction | Teardown | Gateway | Receipt | PreviousManifest | RollbackBinding => OutcomePath(f)
    case RollbackWorker | RollbackReporting | RollbackIsolation | Rollback | CommitText | DeepDigest | PythonVersion => RollbackPath(f)
    case PreviousArtifacts | Rendering1 | Rendering2 | Rendering3 | ReceiptKey | EvidenceManifest | EvidenceEvents => TextPath(f)
  }

  function MeasuredPath(f: File): Path {
    match f
    case ModelArtifacts => MODEL_ARTIFACTS
    case Repeat1 => BENCHMARKS[0]
    case Repeat2 => BENCHMARKS[1]
    case Repeat3 => BENCHMARKS[2]
    case CostReport => COST
    case FailureEvidence => FAILURE
    case ManifestSha => MANIFEST_SHA
    case _ => []
  }

  function CommonPath(f: File): Path {
    match f
    case Configuration => CONFIGURATION
    case ManifestCheck => MANIFEST_CHECK
    case Binding => BINDING
    case Worker => WORKER
    case Reporting => REPORTING
    case Isolation => ISOLATION
    case RunIdentity => RUN_IDENTITY
    case _ => []
  }

  function OutcomePath(f: File): Path {
    match f
    case Environment => ENVIRONMENT
    case Redaction => REDACTION
    case Teardown => TEARDOWN
    case Gateway => GATEWAY
    case Receipt => RECEIPT
    case PreviousManifest => PREVIOUS_MANIFEST
    case RollbackBinding => ROLLBACK_BINDING
    case _ => []
  }

  function RollbackPath(f: File): Path {
    match f
    case RollbackWorker => ROLLBACK_WORKER
    case RollbackReporting => ROLLBACK_REPORTING
    case RollbackIsolation => ROLLBACK_ISOLATION
    case Rollback => ROLLBACK
    case CommitText => COMMIT_TXT
    case DeepDigest => DEEP_DIGEST
    case PythonVersion => PYTHON_VERSION
    case _ => []
  }

  function TextPath(f: File): Path {
    match f
    case PreviousArtifacts => PREVIOUS_ARTIFACTS
    case Rendering1 => BENCHMARK_TEXTS[0]
    case Rendering2 => BENCHMARK_TEXTS[1]
    case Rendering3 => BENCHMARK_TEXTS[2]
    case ReceiptKey => RECEIPT_KEY
    case EvidenceManifest => EVIDENCE_MANIFEST
    case EvidenceEvents => EVIDENCE_EVENTS
    case _ => []
  }

  /** What a file holds: a document, or a line of text. */
  datatype Entry = Json(doc: Doc) | Line(text: string)

  /** The producers' files first, then the stand-ins for the other parties. */
  function ContentOf(codec: Codec, run: Run, f: File): Entry {
    match f
    case ModelArtifacts => Json(run.manifest)
    case Repeat1 => Json(run.inputs.Report(0))
    case Repeat2 => Json(run.inputs.Report(1))
    case Repeat3 => Json(run.inputs.Report(2))
    case CostReport => Json(run.inputs.Cost(codec))
    case FailureEvidence => Json(run.inputs.Failure(codec))
    case ManifestSha => Line(codec.Sha(codec.Dump(Obj(run.manifest))))
    case Configuration => Json(PASSED)
    case ManifestCheck => Json(MANIFEST_VERDICT)
    case Binding => Json(run.Binding())
    case Worker => Json(run.Worker())
    case Reporting => Json(run.Reporting())
    case Isolation => Json(IsolationDoc())
    case RunIdentity => Json(RunIdentityDoc(run))
    case Environment => Json(EnvironmentDoc(run))
    case Redaction => Json(REDACTION_SCAN)
    case Teardown => Json(TeardownDoc())
    case Gateway => Json(run.Gateway())
    case Receipt => Json(run.Receipt())
    case PreviousManifest => Json(PASSED)
    case RollbackBinding => Json(RollbackBindingDoc(run))
    case RollbackWorker => Json(PASSED)
    case RollbackReporting => Json(PASSED)
    case RollbackIsolation => Json(PASSED)
    case Rollback => Json(RollbackDoc(run))
    case CommitText => Line(run.release.commit)
    case DeepDigest => Line(run.release.deep)
    case PythonVersion => Line("text")
    case PreviousArtifacts => Line("text")
    case Rendering1 => Line("text")
    case Rendering2 => Line("text")
    case Rendering3 => Line("text")
    case ReceiptKey => Line("text")
    case EvidenceManifest => Line("text")
    case EvidenceEvents => Line("text")
  }

  function BytesOf(codec: Codec, entry: Entry): Bytes {
    match entry
    case Json(doc) => codec.Dump(Obj(doc))
    case Line(text) => codec.Encode(text)
  }

  function Directory(codec: Codec, run: Run): Evidence {
    Evidence(codec, Tree(map p | p in Paths() :: BytesOf(codec, ContentOf(codec, run, FileAt(p))), map[]), [])
  }

  function Paths(): set<Path> { set f: File :: PathOf(f) }

  function FileAt(p: Path): File
    requires p in Paths()
  {
    PathsDiffer();
    var f :| PathOf(f) == p;
    f
  }

  // ------------------------------------------------------------------ names

  function Letter(s: string, i: nat): char { if i < |s| then s[i] else ' ' }

  /** The file with this path: a name is told from the others by its length and a few letters. */
  function FileOf(p: Path): File {
    var name := if p == [] then "" else p[|p| - 1];
    if |p| == 3 then (if |name| == 13 then EvidenceManifest else EvidenceEvents)
    else if |p| == 2 then
      match |name|
      case 12 => Receipt
      case 19 => ReceiptKey
      case 26 => RollbackWorker
      case 20 => RollbackReporting
      case _ => RollbackIsolation
    else RootFile(|name|, Letter(name, 0), Letter(name, 2), Letter(name, 6), Letter(name, 16))
  }

  function RootFile(n: nat, c0: char, c2: char, c6: char, c16: char): File {
    match n
    case 10 => CommitText
    case 13 => Rollback
    case 15 => ManifestSha
    case 16 => CostReport
    case 17 => RunIdentity
    case 18 => if c0 == 'g' then Gateway else PythonVersion
    case 19 => Teardown
    case 20 =>
      if c0 == 'r' then (if c2 == 'p' then Reporting else Redaction)
      else if c6 == 'a' then ModelArtifacts
      else if c16 == '1' then Rendering1 else if c16 == '2' then Rendering2 else Rendering3
    case 21 => if c0 == 'f' then FailureEvidence else DeepDigest
    case 22 =>
      if c0 == 'e' then Environment
      else if c16 == '1' then Repeat1 else if c16 == '2' then Repeat2 else Repeat3
    case 23 => Binding
    case 24 => Isolation
    case 26 => if c0 == 'm' then ManifestCheck else Worker
    case 27 => RollbackBinding
    case 29 => if c0 == 'c' then Configuration else PreviousArtifacts
    case _ => PreviousManifest
  }

  lemma MeasuredPathLeadsBack(f: File)
    requires f.ModelArtifacts? || f.Repeat1? || f.Repeat2? || f.Repeat3? || f.CostReport? || f.FailureEvidence? || f.ManifestSha?
    ensures FileOf(MeasuredPath(f)) == f
  {
  }

  lemma MeasuredPathIsClean(f: File)
    ensures Clean(MeasuredPath(f))
  {
  }

  lemma CommonPathLeadsBack(f: File)
    requires f.Configuration? || f.ManifestCheck? || f.Binding? || f.Worker? || f.Reporting? || f.Isolation? || f.RunIdentity?
    ensures FileOf(CommonPath(f)) == f
  {
  }

  lemma CommonPathIsClean(f: File)
    ensures Clean(CommonPath(f))
  {
  }

  lemma OutcomePathLeadsBack(f: File)
    requires f.Environment? || f.Redaction? || f.Teardown? || f.Gateway? || f.Receipt? || f.PreviousManifest? || f.RollbackBinding?
    ensures FileOf(OutcomePath(f)) == f
  {
  }

  lemma OutcomePathIsClean(f: File)
    ensures Clean(OutcomePath(f))
  {
  }

  lemma RollbackPathLeadsBack(f: File)
    requires f.RollbackWorker? || f.RollbackReporting? || f.RollbackIsolation? || f.Rollback? || f.CommitText? || f.DeepDigest? || f.PythonVersion?
    ensures FileOf(RollbackPath(f)) == f
  {
  }

  lemma RollbackPathIsClean(f: File)
    ensures Clean(RollbackPath(f))
  {
  }

  lemma TextPathLeadsBack(f: File)
    requires f.PreviousArtifacts? || f.Rendering1? || f.Rendering2? || f.Rendering3? || f.ReceiptKey? || f.EvidenceManifest? || f.EvidenceEvents?
    ensures FileOf(TextPath(f)) == f
  {
  }

  lemma TextPathIsClean(f: File)
    ensures Clean(TextPath(f))
  {
  }

  lemma FileOfPath(f: File)
    ensures FileOf(PathOf(f)) == f && Clean(PathOf(f))
  {
    hide FileOf, Clean, MeasuredPath, CommonPath, OutcomePath, RollbackPath, TextPath;
    match f
    case ModelArtifacts | Repeat1 | Repeat2 | Repeat3 | CostReport | FailureEvidence | ManifestSha =>
      MeasuredPathLeadsBack(f);
      MeasuredPathIsClean(f);
    case Configuration | ManifestCheck | Binding | Worker | Reporting | Isolation | RunIdentity =>
      CommonPathLeadsBack(f);
      CommonPathIsClean(f);
    case Environment | Redaction | Teardown | Gateway | Receipt | PreviousManifest | RollbackBinding =>
      OutcomePathLeadsBack(f);
      OutcomePathIsClean(f);
    case RollbackWorker | RollbackReporting | RollbackIsolation | Rollback | CommitText | DeepDigest | PythonVersion =>
      RollbackPathLeadsBack(f);
      RollbackPathIsClean(f);
    case PreviousArtifacts | Rendering1 | Rendering2 | Rendering3 | ReceiptKey | EvidenceManifest | EvidenceEvents =>
      TextPathLeadsBack(f);
      TextPathIsClean(f);
  }

  lemma PathsDiffer()
    ensures forall f, g :: PathOf(f) == PathOf(g) ==> f == g
  {
    forall f, g | PathOf(f) == PathOf(g) ensures f == g {
      FileOfPath(f);
      FileOfPath(g);
    }
  }

  lemma DirectoryIsPlain(codec: Codec, run: Run)
    ensures Directory(codec, run).PlainTree()
  {
    assert Clean([]);
    hide Clean, PathOf, ContentOf, BytesOf;
    forall p | p in Paths() ensures Clean(p) {
      FileOfPath(FileAt(p));
    }
  }

  lemma DirectoryAt(codec: Codec, run: Run, f: File)
    ensures PathOf(f) in Directory(codec, run).tree.files
    ensures Directory(codec, run).tree.files[PathOf(f)] == BytesOf(codec, ContentOf(codec, run, f))
  {
    hide PathOf, ContentOf, BytesOf;
    PathsDiffer();
    assert PathOf(f) in Paths() && FileAt(PathOf(f)) == f;
  }

  // ------------------------------------------------------------- what is read

  lemma Stored(codec: Codec, run: Run, f: File)
    ensures var e, p := Directory(codec, run), PathOf(f);
      && IsFile(e.tree, e.root + p) && Content(e.tree, e.root + p) == BytesOf(codec, ContentOf(codec, run, f))
      && e.codec == codec
  {
    var e, p := Directory(codec, run), PathOf(f);
    DirectoryAt(codec, run, f);
    FileOfPath(f);
    DirectoryIsPlain(codec, run);
    e.PlainResolve(p);
    hide Clean, PathOf, ContentOf, BytesOf, Evidence.PlainTree;
    assert [] + p == p;
  }

  /** The file has this name and holds this entry. */
  predicate Lies(codec: Codec, run: Run, f: File, p: Path, entry: Entry) {
    PathOf(f) == p && ContentOf(codec, run, f) == entry
  }

  lemma MeasuredLie(codec: Codec, run: Run)
    ensures Lies(codec, run, Repeat1, BENCHMARKS[0], Entry.Json(run.inputs.Report(0)))
    ensures Lies(codec, run, Repeat2, BENCHMARKS[1], Entry.Json(run.inputs.Report(1)))
    ensures Lies(codec, run, Repeat3, BENCHMARKS[2], Entry.Json(run.inputs.Report(2)))
    ensures Lies(codec, run, CostReport, COST, Entry.Json(run.inputs.Cost(codec)))
    ensures Lies(codec, run, FailureEvidence, FAILURE, Entry.Json(run.inputs.Failure(codec)))
    ensures Lies(codec, run, ModelArtifacts, MODEL_ARTIFACTS, Entry.Json(run.manifest))
  {
    hide COST, FAILURE, MODEL_ARTIFACTS;
    hide Inputs.Report, Inputs.Cost, Inputs.Failure, Run.Binding, Run.Worker, Run.Reporting, Run.Gateway, Run.Receipt,
      IsolationDoc, RunIdentityDoc, EnvironmentDoc, TeardownDoc, RollbackBindingDoc, RollbackDoc;
  }

  lemma CommonLie(codec: Codec, run: Run)
    ensures Lies(codec, run, Configuration, CONFIGURATION, Entry.Json(PASSED))
    ensures Lies(codec, run, ManifestCheck, MANIFEST_CHECK, Entry.Json(MANIFEST_VERDICT))
    ensures Lies(codec, run, File.Binding, BINDING, Entry.Json(run.Binding()))
    ensures Lies(codec, run, File.Worker, WORKER, Entry.Json(run.Worker()))
    ensures Lies(codec, run, File.Reporting, REPORTING, Entry.Json(run.Reporting()))
    ensures Lies(codec, run, File.Isolation, ISOLATION, Entry.Json(IsolationDoc()))
  {
    hide CONFIGURATION, MANIFEST_CHECK, BINDING, WORKER, REPORTING, ISOLATION;
    hide Inputs.Report, Inputs.Cost, Inputs.Failure, Run.Binding, Run.Worker, Run.Reporting, Run.Gateway, Run.Receipt,
      IsolationDoc, RunIdentityDoc, EnvironmentDoc, TeardownDoc, RollbackBindingDoc, RollbackDoc;
  }

  lemma OutcomesLie(codec: Codec, run: Run)
    ensures Lies(codec, run, File.RunIdentity, RUN_IDENTITY, Entry.Json(RunIdentityDoc(run)))
    ensures Lies(codec, run, File.Environment, ENVIRONMENT, Entry.Json(EnvironmentDoc(run)))
    ensures Lies(codec, run, File.Redaction, REDACTION, Entry.Json(REDACTION_SCAN))
    ensures Lies(codec, run, File.Teardown, TEARDOWN, Entry.Json(TeardownDoc()))
    ensures Lies(codec, run, File.Gateway, GATEWAY, Entry.Json(run.Gateway()))
    ensures Lies(codec, run, File.Receipt, RECEIPT, Entry.Json(run.Receipt()))
  {
    hide RUN_IDENTITY, ENVIRONMENT, REDACTION, TEARDOWN, GATEWAY, RECEIPT;
    hide Inputs.Report, Inputs.Cost, Inputs.Failure, Run.Binding, Run.Worker, Run.Reporting, Run.Gateway, Run.Receipt,
      IsolationDoc, RunIdentityDoc, EnvironmentDoc, TeardownDoc, RollbackBindingDoc, RollbackDoc;
  }

  lemma RollbackLie(codec: Codec, run: Run)
    ensures Lies(codec, run, PreviousManifest, PREVIOUS_MANIFEST, Entry.Json(PASSED))
    ensures Lies(codec, run, File.RollbackBinding, ROLLBACK_BINDING, Entry.Json(RollbackBindingDoc(run)))
    ensures Lies(codec, run, File.Rollback, ROLLBACK, Entry.Json(RollbackDoc(run)))
  {
    hide PREVIOUS_MANIFEST, ROLLBACK_BINDING, ROLLBACK;
    hide Inputs.Report, Inputs.Cost, Inputs.Failure, Run.Binding, Run.Worker, Run.Reporting, Run.Gateway, Run.Receipt,
      IsolationDoc, RunIdentityDoc, EnvironmentDoc, TeardownDoc, RollbackBindingDoc, RollbackDoc;
  }

  lemma RestoredLie(codec: Codec, run: Run)
    ensures Lies(codec, run, RollbackWorker, ROLLBACK_WORKER, Entry.Json(PASSED))
    ensures Lies(codec, run, RollbackReporting, ROLLBACK_REPORTING, Entry.Json(PASSED))
    ensures Lies(codec, run, RollbackIsolation, ROLLBACK_ISOLATION, Entry.Json(PASSED))
  {
    hide ROLLBACK_WORKER, ROLLBACK_REPORTING, ROLLBACK_ISOLATION;
    hide Inputs.Report, Inputs.Cost, Inputs.Failure, Run.Binding, Run.Worker, Run.Reporting, Run.Gateway, Run.Receipt,
      IsolationDoc, RunIdentityDoc, EnvironmentDoc, TeardownDoc, RollbackBindingDoc, RollbackDoc;
  }

  lemma TextsLie(codec: Codec, run: Run)
    ensures Lies(codec, run, CommitText, COMMIT_TXT, Line(run.release.commit))
    ensures Lies(codec, run, DeepDigest, DEEP_DIGEST, Line(run.release.deep))
    ensures Lies(codec, run, ManifestSha, MANIFEST_SHA, Line(codec.Sha(codec.Dump(Obj(run.manifest)))))
  {
    hide COMMIT_TXT, DEEP_DIGEST, MANIFEST_SHA;
    hide Inputs.Report, Inputs.Cost, Inputs.Failure, Run.Binding, Run.Worker, Run.Reporting, Run.Gateway, Run.Receipt,
      IsolationDoc, RunIdentityDoc, EnvironmentDoc, TeardownDoc, RollbackBindingDoc, RollbackDoc;
  }

  lemma MetadataTextsLie(codec: Codec, run: Run)
    ensures Lies(codec, run, PythonVersion, PYTHON_VERSION, Line("text"))
    ensures Lies(codec, run, PreviousArtifacts, PREVIOUS_ARTIFACTS, Line("text"))
  {
    hide PYTHON_VERSION, PREVIOUS_ARTIFACTS;
    hide Inputs.Report, Inputs.Cost, Inputs.Failure, Run.Binding, Run.Worker, Run.Reporting, Run.Gateway, Run.Receipt,
      IsolationDoc, RunIdentityDoc, EnvironmentDoc, TeardownDoc, RollbackBindingDoc, RollbackDoc;
  }

  lemma BundleTextsLie(codec: Codec, run: Run)
    ensures Lies(codec, run, ReceiptKey, RECEIPT_KEY, Line("text"))
    ensures Lies(codec, run, EvidenceManifest, EVIDENCE_MANIFEST, Line("text"))
    ensures Lies(codec, run, EvidenceEvents, EVIDENCE_EVENTS, Line("text"))
  {
    hide RECEIPT_KEY, EVIDENCE_MANIFEST, EVIDENCE_EVENTS;
    hide Inputs.Report, Inputs.Cost, Inputs.Failure, Run.Binding, Run.Worker, Run.Reporting, Run.Gateway, Run.Receipt,
      IsolationDoc, RunIdentityDoc, EnvironmentDoc, TeardownDoc, RollbackBindingDoc, RollbackDoc;
  }

  lemma RenderingsLie(codec: Codec, run: Run)
    ensures Lies(codec, run, Rendering1, BENCHMARK_TEXTS[0], Line("text"))
    ensures Lies(codec, run, Rendering2, BENCHMARK_TEXTS[1], Line("text"))
    ensures Lies(codec, run, Rendering3, BENCHMARK_TEXTS[2], Line("text"))
  {
    hide Inputs.Report, Inputs.Cost, Inputs.Failure, Run.Binding, Run.Worker, Run.Reporting, Run.Gateway, Run.Receipt,
      IsolationDoc, RunIdentityDoc, EnvironmentDoc, TeardownDoc, RollbackBindingDoc, RollbackDoc;
  }

  lemma DocLoads(codec: Codec, run: Run, f: File, p: Path, doc: Doc)
    requires codec.Lawful() && Lies(codec, run, f, p, Entry.Json(doc)) && Exact(Obj(doc))
    ensures var e := Directory(codec, run);
      && e.Load(p) == Ok(doc) && Loaded(e, p) && Read(e, p) == doc && e.Has(p)
      && ReadObject(codec, e.tree, e.root + p) == Some(doc)
      && IsFile(e.tree, e.root + p) && Content(e.tree, e.root + p) == codec.Dump(Obj(doc))
  {
    hide PathOf, ContentOf, Directory, Exact;
    Stored(codec, run, f);
  }

  lemma TextReads(codec: Codec, run: Run, f: File, p: Path, text: string)
    requires codec.Lawful() && Lies(codec, run, f, p, Line(text))
    requires Text.Stripped(text) && text != ""
    ensures var e := Directory(codec, run); e.Has(p) && e.TextOf(p) == Some(text)
  {
    hide PathOf, ContentOf, Directory, Text.Stripped;
    Stored(codec, run, f);
  }

  // ------------------------------------------------------------ exact documents

  lemma AllSetIsExact(keys: seq<string>)
    ensures Exact(Obj(AllSet(keys)))
  {
    FlatIsExact(AllSet(keys), {});
  }

  lemma PlainDocsAreExact(run: Run)
    ensures Exact(Obj(PASSED)) && Exact(Obj(MANIFEST_VERDICT)) && Exact(Obj(REDACTION_SCAN))
    ensures Exact(Obj(RunIdentityDoc(run))) && Exact(Obj(EnvironmentDoc(run)))
    ensures Exact(Obj(RollbackBindingDoc(run))) && Exact(Obj(RollbackDoc(run)))
    ensures Exact(Obj(IsolationDoc())) && Exact(Obj(TeardownDoc()))
  {
    AllSetIsExact(["passed"] + TEARDOWN_FIELDS);
    AllSetIsExact(["passed"] + ISOLATION_FIELDS);
    hide Exact, AllSet;
    FlatIsExact(PASSED, {});
    FlatIsExact(MANIFEST_VERDICT, {});
    FlatIsExact(REDACTION_SCAN, {});
    FlatIsExact(RunIdentityDoc(run), {});
    FlatIsExact(EnvironmentDoc(run), {});
    FlatIsExact(RollbackBindingDoc(run), {});
    FlatIsExact(RollbackDoc(run), {});
  }

  lemma IdentityIsExact(run: Run)
    ensures Exact(Obj(run.Identity())) && Exact(Obj(run.release.Digests()))
  {
    FlatIsExact(run.release.AdapterDigests(), {});
    FlatIsExact(run.release.Digests(), {});
    hide Exact, Release.AdapterDigests;
    FlatIsExact(run.Identity(), {Obj(run.release.AdapterDigests())});
  }

  lemma RunDocsAreExact(run: Run)
    ensures Exact(Obj(run.Binding())) && Exact(Obj(run.Worker())) && Exact(Obj(run.Reporting()))
  {
    IdentityIsExact(run);
    hide Exact, Release.Digests, Run.Identity;
    FlatIsExact(run.Binding(), {Obj(run.release.Digests())});
    FlatIsExact(run.Worker(), {Obj(run.Identity())});
    FlatIsExact(run.Reporting(), {Obj(run.Identity())});
  }

  lemma GatewayIsExact(run: Run)
    ensures Exact(Obj(run.Gateway()))
  {
    var passed: Doc := map["passed" := Bool(true)];
    var redaction: Doc := map["passed" := Bool(true), "redactions_applied" := Int(1)];
    var source: Doc := map["passed" := Bool(true), "cases" := Int(4)];
    hide Exact;
    FlatIsExact(passed, {});
    FlatIsExact(redaction, {});
    FlatIsExact(source, {});
    FlatIsExact(run.ValidRequest(), {});
    hide Run.ValidRequest;
    FlatIsExact(run.Gateway(), {Obj(passed), Obj(redaction), Obj(source), Obj(run.ValidRequest())});
  }

  lemma ReceiptIsExact(run: Run)
    ensures Exact(Obj(run.Receipt()))
  {
    var ids := Arr([Str("request-1")]);
    var canary: Doc := map["request_succeeded" := Bool(false)];
    var activity: Doc := map["inference_provenance" := Obj(run.Inference())];
    assert Exact(ids);
    AllSetIsExact(SANDBOX_TEARDOWN);
    hide Exact, AllSet;
    FlatIsExact(canary, {});
    FlatIsExact(run.Inference(), {ids});
    hide Run.Inference;
    FlatIsExact(activity, {Obj(run.Inference())});
    FlatIsExact(run.Payload(), {Obj(canary), Obj(activity), Obj(AllSet(SANDBOX_TEARDOWN))});
    hide Run.Payload;
    FlatIsExact(run.Receipt(), {Obj(run.Payload())});
  }

  lemma MeasuredDocsAreExact(codec: Codec, run: Run)
    requires run.WellFormed()
    ensures forall i :: 0 <= i < 3 ==> Exact(Obj(run.inputs.Report(i)))
    ensures Exact(Obj(run.inputs.Cost(codec))) && Exact(Obj(run.inputs.Failure(codec)))
  {
    assert Exact(Float(run.inputs.hourly));
    hide Exact, B.ReportDoc, P.CostFile, P.FailureFile, Run.WellFormed;
    forall i | 0 <= i < 3 ensures Exact(Obj(run.inputs.Report(i))) {
      P.ReportIsExact(run.inputs.endpointSha, run.inputs.model, P.Levels(run.inputs.Repeat(i)), run.inputs.hourly);
    }
    P.CostFileIsExact(codec, [run.inputs.Report(0), run.inputs.Report(1), run.inputs.Report(2)], run.inputs.hourly,
      run.inputs.representative, run.inputs.failureClass);
    var l := P.LevelOf(run.inputs.probe);
    P.FailureFileIsExact(codec, run.inputs.endpointSha, run.inputs.model, l, run.inputs.hourly, B.ExitCode([l]), run.inputs.failureClass);
  }

  // ---------------------------------------------------------- the verdicts

  lemma HexIsStripped(s: string, n: nat)
    requires IsHex(s, n) && n >= 1
    ensures Text.Stripped(s) && s != ""
  {
    assert IsHexDigit(s[0]) && IsHexDigit(s[|s| - 1]);
  }

  lemma CommonHolds(codec: Codec, run: Run)
    requires codec.Lawful() && run.WellFormed()
    ensures CommonPasses(Directory(codec, run), run.release.commit)
  {
    CommonLie(codec, run);
    PlainDocsAreExact(run);
    RunDocsAreExact(run);
    CommonDocsPass();
    BindingFits(run);
    RunsFit(run);
    hide Lies, Exact, Codec.Lawful, Directory, Loaded, Read, Evidence.Load, IsTrue, AllTrue, BindingPasses, WorkerPasses, Equal, Field, IsolationDoc, Run.WellFormed;
    DocLoads(codec, run, File.Configuration, CONFIGURATION, PASSED);
    DocLoads(codec, run, File.ManifestCheck, MANIFEST_CHECK, MANIFEST_VERDICT);
    DocLoads(codec, run, File.Binding, BINDING, run.Binding());
    DocLoads(codec, run, File.Worker, WORKER, run.Worker());
    DocLoads(codec, run, File.Reporting, REPORTING, run.Reporting());
    DocLoads(codec, run, File.Isolation, ISOLATION, IsolationDoc());
  }

  lemma TextsRead(codec: Codec, run: Run)
    requires codec.Lawful() && run.WellFormed()
    ensures var e := Directory(codec, run);
      && e.TextOf(COMMIT_TXT) == Some(run.release.commit) && e.TextOf(DEEP_DIGEST) == Some(run.release.deep)
      && e.TextOf(MANIFEST_SHA) == Some(codec.Sha(codec.Dump(Obj(run.manifest))))
      && e.Has(COMMIT_TXT) && e.Has(DEEP_DIGEST) && e.Has(MANIFEST_SHA)
  {
    TextsLie(codec, run);
    var sha := codec.Sha(codec.Dump(Obj(run.manifest)));
    HexIsStripped(run.release.commit, 40);
    assert Hex64(sha);
    HexIsStripped(sha, 64);
    assert run.release.deep != "" && Text.Stripped(run.release.deep);
    hide Lies, Text.Stripped, Directory, Codec.Lawful, Evidence.TextOf, Run.WellFormed;
    TextReads(codec, run, CommitText, COMMIT_TXT, run.release.commit);
    TextReads(codec, run, DeepDigest, DEEP_DIGEST, run.release.deep);
    TextReads(codec, run, ManifestSha, MANIFEST_SHA, sha);
  }

  /** The files whose text does not matter are there. */
  lemma PlainTextReads(codec: Codec, run: Run, f: File, p: Path)
    requires codec.Lawful() && Lies(codec, run, f, p, Line("text"))
    ensures Directory(codec, run).Has(p)
  {
    assert Text.Stripped("text") && "text" != "";
    hide Lies, Text.Stripped, Directory, Codec.Lawful, Evidence.TextOf, Evidence.Has;
    TextReads(codec, run, f, p, "text");
  }

  lemma IdentityMembers(run: Run)
    requires Hex64(run.binary)
    ensures var d := RunIdentityDoc(run);
      IsTrue(d, "passed") && Says(d, "release_commit", run.release.commit) && Says(d, "github_sha", run.release.commit)
      && DigitsText(Field(d, "github_run_id"))
    ensures var d := EnvironmentDoc(run);
      IsTrue(d, "passed") && Says(d, "release_commit", run.release.commit) && Says(d, "deep_image", run.release.deep)
      && Hex64Text(Field(d, "binary_sha256"))
  {
    hide Hex64;
  }

  lemma MetadataHolds(codec: Codec, run: Run)
    requires codec.Lawful() && run.WellFormed()
    ensures MetadataPasses(Directory(codec, run), run.release.commit, run.Binding(), RunIdentityDoc(run), EnvironmentDoc(run))
  {
    MeasuredLie(codec, run);
    TextsRead(codec, run);
    BindingFits(run);
    IdentityMembers(run);
    PlainDocsAreExact(run);
    var sha := codec.Sha(codec.Dump(Obj(run.manifest)));
    assert Hex64(sha);
    assert Exact(Obj(run.manifest));
    assert Says(run.Binding(), "deep_image", run.release.deep);
    assert Directory(codec, run).codec == codec;
    hide Lies, Exact, Codec.Lawful, Directory, Evidence.TextOf, Evidence.Has, Says, Hex64, Hex64Text, DigitsText, RunIdentityDoc, EnvironmentDoc,
      Run.Binding, Run.WellFormed, Field, IsFile, Content, Loaded, Read, Evidence.Load, ReadObject;
    DocLoads(codec, run, File.ModelArtifacts, MODEL_ARTIFACTS, run.manifest);
    assert Field(EnvironmentDoc(run), "deep_image") == Field(run.Binding(), "deep_image") by {
      SaysIsField(EnvironmentDoc(run), "deep_image", run.release.deep);
      SaysIsField(run.Binding(), "deep_image", run.release.deep);
    }
  }

  lemma MetadataNamed(e: Evidence)
    requires e.Has(RUN_IDENTITY) && e.Has(COMMIT_TXT) && e.Has(PYTHON_VERSION) && e.Has(MANIFEST_SHA)
    requires e.Has(MODEL_ARTIFACTS) && e.Has(DEEP_DIGEST) && e.Has(PREVIOUS_ARTIFACTS)
    ensures AllThere(e, METADATA)
  {
    hide Evidence.Has;
  }

  lemma BundleNamed(e: Evidence)
    requires e.Has(RECEIPT) && e.Has(RECEIPT_KEY) && e.Has(EVIDENCE_MANIFEST) && e.Has(EVIDENCE_EVENTS)
    ensures AllThere(e, BUNDLE_FILES)
  {
    hide Evidence.Has;
  }

  lemma MetadataThere(codec: Codec, run: Run)
    requires codec.Lawful() && run.WellFormed()
    ensures AllThere(Directory(codec, run), METADATA)
  {
    MeasuredLie(codec, run);
    OutcomesLie(codec, run);
    MetadataTextsLie(codec, run);
    TextsRead(codec, run);
    PlainDocsAreExact(run);
    assert Exact(Obj(run.manifest));
    hide Lies, Exact, Codec.Lawful, Directory, Evidence.TextOf, Evidence.Has, RunIdentityDoc, Run.WellFormed, IsFile, Content, Loaded, Read,
      Evidence.Load, ReadObject, AllThere;
    DocLoads(codec, run, File.ModelArtifacts, MODEL_ARTIFACTS, run.manifest);
    DocLoads(codec, run, File.RunIdentity, RUN_IDENTITY, RunIdentityDoc(run));
    PlainTextReads(codec, run, PythonVersion, PYTHON_VERSION);
    PlainTextReads(codec, run, PreviousArtifacts, PREVIOUS_ARTIFACTS);
    MetadataNamed(Directory(codec, run));
  }

  lemma SaysIsField(d: Doc, key: string, text: string)
    requires Says(d, key, text)
    ensures Field(d, key) == Str(text)
  {
  }

  lemma OutcomesHold(codec: Codec, run: Run)
    requires codec.Lawful() && run.WellFormed()
    ensures OtherOutcomesPass(Directory(codec, run), run.release.commit)
  {
    CommonLie(codec, run);
    OutcomesLie(codec, run);
    MetadataHolds(codec, run);
    MetadataThere(codec, run);
    PlainDocsAreExact(run);
    RunDocsAreExact(run);
    CommonDocsPass();
    ScanPassesGate();
    IdentityMembers(run);
    hide Lies, Exact, Codec.Lawful, Directory, Loaded, Read, Evidence.Load, Evidence.Has, IsTrue, AllTrue, MetadataPasses, AllThere,
      RedactionPasses, Says, DigitsText, Hex64Text, RunIdentityDoc, EnvironmentDoc, TeardownDoc, Run.Binding, Run.WellFormed;
    DocLoads(codec, run, File.Binding, BINDING, run.Binding());
    DocLoads(codec, run, File.RunIdentity, RUN_IDENTITY, RunIdentityDoc(run));
    DocLoads(codec, run, File.Environment, ENVIRONMENT, EnvironmentDoc(run));
    DocLoads(codec, run, File.Redaction, REDACTION, REDACTION_SCAN);
    DocLoads(codec, run, File.Teardown, TEARDOWN, TeardownDoc());
  }

  lemma ReportsThere(codec: Codec, run: Run)
    requires codec.Lawful() && run.WellFormed()
    ensures forall i :: 0 <= i < 3 ==> Directory(codec, run).Load(BENCHMARKS[i]) == Ok(run.inputs.Report(i))
  {
    hide Lies, Exact, Codec.Lawful, Directory, Loaded, Read, Evidence.Load, Evidence.Has, IsFile, Content, ReadObject, Run.WellFormed,
      Inputs.Report, Inputs.Cost, Inputs.Failure;
    MeasuredLie(codec, run);
    MeasuredDocsAreExact(codec, run);
    DocLoads(codec, run, File.Repeat1, BENCHMARKS[0], run.inputs.Report(0));
    DocLoads(codec, run, File.Repeat2, BENCHMARKS[1], run.inputs.Report(1));
    DocLoads(codec, run, File.Repeat3, BENCHMARKS[2], run.inputs.Report(2));
  }

  lemma RenderingsThere(codec: Codec, run: Run)
    requires codec.Lawful() && run.WellFormed()
    ensures forall i :: 0 <= i < 3 ==> Directory(codec, run).Has(BENCHMARK_TEXTS[i])
  {
    hide Lies, Codec.Lawful, Directory, Evidence.Has, Run.WellFormed;
    RenderingsLie(codec, run);
    PlainTextReads(codec, run, Rendering1, BENCHMARK_TEXTS[0]);
    PlainTextReads(codec, run, Rendering2, BENCHMARK_TEXTS[1]);
    PlainTextReads(codec, run, Rendering3, BENCHMARK_TEXTS[2]);
  }

  /** The five files of the producers, as the release gate loads them. */
  lemma MeasurementsHold(codec: Codec, run: Run)
    requires codec.Lawful() && run.WellFormed()
    ensures Produced(Directory(codec, run), run.inputs)
  {
    hide Lies, Exact, Codec.Lawful, Directory, Loaded, Read, Evidence.Load, Evidence.Has, IsFile, Content, ReadObject, Run.WellFormed,
      Inputs.Report, Inputs.Cost, Inputs.Failure;
    ReportsThere(codec, run);
    MeasuredLie(codec, run);
    MeasuredDocsAreExact(codec, run);
    DirectoryCodec(codec, run);
    DocLoads(codec, run, File.CostReport, COST, run.inputs.Cost(codec));
    DocLoads(codec, run, File.FailureEvidence, FAILURE, run.inputs.Failure(codec));
  }

  lemma RollbackHolds(codec: Codec, run: Run)
    requires codec.Lawful() && run.WellFormed()
    ensures RollbackDocsPass(Directory(codec, run), run.release.commit, false)
  {
    CommonLie(codec, run);
    RollbackLie(codec, run);
    RestoredLie(codec, run);
    PlainDocsAreExact(run);
    RunDocsAreExact(run);
    CommonDocsPass();
    RollbackPassesGate(run);
    hide Lies, Exact, Codec.Lawful, Directory, Loaded, Read, Evidence.Load, IsTrue, RollbackPasses, RollbackDoc, RollbackBindingDoc,
      Run.Binding, Run.WellFormed, VerificationPasses, RescanPasses;
    DocLoads(codec, run, File.Binding, BINDING, run.Binding());
    DocLoads(codec, run, File.PreviousManifest, PREVIOUS_MANIFEST, PASSED);
    DocLoads(codec, run, File.RollbackBinding, ROLLBACK_BINDING, RollbackBindingDoc(run));
    DocLoads(codec, run, File.RollbackWorker, ROLLBACK_WORKER, PASSED);
    DocLoads(codec, run, File.RollbackReporting, ROLLBACK_REPORTING, PASSED);
    DocLoads(codec, run, File.RollbackIsolation, ROLLBACK_ISOLATION, PASSED);
    DocLoads(codec, run, File.Rollback, ROLLBACK, RollbackDoc(run));
  }

  lemma ExchangeHolds(codec: Codec, run: Run)
    requires codec.Lawful() && run.WellFormed()
    ensures var e := Directory(codec, run);
      && Loaded(e, GATEWAY) && GatewayPasses(Read(e, GATEWAY), run.model)
      && Loaded(e, RECEIPT) && ReceiptPasses(Read(e, RECEIPT), run.model)
  {
    OutcomesLie(codec, run);
    GatewayIsExact(run);
    ReceiptIsExact(run);
    GatewayFits(run);
    ReceiptFits(run);
    hide Lies, Exact, Codec.Lawful, Directory, Loaded, Read, Evidence.Load, GatewayPasses, ReceiptPasses, Run.Gateway, Run.Receipt,
      Run.WellFormed, NonEmptyFile, StatesReceipt, StatesGateway, Signed, Evidence.Has, IsFile, Content, ReadObject;
    DocLoads(codec, run, File.Gateway, GATEWAY, run.Gateway());
    DocLoads(codec, run, File.Receipt, RECEIPT, run.Receipt());
  }

  lemma BundleThere(codec: Codec, run: Run)
    requires codec.Lawful()
    ensures AllThere(Directory(codec, run), BUNDLE_FILES)
  {
    OutcomesLie(codec, run);
    BundleTextsLie(codec, run);
    ReceiptIsExact(run);
    hide Lies, Exact, Codec.Lawful, Directory, Loaded, Read, Evidence.Load, Run.Receipt, Evidence.Has, Evidence.TextOf, IsFile, Content, ReadObject,
      AllThere;
    DocLoads(codec, run, File.Receipt, RECEIPT, run.Receipt());
    PlainTextReads(codec, run, ReceiptKey, RECEIPT_KEY);
    PlainTextReads(codec, run, EvidenceManifest, EVIDENCE_MANIFEST);
    PlainTextReads(codec, run, EvidenceEvents, EVIDENCE_EVENTS);
    BundleNamed(Directory(codec, run));
  }

  /** The stand-ins pass everything the producer's gate demands of them. */
  lemma OthersHold(codec: Codec, run: Run)
    requires codec.Lawful() && run.WellFormed()
    ensures OthersPass(Directory(codec, run), run.release.commit, run.model)
  {
    hide Codec.Lawful, Directory, Loaded, Read, CommonPasses, OtherOutcomesPass, RollbackDocsPass, AllThere,
      GatewayPasses, ReceiptPasses, Run.WellFormed, Evidence.Has, Produced;
    CommonHolds(codec, run);
    OutcomesHold(codec, run);
    RenderingsThere(codec, run);
    ExchangeHolds(codec, run);
    BundleThere(codec, run);
    RollbackHolds(codec, run);
  }

  lemma BundleHolds(codec: Codec, run: Run)
    requires codec.Lawful() && run.WellFormed()
    ensures Holds(Directory(codec, run), run.Documents(), run.Receipt())
  {
    MeasuredLie(codec, run);
    CommonLie(codec, run);
    OutcomesLie(codec, run);
    RunDocsAreExact(run);
    GatewayIsExact(run);
    ReceiptIsExact(run);
    ReceiptFits(run);
    TextsRead(codec, run);
    assert Exact(Obj(run.manifest));
    assert Directory(codec, run).codec == codec;
    hide Lies, Exact, Codec.Lawful, Directory, Loaded, Read, ReadObject, Evidence.Load, Evidence.TextOf, Run.Gateway, Run.Receipt, Run.Binding,
      Run.Worker, Run.Reporting, Run.Payload, Run.WellFormed, StatesReceipt, ReceiptPasses, Signed;
    DocLoads(codec, run, File.ModelArtifacts, MODEL_ARTIFACTS, run.manifest);
    DocLoads(codec, run, File.Binding, BINDING, run.Binding());
    DocLoads(codec, run, File.Worker, WORKER, run.Worker());
    DocLoads(codec, run, File.Reporting, REPORTING, run.Reporting());
    DocLoads(codec, run, File.Gateway, GATEWAY, run.Gateway());
    DocLoads(codec, run, File.Receipt, RECEIPT, run.Receipt());
  }

  /** The same directory is a valid bundle for the independent verifier. */
  lemma AcceptanceHolds(codec: Codec, run: Run)
    requires codec.Lawful() && run.WellFormed()
    ensures Valid(Directory(codec, run), run.release.commit, None, None)
  {
    BundleHolds(codec, run);
    DocumentsFitBoth(run);
    assert run.release.WellFormed() && CommitId(run.release.commit);
    hide Codec.Lawful, Directory, Valid, Holds, PassedFlags, States, Run.WellFormed, Run.Documents, Run.Receipt, Release.WellFormed, CommitId;
    ReleaseBundleAccepted(Directory(codec, run), run.release, run.Documents(), run.Receipt());
  }

  predicate Unlike(run: Run) {
    run.release.deep != TamperImage() && run.release.base != Zeros() && run.release.testGen != Zeros()
  }

  lemma StoredBinding(codec: Codec, run: Run)
    requires codec.Lawful()
    ensures var e := Directory(codec, run);
      ReadObject(e.codec, e.tree, e.root + BINDING) == Some(run.Binding())
  {
    CommonLie(codec, run);
    RunDocsAreExact(run);
    DirectoryCodec(codec, run);
    hide Lies, Exact, Codec.Lawful, Directory, Loaded, Read, ReadObject, Evidence.Load, Evidence.Has, IsFile, Content, Run.Binding;
    DocLoads(codec, run, File.Binding, BINDING, run.Binding());
  }

  lemma BindingDigests(run: Run)
    ensures Field(run.Binding(), "artifact_sha256") == Obj(run.release.Digests())
    ensures Field(run.release.Digests(), "base") == Str(run.release.base)
    ensures Field(run.release.Digests(), "test-gen") == Str(run.release.testGen)
  {
  }

  lemma DirectoryDiffersIff(codec: Codec, run: Run)
    requires codec.Lawful() && run.WellFormed()
    ensures DiffersFromTampers(Directory(codec, run)) <==> Unlike(run)
  {
    hide Codec.Lawful, Directory, Run.WellFormed, Run.Binding, Evidence.TextOf, Evidence.Has, ReadObject, Field, TamperImage, Zeros, Release.Digests;
    TextsRead(codec, run);
    StoredBinding(codec, run);
    BindingDigests(run);
  }

  /** On this directory the release decision is positive exactly when the measurements are good, no
      identity of the release equals the constant of a tamper, and the facts from outside the
      files are in order: whatever else the three stages demand can be met. */
  method DecideRun(codec: Codec, run: Run, s: Session, redaction: Doc) returns (accepted: bool)
    requires codec.Lawful() && run.WellFormed() && Exact(Obj(redaction))
    ensures accepted <==>
      && run.inputs.Good() && Unlike(run)
      && !s.secrets && s.receiptValid && !s.tamperedValid && RescanPasses(redaction)
  {
    hide Codec.Lawful, Exact, Directory, OthersPass, Valid, DiffersFromTampers, RescanPasses, Evidence.PlainTree, Run.WellFormed, CommitId, Unlike,
      Produced, Inputs.Good, Hex64;
    DirectoryIsPlain(codec, run);
    OthersHold(codec, run);
    MeasurementsHold(codec, run);
    AcceptanceHolds(codec, run);
    DirectoryDiffersIff(codec, run);
    RunFacts(run);
    DirectoryCodec(codec, run);
    accepted := DecideProducedRun(Directory(codec, run), run.inputs, run.release.commit, run.model, run.model, s, redaction);
  }

  lemma RunFacts(run: Run)
    requires run.WellFormed()
    ensures CommitId(run.release.commit) && Hex64(run.inputs.endpointSha)
  {
  }

  lemma DirectoryCodec(codec: Codec, run: Run)
    ensures Directory(codec, run).codec == codec
  {
  }

  // ----------------------------------------------- a tamper that goes unnoticed

  /** A release whose base digest happens to be the constant that the tamper writes. */
  function ZeroRun(): Run {
    var commit, oldCommit := seq(40, _ => 'a'), seq(40, _ => 'b');
    var digest := map["sha256" := Str(Zeros())];
    var manifest: Doc := map[
      "llama_cpp_image" := Str("image"), "model" := Obj(map["id" := Str("model"), "sha256" := Str(Zeros())]),
      "adapters" := Obj(map["test-gen" := Obj(digest), "reasoning" := Obj(digest), "reporting" := Obj(digest)])];
    var deep, oldDeep := "new@sha256:" + Zeros(), "old@sha256:" + Zeros();
    Run(manifest, Release(deep, commit, Str("image"), Str("model"), Zeros(), Zeros(), Zeros(), Zeros()),
      "image", "model", Zeros(), oldDeep, oldCommit,
      Inputs(Zeros(), "model", 1.0, 1, [], [], [], P.Measurement(1, [], [], [], 0.0), "ValueError"))
  }

  lemma ZerosPinned(name: string)
    requires |name| >= 1 && '\n' !in name
    ensures Pinned(name + "@sha256:" + Zeros()) && Hex64(Zeros())
  {
    var s := name + "@sha256:" + Zeros();
    assert s[|s| - 64..] == Zeros();
    assert s[|s| - 72..|s| - 64] == "@sha256:";
    assert s[..|s| - 72] == name;
  }

  lemma ZeroManifest()
    ensures StatesManifest(ZeroRun().release, ZeroRun().manifest)
  {
    var m := ZeroRun().manifest;
    assert Part(m, "adapters").Keys == ADAPTERS;
    hide Zeros;
    DigestsEqual(m, ZeroRun().release);
  }

  lemma ZeroManifestIsExact()
    ensures Exact(Obj(ZeroRun().manifest))
  {
    var m := ZeroRun().manifest;
    var digest: Doc := map["sha256" := Str(Zeros())];
    hide Zeros, Exact;
    FlatIsExact(digest, {});
    FlatIsExact(Field(m, "model").fields, {});
    FlatIsExact(Field(m, "adapters").fields, {Obj(digest)});
    FlatIsExact(m, {Field(m, "model"), Field(m, "adapters")});
  }

  lemma ZeroNames()
    ensures var run := ZeroRun();
      && CommitId(run.release.commit) && CommitId(run.oldCommit) && run.oldCommit != run.release.commit
      && run.oldDeep != run.release.deep && Text.Stripped(run.release.deep)
  {
    var run := ZeroRun();
    assert run.release.deep[0] == 'n' && run.oldDeep[0] == 'o';
    assert run.release.commit[0] == 'a' && run.oldCommit[0] == 'b';
    assert run.release.deep[|run.release.deep| - 1] == '0';
  }

  lemma ZeroIdentities()
    ensures var run := ZeroRun();
      && run.release.WellFormed() && Hex64(run.binary) && Pinned(run.oldDeep)
      && run.release.image == Str(run.image) && run.release.model == Str(run.model) && run.release.base == Zeros()
      && Hex64(run.inputs.endpointSha) && run.inputs.hourly == 1.0
  {
    ZerosPinned("new");
    ZerosPinned("old");
    hide Pinned, Zeros, Hex64;
  }

  lemma ZeroRunIsWellFormed()
    ensures ZeroRun().WellFormed() && ZeroRun().release.base == Zeros()
  {
    hide ZeroRun, StatesManifest, Pinned, Exact, Zeros, Hex64, CommitId, Text.Stripped, Release.WellFormed;
    ZeroManifest();
    ZeroManifestIsExact();
    ZeroNames();
    ZeroIdentities();
    OneIsExact();
  }

  lemma OneIsExact()
    ensures Exact(Float(1.0))
  {
    assert HasDigits(1.0, 0);
  }

  lemma OverrideWithItself(e: Evidence, commit: string, binding: Doc)
    requires ReadObject(e.codec, e.tree, e.root + BINDING) == Some(binding) && binding != map[]
    ensures ValidateAcceptance(e, commit, None, Some(binding)) == ValidateAcceptance(e, commit, None, None)
  {
    hide ReadObject, Decide, Signed, CommitId, IsTrue, Evidence.TextOf;
  }

  lemma BindingTamperedToItself(run: Run)
    requires run.release.base == Zeros()
    ensures run.Binding() != map[] && Field(run.Binding(), "artifact_sha256").Obj?
    ensures DigestTamper(run.Binding(), "base") == run.Binding()
  {
    BindingDigests(run);
    assert run.release.Digests()["base" := Str(Zeros())] == run.release.Digests();
    assert "passed" in run.Binding();
    hide Release.Digests, Zeros;
  }

  /** The failing input of the tamper matrix: on this valid bundle the base-digest tamper writes
      the digest that is already there, and the tampered bundle is accepted. */
  lemma ZeroDigestTamperPasses(codec: Codec)
    requires codec.Lawful()
    ensures var e, run := Directory(codec, ZeroRun()), ZeroRun();
      && Valid(e, run.release.commit, None, None)
      && Field(run.Binding(), "artifact_sha256").Obj?
      && Valid(e, run.release.commit, None, Some(DigestTamper(run.Binding(), "base")))
  {
    ZeroRunIsWellFormed();
    hide Codec.Lawful, Directory, ZeroRun, ValidateAcceptance, Run.WellFormed, Run.Binding, ReadObject, Field;
    var run := ZeroRun();
    AcceptanceHolds(codec, run);
    StoredBinding(codec, run);
    BindingTamperedToItself(run);
    OverrideWithItself(Directory(codec, run), run.release.commit, run.Binding());
  }
}

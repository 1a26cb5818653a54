/** The release-evidence assertion: Gate 5, and the index of everything it saw. */
module EvidenceGate {
  import opened Wrappers
  import opened Json
  import opened FileTree
  import opened Text

  type Doc = map<string, Json>

  /** A check succeeds, refuses the evidence, or ends in an attribute error nobody catches. */
  datatype Result<T> = Ok(value: T) | Err(reason: string) | Crash
  {
    predicate IsFailure() { !Ok? }
    function PropagateFailure<U>(): Result<U>
      requires IsFailure()
    {
      if Err? then Err(reason) else Crash
    }
    function Extract(): T
      requires Ok?
    {
      value
    }
  }

  predicate IsTrue(d: Doc, key: string) { Field(d, key) == Bool(true) }

  predicate IsFalse(d: Doc, key: string) { Field(d, key) == Bool(false) }

  predicate AllTrue(d: Doc, keys: seq<string>) {
    forall k :: k in keys ==> IsTrue(d, k)
  }

  predicate AllFalse(d: Doc, keys: seq<string>) {
    forall k :: k in keys ==> IsFalse(d, k)
  }

  predicate Says(d: Doc, key: string, text: string) { Field(d, key) == Str(text) }

  // ------------------------------------------------------- document conditions

  predicate LevelPasses(level: Doc) {
    && Equal(Field(level, "failed"), Int(0))
    && Equal(Field(level, "succeeded"), Field(level, "requests"))
    && Equal(Field(level, "canaries_verified"), Field(level, "requests"))
    && Equal(Field(level, "leakage_failures"), Int(0))
  }

  const CONCURRENCIES: seq<int> := [1, 2, 4]

  predicate BenchmarkPasses(benchmark: Doc) {
    && Field(benchmark, "levels").Arr?
    && var levels := Field(benchmark, "levels").items;
    && |levels| == 3
    && (forall i :: 0 <= i < 3 ==>
          levels[i].Obj? && Equal(Field(levels[i].fields, "concurrency"), Int(CONCURRENCIES[i]))
          && LevelPasses(levels[i].fields))
    && Hex64Text(Field(benchmark, "endpoint_sha256"))
  }

  /** A level that is no object has no `get`. */
  predicate BenchmarkCrashes(benchmark: Doc) {
    && Field(benchmark, "levels").Arr?
    && exists i :: 0 <= i < |Field(benchmark, "levels").items| && !Field(benchmark, "levels").items[i].Obj?
  }

  /** `float(value)` of a JSON value, when finite. */
  function AsFloat(codec: Codec, j: Json): Option<real> {
    if j.Str? then codec.ParseFloat(j.s) else if TooLarge(j) then None else Number(j)
  }

  predicate NonNegativeFloat(codec: Codec, d: Doc, key: string) {
    key in d && AsFloat(codec, d[key]).Some? && AsFloat(codec, d[key]).value >= 0.0
  }

  predicate CostPasses(codec: Codec, cost: Doc) {
    && IsTrue(cost, "passed")
    && NonNegativeFloat(codec, cost, "assumption_instance_hourly_usd")
    && NonNegativeFloat(codec, cost, "estimated_cost_per_request_usd")
    && NonNegativeFloat(codec, cost, "estimated_cost_per_representative_run_usd")
    && Equal(Field(cost, "benchmark_repeats"), Int(3))
    && AtLeast(FieldOr(cost, "requests_completed", Int(0)), 1.0)
    && Equal(Field(cost, "requests_completed"), Field(cost, "requests_requested"))
    && AtLeast(FieldOr(cost, "representative_run_requests", Int(0)), 1.0)
  }

  const COST_FIGURES: seq<string> := [
    "assumption_instance_hourly_usd", "estimated_cost_per_request_usd", "estimated_cost_per_representative_run_usd"]

  /** The first figure that `float()` does not convert is an integer too large for it. */
  predicate CostCrashes(codec: Codec, cost: Doc) {
    exists i :: 0 <= i < |COST_FIGURES| && COST_FIGURES[i] in cost && TooLarge(cost[COST_FIGURES[i]])
      && forall k :: 0 <= k < i ==> COST_FIGURES[k] in cost && AsFloat(codec, cost[COST_FIGURES[k]]).Some?
  }

  lemma CrashedCostFails(codec: Codec, cost: Doc)
    ensures CostCrashes(codec, cost) ==> !CostPasses(codec, cost)
  {
    hide Pow2;
    if CostCrashes(codec, cost) {
      var i :| 0 <= i < |COST_FIGURES| && COST_FIGURES[i] in cost && TooLarge(cost[COST_FIGURES[i]]);
      assert !NonNegativeFloat(codec, cost, COST_FIGURES[i]);
    }
  }

  const PRIVACY_FIELDS: seq<string> := [
    "source_code_included", "prompt_recorded", "generated_code_recorded",
    "narrative_recorded", "credentials_recorded"]

  predicate FailurePasses(failure: Doc) {
    && IsTrue(failure, "passed")
    && IsFalse(failure, "inference_succeeded") && IsTrue(failure, "command_exit_nonzero")
    && AllFalse(failure, PRIVACY_FIELDS)
    && Truthy(Field(failure, "error_classes"))
  }

  predicate RedactionPasses(redaction: Doc) {
    && IsTrue(redaction, "passed")
    && IsFalse(redaction, "staging_secrets_present")
    && !Truthy(Field(redaction, "rejected_files")) && !Truthy(Field(redaction, "missing_files"))
    && AtLeast(FieldOr(redaction, "files_scanned_count", Int(0)), 1.0)
  }

  const TEARDOWN_FIELDS: seq<string> := [
    "candidate_container_absent", "rollback_container_absent", "llama_server_processes_absent",
    "worker_children_absent", "ollama_absent", "listener_inspection_succeeded",
    "container_inspection_succeeded", "model_listeners_absent", "prompt_slot_cache_absent",
    "known_sandbox_workspace_absent"]

  /** `(d.get(key) or {})`: an absent or empty value reads as an empty object. */
  predicate ObjectOrEmpty(j: Json) { !Truthy(j) || j.Obj? }

  function Fields(j: Json): Doc
    requires ObjectOrEmpty(j)
  {
    if j.Obj? then j.fields else map[]
  }

  predicate PartPasses(gateway: Doc, key: string) {
    Field(gateway, key).Obj? && IsTrue(Field(gateway, key).fields, "passed")
  }

  predicate GatewayPasses(gateway: Doc, model: string) {
    && IsTrue(gateway, "passed")
    && PartPasses(gateway, "authorization_rejection") && PartPasses(gateway, "wrong_key_rejection")
    && PartPasses(gateway, "valid_request") && PartPasses(gateway, "redaction") && PartPasses(gateway, "source_rejection")
    && AtLeast(FieldOr(Field(gateway, "source_rejection").fields, "cases", Int(0)), 4.0)
    && AtLeast(FieldOr(Field(gateway, "redaction").fields, "redactions_applied", Int(0)), 1.0)
    && (model != "" ==> Says(Field(gateway, "valid_request").fields, "model", model))
    && IsFalse(Field(gateway, "valid_request").fields, "source_code_included")
  }

  const SANDBOX_TEARDOWN: seq<string> := [
    "processes_terminated", "cgroup_removed", "network_namespace_removed", "workspace_removed"]

  predicate ReceiptPasses(receipt: Doc, model: string) {
    && FieldOr(receipt, "receipt", Obj(receipt)).Obj?
    && var signed := FieldOr(receipt, "receipt", Obj(receipt)).fields;
    && Equal(Field(signed, "receipt_version"), Int(4)) && Truthy(Field(signed, "signature"))
    && ObjectOrEmpty(Field(signed, "teardown_proof"))
    && AllTrue(Fields(Field(signed, "teardown_proof")), SANDBOX_TEARDOWN)
    && ObjectOrEmpty(Field(signed, "canary_check"))
    && IsFalse(Fields(Field(signed, "canary_check")), "request_succeeded")
    && ObjectOrEmpty(Field(signed, "agent_activity"))
    && ObjectOrEmpty(Field(Fields(Field(signed, "agent_activity")), "inference_provenance"))
    && var provenance := Fields(Field(Fields(Field(signed, "agent_activity")), "inference_provenance"));
    && Says(provenance, "mode", "gateway") && IsFalse(provenance, "source_code_included")
    && (model != "" ==> Says(provenance, "model", model))
    && !Truthy(Field(provenance, "error"))
    && AtLeast(FieldOr(provenance, "requests", Int(0)), 1.0)
    && Truthy(Field(provenance, "request_ids"))
  }

  /** The members that are read as objects without being one, in the order they are reached. */
  predicate ReceiptCrashes(receipt: Doc) {
    if !FieldOr(receipt, "receipt", Obj(receipt)).Obj? then true
    else
      var signed := FieldOr(receipt, "receipt", Obj(receipt)).fields;
      if !Equal(Field(signed, "receipt_version"), Int(4)) || !Truthy(Field(signed, "signature")) then false
      else if !ObjectOrEmpty(Field(signed, "teardown_proof")) then true
      else if !AllTrue(Fields(Field(signed, "teardown_proof")), SANDBOX_TEARDOWN) then false
      else if !ObjectOrEmpty(Field(signed, "canary_check")) then true
      else if !IsFalse(Fields(Field(signed, "canary_check")), "request_succeeded") then false
      else
        || !ObjectOrEmpty(Field(signed, "agent_activity"))
        || !ObjectOrEmpty(Field(Fields(Field(signed, "agent_activity")), "inference_provenance"))
  }

  predicate WorkerPasses(worker: Doc) {
    IsTrue(worker, "passed") && IsTrue(worker, "reporting_passed") && IsTrue(worker, "teardown_verified")
  }

  predicate BindingPasses(binding: Doc, commit: string) {
    IsTrue(binding, "passed") && Says(binding, "release_commit", commit) && PinnedText(Field(binding, "deep_image"))
  }

  predicate RollbackPasses(rollback: Doc, rollbackBinding: Doc, binding: Doc, commit: string) {
    && IsTrue(rollback, "passed") && IsTrue(rollbackBinding, "passed")
    && PinnedText(Field(rollback, "restored_image"))
    && Field(rollback, "restored_image") != Field(binding, "deep_image")
    && CommitText(Field(rollback, "restored_commit")) && !Says(rollback, "restored_commit", commit)
    && Field(rollbackBinding, "deep_image") == Field(rollback, "restored_image")
    && Field(rollbackBinding, "release_commit") == Field(rollback, "restored_commit")
    && IsTrue(rollback, "manifest_verified") && IsTrue(rollback, "smoke_passed")
  }

  /** The report of the independent verifier. */
  predicate VerificationPasses(verification: Doc) {
    && IsTrue(verification, "passed")
    && Says(verification, "status", "VALID")
    && IsFalse(verification, "staging_secrets_present")
    && IsTrue(verification, "producer_index_verified")
    && IsTrue(verification, "acceptance_semantics_verified")
    && Equal(Field(verification, "tamper_checks_passed_count"), Int(4))
  }

  /** The repeated redaction scan. */
  predicate RescanPasses(redaction: Doc) {
    && IsTrue(redaction, "passed")
    && IsFalse(redaction, "staging_secrets_present")
    && !Truthy(Field(redaction, "missing_files")) && !Truthy(Field(redaction, "rejected_files"))
  }

  // --------------------------------------------------------------- file names

  const CONFIGURATION: Path := ["configuration-validation.json"]
  const MANIFEST_CHECK: Path := ["manifest-verification.json"]
  const BINDING: Path := ["deep-image-binding.json"]
  const WORKER: Path := ["llamacpp-worker-smoke.json"]
  const REPORTING: Path := ["reporting-smoke.json"]
  const ISOLATION: Path := ["container-isolation.json"]
  const RUN_IDENTITY: Path := ["run-identity.json"]
  const COMMIT_TXT: Path := ["commit.txt"]
  const PYTHON_VERSION: Path := ["python-version.txt"]
  const MANIFEST_SHA: Path := ["manifest.sha256"]
  const MODEL_ARTIFACTS: Path := ["model-artifacts.json"]
  const DEEP_DIGEST: Path := ["deep-image-digest.txt"]
  const PREVIOUS_ARTIFACTS: Path := ["previous-model-artifacts.json"]
  const ENVIRONMENT: Path := ["environment-setup.json"]
  const COST: Path := ["cost-report.json"]
  const FAILURE: Path := ["failure-evidence.json"]
  const REDACTION: Path := ["redaction-check.json"]
  const TEARDOWN: Path := ["teardown-check.json"]
  const GATEWAY: Path := ["gateway-smoke.json"]
  const BENCHMARKS: seq<Path> := [["model-benchmark-1.json"], ["model-benchmark-2.json"], ["model-benchmark-3.json"]]
  const BENCHMARK_TEXTS: seq<Path> := [["model-benchmark-1.md"], ["model-benchmark-2.md"], ["model-benchmark-3.md"]]
  const RECEIPT: Path := ["sandbox-receipt", "receipt.json"]
  const RECEIPT_KEY: Path := ["sandbox-receipt", "receipt-key.pub.pem"]
  const EVIDENCE_DIR: Path := ["sandbox-receipt", "evidence"]
  const EVIDENCE_MANIFEST: Path := ["sandbox-receipt", "evidence", "manifest.json"]
  const EVIDENCE_EVENTS: Path := ["sandbox-receipt", "evidence", "events.jsonl"]
  const PREVIOUS_MANIFEST: Path := ["previous-manifest-verification.json"]
  const ROLLBACK_BINDING: Path := ["rollback-image-binding.json"]
  const ROLLBACK_WORKER: Path := ["rollback-smoke", "llamacpp-worker-smoke.json"]
  const ROLLBACK_REPORTING: Path := ["rollback-smoke", "reporting-smoke.json"]
  const ROLLBACK_ISOLATION: Path := ["rollback-smoke", "container-isolation.json"]
  const ROLLBACK: Path := ["rollback.json"]
  const VERIFICATION: Path := ["independent-verification.json"]
  const INDEPENDENT_REDACTION: Path := ["independent-redaction-check.json"]
  const INDEX: Path := ["producer-evidence-index.json"]

  /** A directory of evidence: a tree and the location of its root. */
  datatype Evidence = Evidence(codec: Codec, tree: Tree, root: Path) {
    function Load(name: Path): (r: Result<Doc>)
      ensures !r.Crash?
      ensures r.Ok? ==> Has(name) && IsFile(tree, root + name)
    {
      if !NonEmptyFile(tree, root + name) then Err("required evidence is missing")
      else
        match ReadObject(codec, tree, root + name)
        case Some(doc) => Ok(doc)
        case None => Err("required evidence is not an object")
    }

    function TextOf(name: Path): Option<string> { ReadText(codec, tree, root + name) }

    predicate Has(name: Path) { NonEmptyFile(tree, root + name) }

    lemma HasMeansFile(name: Path)
      requires Has(name)
      ensures IsFile(tree, root + name)
    {
    }

    /** Every regular file below the root, by its path from the root (`rglob`). */
    function Names(): set<Path> {
      set p | p in tree.files && root < p :: p[|root|..]
    }

    /** No symbolic links, and names as an operating system allows them. */
    predicate PlainTree() {
      tree.WellFormed() && tree.links == map[] && Clean(root)
    }

    lemma PlainResolve(p: Path)
      requires PlainTree() && Clean(p)
      ensures Resolve(tree, root + p) == root + p
    {
      assert ".." !in root + p by {
        assert forall i :: 0 <= i < |root + p| ==> CleanName((root + p)[i]);
      }
      PlainResolvesToItself(tree, root + p);
    }

    lemma NameIsFile(p: Path)
      requires PlainTree() && p in Names()
      ensures IsFile(tree, root + p) && Clean(p) && p != []
    {
      var q :| q in tree.files && root < q && p == q[|root|..];
      assert q == root + p;
      assert forall i :: 0 <= i < |p| ==> p[i] == q[|root| + i];
      PlainResolve(p);
    }
  }

  // ------------------------------------------------------------------ gate 5

  const COMMON_FILES: seq<Path> := [CONFIGURATION, MANIFEST_CHECK, BINDING, WORKER, REPORTING, ISOLATION]
  const METADATA: seq<Path> :=
    [RUN_IDENTITY, COMMIT_TXT, PYTHON_VERSION, MANIFEST_SHA, MODEL_ARTIFACTS, DEEP_DIGEST, PREVIOUS_ARTIFACTS]
  const OUTCOME_FILES: seq<Path> := [ENVIRONMENT, COST, FAILURE, REDACTION, TEARDOWN]
  const BUNDLE_FILES: seq<Path> := [RECEIPT, RECEIPT_KEY, EVIDENCE_MANIFEST, EVIDENCE_EVENTS]
  const ROLLBACK_FILES: seq<Path> :=
    [PREVIOUS_MANIFEST, ROLLBACK_BINDING, ROLLBACK_WORKER, ROLLBACK_REPORTING, ROLLBACK_ISOLATION, ROLLBACK]
  const INDEPENDENT_FILES: seq<Path> := [VERIFICATION, INDEPENDENT_REDACTION]
  const ISOLATION_FIELDS: seq<string> := ["no_published_ports", "network_none", "container_removed", "no_ollama"]

  predicate Present(e: Evidence, files: seq<Path>) {
    forall i :: 0 <= i < |files| ==> IsFile(e.tree, e.root + files[i])
  }

  predicate Loaded(e: Evidence, name: Path) { e.Load(name).Ok? }

  /** The members of a document; none if it does not load. */
  function Read(e: Evidence, name: Path): Doc {
    if e.Load(name).Ok? then e.Load(name).value else map[]
  }

  /** The documents every gate needs. */
  predicate CommonPasses(e: Evidence, commit: string) {
    && Loaded(e, CONFIGURATION) && IsTrue(Read(e, CONFIGURATION), "passed")
    && Loaded(e, MANIFEST_CHECK) && IsTrue(Read(e, MANIFEST_CHECK), "passed")
    && Equal(Field(Read(e, MANIFEST_CHECK), "artifact_count"), Int(4))
    && Loaded(e, BINDING) && BindingPasses(Read(e, BINDING), commit)
    && Loaded(e, WORKER) && WorkerPasses(Read(e, WORKER))
    && Loaded(e, REPORTING) && IsTrue(Read(e, REPORTING), "passed") && IsTrue(Read(e, REPORTING), "teardown_verified")
    && Loaded(e, ISOLATION) && IsTrue(Read(e, ISOLATION), "passed") && AllTrue(Read(e, ISOLATION), ISOLATION_FIELDS)
  }

  /** `_common`. */
  method Common(e: Evidence, commit: string) returns (r: Result<seq<Path>>)
    ensures r.Ok? <==> CommonPasses(e, commit)
    ensures !r.Crash?
    ensures r.Ok? ==> r.value == COMMON_FILES && Present(e, r.value)
  {
    hide Evidence.Load, IsFile, NonEmptyFile, Equal, PinnedText, AllTrue, Field;
    var configuration :- e.Load(CONFIGURATION);
    var manifest :- e.Load(MANIFEST_CHECK);
    var binding :- e.Load(BINDING);
    var worker :- e.Load(WORKER);
    var reporting :- e.Load(REPORTING);
    var isolation :- e.Load(ISOLATION);
    if !IsTrue(configuration, "passed") || !IsTrue(manifest, "passed") || !IsTrue(binding, "passed")
      || !IsTrue(worker, "passed") || !IsTrue(reporting, "passed") || !IsTrue(isolation, "passed") {
      return Err("required evidence did not pass");
    }
    if !Equal(Field(manifest, "artifact_count"), Int(4)) {
      return Err("manifest evidence must contain four artifacts");
    }
    if !Says(binding, "release_commit", commit) {
      return Err("deep image is not bound to the release commit");
    }
    if !PinnedText(Field(binding, "deep_image")) {
      return Err("deep image evidence is not digest-pinned");
    }
    if !IsTrue(worker, "reporting_passed") || !IsTrue(worker, "teardown_verified") || !IsTrue(reporting, "teardown_verified") {
      return Err("model teardown is not verified");
    }
    if !AllTrue(isolation, ISOLATION_FIELDS) {
      return Err("container isolation or teardown evidence is incomplete");
    }
    return Ok([CONFIGURATION, MANIFEST_CHECK, BINDING, WORKER, REPORTING, ISOLATION]);
  }

  /** The release metadata that ties the evidence to one commit, image and manifest. */
  predicate MetadataPasses(e: Evidence, commit: string, binding: Doc, identity: Doc, environment: Doc) {
    && Says(identity, "release_commit", commit) && Says(identity, "github_sha", commit)
    && DigitsText(Field(identity, "github_run_id"))
    && e.TextOf(COMMIT_TXT) == Some(commit)
    && e.TextOf(DEEP_DIGEST).Some? && Says(binding, "deep_image", e.TextOf(DEEP_DIGEST).value)
    && e.Has(MODEL_ARTIFACTS) && e.TextOf(MANIFEST_SHA).Some?
    && Hex64(e.TextOf(MANIFEST_SHA).value)
    && e.TextOf(MANIFEST_SHA).value == e.codec.Sha(Content(e.tree, e.root + MODEL_ARTIFACTS))
    && Says(environment, "release_commit", commit)
    && Field(environment, "deep_image") == Field(binding, "deep_image")
    && Hex64Text(Field(environment, "binary_sha256"))
  }

  predicate AllThere(e: Evidence, names: seq<Path>) {
    forall k :: 0 <= k < |names| ==> e.Has(names[k])
  }

  /** Appends the names whose files exist and are not empty. */
  method RequireFiles(e: Evidence, files: seq<Path>, names: seq<Path>) returns (r: Result<seq<Path>>)
    requires Present(e, files)
    ensures r.Ok? <==> AllThere(e, names)
    ensures !r.Crash?
    ensures r.Ok? ==> r.value == files + names && Present(e, r.value)
  {
    var grown := files;
    for i := 0 to |names|
      invariant grown == files + names[..i] && Present(e, grown)
      invariant forall k :: 0 <= k < i ==> e.Has(names[k])
    {
      if !e.Has(names[i]) {
        return Err("release metadata is missing");
      }
      grown := grown + [names[i]];
    }
    assert names[..|names|] == names;
    return Ok(grown);
  }

  predicate RepeatPasses(e: Evidence, i: int)
    requires 0 <= i < 3
  {
    Loaded(e, BENCHMARKS[i]) && BenchmarkPasses(Read(e, BENCHMARKS[i])) && e.Has(BENCHMARK_TEXTS[i])
  }

  /** The repeats before some malformed one pass. */
  predicate RepeatsCrash(e: Evidence) {
    exists i :: 0 <= i < 3 && (forall k :: 0 <= k < i ==> RepeatPasses(e, k))
      && Loaded(e, BENCHMARKS[i]) && BenchmarkCrashes(Read(e, BENCHMARKS[i]))
  }

  /** The three benchmark repeats, each a report and its Markdown rendering. */
  method RequireBenchmarks(e: Evidence, files: seq<Path>) returns (r: Result<seq<Path>>)
    requires Present(e, files)
    ensures r.Ok? <==> forall i :: 0 <= i < 3 ==> RepeatPasses(e, i)
    ensures r.Crash? <==> RepeatsCrash(e)
    ensures r.Ok? ==> r.value == files + PairedNames(3) && Present(e, r.value)
  {
    hide Evidence.Load, IsFile, BenchmarkPasses, BenchmarkCrashes, NonEmptyFile;
    var grown := files;
    for repeat := 0 to 3
      invariant grown == files + PairedNames(repeat) && Present(e, grown)
      invariant forall i :: 0 <= i < repeat ==> RepeatPasses(e, i)
    {
      var benchmark := e.Load(BENCHMARKS[repeat]);
      if benchmark.Ok? && BenchmarkCrashes(benchmark.value) {
        CrashedIsNoPass(benchmark.value);
        assert !RepeatPasses(e, repeat);
        return Crash;
      }
      if benchmark.Err? || !BenchmarkPasses(benchmark.value) || !e.Has(BENCHMARK_TEXTS[repeat]) {
        assert !RepeatPasses(e, repeat);
        NoEarlierCrash(e, repeat);
        return Err("benchmark evidence is incomplete");
      }
      e.HasMeansFile(BENCHMARK_TEXTS[repeat]);
      grown := grown + [BENCHMARKS[repeat], BENCHMARK_TEXTS[repeat]];
    }
    NoLaterCrash(e);
    return Ok(grown);
  }

  lemma CrashedIsNoPass(benchmark: Doc)
    ensures BenchmarkCrashes(benchmark) ==> !BenchmarkPasses(benchmark)
  {
  }

  lemma NoLaterCrash(e: Evidence)
    requires forall i :: 0 <= i < 3 ==> RepeatPasses(e, i)
    ensures !RepeatsCrash(e)
  {
    hide BenchmarkPasses, BenchmarkCrashes;
    forall i | 0 <= i < 3 ensures !BenchmarkCrashes(Read(e, BENCHMARKS[i])) {
      assert RepeatPasses(e, i);
      CrashedIsNoPass(Read(e, BENCHMARKS[i]));
    }
  }

  /** The first repeat that does not pass decides. */
  lemma NoEarlierCrash(e: Evidence, k: int)
    requires 0 <= k < 3 && (forall i :: 0 <= i < k ==> RepeatPasses(e, i)) && !RepeatPasses(e, k)
    requires !(Loaded(e, BENCHMARKS[k]) && BenchmarkCrashes(Read(e, BENCHMARKS[k])))
    ensures !RepeatsCrash(e)
  {
    hide BenchmarkPasses, BenchmarkCrashes;
    forall i | 0 <= i < k ensures !BenchmarkCrashes(Read(e, BENCHMARKS[i])) {
      assert RepeatPasses(e, i);
      CrashedIsNoPass(Read(e, BENCHMARKS[i]));
    }
  }

  function PairedNames(n: nat): seq<Path>
    requires n <= 3
  {
    if n == 0 then [] else PairedNames(n - 1) + [BENCHMARKS[n - 1], BENCHMARK_TEXTS[n - 1]]
  }

  /** Appends whatever else lies in the receipt's evidence directory. */
  method AddEvidenceFiles(e: Evidence, files: seq<Path>) returns (grown: seq<Path>)
    requires Present(e, files) && e.PlainTree()
    ensures files <= grown && Present(e, grown)
    ensures forall i :: |files| <= i < |grown| ==> EVIDENCE_DIR <= grown[i] && Clean(grown[i])
    ensures forall p :: p in e.Names() && EVIDENCE_DIR < p ==> p in grown
  {
    grown := files;
    var todo := set p | p in e.Names() && EVIDENCE_DIR < p;
    ghost var all := todo;
    while todo != {}
      invariant todo <= all && files <= grown && Present(e, grown)
      invariant forall i :: |files| <= i < |grown| ==> EVIDENCE_DIR <= grown[i] && Clean(grown[i])
      invariant forall p :: p in all && p !in todo ==> p in grown
      decreases |todo|
    {
      var relative :| relative in todo;
      e.NameIsFile(relative);
      if relative !in grown {
        grown := grown + [relative];
      }
      todo := todo - {relative};
    }
  }

  /** The identity, cost, failure, redaction and teardown documents. */
  predicate OutcomesPass(e: Evidence, commit: string) {
    && Loaded(e, RUN_IDENTITY) && IsTrue(Read(e, RUN_IDENTITY), "passed")
    && Loaded(e, ENVIRONMENT) && IsTrue(Read(e, ENVIRONMENT), "passed")
    && AllThere(e, METADATA)
    && MetadataPasses(e, commit, Read(e, BINDING), Read(e, RUN_IDENTITY), Read(e, ENVIRONMENT))
    && Loaded(e, COST) && CostPasses(e.codec, Read(e, COST))
    && Loaded(e, FAILURE) && FailurePasses(Read(e, FAILURE))
    && Loaded(e, REDACTION) && RedactionPasses(Read(e, REDACTION))
    && Loaded(e, TEARDOWN) && IsTrue(Read(e, TEARDOWN), "passed") && AllTrue(Read(e, TEARDOWN), TEARDOWN_FIELDS)
  }

  /** Everything before a cost figure that is too large passes. */
  predicate OutcomesCrash(e: Evidence, commit: string) {
    && Loaded(e, RUN_IDENTITY) && IsTrue(Read(e, RUN_IDENTITY), "passed")
    && Loaded(e, ENVIRONMENT) && IsTrue(Read(e, ENVIRONMENT), "passed")
    && Loaded(e, COST) && IsTrue(Read(e, COST), "passed")
    && Loaded(e, FAILURE) && IsTrue(Read(e, FAILURE), "passed")
    && Loaded(e, REDACTION) && IsTrue(Read(e, REDACTION), "passed")
    && Loaded(e, TEARDOWN) && IsTrue(Read(e, TEARDOWN), "passed")
    && AllThere(e, METADATA)
    && MetadataPasses(e, commit, Read(e, BINDING), Read(e, RUN_IDENTITY), Read(e, ENVIRONMENT))
    && CostCrashes(e.codec, Read(e, COST))
  }

  lemma PassedFlagsOf(codec: Codec, cost: Doc, failure: Doc, redaction: Doc)
    ensures CostPasses(codec, cost) ==> IsTrue(cost, "passed")
    ensures FailurePasses(failure) ==> IsTrue(failure, "passed")
    ensures RedactionPasses(redaction) ==> IsTrue(redaction, "passed")
  {
  }

  lemma CrashedOutcomesFail(e: Evidence, commit: string)
    ensures OutcomesCrash(e, commit) ==> !OutcomesPass(e, commit)
  {
    hide Evidence.Load, MetadataPasses, CostPasses, CostCrashes, FailurePasses, RedactionPasses, AllTrue, IsTrue, Loaded, Read, AllThere;
    CrashedCostFails(e.codec, Read(e, COST));
  }

  method CheckOutcomes(e: Evidence, commit: string, files: seq<Path>) returns (r: Result<seq<Path>>)
    requires Present(e, files) && Loaded(e, BINDING)
    ensures r.Ok? <==> OutcomesPass(e, commit)
    ensures r.Crash? <==> OutcomesCrash(e, commit)
    ensures r.Ok? ==> r.value == files + METADATA + OUTCOME_FILES && Present(e, r.value)
  {
    hide Evidence.Load, IsFile, MetadataPasses, CostPasses, CostCrashes, FailurePasses, RedactionPasses, AllTrue, IsTrue, AllThere;
    var binding := e.Load(BINDING).value;
    var identity :- e.Load(RUN_IDENTITY);
    var environment :- e.Load(ENVIRONMENT);
    var cost :- e.Load(COST);
    var failure :- e.Load(FAILURE);
    var redaction :- e.Load(REDACTION);
    var teardown :- e.Load(TEARDOWN);
    PassedFlagsOf(e.codec, cost, failure, redaction);
    if !IsTrue(identity, "passed") || !IsTrue(environment, "passed") || !IsTrue(cost, "passed")
      || !IsTrue(failure, "passed") || !IsTrue(redaction, "passed") || !IsTrue(teardown, "passed") {
      return Err("required evidence did not pass");
    }
    var grown :- RequireFiles(e, files, METADATA);
    if !MetadataPasses(e, commit, binding, identity, environment) {
      return Err("release metadata is invalid");
    }
    CrashedCostFails(e.codec, cost);
    if CostCrashes(e.codec, cost) {
      return Crash;
    }
    if !CostPasses(e.codec, cost) {
      return Err("cost report values are invalid");
    }
    if !FailurePasses(failure) {
      return Err("safe-failure evidence is invalid");
    }
    if !RedactionPasses(redaction) {
      return Err("evidence redaction scan is incomplete");
    }
    if !AllTrue(teardown, TEARDOWN_FIELDS) {
      return Err("explicit teardown evidence is incomplete");
    }
    return Ok(grown + [ENVIRONMENT, COST, FAILURE, REDACTION, TEARDOWN]);
  }

  /** The rollback documents, and in the final phase the independent verifier's. */
  predicate RollbackDocsPass(e: Evidence, commit: string, requireIndependent: bool) {
    && Loaded(e, PREVIOUS_MANIFEST) && IsTrue(Read(e, PREVIOUS_MANIFEST), "passed")
    && Loaded(e, ROLLBACK_WORKER) && IsTrue(Read(e, ROLLBACK_WORKER), "passed")
    && Loaded(e, ROLLBACK_REPORTING) && IsTrue(Read(e, ROLLBACK_REPORTING), "passed")
    && Loaded(e, ROLLBACK_ISOLATION) && IsTrue(Read(e, ROLLBACK_ISOLATION), "passed")
    && Loaded(e, ROLLBACK) && Loaded(e, ROLLBACK_BINDING)
    && RollbackPasses(Read(e, ROLLBACK), Read(e, ROLLBACK_BINDING), Read(e, BINDING), commit)
    && (requireIndependent ==>
          && Loaded(e, VERIFICATION) && Loaded(e, INDEPENDENT_REDACTION)
          && VerificationPasses(Read(e, VERIFICATION)) && RescanPasses(Read(e, INDEPENDENT_REDACTION)))
  }

  method CheckRollback(e: Evidence, commit: string, files: seq<Path>, requireIndependent: bool) returns (r: Result<seq<Path>>)
    requires Present(e, files) && Loaded(e, BINDING)
    ensures r.Ok? <==> RollbackDocsPass(e, commit, requireIndependent)
    ensures !r.Crash?
    ensures r.Ok? ==> Present(e, r.value)
    ensures r.Ok? ==> r.value == files + ROLLBACK_FILES + if requireIndependent then INDEPENDENT_FILES else []
  {
    hide Evidence.Load, IsFile, RollbackPasses, VerificationPasses, RescanPasses, IsTrue;
    var binding := e.Load(BINDING).value;
    var previous :- e.Load(PREVIOUS_MANIFEST);
    var rollbackBinding :- e.Load(ROLLBACK_BINDING);
    var worker :- e.Load(ROLLBACK_WORKER);
    var reporting :- e.Load(ROLLBACK_REPORTING);
    var isolation :- e.Load(ROLLBACK_ISOLATION);
    var rollback :- e.Load(ROLLBACK);
    if !IsTrue(previous, "passed") || !IsTrue(worker, "passed") || !IsTrue(reporting, "passed") || !IsTrue(isolation, "passed") {
      return Err("required evidence did not pass");
    }
    if !RollbackPasses(rollback, rollbackBinding, binding, commit) {
      return Err("rollback is invalid");
    }
    var grown := files + [PREVIOUS_MANIFEST, ROLLBACK_BINDING, ROLLBACK_WORKER, ROLLBACK_REPORTING, ROLLBACK_ISOLATION, ROLLBACK];
    if requireIndependent {
      var verification :- e.Load(VERIFICATION);
      var redaction :- e.Load(INDEPENDENT_REDACTION);
      if !VerificationPasses(verification) || !RescanPasses(redaction) {
        return Err("independent verification is incomplete");
      }
      grown := grown + [VERIFICATION, INDEPENDENT_REDACTION];
    }
    return Ok(grown);
  }

  /** All that Gate 5 demands. */
  predicate Gate5Passes(e: Evidence, commit: string, model: string, requireIndependent: bool) {
    && CommonPasses(e, commit)
    && OutcomesPass(e, commit)
    && Loaded(e, GATEWAY) && GatewayPasses(Read(e, GATEWAY), model)
    && (forall i :: 0 <= i < 3 ==> RepeatPasses(e, i))
    && Loaded(e, RECEIPT) && ReceiptPasses(Read(e, RECEIPT), model)
    && AllThere(e, BUNDLE_FILES)
    && RollbackDocsPass(e, commit, requireIndependent)
  }

  /** Everything before an unreadable cost figure, benchmark or receipt passes. */
  predicate Gate5Crashes(e: Evidence, commit: string, model: string) {
    && CommonPasses(e, commit)
    && if OutcomesCrash(e, commit) then true
       else
         && OutcomesPass(e, commit)
         && Loaded(e, GATEWAY) && GatewayPasses(Read(e, GATEWAY), model)
         && (RepeatsCrash(e) ||
             ((forall i :: 0 <= i < 3 ==> RepeatPasses(e, i)) && Loaded(e, RECEIPT) && ReceiptCrashes(Read(e, RECEIPT))))
  }

  lemma CrashedReceiptFails(receipt: Doc, model: string)
    ensures ReceiptCrashes(receipt) ==> !ReceiptPasses(receipt, model)
  {
    hide AllTrue, Equal, AtLeast;
  }

  lemma CommonLoadsBinding(e: Evidence, commit: string)
    requires CommonPasses(e, commit)
    ensures Loaded(e, BINDING)
  {
  }

  /** Gate 5: every document is checked and every file it relies on is collected. */
  method Gate5(e: Evidence, commit: string, model: string, requireIndependent: bool) returns (r: Result<seq<Path>>)
    requires e.PlainTree()
    ensures r.Ok? <==> Gate5Passes(e, commit, model, requireIndependent)
    ensures r.Crash? <==> Gate5Crashes(e, commit, model)
    ensures r.Ok? ==> Covers(e, r.value)
  {
    hide Evidence.Load, IsFile, CommonPasses, OutcomesPass, GatewayPasses, ReceiptPasses, RepeatPasses, RollbackDocsPass,
      ReceiptCrashes, RepeatsCrash, OutcomesCrash,
      Present, Covers, PairedNames, AllThere;
    var files :- Common(e, commit);
    CommonLoadsBinding(e, commit);
    CrashedOutcomesFail(e, commit);
    files :- CheckOutcomes(e, commit, files);
    var gateway :- e.Load(GATEWAY);
    if !GatewayPasses(gateway, model) {
      return Err("gateway evidence is incomplete");
    }
    PresentAppend(e, files, GATEWAY);
    files :- RequireBenchmarks(e, files + [GATEWAY]);
    NoLaterCrash(e);
    var receipt :- e.Load(RECEIPT);
    CrashedReceiptFails(receipt, model);
    if ReceiptCrashes(receipt) {
      return Crash;
    }
    if !ReceiptPasses(receipt, model) {
      return Err("full signed v4 receipt is missing");
    }
    files :- RequireFiles(e, files, BUNDLE_FILES);
    ghost var fixed := files;
    files := AddEvidenceFiles(e, files);
    ghost var extra := files[|fixed|..];
    assert files == fixed + extra;
    assert forall i :: 0 <= i < |extra| ==> extra[i] == files[|fixed| + i];
    files :- CheckRollback(e, commit, files, requireIndependent);
    FileListCovers(e, files, extra, requireIndependent);
    return Ok(files);
  }

  lemma PresentAppend(e: Evidence, files: seq<Path>, name: Path)
    requires Present(e, files) && IsFile(e.tree, e.root + name)
    ensures Present(e, files + [name])
  {
  }

  /** The names the receiving side insists on. */
  const REQUIRED: seq<Path> := [
    RUN_IDENTITY, MODEL_ARTIFACTS, BINDING, DEEP_DIGEST, WORKER, REPORTING, GATEWAY, RECEIPT,
    EVIDENCE_MANIFEST, EVIDENCE_EVENTS, TEARDOWN, REDACTION, ROLLBACK]

  /** The collected names exist, include the required ones, and leave out the index itself. */
  predicate Covers(e: Evidence, files: seq<Path>) {
    && Present(e, files)
    && (forall f :: f in REQUIRED ==> f in files)
    && INDEX !in files
    && (forall f :: f in files ==> ".." !in f && f != [])
  }

  predicate Stepless(files: seq<Path>) {
    forall i :: 0 <= i < |files| ==> files[i] != [] && files[i] != INDEX && ".." !in files[i]
  }

  lemma FixedNamesStepless()
    ensures Stepless(COMMON_FILES) && Stepless(METADATA) && Stepless(OUTCOME_FILES) && Stepless([GATEWAY])
    ensures Stepless(PairedNames(3)) && Stepless(BUNDLE_FILES) && Stepless(ROLLBACK_FILES) && Stepless(INDEPENDENT_FILES)
  {
  }

  lemma SteplessConcat(a: seq<Path>, b: seq<Path>)
    requires Stepless(a) && Stepless(b)
    ensures Stepless(a + b)
  {
  }

  lemma ExtraStepless(extra: seq<Path>)
    requires forall i :: 0 <= i < |extra| ==> EVIDENCE_DIR <= extra[i] && Clean(extra[i])
    ensures Stepless(extra)
  {
    forall i | 0 <= i < |extra| ensures extra[i] != [] && extra[i] != INDEX && ".." !in extra[i] {
      assert |extra[i]| >= 2;
      assert forall k :: 0 <= k < |extra[i]| ==> CleanName(extra[i][k]);
    }
  }

  /** The list in the order it was collected. */
  function FileList(extra: seq<Path>, independent: bool): seq<Path> {
    COMMON_FILES + METADATA + OUTCOME_FILES + [GATEWAY] + PairedNames(3) + BUNDLE_FILES + extra
      + ROLLBACK_FILES + (if independent then INDEPENDENT_FILES else [])
  }

  lemma FileListStepless(extra: seq<Path>, independent: bool)
    requires Stepless(extra)
    ensures Stepless(FileList(extra, independent))
  {
    FixedNamesStepless();
    hide Stepless;
    SteplessConcat(COMMON_FILES, METADATA);
    SteplessConcat(COMMON_FILES + METADATA, OUTCOME_FILES);
    var a := COMMON_FILES + METADATA + OUTCOME_FILES;
    SteplessConcat(a, [GATEWAY]);
    SteplessConcat(a + [GATEWAY], PairedNames(3));
    SteplessConcat(a + [GATEWAY] + PairedNames(3), BUNDLE_FILES);
    SteplessConcat(a + [GATEWAY] + PairedNames(3) + BUNDLE_FILES, extra);
    var b := a + [GATEWAY] + PairedNames(3) + BUNDLE_FILES + extra;
    SteplessConcat(b, ROLLBACK_FILES);
    SteplessConcat(b + ROLLBACK_FILES, INDEPENDENT_FILES);
    assert b + ROLLBACK_FILES + [] == b + ROLLBACK_FILES;
  }

  lemma RequiredAreListed(extra: seq<Path>, independent: bool)
    ensures forall f :: f in REQUIRED ==> f in FileList(extra, independent)
  {
    assert METADATA[0] == RUN_IDENTITY && METADATA[4] == MODEL_ARTIFACTS && METADATA[5] == DEEP_DIGEST;
    assert COMMON_FILES[2] == BINDING && COMMON_FILES[3] == WORKER && COMMON_FILES[4] == REPORTING;
    assert BUNDLE_FILES[0] == RECEIPT && BUNDLE_FILES[2] == EVIDENCE_MANIFEST && BUNDLE_FILES[3] == EVIDENCE_EVENTS;
    assert OUTCOME_FILES[4] == TEARDOWN && OUTCOME_FILES[3] == REDACTION && ROLLBACK_FILES[5] == ROLLBACK;
  }

  lemma FileListCovers(e: Evidence, files: seq<Path>, extra: seq<Path>, independent: bool)
    requires Present(e, files) && files == FileList(extra, independent)
    requires forall i :: 0 <= i < |extra| ==> EVIDENCE_DIR <= extra[i] && Clean(extra[i])
    ensures Covers(e, files)
  {
    hide Present, FileList;
    ExtraStepless(extra);
    FileListStepless(extra, independent);
    RequiredAreListed(extra, independent);
  }
}

/** What the bundle verifier demands, as one statement: there is a release, and every document
    states it. Documents may hold any further members. */
module ReleaseBundle {
  import opened Wrappers
  import opened Json
  import opened FileTree
  import opened EvidenceGate
  import opened ReceiptBundle
  import opened IdentityTampers

  /** The identities of one release. The serving image and the model id may be any JSON value. */
  datatype Release = Release(deep: string, commit: string, image: Json, model: Json,
    base: string, testGen: string, reasoning: string, reporting: string)
  {
    predicate WellFormed() {
      Pinned(deep) && Hex64(base) && Hex64(testGen) && Hex64(reasoning) && Hex64(reporting)
    }

    function AdapterDigests(): Doc {
      map["test-gen" := Str(testGen), "reasoning" := Str(reasoning), "reporting" := Str(reporting)]
    }

    function Digests(): Doc { AdapterDigests()["base" := Str(base)] }
  }

  // ----------------------------------------------------------- document by document

  predicate StatesManifest(r: Release, manifest: Doc) {
    && HasSections(manifest)
    && Equal(Field(manifest, "llama_cpp_image"), r.image)
    && Equal(Field(Part(manifest, "model"), "id"), r.model)
    && DigestMap(manifest) == r.Digests()
  }

  predicate StatesBinding(r: Release, binding: Doc) {
    && Says(binding, "deep_image", r.deep) && Says(binding, "release_commit", r.commit)
    && Equal(Field(binding, "base_image"), r.image) && Equal(Field(binding, "model_id"), r.model)
    && Field(binding, "artifact_sha256") == Obj(r.Digests())
    && Hex64Text(Field(binding, "binary_sha256"))
  }

  predicate StatesIdentity(r: Release, identity: Doc) {
    && Equal(Field(identity, "model"), r.model) && Equal(Field(identity, "server_image"), r.image)
    && Says(identity, "base_model_sha256", r.base)
    && Field(identity, "adapter_sha256") == Obj(r.AdapterDigests())
  }

  /** The worker ran on loopback, with the source, without an error. */
  predicate StatesWorker(r: Release, worker: Doc) {
    var run := Part(worker, "provenance");
    && StatesIdentity(r, run)
    && IsTrue(run, "source_code_included") && Says(run, "endpoint_scope", "loopback") && !Truthy(Field(run, "error"))
  }

  /** The reporting run was on loopback, without the source. */
  predicate StatesReporting(r: Release, reporting: Doc) {
    && StatesIdentity(r, Part(reporting, "identity"))
    && Says(reporting, "endpoint_scope", "loopback") && IsFalse(reporting, "source_code_included")
  }

  predicate StatesGateway(r: Release, gateway: Doc) {
    OrEmpty(Field(gateway, "valid_request")).Accepted? && Equal(Field(Part(gateway, "valid_request"), "model"), r.model)
  }

  /** The signed receipt names the model, went through the gateway without source code, counts
      a request, and claims a complete teardown. */
  predicate StatesReceipt(r: Release, receipt: Doc) {
    var run := Provenance(receipt);
    && Equal(Field(run, "model"), r.model)
    && Says(run, "mode", "gateway") && IsFalse(run, "source_code_included")
    && !Truthy(Field(run, "error")) && AtLeast(FieldOr(run, "requests", Int(0)), 1.0)
    && AllTrue(Part(receipt, "teardown_proof"), SANDBOX_TEARDOWN)
  }

  predicate States(r: Release, b: Bundle) {
    && b.f.deep == r.deep
    && StatesManifest(r, b.f.manifest) && StatesBinding(r, b.binding)
    && StatesWorker(r, b.f.worker) && StatesReporting(r, b.f.reporting)
    && StatesGateway(r, b.f.gateway) && StatesReceipt(r, b.receipt)
  }

  // ------------------------------------------------------------------- sufficiency

  lemma DigestNames(r: Release)
    ensures r.Digests() - {"base"} == r.AdapterDigests() && Field(r.Digests(), "base") == Str(r.base)
    ensures r.WellFormed() ==> forall name :: name in r.Digests() ==> Hex64Text(r.Digests()[name])
  {
    hide Hex64;
  }

  lemma DigestsAreExpected(r: Release, manifest: Doc)
    requires r.WellFormed() && StatesManifest(r, manifest)
    ensures ExpectedArtifacts(manifest) == Accepted(r.Digests())
    ensures OrEmpty(Field(manifest, "model")) == Accepted(Part(manifest, "model"))
    ensures r.Digests() - {"base"} == r.AdapterDigests() && Field(r.Digests(), "base") == Str(r.base)
  {
    hide HasSections, DigestMap, Hex64, Hex64Text, ExpectedArtifacts, Release.Digests, Release.AdapterDigests;
    DigestNames(r);
    ExpectedAreDigests(manifest);
    assert OrEmpty(Field(manifest, "model")).Accepted? by { SectionsRead(manifest); }
    PartOrEmpty(manifest, "model");
  }

  lemma IdentityIffStated(r: Release, manifest: Doc, identity: Doc)
    requires r.WellFormed() && StatesManifest(r, manifest)
    ensures CheckIdentity(identity, manifest, r.Digests()).Accepted? <==> StatesIdentity(r, identity)
  {
    DigestsAreExpected(r, manifest);
    EqualTransfers(Field(manifest, "llama_cpp_image"), r.image, Field(identity, "server_image"));
    EqualTransfers(Field(Part(manifest, "model"), "id"), r.model, Field(identity, "model"));
    EqualText(Field(identity, "base_model_sha256"), r.base);
    hide ExpectedArtifacts, HasSections, DigestMap, Release.Digests, Release.AdapterDigests, OrEmpty, Equal, Field, Part, Hex64, Pinned;
  }

  lemma BindingIffStated(r: Release, manifest: Doc, binding: Doc)
    requires r.WellFormed() && StatesManifest(r, manifest)
    ensures CheckBinding(binding, r.deep, r.commit, manifest).Accepted? <==> StatesBinding(r, binding)
    ensures StatesBinding(r, binding) ==> CheckBinding(binding, r.deep, r.commit, manifest) == Accepted(r.Digests())
  {
    DigestsAreExpected(r, manifest);
    EqualTransfers(Field(manifest, "llama_cpp_image"), r.image, Field(binding, "base_image"));
    EqualTransfers(Field(Part(manifest, "model"), "id"), r.model, Field(binding, "model_id"));
    hide ExpectedArtifacts, HasSections, DigestMap, Release.Digests, Release.AdapterDigests, OrEmpty, Equal, Field, Part, Hex64, Pinned;
  }

  lemma WorkerIffStated(r: Release, manifest: Doc, worker: Doc)
    requires r.WellFormed() && StatesManifest(r, manifest)
    ensures CheckWorker(worker, manifest, r.Digests()).Accepted? <==> StatesWorker(r, worker)
  {
    PartOrEmpty(worker, "provenance");
    NotObjectStatesNothing(r, worker, "provenance");
    IdentityIffStated(r, manifest, Part(worker, "provenance"));
    hide CheckIdentity, StatesIdentity, StatesManifest, Release.WellFormed, Release.Digests, OrEmpty, Field, Part, Says, IsTrue, Truthy;
  }

  lemma NotObjectStatesNothing(r: Release, d: Doc, key: string)
    ensures StatesIdentity(r, Part(d, key)) ==> OrEmpty(Field(d, key)).Accepted?
  {
  }

  lemma ReportingIffStated(r: Release, manifest: Doc, reporting: Doc)
    requires r.WellFormed() && StatesManifest(r, manifest)
    ensures CheckReporting(reporting, manifest, r.Digests()).Accepted? <==> StatesReporting(r, reporting)
  {
    PartOrEmpty(reporting, "identity");
    NotObjectStatesNothing(r, reporting, "identity");
    IdentityIffStated(r, manifest, Part(reporting, "identity"));
    hide CheckIdentity, StatesIdentity, StatesManifest, Release.WellFormed, Release.Digests, OrEmpty, Field, Part, Says, IsFalse;
  }

  lemma ProvenanceRead(receipt: Doc)
    ensures Says(Provenance(receipt), "mode", "gateway") ==>
      && OrEmpty(Field(receipt, "agent_activity")) == Accepted(Part(receipt, "agent_activity"))
      && OrEmpty(Field(Part(receipt, "agent_activity"), "inference_provenance")) == Accepted(Provenance(receipt))
    ensures AllTrue(Part(receipt, "teardown_proof"), SANDBOX_TEARDOWN) ==>
      OrEmpty(Field(receipt, "teardown_proof")) == Accepted(Part(receipt, "teardown_proof"))
  {
    assert "processes_terminated" in SANDBOX_TEARDOWN;
    if AllTrue(Part(receipt, "teardown_proof"), SANDBOX_TEARDOWN) {
      assert IsTrue(Part(receipt, "teardown_proof"), "processes_terminated");
    }
  }

  lemma ExchangeIffStated(r: Release, manifest: Doc, gateway: Doc, receipt: Doc)
    requires r.WellFormed() && StatesManifest(r, manifest)
    ensures CheckReceipt(gateway, receipt, manifest).Accepted? && CheckTeardown(receipt).Accepted?
      <==> StatesGateway(r, gateway) && StatesReceipt(r, receipt)
  {
    DigestsAreExpected(r, manifest);
    PartOrEmpty(gateway, "valid_request");
    PartOrEmpty(receipt, "agent_activity");
    PartOrEmpty(Part(receipt, "agent_activity"), "inference_provenance");
    PartOrEmpty(receipt, "teardown_proof");
    ProvenanceRead(receipt);
    var id := Field(Part(manifest, "model"), "id");
    EqualTransfers(id, r.model, Field(Part(gateway, "valid_request"), "model"));
    EqualTransfers(id, r.model, Field(Provenance(receipt), "model"));
    hide ExpectedArtifacts, HasSections, DigestMap, Release.WellFormed, Release.Digests, OrEmpty, Equal, Field, FieldOr, Part;
    hide Says, IsFalse, AllTrue, AtLeast, Truthy;
  }

  /** The release a manifest, a digest file and a commit fix. */
  function ReleaseOf(manifest: Doc, deep: string, commit: string): Release {
    Release(deep, commit, Field(manifest, "llama_cpp_image"), Field(Part(manifest, "model"), "id"),
      Text(ManifestSha(manifest, "base")), Text(ManifestSha(manifest, "test-gen")),
      Text(ManifestSha(manifest, "reasoning")), Text(ManifestSha(manifest, "reporting")))
  }

  function Text(j: Json): string { if j.Str? then j.s else "" }

  lemma TextOfDigest(j: Json)
    requires Hex64Text(j)
    ensures j == Str(Text(j)) && Hex64(Text(j))
  {
  }

  lemma DigestsOf(manifest: Doc, deep: string, commit: string)
    requires forall name :: name in ADAPTERS + {"base"} ==> Hex64Text(ManifestSha(manifest, name))
    ensures var r := ReleaseOf(manifest, deep, commit);
      && DigestMap(manifest) == r.Digests()
      && Hex64(r.base) && Hex64(r.testGen) && Hex64(r.reasoning) && Hex64(r.reporting)
  {
    hide ManifestSha, Hex64, Hex64Text, Text;
    TextOfDigest(ManifestSha(manifest, "base"));
    TextOfDigest(ManifestSha(manifest, "test-gen"));
    TextOfDigest(ManifestSha(manifest, "reasoning"));
    TextOfDigest(ManifestSha(manifest, "reporting"));
  }

  lemma ManifestStatesItsRelease(manifest: Doc, deep: string, commit: string)
    requires ExpectedArtifacts(manifest).Accepted? && Pinned(deep)
    ensures ReleaseOf(manifest, deep, commit).WellFormed() && StatesManifest(ReleaseOf(manifest, deep, commit), manifest)
  {
    AcceptedHasSections(manifest);
    ExpectedAreDigests(manifest);
    EqualReflexive();
    hide ExpectedArtifacts, HasSections, ManifestSha, Hex64Text, Hex64, Pinned, Equal, Field, Part, Release.Digests;
    forall name | name in ADAPTERS + {"base"} ensures Hex64Text(ManifestSha(manifest, name)) {
      assert name in DigestMap(manifest);
    }
    DigestsOf(manifest, deep, commit);
    hide DigestMap;
  }

  lemma DecisionParts(b: Bundle, commit: string, expected: Doc)
    requires CheckBinding(b.binding, b.f.deep, commit, b.f.manifest).Accepted? ==>
      CheckBinding(b.binding, b.f.deep, commit, b.f.manifest) == Accepted(expected)
    ensures b.Decision(commit).Accepted? <==>
      && CheckBinding(b.binding, b.f.deep, commit, b.f.manifest).Accepted?
      && CheckWorker(b.f.worker, b.f.manifest, expected).Accepted?
      && CheckReporting(b.f.reporting, b.f.manifest, expected).Accepted?
      && CheckReceipt(b.f.gateway, b.receipt, b.f.manifest).Accepted? && CheckTeardown(b.receipt).Accepted?
  {
    hide CheckBinding, CheckWorker, CheckReporting, CheckReceipt, CheckTeardown;
  }

  lemma DecisionIffStated(b: Bundle, r: Release)
    requires r.WellFormed() && b.f.deep == r.deep && StatesManifest(r, b.f.manifest)
    ensures b.Decision(r.commit).Accepted? <==> States(r, b)
  {
    hide Bundle.Decision, CheckBinding, CheckWorker, CheckReporting, CheckReceipt, CheckTeardown, Release.Digests, Release.WellFormed;
    hide StatesManifest, StatesBinding, StatesWorker, StatesReporting, StatesGateway, StatesReceipt;
    BindingIffStated(r, b.f.manifest, b.binding);
    DecisionParts(b, r.commit, r.Digests());
    WorkerIffStated(r, b.f.manifest, b.f.worker);
    ReportingIffStated(r, b.f.manifest, b.f.reporting);
    ExchangeIffStated(r, b.f.manifest, b.f.gateway, b.receipt);
  }

  /** MAIN RESULT. A bundle is accepted exactly when there is one release that the manifest, the
      digest file, the binding, both runs, the gateway and the signed receipt all state. */
  lemma AcceptedIffOneRelease(b: Bundle, commit: string)
    ensures b.Decision(commit).Accepted? <==> exists r: Release :: r.commit == commit && r.WellFormed() && States(r, b)
  {
    hide StatesBinding, StatesWorker, StatesReporting, StatesGateway, StatesReceipt, StatesManifest, Release.WellFormed;
    if b.Decision(commit).Accepted? {
      AcceptedParts(b, commit);
      assert Pinned(b.f.deep);
      hide ExpectedArtifacts, Bundle.Decision, CheckBinding, ReleaseOf;
      ManifestStatesItsRelease(b.f.manifest, b.f.deep, commit);
      assert ReleaseOf(b.f.manifest, b.f.deep, commit).commit == commit && ReleaseOf(b.f.manifest, b.f.deep, commit).deep == b.f.deep by {
        ReleaseOfNames(b.f.manifest, b.f.deep, commit);
      }
      DecisionIffStated(b, ReleaseOf(b.f.manifest, b.f.deep, commit));
    }
    forall r: Release | r.commit == commit && r.WellFormed() && States(r, b) ensures b.Decision(commit).Accepted? {
      DecisionIffStated(b, r);
    }
  }

  lemma ReleaseOfNames(manifest: Doc, deep: string, commit: string)
    ensures ReleaseOf(manifest, deep, commit).deep == deep && ReleaseOf(manifest, deep, commit).commit == commit
  {
  }

  /** The release is fixed by the bundle, up to the way a number is written. */
  lemma StatedReleaseIsUnique(b: Bundle, r: Release, q: Release)
    requires States(r, b) && States(q, b)
    ensures r.deep == q.deep && r.commit == q.commit && r.Digests() == q.Digests()
    ensures Equal(r.image, q.image) && Equal(r.model, q.model)
  {
    EqualTransfers(Field(b.binding, "base_image"), r.image, q.image);
    EqualTransfers(Field(b.binding, "model_id"), r.model, q.model);
    hide StatesManifest, StatesWorker, StatesReporting, StatesGateway, StatesReceipt;
  }

  /** Stored evidence whose documents state one release, and say that they passed, is valid. */
  lemma ReleaseBundleAccepted(e: Evidence, r: Release, b: Bundle, receiptDocument: Doc)
    requires r.WellFormed() && CommitId(r.commit)
    requires Holds(e, b, receiptDocument) && PassedFlags(b) && States(r, b)
    ensures Valid(e, r.commit, None, None)
  {
    hide Holds, PassedFlags, States, CommitId, Release.WellFormed, Bundle.Decision, ValidateAcceptance;
    AcceptedIffOneRelease(b, r.commit);
    StoredDecision(e, b, receiptDocument, r.commit);
  }
}

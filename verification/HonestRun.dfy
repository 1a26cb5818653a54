/** A release run: the manifest of its serving directory, what was measured, and for every party
    that is not part of this model the smallest document that states the run's release. */
module HonestRun {
  import opened Wrappers
  import opened Json
  import opened FileTree
  import opened EvidenceGate
  import opened ReceiptBundle
  import opened IdentityTampers
  import opened ReleaseBundle
  import opened ProducedRun
  import Text
  import M = ArtifactManifest

  // ------------------------------------------------------- the generated manifest

  /** The release a generated manifest belongs to. */
  function ReleaseFor(s: M.Serving, a: M.Arguments, deep: string, commit: string): Release
    requires M.FilesPresent(s)
  {
    Release(deep, commit, Str(a.image), Str(a.modelId), M.Sha(s, M.BASE_PATH),
      M.Sha(s, M.AdapterPath("test-gen")), M.Sha(s, M.AdapterPath("reasoning")), M.Sha(s, M.AdapterPath("reporting")))
  }

  lemma GeneratedSections(s: M.Serving, a: M.Arguments)
    requires M.FilesPresent(s)
    ensures var d := M.Generated(s, a);
      && Part(d, "model") == M.ModelDoc(a, M.Sha(s, M.BASE_PATH)) && Field(d, "model").Obj?
      && Field(d, "adapters").Obj? && Part(d, "adapters").Keys == ADAPTERS
      && Field(d, "llama_cpp_image") == Str(a.image)
      && Part(d, "adapters") == M.AdapterDocs(s, a, M.MAKE_ORDER)
  {
    M.AdapterDocsKeys(s, a);
    hide M.AdapterDocs, M.ModelDoc, M.FilesPresent, M.Sha;
  }

  lemma GeneratedDigests(s: M.Serving, a: M.Arguments, name: string)
    requires M.FilesPresent(s) && name in ADAPTERS
    ensures var entries := M.AdapterDocs(s, a, M.MAKE_ORDER);
      && name in entries && entries[name].Obj? && Field(entries[name].fields, "sha256") == Str(M.Sha(s, M.AdapterPath(name)))
  {
    M.AdapterDocsKeys(s, a);
    hide M.AdapterPath, M.Sha, M.FilesPresent;
  }

  lemma DigestsEqual(manifest: Doc, r: Release)
    requires ManifestSha(manifest, "base") == Str(r.base) && ManifestSha(manifest, "test-gen") == Str(r.testGen)
    requires ManifestSha(manifest, "reasoning") == Str(r.reasoning) && ManifestSha(manifest, "reporting") == Str(r.reporting)
    ensures DigestMap(manifest) == r.Digests()
  {
    hide ManifestSha;
  }

  lemma GeneratedSha(s: M.Serving, a: M.Arguments, name: string)
    requires M.FilesPresent(s) && name in ADAPTERS
    ensures ManifestSha(M.Generated(s, a), name) == Str(M.Sha(s, M.AdapterPath(name)))
    ensures ManifestSha(M.Generated(s, a), "base") == Str(M.Sha(s, M.BASE_PATH))
  {
    GeneratedSections(s, a);
    GeneratedDigests(s, a, name);
    hide M.Generated, M.AdapterDocs, M.FilesPresent, M.AdapterPath, M.Sha;
    assert "base" !in ADAPTERS;
  }

  lemma GeneratedHasSections(s: M.Serving, a: M.Arguments)
    requires M.FilesPresent(s)
    ensures HasSections(M.Generated(s, a))
  {
    GeneratedSections(s, a);
    GeneratedDigests(s, a, "test-gen");
    GeneratedDigests(s, a, "reasoning");
    GeneratedDigests(s, a, "reporting");
    hide M.Generated, M.AdapterDocs, M.FilesPresent, M.AdapterPath, M.Sha;
  }

  /** The manifest that the generator writes states the release of its serving directory. */
  lemma GeneratedManifestStates(s: M.Serving, a: M.Arguments, deep: string, commit: string)
    requires M.FilesPresent(s)
    ensures StatesManifest(ReleaseFor(s, a, deep, commit), M.Generated(s, a))
  {
    GeneratedHasSections(s, a);
    GeneratedSections(s, a);
    GeneratedSha(s, a, "test-gen");
    GeneratedSha(s, a, "reasoning");
    GeneratedSha(s, a, "reporting");
    DigestsEqual(M.Generated(s, a), ReleaseFor(s, a, deep, commit));
    hide M.Generated, HasSections, DigestMap, ManifestSha, Release.Digests, M.AdapterDocs, M.FilesPresent, M.AdapterPath, M.Sha;
  }

  // -------------------------------------------------- documents both verifiers read

  /** What a run starts from: its manifest and release, the built image's binary, the release it
      can roll back to, and its measurements. */
  datatype Run = Run(manifest: Doc, release: Release, image: string, model: string, binary: string,
    oldDeep: string, oldCommit: string, inputs: Inputs)
  {
    ghost predicate WellFormed() {
      && release.WellFormed() && CommitId(release.commit) && Text.Stripped(release.deep)
      && StatesManifest(release, manifest) && Exact(Obj(manifest))
      && release.image == Str(image) && release.model == Str(model)
      && Hex64(binary) && Pinned(oldDeep) && CommitId(oldCommit)
      && oldDeep != release.deep && oldCommit != release.commit
      && Hex64(inputs.endpointSha) && Exact(Float(inputs.hourly))
    }

    function Identity(): Doc {
      map["model" := Str(model), "server_image" := Str(image), "base_model_sha256" := Str(release.base),
          "adapter_sha256" := Obj(release.AdapterDigests()), "source_code_included" := Bool(true),
          "endpoint_scope" := Str("loopback")]
    }

    function Binding(): Doc {
      map["passed" := Bool(true), "deep_image" := Str(release.deep), "release_commit" := Str(release.commit),
          "base_image" := Str(image), "model_id" := Str(model),
          "artifact_sha256" := Obj(release.Digests()), "binary_sha256" := Str(binary)]
    }

    function Worker(): Doc {
      map["passed" := Bool(true), "reporting_passed" := Bool(true), "teardown_verified" := Bool(true),
          "provenance" := Obj(Identity())]
    }

    function Reporting(): Doc {
      map["passed" := Bool(true), "teardown_verified" := Bool(true), "endpoint_scope" := Str("loopback"),
          "source_code_included" := Bool(false), "identity" := Obj(Identity())]
    }

    function ValidRequest(): Doc {
      map["passed" := Bool(true), "model" := Str(model), "source_code_included" := Bool(false)]
    }

    function Gateway(): Doc {
      map["passed" := Bool(true),
          "authorization_rejection" := Obj(map["passed" := Bool(true)]),
          "wrong_key_rejection" := Obj(map["passed" := Bool(true)]),
          "valid_request" := Obj(ValidRequest()),
          "redaction" := Obj(map["passed" := Bool(true), "redactions_applied" := Int(1)]),
          "source_rejection" := Obj(map["passed" := Bool(true), "cases" := Int(4)])]
    }

    function Inference(): Doc {
      map["mode" := Str("gateway"), "model" := Str(model), "source_code_included" := Bool(false),
          "requests" := Int(1), "request_ids" := Arr([Str("request-1")])]
    }

    function Payload(): Doc {
      map["receipt_version" := Int(4), "signature" := Str("signature"),
          "teardown_proof" := Obj(AllSet(SANDBOX_TEARDOWN)),
          "canary_check" := Obj(map["request_succeeded" := Bool(false)]),
          "agent_activity" := Obj(map["inference_provenance" := Obj(Inference())])]
    }

    function Receipt(): Doc { map["receipt" := Obj(Payload())] }

    function Documents(): Bundle {
      Bundle(Fixed(manifest, Worker(), Reporting(), Gateway(), release.deep), Binding(), Payload())
    }
  }

  /** Every named member is true. */
  function AllSet(keys: seq<string>): Doc { map key | key in keys :: Bool(true) }

  /** Every run of the manifest generator starts a run. */
  lemma GeneratedRunIsWellFormed(s: M.Serving, a: M.Arguments, deep: string, commit: string, binary: string,
      oldDeep: string, oldCommit: string, inputs: Inputs)
    requires s.codec.Lawful() && M.FilesPresent(s)
    requires Pinned(deep) && Text.Stripped(deep) && CommitId(commit) && Hex64(binary)
    requires Pinned(oldDeep) && CommitId(oldCommit) && oldDeep != deep && oldCommit != commit
    requires Hex64(inputs.endpointSha) && Exact(Float(inputs.hourly))
    ensures Run(M.Generated(s, a), ReleaseFor(s, a, deep, commit), a.image, a.modelId, binary, oldDeep, oldCommit, inputs).WellFormed()
  {
    GeneratedManifestStates(s, a, deep, commit);
    M.GeneratedIsExact(s, a);
    assert Hex64(M.Sha(s, M.BASE_PATH)) && forall name :: name in ADAPTERS ==> Hex64(M.Sha(s, M.AdapterPath(name)));
    hide M.Generated, StatesManifest, Exact, Hex64, Pinned, CommitId, Text.Stripped, M.Sha, M.AdapterPath, M.FilesPresent;
  }

  lemma BindingFits(run: Run)
    requires run.WellFormed()
    ensures StatesBinding(run.release, run.Binding()) && BindingPasses(run.Binding(), run.release.commit)
  {
    hide Hex64, Pinned, CommitId, Release.Digests, StatesManifest, Exact, Text.Stripped;
  }

  lemma IdentityFits(run: Run)
    requires run.WellFormed()
    ensures StatesIdentity(run.release, run.Identity())
    ensures IsTrue(run.Identity(), "source_code_included") && Says(run.Identity(), "endpoint_scope", "loopback")
    ensures Field(run.Identity(), "error") == Null
  {
    hide Hex64, Pinned, CommitId, Release.AdapterDigests, StatesManifest, Exact, Text.Stripped;
  }

  lemma RunsFit(run: Run)
    requires run.WellFormed()
    ensures StatesWorker(run.release, run.Worker()) && WorkerPasses(run.Worker())
    ensures StatesReporting(run.release, run.Reporting())
    ensures IsTrue(run.Reporting(), "passed") && IsTrue(run.Reporting(), "teardown_verified")
  {
    IdentityFits(run);
    hide StatesIdentity, Run.Identity, Run.WellFormed;
  }

  lemma RequestFits(run: Run)
    ensures var d := run.ValidRequest();
      IsTrue(d, "passed") && Says(d, "model", run.model) && IsFalse(d, "source_code_included") && d != map[]
  {
  }

  lemma GatewayFits(run: Run)
    requires run.WellFormed()
    ensures StatesGateway(run.release, run.Gateway()) && GatewayPasses(run.Gateway(), run.model)
  {
    RequestFits(run);
    GatewayMembers(run);
    assert run.release.model == Str(run.model);
    hide Run.Gateway, Run.ValidRequest, Run.WellFormed, Field;
  }

  lemma GatewayMembers(run: Run)
    ensures var g := run.Gateway();
      && IsTrue(g, "passed") && PartPasses(g, "authorization_rejection") && PartPasses(g, "wrong_key_rejection")
      && PartPasses(g, "redaction") && PartPasses(g, "source_rejection")
      && Field(g, "valid_request") == Obj(run.ValidRequest())
      && FieldOr(Field(g, "redaction").fields, "redactions_applied", Int(0)) == Int(1)
      && FieldOr(Field(g, "source_rejection").fields, "cases", Int(0)) == Int(4)
  {
    hide Run.ValidRequest;
  }

  lemma InferenceFits(run: Run)
    ensures var d := run.Inference();
      && Says(d, "model", run.model) && Says(d, "mode", "gateway") && IsFalse(d, "source_code_included")
      && Field(d, "error") == Null && FieldOr(d, "requests", Int(0)) == Int(1) && Truthy(Field(d, "request_ids"))
  {
  }

  lemma PayloadMembers(run: Run)
    ensures var d := run.Payload();
      && Field(d, "receipt_version") == Int(4) && Field(d, "signature") == Str("signature")
      && Field(d, "teardown_proof") == Obj(AllSet(SANDBOX_TEARDOWN))
      && Field(d, "canary_check") == Obj(map["request_succeeded" := Bool(false)])
      && Field(d, "agent_activity") == Obj(map["inference_provenance" := Obj(run.Inference())])
    ensures Field(map["request_succeeded" := Bool(false)], "request_succeeded") == Bool(false)
    ensures Field(map["inference_provenance" := Obj(run.Inference())], "inference_provenance") == Obj(run.Inference())
    ensures AllTrue(AllSet(SANDBOX_TEARDOWN), SANDBOX_TEARDOWN)
  {
    hide Run.Inference;
  }

  lemma PayloadFits(run: Run)
    requires run.WellFormed()
    ensures StatesReceipt(run.release, run.Payload())
  {
    assert run.release.model == Str(run.model);
    hide Run.Inference, Run.Payload, Run.WellFormed, AllSet, AllTrue;
    InferenceFits(run);
    PayloadMembers(run);
  }

  lemma PayloadIsSigned(run: Run)
    ensures Signed(run.Receipt()) == Accepted(run.Payload())
  {
    assert FieldOr(run.Receipt(), "receipt", Obj(run.Receipt())) == Obj(run.Payload());
    PayloadMembers(run);
    hide Run.Inference, Run.Payload, Run.Receipt, AllSet, AllTrue;
  }

  lemma ReceiptFits(run: Run)
    requires run.WellFormed()
    ensures StatesReceipt(run.release, run.Payload()) && ReceiptPasses(run.Receipt(), run.model)
    ensures Signed(run.Receipt()) == Accepted(run.Payload())
  {
    assert FieldOr(run.Receipt(), "receipt", Obj(run.Receipt())) == Obj(run.Payload());
    hide Run.Inference, Run.Payload, Run.Receipt, Run.WellFormed, StatesReceipt, Signed, AllSet, AllTrue;
    InferenceFits(run);
    PayloadMembers(run);
    PayloadFits(run);
    PayloadIsSigned(run);
  }

  /** The two verifiers are compatible: these documents state the run's release to the bundle
      verifier and pass the producer gate's own checks. */
  lemma DocumentsFitBoth(run: Run)
    requires run.WellFormed()
    ensures States(run.release, run.Documents()) && PassedFlags(run.Documents())
    ensures Signed(run.Receipt()) == Accepted(run.Documents().receipt)
    ensures BindingPasses(run.Binding(), run.release.commit) && WorkerPasses(run.Worker())
    ensures IsTrue(run.Reporting(), "passed") && IsTrue(run.Reporting(), "teardown_verified")
    ensures GatewayPasses(run.Gateway(), run.model) && ReceiptPasses(run.Receipt(), run.model)
  {
    BindingFits(run);
    RunsFit(run);
    GatewayFits(run);
    ReceiptFits(run);
    hide StatesManifest, StatesBinding, StatesWorker, StatesReporting, StatesGateway, StatesReceipt, ReceiptPasses;
    hide Run.Binding, Run.Worker, Run.Reporting, Run.Gateway, Run.Receipt, Run.Payload, Release.WellFormed, Exact;
  }

  // --------------------------------------------------------- the other documents

  const PASSED: Doc := map["passed" := Bool(true)]
  const MANIFEST_VERDICT: Doc := map["passed" := Bool(true), "artifact_count" := Int(4)]

  const REDACTION_SCAN: Doc := map["passed" := Bool(true), "staging_secrets_present" := Bool(false), "files_scanned_count" := Int(34)]

  function RunIdentityDoc(run: Run): Doc {
    map["passed" := Bool(true), "release_commit" := Str(run.release.commit), "github_sha" := Str(run.release.commit),
        "github_run_id" := Str("1")]
  }

  function EnvironmentDoc(run: Run): Doc {
    map["passed" := Bool(true), "release_commit" := Str(run.release.commit), "deep_image" := Str(run.release.deep),
        "binary_sha256" := Str(run.binary)]
  }

  function RollbackBindingDoc(run: Run): Doc {
    map["passed" := Bool(true), "deep_image" := Str(run.oldDeep), "release_commit" := Str(run.oldCommit)]
  }

  function RollbackDoc(run: Run): Doc {
    map["passed" := Bool(true), "restored_image" := Str(run.oldDeep), "restored_commit" := Str(run.oldCommit),
        "manifest_verified" := Bool(true), "smoke_passed" := Bool(true)]
  }

  function TeardownDoc(): Doc { AllSet(["passed"] + TEARDOWN_FIELDS) }

  function IsolationDoc(): Doc { AllSet(["passed"] + ISOLATION_FIELDS) }

  lemma CommonDocsPass()
    ensures IsTrue(PASSED, "passed") && IsTrue(MANIFEST_VERDICT, "passed")
    ensures Equal(Field(MANIFEST_VERDICT, "artifact_count"), Int(4))
    ensures IsTrue(IsolationDoc(), "passed") && AllTrue(IsolationDoc(), ISOLATION_FIELDS)
    ensures IsTrue(TeardownDoc(), "passed") && AllTrue(TeardownDoc(), TEARDOWN_FIELDS)
  {
    hide AllTrue, AllSet;
    AllSetPasses(ISOLATION_FIELDS);
    AllSetPasses(TEARDOWN_FIELDS);
  }

  lemma AllSetPasses(keys: seq<string>)
    ensures IsTrue(AllSet(["passed"] + keys), "passed") && AllTrue(AllSet(["passed"] + keys), keys)
  {
    assert (["passed"] + keys)[0] == "passed";
  }

  lemma ScanPassesGate()
    ensures RedactionPasses(REDACTION_SCAN)
  {
  }

  lemma RollbackPassesGate(run: Run)
    requires run.WellFormed()
    ensures RollbackPasses(RollbackDoc(run), RollbackBindingDoc(run), run.Binding(), run.release.commit)
  {
    BindingFits(run);
    hide Hex64, Pinned, CommitId, Run.Binding, Release.WellFormed, StatesManifest, Exact, Text.Stripped;
  }
}

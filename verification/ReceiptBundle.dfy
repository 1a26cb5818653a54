/** The independent verifier of the receipt bundle: the acceptance identities, and the
    tamper matrix that shows they are really compared. */
module ReceiptBundle {
  import opened Wrappers
  import opened Json
  import opened FileTree
  import opened EvidenceGate

  /** A check of the bundle is passed, rejected, or ends in an unexpected attribute error. */
  datatype Verdict<T> = Accepted(value: T) | Rejected | Crashed
  {
    predicate IsFailure() { !Accepted? }
    function PropagateFailure<U>(): Verdict<U>
      requires IsFailure()
    {
      if Rejected? then Rejected else Crashed
    }
    function Extract(): T
      requires Accepted?
    {
      value
    }
  }

  function Check(b: bool): Verdict<()> {
    if b then Accepted(()) else Rejected
  }

  function Needs<T>(o: Option<T>): Verdict<T> {
    if o.Some? then Accepted(o.value) else Rejected
  }

  /** `(value or {})`, on which the next `.get` fails when it is not an object. */
  function OrEmpty(j: Json): Verdict<Doc> {
    if !Truthy(j) then Accepted(map[]) else if j.Obj? then Accepted(j.fields) else Crashed
  }

  const ADAPTERS: set<string> := {"test-gen", "reasoning", "reporting"}

  /** The manifest's digests: the base model under "base", each adapter under its name. */
  function ExpectedArtifacts(manifest: Doc): Verdict<Doc> {
    var model :- OrEmpty(Field(manifest, "model"));
    var adapters :- if Truthy(Field(manifest, "adapters")) && !Field(manifest, "adapters").Obj? then Rejected
                    else OrEmpty(Field(manifest, "adapters"));
    var _ :- Check(adapters.Keys == ADAPTERS);
    var _ :- if forall name :: name in ADAPTERS ==> adapters[name].Obj? then Accepted(()) else Crashed;
    var expected := map["base" := Field(model, "sha256")]
                    + map name | name in ADAPTERS :: Field(adapters[name].fields, "sha256");
    var _ :- Check(forall name :: name in expected ==> Hex64Text(expected[name]));
    Accepted(expected)
  }

  /** The binding document against the digest file, the commit and the manifest. */
  function CheckBinding(binding: Doc, expectedDeep: string, commit: string, manifest: Doc): Verdict<Doc> {
    var _ :- Check(Pinned(expectedDeep) && Says(binding, "deep_image", expectedDeep));
    var _ :- Check(Says(binding, "release_commit", commit));
    var _ :- Check(Equal(Field(binding, "base_image"), Field(manifest, "llama_cpp_image")));
    var model :- OrEmpty(Field(manifest, "model"));
    var _ :- Check(Equal(Field(binding, "model_id"), Field(model, "id")));
    var expected :- ExpectedArtifacts(manifest);
    var _ :- Check(Field(binding, "artifact_sha256") == Obj(expected));
    var _ :- Check(Hex64Text(Field(binding, "binary_sha256")));
    Accepted(expected)
  }

  /** A serving identity: model, image, base model and adapters of the manifest. */
  function CheckIdentity(identity: Doc, manifest: Doc, expected: Doc): Verdict<()> {
    var model :- OrEmpty(Field(manifest, "model"));
    var _ :- Check(Equal(Field(identity, "model"), Field(model, "id")));
    var _ :- Check(Equal(Field(identity, "server_image"), Field(manifest, "llama_cpp_image")));
    var _ :- Check(Equal(Field(identity, "base_model_sha256"), Field(expected, "base")));
    Check(Field(identity, "adapter_sha256") == Obj(expected - {"base"}))
  }

  function CheckWorker(worker: Doc, manifest: Doc, expected: Doc): Verdict<()> {
    var local :- OrEmpty(Field(worker, "provenance"));
    var _ :- CheckIdentity(local, manifest, expected);
    var _ :- Check(IsTrue(local, "source_code_included"));
    Check(Says(local, "endpoint_scope", "loopback") && !Truthy(Field(local, "error")))
  }

  function CheckReporting(reporting: Doc, manifest: Doc, expected: Doc): Verdict<()> {
    var _ :- Check(Says(reporting, "endpoint_scope", "loopback"));
    var _ :- Check(IsFalse(reporting, "source_code_included"));
    var identity :- OrEmpty(Field(reporting, "identity"));
    CheckIdentity(identity, manifest, expected)
  }

  function CheckReceipt(gateway: Doc, receipt: Doc, manifest: Doc): Verdict<()> {
    var model :- OrEmpty(Field(manifest, "model"));
    var validGateway :- OrEmpty(Field(gateway, "valid_request"));
    var activity :- OrEmpty(Field(receipt, "agent_activity"));
    var _ :- Check(Equal(Field(validGateway, "model"), Field(model, "id")));
    var provenance :- OrEmpty(Field(activity, "inference_provenance"));
    var _ :- Check(Equal(Field(provenance, "model"), Field(model, "id")));
    var _ :- Check(Says(provenance, "mode", "gateway") && IsFalse(provenance, "source_code_included"));
    Check(!Truthy(Field(provenance, "error")) && AtLeast(FieldOr(provenance, "requests", Int(0)), 1.0))
  }

  function CheckTeardown(receipt: Doc): Verdict<()> {
    var teardown :- OrEmpty(Field(receipt, "teardown_proof"));
    Check(AllTrue(teardown, SANDBOX_TEARDOWN))
  }

  /** The signed payload of a receipt document. */
  function Signed(receiptDocument: Doc): Verdict<Doc> {
    match FieldOr(receiptDocument, "receipt", Obj(receiptDocument))
    case Obj(fields) => Accepted(fields)
    case _ => Rejected
  }

  /** `override or _json(file)`: an empty override counts as none. */
  function DocumentOr(e: Evidence, override_: Option<Doc>, name: Path): Verdict<Doc> {
    if override_.Some? && override_.value != map[] then Accepted(override_.value)
    else Needs(ReadObject(e.codec, e.tree, e.root + name))
  }

  /** The documents of a bundle that the overrides do not touch. */
  datatype Fixed = Fixed(manifest: Doc, worker: Doc, reporting: Doc, gateway: Doc, deep: string)

  function Decide(f: Fixed, binding: Doc, receipt: Doc, commit: string): Verdict<()> {
    var expected :- CheckBinding(binding, f.deep, commit, f.manifest);
    var _ :- CheckWorker(f.worker, f.manifest, expected);
    var _ :- CheckReporting(f.reporting, f.manifest, expected);
    var _ :- CheckReceipt(f.gateway, receipt, f.manifest);
    CheckTeardown(receipt)
  }

  /** `_validate_acceptance`. */
  function ValidateAcceptance(e: Evidence, commit: string, receiptDocument: Option<Doc>, bindingDocument: Option<Doc>)
    : Verdict<()>
  {
    var _ :- Check(CommitId(commit));
    var manifest :- Needs(ReadObject(e.codec, e.tree, e.root + MODEL_ARTIFACTS));
    var binding :- DocumentOr(e, bindingDocument, BINDING);
    var worker :- Needs(ReadObject(e.codec, e.tree, e.root + WORKER));
    var reporting :- Needs(ReadObject(e.codec, e.tree, e.root + REPORTING));
    var gateway :- Needs(ReadObject(e.codec, e.tree, e.root + GATEWAY));
    var receiptDoc :- DocumentOr(e, receiptDocument, RECEIPT);
    var receipt :- Signed(receiptDoc);
    var _ :- Check(IsTrue(binding, "passed") && IsTrue(worker, "passed") && IsTrue(reporting, "passed") && IsTrue(gateway, "passed"));
    var deep :- Needs(e.TextOf(DEEP_DIGEST));
    Decide(Fixed(manifest, worker, reporting, gateway, deep), binding, receipt, commit)
  }

  predicate Valid(e: Evidence, commit: string, receiptDocument: Option<Doc>, bindingDocument: Option<Doc>) {
    ValidateAcceptance(e, commit, receiptDocument, bindingDocument).Accepted?
  }

  // ---------------------------------------------------- identities are pinned down

  /** The release identities a binding document names. */
  datatype Identities = Identities(image: Json, commit: Json, base: Json, model: Json, artifacts: Json)

  function IdentitiesOf(binding: Doc): Identities {
    Identities(Field(binding, "deep_image"), Field(binding, "release_commit"), Field(binding, "base_image"),
      Field(binding, "model_id"), Field(binding, "artifact_sha256"))
  }

  /** Equal up to the way a number is written. */
  predicate Agree(a: Identities, b: Identities) {
    && a.image == b.image && a.commit == b.commit && a.artifacts == b.artifacts
    && Equal(a.base, b.base) && Equal(a.model, b.model)
  }

  /** What an accepted binding says, all of it determined by the manifest, digest file and commit. */
  lemma AcceptedBindingSays(binding: Doc, deep: string, commit: string, manifest: Doc)
    requires CheckBinding(binding, deep, commit, manifest).Accepted?
    ensures OrEmpty(Field(manifest, "model")).Accepted? && ExpectedArtifacts(manifest).Accepted?
    ensures CheckBinding(binding, deep, commit, manifest) == ExpectedArtifacts(manifest)
    ensures Says(binding, "deep_image", deep) && Says(binding, "release_commit", commit)
    ensures Equal(Field(binding, "base_image"), Field(manifest, "llama_cpp_image"))
    ensures Equal(Field(binding, "model_id"), Field(OrEmpty(Field(manifest, "model")).value, "id"))
    ensures Field(binding, "artifact_sha256") == Obj(ExpectedArtifacts(manifest).value)
  {
    hide ExpectedArtifacts, OrEmpty, Equal, Pinned, Hex64Text;
  }

  lemma ExpectedArtifactsAreFour(manifest: Doc)
    requires ExpectedArtifacts(manifest).Accepted?
    ensures ExpectedArtifacts(manifest).value.Keys == ADAPTERS + {"base"}
    ensures forall name :: name in ExpectedArtifacts(manifest).value ==> Hex64Text(ExpectedArtifacts(manifest).value[name])
  {
    hide OrEmpty, Hex64Text;
  }

  lemma ValidOverride(e: Evidence, commit: string, receipt: Option<Doc>, b: Doc) returns (deep: string, manifest: Doc)
    requires b != map[] && Valid(e, commit, receipt, Some(b))
    ensures e.TextOf(DEEP_DIGEST) == Some(deep)
    ensures ReadObject(e.codec, e.tree, e.root + MODEL_ARTIFACTS) == Some(manifest)
    ensures CheckBinding(b, deep, commit, manifest).Accepted?
  {
    hide CheckBinding, CheckWorker, CheckReporting, CheckReceipt, CheckTeardown, ReadObject, Signed, CommitId, IsTrue, Evidence.TextOf;
    deep := e.TextOf(DEEP_DIGEST).value;
    manifest := ReadObject(e.codec, e.tree, e.root + MODEL_ARTIFACTS).value;
  }

  lemma EqualIsTransitive(a: Json, b: Json, c: Json)
    requires Equal(a, c) && Equal(b, c)
    ensures Equal(a, b)
  {
  }

  /** MAIN RESULT. Two non-empty binding documents that validate against the same bundle and
      commit name the same image, commit, base image, model and all four artifact digests. */
  lemma ValidBindingsAgree(e: Evidence, commit: string, receipt1: Option<Doc>, receipt2: Option<Doc>, b1: Doc, b2: Doc)
    requires b1 != map[] && b2 != map[]
    requires Valid(e, commit, receipt1, Some(b1)) && Valid(e, commit, receipt2, Some(b2))
    ensures Agree(IdentitiesOf(b1), IdentitiesOf(b2))
    ensures Field(b1, "artifact_sha256").Obj?
    ensures Field(b1, "artifact_sha256").fields.Keys == ADAPTERS + {"base"}
    ensures forall name :: name in Field(b1, "artifact_sha256").fields ==> Hex64Text(Field(b1, "artifact_sha256").fields[name])
  {
    hide ExpectedArtifacts, OrEmpty, Equal, Hex64Text, CheckBinding, Valid;
    var deep, manifest := ValidOverride(e, commit, receipt1, b1);
    var _, _ := ValidOverride(e, commit, receipt2, b2);
    AcceptedBindingSays(b1, deep, commit, manifest);
    AcceptedBindingSays(b2, deep, commit, manifest);
    ExpectedArtifactsAreFour(manifest);
    EqualIsTransitive(Field(b1, "base_image"), Field(b2, "base_image"), Field(manifest, "llama_cpp_image"));
    var model := OrEmpty(Field(manifest, "model")).value;
    EqualIsTransitive(Field(b1, "model_id"), Field(b2, "model_id"), Field(model, "id"));
  }

  // ------------------------------------------------------------- tamper matrix

  /** The digest of 64 zeros. */
  function Zeros(): string { seq(64, _ => '0') }

  function TamperImage(): string { "registry.invalid/deep@sha256:" + Zeros() }

  /** `_expect_semantic_rejection`: only a rejection counts, a crash would escape. */
  predicate SemanticallyRejected(e: Evidence, commit: string, receiptDocument: Option<Doc>, bindingDocument: Option<Doc>) {
    ValidateAcceptance(e, commit, receiptDocument, bindingDocument).Rejected?
  }

  function ImageTamper(binding: Doc): Doc { binding["deep_image" := Str(TamperImage())] }

  /** `binding.setdefault("artifact_sha256", {})[name] = zeros`. */
  function DigestTamper(binding: Doc, name: string): Doc
    requires Field(binding, "artifact_sha256").Obj?
  {
    binding["artifact_sha256" := Obj(Field(binding, "artifact_sha256").fields[name := Str(Zeros())])]
  }

  function TeardownTamper(receiptDocument: Doc): Doc
    requires Signed(receiptDocument).Accepted? && Field(Signed(receiptDocument).value, "teardown_proof").Obj?
  {
    var signed := Signed(receiptDocument).value;
    var proof := Field(signed, "teardown_proof").fields["processes_terminated" := Bool(false)];
    var tampered := signed["teardown_proof" := Obj(proof)];
    if "receipt" in receiptDocument then receiptDocument["receipt" := Obj(tampered)] else tampered
  }

  /** The documents of a valid bundle. */
  predicate Loads(e: Evidence, f: Fixed, binding: Doc, receiptDocument: Doc) {
    && ReadObject(e.codec, e.tree, e.root + MODEL_ARTIFACTS) == Some(f.manifest)
    && ReadObject(e.codec, e.tree, e.root + BINDING) == Some(binding)
    && ReadObject(e.codec, e.tree, e.root + WORKER) == Some(f.worker)
    && ReadObject(e.codec, e.tree, e.root + REPORTING) == Some(f.reporting)
    && ReadObject(e.codec, e.tree, e.root + GATEWAY) == Some(f.gateway)
    && ReadObject(e.codec, e.tree, e.root + RECEIPT) == Some(receiptDocument)
    && e.TextOf(DEEP_DIGEST) == Some(f.deep)
  }

  lemma ValidLoads(e: Evidence, commit: string) returns (f: Fixed, binding: Doc, receiptDocument: Doc)
    requires Valid(e, commit, None, None)
    ensures Loads(e, f, binding, receiptDocument)
    ensures CommitId(commit) && Signed(receiptDocument).Accepted?
    ensures IsTrue(binding, "passed") && IsTrue(f.worker, "passed") && IsTrue(f.reporting, "passed") && IsTrue(f.gateway, "passed")
    ensures Decide(f, binding, Signed(receiptDocument).value, commit).Accepted?
  {
    hide Decide, ReadObject, CommitId, IsTrue, Signed, Evidence.TextOf;
    f := Fixed(ReadObject(e.codec, e.tree, e.root + MODEL_ARTIFACTS).value,
               ReadObject(e.codec, e.tree, e.root + WORKER).value,
               ReadObject(e.codec, e.tree, e.root + REPORTING).value,
               ReadObject(e.codec, e.tree, e.root + GATEWAY).value,
               e.TextOf(DEEP_DIGEST).value);
    binding := ReadObject(e.codec, e.tree, e.root + BINDING).value;
    receiptDocument := ReadObject(e.codec, e.tree, e.root + RECEIPT).value;
  }

  /** With an override in place of the binding, only the binding changes. */
  lemma OverriddenBinding(e: Evidence, commit: string, f: Fixed, binding: Doc, receiptDocument: Doc, other: Doc)
    requires Loads(e, f, binding, receiptDocument) && CommitId(commit) && Signed(receiptDocument).Accepted?
    requires IsTrue(f.worker, "passed") && IsTrue(f.reporting, "passed") && IsTrue(f.gateway, "passed")
    requires other != map[] && IsTrue(other, "passed")
    ensures ValidateAcceptance(e, commit, None, Some(other)) == Decide(f, other, Signed(receiptDocument).value, commit)
  {
    hide Decide, ReadObject, CommitId, IsTrue, Signed, Evidence.TextOf;
  }

  lemma OverriddenReceipt(e: Evidence, commit: string, f: Fixed, binding: Doc, receiptDocument: Doc, other: Doc)
    requires Loads(e, f, binding, receiptDocument) && CommitId(commit)
    requires IsTrue(binding, "passed") && IsTrue(f.worker, "passed") && IsTrue(f.reporting, "passed") && IsTrue(f.gateway, "passed")
    requires other != map[] && Signed(other).Accepted?
    ensures ValidateAcceptance(e, commit, Some(other), None) == Decide(f, binding, Signed(other).value, commit)
  {
    hide Decide, ReadObject, CommitId, IsTrue, Signed, Evidence.TextOf;
  }

  lemma ImageTamperRejectedIff(f: Fixed, binding: Doc, receipt: Doc, commit: string)
    requires Decide(f, binding, receipt, commit).Accepted?
    ensures Decide(f, ImageTamper(binding), receipt, commit)
      == if f.deep == TamperImage() then Decide(f, binding, receipt, commit) else Rejected
  {
    AcceptedBindingSays(binding, f.deep, commit, f.manifest);
    hide CheckWorker, CheckReporting, CheckReceipt, CheckTeardown, ExpectedArtifacts, OrEmpty, Equal, Pinned, Hex64Text, TamperImage;
    assert "deep_image" in binding;
    if f.deep == TamperImage() {
      assert ImageTamper(binding) == binding;
    } else {
      assert !Says(ImageTamper(binding), "deep_image", f.deep);
    }
  }

  /** A binding that differs from an accepted one in the artifact digests alone is rejected. */
  lemma OtherDigestsRejected(binding: Doc, deep: string, commit: string, manifest: Doc, other: Json)
    requires CheckBinding(binding, deep, commit, manifest).Accepted?
    requires other != Obj(ExpectedArtifacts(manifest).value)
    ensures CheckBinding(binding["artifact_sha256" := other], deep, commit, manifest) == Rejected
  {
    AcceptedBindingSays(binding, deep, commit, manifest);
    hide ExpectedArtifacts, OrEmpty, Equal, Pinned, Hex64Text;
  }

  lemma DigestTamperRejectedIff(f: Fixed, binding: Doc, receipt: Doc, commit: string, name: string)
    requires Decide(f, binding, receipt, commit).Accepted? && name in ADAPTERS + {"base"}
    ensures Field(binding, "artifact_sha256").Obj? && name in Field(binding, "artifact_sha256").fields
    ensures Decide(f, DigestTamper(binding, name), receipt, commit)
      == if Field(binding, "artifact_sha256").fields[name] == Str(Zeros()) then Decide(f, binding, receipt, commit) else Rejected
  {
    hide CheckWorker, CheckReporting, CheckReceipt, CheckTeardown, CheckBinding, ExpectedArtifacts, Zeros, Hex64Text;
    AcceptedBindingSays(binding, f.deep, commit, f.manifest);
    ExpectedArtifactsAreFour(f.manifest);
    var digests := Field(binding, "artifact_sha256").fields;
    if digests[name] == Str(Zeros()) {
      assert digests[name := Str(Zeros())] == digests;
      assert DigestTamper(binding, name) == binding;
    } else {
      assert digests[name := Str(Zeros())][name] != digests[name];
      OtherDigestsRejected(binding, f.deep, commit, f.manifest, Obj(digests[name := Str(Zeros())]));
    }
  }

  lemma TeardownTamperRejected(f: Fixed, binding: Doc, receiptDocument: Doc, commit: string)
    requires Signed(receiptDocument).Accepted?
    requires Decide(f, binding, Signed(receiptDocument).value, commit).Accepted?
    ensures Field(Signed(receiptDocument).value, "teardown_proof").Obj?
    ensures TeardownTamper(receiptDocument) != map[] && Signed(TeardownTamper(receiptDocument)).Accepted?
    ensures Decide(f, binding, Signed(TeardownTamper(receiptDocument)).value, commit) == Rejected
  {
    hide CheckBinding, CheckWorker, CheckReporting, CheckIdentity;
    assert SANDBOX_TEARDOWN[0] == "processes_terminated";
    var signed := Signed(receiptDocument).value;
    var proof := OrEmpty(Field(signed, "teardown_proof")).value;
    assert IsTrue(proof, "processes_terminated");
    var tampered := Signed(TeardownTamper(receiptDocument)).value;
    assert Field(tampered, "agent_activity") == Field(signed, "agent_activity");
    assert !IsTrue(Field(tampered, "teardown_proof").fields, "processes_terminated");
  }

  datatype Matrix = Matrix(image: bool, base: bool, adapter: bool, teardown: bool)

  /** The digest that the bundle's binding records for an artifact. */
  function RecordedDigest(e: Evidence, name: string): Json {
    match ReadObject(e.codec, e.tree, e.root + BINDING)
    case Some(binding) =>
      if Field(binding, "artifact_sha256").Obj? then Field(Field(binding, "artifact_sha256").fields, name) else Null
    case None => Null
  }

  /** `_tamper_checks` on a valid bundle. `signatureRejects` is the receipt verifier's own
      verdict on the changed receipt. A check passes exactly when the release differs from the
      constant written into its tamper; the teardown tamper is always rejected semantically. */
  method TamperChecks(e: Evidence, commit: string, signatureRejects: bool) returns (checks: Matrix)
    requires Valid(e, commit, None, None)
    ensures checks.image <==> e.TextOf(DEEP_DIGEST) != Some(TamperImage())
    ensures checks.base <==> RecordedDigest(e, "base") != Str(Zeros())
    ensures checks.adapter <==> RecordedDigest(e, "test-gen") != Str(Zeros())
    ensures checks.teardown <==> signatureRejects
  {
    ghost var f, b, r := ValidLoads(e, commit);
    var binding := ReadObject(e.codec, e.tree, e.root + BINDING).value;
    var receiptDocument := ReadObject(e.codec, e.tree, e.root + RECEIPT).value;
    ImageTamperRejectedIff(f, b, Signed(r).value, commit);
    DigestTamperRejectedIff(f, b, Signed(r).value, commit, "base");
    DigestTamperRejectedIff(f, b, Signed(r).value, commit, "test-gen");
    TeardownTamperRejected(f, b, r, commit);
    hide Decide, ReadObject, ValidateAcceptance, Signed, CommitId;

    var imageTamper := ImageTamper(binding);
    OverriddenBinding(e, commit, f, b, r, imageTamper);
    var image := SemanticallyRejected(e, commit, None, Some(imageTamper));

    var baseTamper := DigestTamper(binding, "base");
    OverriddenBinding(e, commit, f, b, r, baseTamper);
    var base := SemanticallyRejected(e, commit, None, Some(baseTamper));

    var adapterTamper := DigestTamper(binding, "test-gen");
    OverriddenBinding(e, commit, f, b, r, adapterTamper);
    var adapter := SemanticallyRejected(e, commit, None, Some(adapterTamper));

    var teardownTamper := TeardownTamper(receiptDocument);
    OverriddenReceipt(e, commit, f, b, r, teardownTamper);
    var teardown := SemanticallyRejected(e, commit, Some(teardownTamper), None) && signatureRejects;
    checks := Matrix(image, base, adapter, teardown);
  }
}

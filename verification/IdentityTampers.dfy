/** Every identity a receipt bundle records, in every document, is really compared. */
module IdentityTampers {
  import opened Wrappers
  import opened Json
  import opened FileTree
  import opened EvidenceGate
  import opened ReceiptBundle

  /** The documents the verifier decides on; `receipt` is the signed payload. */
  datatype Bundle = Bundle(f: Fixed, binding: Doc, receipt: Doc) {
    function Decision(commit: string): Verdict<()> { Decide(f, binding, receipt, commit) }
  }

  const SERVING_KEYS: set<string> := {"model", "server_image", "base_model_sha256", "adapter_sha256"}
  const BINDING_KEYS: set<string> := {"deep_image", "release_commit", "base_image", "model_id", "artifact_sha256"}

  /** The places at which a bundle records an identity of its release. */
  datatype Place =
    | InWorker(key: string)
    | InReporting(key: string)
    | InGateway
    | InReceipt
    | InBinding(key: string)
    | ManifestImage
    | ManifestModel
    | ManifestDigest(name: string)
  {
    predicate Exists() {
      match this
      case InWorker(key) => key in SERVING_KEYS
      case InReporting(key) => key in SERVING_KEYS
      case InBinding(key) => key in BINDING_KEYS
      case ManifestDigest(name) => name in ADAPTERS + {"base"}
      case _ => true
    }
  }

  /** The object at a member; empty if there is none. */
  function Part(d: Doc, key: string): Doc {
    if Field(d, key).Obj? then Field(d, key).fields else map[]
  }

  function WithPart(d: Doc, key: string, part: Doc): Doc { d[key := Obj(part)] }

  function Provenance(receipt: Doc): Doc { Part(Part(receipt, "agent_activity"), "inference_provenance") }

  function Recorded(b: Bundle, p: Place): Json {
    match p
    case InWorker(key) => Field(Part(b.f.worker, "provenance"), key)
    case InReporting(key) => Field(Part(b.f.reporting, "identity"), key)
    case InGateway => Field(Part(b.f.gateway, "valid_request"), "model")
    case InReceipt => Field(Provenance(b.receipt), "model")
    case InBinding(key) => Field(b.binding, key)
    case ManifestImage => Field(b.f.manifest, "llama_cpp_image")
    case ManifestModel => Field(Part(b.f.manifest, "model"), "id")
    case ManifestDigest(name) => ManifestSha(b.f.manifest, name)
  }

  function ManifestSha(manifest: Doc, name: string): Json {
    if name == "base" then Field(Part(manifest, "model"), "sha256")
    else Field(Part(Part(manifest, "adapters"), name), "sha256")
  }

  /** The manifest with one member replaced. */
  function Reforged(manifest: Doc, p: Place, v: Json): Doc
    requires p.ManifestImage? || p.ManifestModel? || p.ManifestDigest?
  {
    match p
    case ManifestImage => manifest["llama_cpp_image" := v]
    case ManifestModel => WithPart(manifest, "model", Part(manifest, "model")["id" := v])
    case ManifestDigest(name) =>
      if name == "base" then WithPart(manifest, "model", Part(manifest, "model")["sha256" := v])
      else
        var adapters := Part(manifest, "adapters");
        WithPart(manifest, "adapters", WithPart(adapters, name, Part(adapters, name)["sha256" := v]))
  }

  /** The bundle that differs at one place alone. */
  function Replaced(b: Bundle, p: Place, v: Json): Bundle {
    match p
    case InWorker(key) =>
      b.(f := b.f.(worker := WithPart(b.f.worker, "provenance", Part(b.f.worker, "provenance")[key := v])))
    case InReporting(key) =>
      b.(f := b.f.(reporting := WithPart(b.f.reporting, "identity", Part(b.f.reporting, "identity")[key := v])))
    case InGateway =>
      b.(f := b.f.(gateway := WithPart(b.f.gateway, "valid_request", Part(b.f.gateway, "valid_request")["model" := v])))
    case InReceipt =>
      var activity := WithPart(Part(b.receipt, "agent_activity"), "inference_provenance", Provenance(b.receipt)["model" := v]);
      b.(receipt := WithPart(b.receipt, "agent_activity", activity))
    case InBinding(key) => b.(binding := b.binding[key := v])
    case _ => b.(f := b.f.(manifest := Reforged(b.f.manifest, p, v)))
  }

  // ------------------------------------------------------------------ small facts

  lemma EqualTransfers(a: Json, b: Json, c: Json)
    requires Equal(a, b)
    ensures Equal(a, c) <==> Equal(b, c)
    ensures Equal(c, a) <==> Equal(c, b)
  {
  }

  lemma EqualText(v: Json, s: string)
    ensures Equal(v, Str(s)) <==> v == Str(s)
    ensures Equal(Str(s), v) <==> v == Str(s)
  {
  }

  lemma EqualObject(v: Json, d: Doc)
    ensures Equal(v, Obj(d)) <==> v == Obj(d)
  {
  }

  lemma PartOrEmpty(d: Doc, key: string)
    ensures OrEmpty(Field(d, key)).Accepted? ==> OrEmpty(Field(d, key)) == Accepted(Part(d, key))
  {
  }

  /** A replaced part is read back as it is. */
  lemma PartReplaced(d: Doc, key: string, part: Doc)
    ensures OrEmpty(Field(WithPart(d, key, part), key)) == Accepted(part)
    ensures Field(WithPart(d, key, part), key) == Obj(part)
    ensures forall k :: k != key ==> Field(WithPart(d, key, part), k) == Field(d, k)
  {
  }

  lemma Replacing(d: Doc, key: string, v: Json)
    ensures Field(d[key := v], key) == v
    ensures forall k :: k != key ==> Field(d[key := v], k) == Field(d, k) && FieldOr(d[key := v], k, Int(0)) == FieldOr(d, k, Int(0))
  {
  }

  function Judged(v: Json, recorded: Json): Verdict<()> { if Equal(v, recorded) then Accepted(()) else Rejected }

  // ------------------------------------------------------------ one document each

  lemma IdentityMember(identity: Doc, manifest: Doc, expected: Doc, key: string, v: Json)
    requires CheckIdentity(identity, manifest, expected).Accepted? && key in SERVING_KEYS
    ensures CheckIdentity(identity[key := v], manifest, expected) == Judged(v, Field(identity, key))
  {
    Replacing(identity, key, v);
    var model := OrEmpty(Field(manifest, "model")).value;
    if key == "model" {
      EqualTransfers(Field(identity, key), Field(model, "id"), v);
    } else if key == "server_image" {
      EqualTransfers(Field(identity, key), Field(manifest, "llama_cpp_image"), v);
    } else if key == "base_model_sha256" {
      EqualTransfers(Field(identity, key), Field(expected, "base"), v);
    } else {
      EqualObject(v, expected - {"base"});
    }
    hide OrEmpty, Equal, Field;
  }

  lemma IdentityKeeps(identity: Doc, key: string, v: Json)
    requires key in SERVING_KEYS
    ensures IsTrue(identity[key := v], "source_code_included") == IsTrue(identity, "source_code_included")
    ensures Says(identity[key := v], "endpoint_scope", "loopback") == Says(identity, "endpoint_scope", "loopback")
    ensures Field(identity[key := v], "error") == Field(identity, "error")
  {
    Replacing(identity, key, v);
  }

  lemma WorkerMember(worker: Doc, manifest: Doc, expected: Doc, key: string, v: Json)
    requires CheckWorker(worker, manifest, expected).Accepted? && key in SERVING_KEYS
    ensures var local := Part(worker, "provenance");
      CheckWorker(WithPart(worker, "provenance", local[key := v]), manifest, expected) == Judged(v, Field(local, key))
  {
    var local := Part(worker, "provenance");
    PartOrEmpty(worker, "provenance");
    PartReplaced(worker, "provenance", local[key := v]);
    IdentityMember(local, manifest, expected, key, v);
    IdentityKeeps(local, key, v);
    hide CheckIdentity, OrEmpty, Field, Part, WithPart, Equal, Says, IsTrue, Truthy;
  }

  lemma ReportingMember(reporting: Doc, manifest: Doc, expected: Doc, key: string, v: Json)
    requires CheckReporting(reporting, manifest, expected).Accepted? && key in SERVING_KEYS
    ensures var identity := Part(reporting, "identity");
      CheckReporting(WithPart(reporting, "identity", identity[key := v]), manifest, expected) == Judged(v, Field(identity, key))
  {
    var identity := Part(reporting, "identity");
    PartOrEmpty(reporting, "identity");
    PartReplaced(reporting, "identity", identity[key := v]);
    IdentityMember(identity, manifest, expected, key, v);
    hide CheckIdentity, OrEmpty, Part, WithPart, Equal, Field;
  }

  lemma GatewayMember(gateway: Doc, receipt: Doc, manifest: Doc, v: Json)
    requires CheckReceipt(gateway, receipt, manifest).Accepted?
    ensures var request := Part(gateway, "valid_request");
      CheckReceipt(WithPart(gateway, "valid_request", request["model" := v]), receipt, manifest)
        == Judged(v, Field(request, "model"))
  {
    var request := Part(gateway, "valid_request");
    PartOrEmpty(gateway, "valid_request");
    PartReplaced(gateway, "valid_request", request["model" := v]);
    Replacing(request, "model", v);
    EqualTransfers(Field(request, "model"), Field(OrEmpty(Field(manifest, "model")).value, "id"), v);
    hide OrEmpty, Part, WithPart, Equal, Field, FieldOr, Truthy, AtLeast, Says, IsFalse;
  }

  lemma ReceiptParts(receipt: Doc, v: Json)
    ensures var activity := Part(receipt, "agent_activity");
      var changed := WithPart(activity, "inference_provenance", Provenance(receipt)["model" := v]);
      && OrEmpty(Field(WithPart(receipt, "agent_activity", changed), "agent_activity")) == Accepted(changed)
      && OrEmpty(Field(changed, "inference_provenance")) == Accepted(Provenance(receipt)["model" := v])
      && Field(WithPart(receipt, "agent_activity", changed), "teardown_proof") == Field(receipt, "teardown_proof")
  {
  }

  lemma ProvenanceKeeps(d: Doc, v: Json)
    ensures var c := d["model" := v];
      && Field(c, "model") == v
      && Says(c, "mode", "gateway") == Says(d, "mode", "gateway")
      && IsFalse(c, "source_code_included") == IsFalse(d, "source_code_included")
      && Field(c, "error") == Field(d, "error") && FieldOr(c, "requests", Int(0)) == FieldOr(d, "requests", Int(0))
  {
  }

  lemma ReceiptMember(gateway: Doc, receipt: Doc, manifest: Doc, v: Json)
    requires CheckReceipt(gateway, receipt, manifest).Accepted?
    ensures var changed := WithPart(receipt, "agent_activity",
        WithPart(Part(receipt, "agent_activity"), "inference_provenance", Provenance(receipt)["model" := v]));
      && CheckReceipt(gateway, changed, manifest) == Judged(v, Field(Provenance(receipt), "model"))
      && CheckTeardown(changed) == CheckTeardown(receipt)
  {
    PartOrEmpty(receipt, "agent_activity");
    PartOrEmpty(Part(receipt, "agent_activity"), "inference_provenance");
    ReceiptParts(receipt, v);
    ProvenanceKeeps(Provenance(receipt), v);
    EqualTransfers(Field(Provenance(receipt), "model"), Field(OrEmpty(Field(manifest, "model")).value, "id"), v);
    hide OrEmpty, Part, WithPart, Equal, Field, FieldOr, Truthy, AtLeast, Says, IsFalse, AllTrue;
  }

  lemma BindingMember(binding: Doc, deep: string, commit: string, manifest: Doc, key: string, v: Json)
    requires CheckBinding(binding, deep, commit, manifest).Accepted? && key in BINDING_KEYS
    ensures CheckBinding(binding[key := v], deep, commit, manifest)
      == if Equal(v, Field(binding, key)) then ExpectedArtifacts(manifest) else Rejected
  {
    AcceptedBindingSays(binding, deep, commit, manifest);
    Replacing(binding, key, v);
    EqualText(v, deep);
    EqualText(v, commit);
    EqualTransfers(Field(binding, "base_image"), Field(manifest, "llama_cpp_image"), v);
    EqualTransfers(Field(binding, "model_id"), Field(OrEmpty(Field(manifest, "model")).value, "id"), v);
    EqualObject(v, ExpectedArtifacts(manifest).value);
    hide ExpectedArtifacts, OrEmpty, Equal, Field, Pinned, Hex64Text;
  }

  // ------------------------------------------------------------------ the manifest

  /** Two manifests that name the same image and model, up to the way a number is written, and
      the same digests. */
  predicate SameNames(a: Doc, b: Doc) {
    && OrEmpty(Field(a, "model")).Accepted? && OrEmpty(Field(b, "model")).Accepted?
    && Equal(Field(a, "llama_cpp_image"), Field(b, "llama_cpp_image"))
    && Equal(Field(OrEmpty(Field(a, "model")).value, "id"), Field(OrEmpty(Field(b, "model")).value, "id"))
    && ExpectedArtifacts(a) == ExpectedArtifacts(b)
  }

  lemma SameIdentityCheck(identity: Doc, a: Doc, b: Doc, expected: Doc)
    requires SameNames(a, b)
    ensures CheckIdentity(identity, a, expected) == CheckIdentity(identity, b, expected)
  {
    var ia, ib := Field(OrEmpty(Field(a, "model")).value, "id"), Field(OrEmpty(Field(b, "model")).value, "id");
    EqualTransfers(ia, ib, Field(identity, "model"));
    EqualTransfers(Field(a, "llama_cpp_image"), Field(b, "llama_cpp_image"), Field(identity, "server_image"));
    hide OrEmpty, Equal, Field, ExpectedArtifacts;
  }

  lemma SameReceiptCheck(gateway: Doc, receipt: Doc, a: Doc, b: Doc)
    requires SameNames(a, b)
    ensures CheckReceipt(gateway, receipt, a) == CheckReceipt(gateway, receipt, b)
  {
    var ia, ib := Field(OrEmpty(Field(a, "model")).value, "id"), Field(OrEmpty(Field(b, "model")).value, "id");
    forall x ensures Equal(x, ia) == Equal(x, ib) {
      EqualTransfers(ia, ib, x);
    }
    hide OrEmpty, Equal, Field, FieldOr, ExpectedArtifacts, AtLeast, Truthy, Says, IsFalse;
  }

  lemma SameBindingCheck(binding: Doc, deep: string, commit: string, a: Doc, b: Doc)
    requires SameNames(a, b)
    ensures CheckBinding(binding, deep, commit, a) == CheckBinding(binding, deep, commit, b)
  {
    var ia, ib := Field(OrEmpty(Field(a, "model")).value, "id"), Field(OrEmpty(Field(b, "model")).value, "id");
    EqualTransfers(ia, ib, Field(binding, "model_id"));
    EqualTransfers(Field(a, "llama_cpp_image"), Field(b, "llama_cpp_image"), Field(binding, "base_image"));
    hide OrEmpty, Equal, Field, ExpectedArtifacts, Pinned, Hex64Text, Says;
  }

  lemma SameRunChecks(worker: Doc, reporting: Doc, a: Doc, b: Doc, expected: Doc)
    requires SameNames(a, b)
    ensures CheckWorker(worker, a, expected) == CheckWorker(worker, b, expected)
    ensures CheckReporting(reporting, a, expected) == CheckReporting(reporting, b, expected)
  {
    forall identity ensures CheckIdentity(identity, a, expected) == CheckIdentity(identity, b, expected) {
      SameIdentityCheck(identity, a, b, expected);
    }
    hide SameNames, CheckIdentity, OrEmpty, Field, Says, IsTrue, IsFalse, Truthy;
  }

  lemma SameDecision(f: Fixed, manifest: Doc, binding: Doc, receipt: Doc, commit: string)
    requires SameNames(manifest, f.manifest)
    ensures Decide(f.(manifest := manifest), binding, receipt, commit) == Decide(f, binding, receipt, commit)
  {
    SameBindingCheck(binding, f.deep, commit, manifest, f.manifest);
    SameReceiptCheck(f.gateway, receipt, manifest, f.manifest);
    hide SameNames, CheckBinding, CheckWorker, CheckReporting, CheckReceipt, CheckTeardown;
    if CheckBinding(binding, f.deep, commit, f.manifest).Accepted? {
      SameRunChecks(f.worker, f.reporting, manifest, f.manifest, CheckBinding(binding, f.deep, commit, f.manifest).value);
    }
  }

  /** The digests a manifest with proper sections expects. */
  function DigestMap(manifest: Doc): Doc {
    map name | name in ADAPTERS + {"base"} :: ManifestSha(manifest, name)
  }

  predicate HasSections(manifest: Doc) {
    && OrEmpty(Field(manifest, "model")).Accepted?
    && Field(manifest, "adapters").Obj? && Part(manifest, "adapters").Keys == ADAPTERS
    && forall name :: name in ADAPTERS ==> Part(manifest, "adapters")[name].Obj?
  }

  lemma ObjectRead(d: Doc, key: string)
    requires Field(d, key).Obj?
    ensures OrEmpty(Field(d, key)) == Accepted(Part(d, key))
  {
  }

  lemma SectionsRead(manifest: Doc)
    requires HasSections(manifest)
    ensures OrEmpty(Field(manifest, "model")) == Accepted(Part(manifest, "model"))
    ensures OrEmpty(Field(manifest, "adapters")) == Accepted(Part(manifest, "adapters"))
    ensures map["base" := Field(Part(manifest, "model"), "sha256")]
      + (map name | name in ADAPTERS :: Field(Part(manifest, "adapters")[name].fields, "sha256")) == DigestMap(manifest)
  {
    hide OrEmpty;
    PartOrEmpty(manifest, "model");
    ObjectRead(manifest, "adapters");
    var adapters := Part(manifest, "adapters");
    forall name | name in ADAPTERS ensures Field(adapters[name].fields, "sha256") == ManifestSha(manifest, name) {
      assert Field(adapters, name) == adapters[name];
    }
    hide ManifestSha, Field, Part;
  }

  lemma ExpectedAreDigests(manifest: Doc)
    requires HasSections(manifest)
    ensures ExpectedArtifacts(manifest) == if forall name :: name in DigestMap(manifest) ==> Hex64Text(DigestMap(manifest)[name])
      then Accepted(DigestMap(manifest)) else Rejected
  {
    SectionsRead(manifest);
    hide Hex64Text, OrEmpty, Field, Part, ManifestSha, DigestMap, Truthy;
  }

  lemma AcceptedHasSections(manifest: Doc)
    requires ExpectedArtifacts(manifest).Accepted?
    ensures HasSections(manifest)
  {
    hide Hex64Text;
  }

  lemma ReforgedBase(manifest: Doc, v: Json)
    requires HasSections(manifest)
    ensures var changed := WithPart(manifest, "model", Part(manifest, "model")["sha256" := v]);
      HasSections(changed) && DigestMap(changed) == DigestMap(manifest)["base" := v]
  {
    PartReplaced(manifest, "model", Part(manifest, "model")["sha256" := v]);
  }

  lemma AdaptersReforged(adapters: Doc, name: string, v: Json)
    requires adapters.Keys == ADAPTERS && name in ADAPTERS && forall n :: n in ADAPTERS ==> adapters[n].Obj?
    ensures var changed := WithPart(adapters, name, Part(adapters, name)["sha256" := v]);
      && changed.Keys == ADAPTERS && (forall n :: n in ADAPTERS ==> changed[n].Obj?)
      && Field(Part(changed, name), "sha256") == v
      && forall n :: n != name ==> Part(changed, n) == Part(adapters, n)
  {
  }

  lemma ReforgedAdapter(manifest: Doc, name: string, v: Json)
    requires HasSections(manifest) && name in ADAPTERS
    ensures var adapters := Part(manifest, "adapters");
      var changed := WithPart(manifest, "adapters", WithPart(adapters, name, Part(adapters, name)["sha256" := v]));
      HasSections(changed) && DigestMap(changed) == DigestMap(manifest)[name := v]
  {
    var adapters := Part(manifest, "adapters");
    var changed := WithPart(adapters, name, Part(adapters, name)["sha256" := v]);
    AdaptersReforged(adapters, name, v);
    PartReplaced(manifest, "adapters", changed);
    var m := WithPart(manifest, "adapters", changed);
    assert Part(m, "adapters") == changed && Part(m, "model") == Part(manifest, "model");
    assert "base" !in ADAPTERS;
    hide OrEmpty, Part, WithPart, Field;
  }

  lemma ReforgedSections(manifest: Doc, name: string, v: Json)
    requires HasSections(manifest) && name in ADAPTERS + {"base"}
    ensures HasSections(Reforged(manifest, ManifestDigest(name), v))
    ensures DigestMap(Reforged(manifest, ManifestDigest(name), v)) == DigestMap(manifest)[name := v]
  {
    hide HasSections, DigestMap, WithPart, Part;
    if name == "base" {
      ReforgedBase(manifest, v);
    } else {
      ReforgedAdapter(manifest, name, v);
    }
  }

  /** The expected digests after one of them is replaced in the manifest. */
  lemma ReforgedDigest(manifest: Doc, name: string, v: Json)
    requires ExpectedArtifacts(manifest).Accepted? && name in ADAPTERS + {"base"}
    ensures ExpectedArtifacts(manifest).value == DigestMap(manifest)
    ensures ExpectedArtifacts(Reforged(manifest, ManifestDigest(name), v))
      == if Hex64Text(v) then Accepted(DigestMap(manifest)[name := v]) else Rejected
  {
    AcceptedHasSections(manifest);
    ExpectedAreDigests(manifest);
    ReforgedSections(manifest, name, v);
    ExpectedAreDigests(Reforged(manifest, ManifestDigest(name), v));
    hide ExpectedArtifacts, HasSections, Reforged, ManifestSha, Hex64Text;
    var digests := DigestMap(manifest);
    assert digests[name := v][name] == v;
  }

  // ------------------------------------------------------------------ all places

  lemma OnlyUnit(v: Verdict<()>)
    requires v.Accepted?
    ensures v == Accepted(())
  {
    match v.value
    case () =>
  }

  lemma AcceptedParts(b: Bundle, commit: string)
    requires b.Decision(commit).Accepted?
    ensures ExpectedArtifacts(b.f.manifest).Accepted?
    ensures var expected := ExpectedArtifacts(b.f.manifest).value;
      && CheckBinding(b.binding, b.f.deep, commit, b.f.manifest) == Accepted(expected)
      && CheckWorker(b.f.worker, b.f.manifest, expected) == Accepted(())
      && CheckReporting(b.f.reporting, b.f.manifest, expected) == Accepted(())
      && CheckReceipt(b.f.gateway, b.receipt, b.f.manifest) == Accepted(())
      && CheckTeardown(b.receipt) == Accepted(())
  {
    hide CheckBinding, CheckWorker, CheckReporting, CheckReceipt, CheckTeardown, ExpectedArtifacts;
    AcceptedBindingSays(b.binding, b.f.deep, commit, b.f.manifest);
    var expected := ExpectedArtifacts(b.f.manifest).value;
    OnlyUnit(CheckWorker(b.f.worker, b.f.manifest, expected));
    OnlyUnit(CheckReporting(b.f.reporting, b.f.manifest, expected));
    OnlyUnit(CheckReceipt(b.f.gateway, b.receipt, b.f.manifest));
    OnlyUnit(CheckTeardown(b.receipt));
  }

  lemma RunMembersCompared(b: Bundle, p: Place, v: Json, commit: string)
    requires b.Decision(commit).Accepted? && p.Exists() && (p.InWorker? || p.InReporting?)
    ensures Replaced(b, p, v).Decision(commit) == Judged(v, Recorded(b, p))
  {
    AcceptedParts(b, commit);
    hide CheckBinding, CheckWorker, CheckReporting, CheckReceipt, CheckTeardown, ExpectedArtifacts, Part, WithPart, Equal, Field;
    var expected := ExpectedArtifacts(b.f.manifest).value;
    if p.InWorker? {
      WorkerMember(b.f.worker, b.f.manifest, expected, p.key, v);
    } else {
      ReportingMember(b.f.reporting, b.f.manifest, expected, p.key, v);
    }
  }

  /** Which part of the decision a replaced exchange member reaches. */
  lemma ExchangeDecision(b: Bundle, gateway: Doc, receipt: Doc, commit: string)
    requires b.Decision(commit).Accepted?
    requires CheckTeardown(receipt) == CheckTeardown(b.receipt) && !CheckReceipt(gateway, receipt, b.f.manifest).Crashed?
    ensures Decide(b.f.(gateway := gateway), b.binding, receipt, commit)
      == if CheckReceipt(gateway, receipt, b.f.manifest).Accepted? then Accepted(()) else Rejected
  {
    AcceptedParts(b, commit);
    hide CheckBinding, CheckWorker, CheckReporting, CheckReceipt, CheckTeardown, ExpectedArtifacts;
  }

  lemma ExchangeMembersCompared(b: Bundle, p: Place, v: Json, commit: string)
    requires b.Decision(commit).Accepted? && (p.InGateway? || p.InReceipt?)
    ensures Replaced(b, p, v).Decision(commit) == Judged(v, Recorded(b, p))
  {
    AcceptedParts(b, commit);
    hide Decide, CheckBinding, CheckWorker, CheckReporting, CheckReceipt, CheckTeardown, ExpectedArtifacts, Part, WithPart, Provenance, Equal, Field;
    var c := Replaced(b, p, v);
    if p.InGateway? {
      GatewayMember(b.f.gateway, b.receipt, b.f.manifest, v);
    } else {
      ReceiptMember(b.f.gateway, b.receipt, b.f.manifest, v);
      assert c.f == b.f.(gateway := b.f.gateway);
    }
    ExchangeDecision(b, c.f.gateway, c.receipt, commit);
  }

  lemma BindingMembersCompared(b: Bundle, p: Place, v: Json, commit: string)
    requires b.Decision(commit).Accepted? && p.Exists() && p.InBinding?
    ensures Replaced(b, p, v).Decision(commit) == Judged(v, Recorded(b, p))
  {
    AcceptedParts(b, commit);
    hide CheckBinding, CheckWorker, CheckReporting, CheckReceipt, CheckTeardown, ExpectedArtifacts, Equal, Field;
    BindingMember(b.binding, b.f.deep, commit, b.f.manifest, p.key, v);
  }

  /** The expected digests depend on the model's digest and the adapters alone. */
  lemma SameExpected(a: Doc, b: Doc)
    requires OrEmpty(Field(a, "model")).Accepted? && OrEmpty(Field(b, "model")).Accepted?
    requires Field(OrEmpty(Field(a, "model")).value, "sha256") == Field(OrEmpty(Field(b, "model")).value, "sha256")
    requires Field(a, "adapters") == Field(b, "adapters")
    ensures ExpectedArtifacts(a) == ExpectedArtifacts(b)
  {
    hide OrEmpty, Field, Truthy, Hex64Text;
  }

  lemma ReforgedModel(manifest: Doc, key: string, v: Json)
    requires OrEmpty(Field(manifest, "model")).Accepted?
    ensures var model := OrEmpty(Field(manifest, "model")).value;
      var changed := WithPart(manifest, "model", Part(manifest, "model")[key := v]);
      && OrEmpty(Field(changed, "model")) == Accepted(model[key := v])
      && Field(changed, "adapters") == Field(manifest, "adapters")
      && Field(changed, "llama_cpp_image") == Field(manifest, "llama_cpp_image")
  {
    PartOrEmpty(manifest, "model");
    PartReplaced(manifest, "model", Part(manifest, "model")[key := v]);
  }

  /** The image, the model id and the digests after one name is replaced. */
  lemma ReforgedNames(manifest: Doc, p: Place, v: Json)
    requires ExpectedArtifacts(manifest).Accepted? && (p.ManifestImage? || p.ManifestModel?)
    ensures var changed := Reforged(manifest, p, v);
      && OrEmpty(Field(manifest, "model")) == Accepted(Part(manifest, "model"))
      && OrEmpty(Field(changed, "model")).Accepted?
      && Field(changed, "llama_cpp_image") == (if p.ManifestImage? then v else Field(manifest, "llama_cpp_image"))
      && Field(OrEmpty(Field(changed, "model")).value, "id")
          == (if p.ManifestModel? then v else Field(Part(manifest, "model"), "id"))
      && ExpectedArtifacts(changed) == ExpectedArtifacts(manifest)
  {
    AcceptedHasSections(manifest);
    PartOrEmpty(manifest, "model");
    hide ExpectedArtifacts, HasSections, OrEmpty, Part;
    var changed := Reforged(manifest, p, v);
    if p.ManifestModel? {
      ReforgedModel(manifest, "id", v);
      Replacing(Part(manifest, "model"), "id", v);
    } else {
      Replacing(manifest, "llama_cpp_image", v);
    }
    hide Field;
    SameExpected(changed, manifest);
  }

  lemma ReforgedDigestNames(manifest: Doc, name: string, v: Json)
    requires OrEmpty(Field(manifest, "model")).Accepted?
    ensures var changed := Reforged(manifest, ManifestDigest(name), v);
      && OrEmpty(Field(changed, "model")).Accepted?
      && Field(changed, "llama_cpp_image") == Field(manifest, "llama_cpp_image")
      && Field(OrEmpty(Field(changed, "model")).value, "id") == Field(OrEmpty(Field(manifest, "model")).value, "id")
  {
    hide OrEmpty, Part;
    if name == "base" {
      ReforgedModel(manifest, "sha256", v);
      Replacing(OrEmpty(Field(manifest, "model")).value, "sha256", v);
    } else {
      var adapters := Part(manifest, "adapters");
      PartReplaced(manifest, "adapters", WithPart(adapters, name, Part(adapters, name)["sha256" := v]));
    }
  }

  lemma ReforgedDecision(b: Bundle, p: Place, v: Json, commit: string)
    requires p.ManifestImage? || p.ManifestModel? || p.ManifestDigest?
    ensures Replaced(b, p, v).Decision(commit) == Decide(b.f.(manifest := Reforged(b.f.manifest, p, v)), b.binding, b.receipt, commit)
  {
    hide Decide, Reforged;
  }

  /** A manifest the binding does not fit decides alone. */
  lemma RejectedByBinding(f: Fixed, binding: Doc, receipt: Doc, commit: string)
    requires CheckBinding(binding, f.deep, commit, f.manifest) == Rejected
    ensures Decide(f, binding, receipt, commit) == Rejected
  {
    hide CheckBinding, CheckWorker, CheckReporting, CheckReceipt, CheckTeardown;
  }

  lemma NameKept(manifest: Doc, p: Place, v: Json)
    requires ExpectedArtifacts(manifest).Accepted? && (p.ManifestImage? || p.ManifestModel?)
    requires Equal(v, if p.ManifestImage? then Field(manifest, "llama_cpp_image") else Field(Part(manifest, "model"), "id"))
    ensures SameNames(Reforged(manifest, p, v), manifest)
  {
    hide ExpectedArtifacts, OrEmpty, Equal, Field, Part, Reforged;
    ReforgedNames(manifest, p, v);
    EqualReflexive();
  }

  lemma DecisionIs(b: Bundle, p: Place, commit: string)
    ensures b.Decision(commit) == Decide(b.f, b.binding, b.receipt, commit)
    ensures p.ManifestImage? ==> Recorded(b, p) == Field(b.f.manifest, "llama_cpp_image")
    ensures p.ManifestModel? ==> Recorded(b, p) == Field(Part(b.f.manifest, "model"), "id")
    ensures p.ManifestDigest? ==> Recorded(b, p) == ManifestSha(b.f.manifest, p.name)
  {
    hide Decide, ManifestSha, Field, Part;
  }

  lemma ManifestNamesCompared(b: Bundle, p: Place, v: Json, commit: string)
    requires b.Decision(commit).Accepted? && (p.ManifestImage? || p.ManifestModel?)
    ensures Replaced(b, p, v).Decision(commit) == Judged(v, Recorded(b, p))
  {
    hide Bundle.Decision, Decide, CheckBinding, CheckWorker, CheckReporting, CheckReceipt, CheckTeardown, ExpectedArtifacts;
    hide Equal, Field, Part, Reforged, OrEmpty, Replaced, Recorded, SameNames;
    var changed := Reforged(b.f.manifest, p, v);
    AcceptedParts(b, commit);
    OnlyUnit(b.Decision(commit));
    DecisionIs(b, p, commit);
    ReforgedDecision(b, p, v, commit);
    if Equal(v, Recorded(b, p)) {
      NameKept(b.f.manifest, p, v);
      SameDecision(b.f, changed, b.binding, b.receipt, commit);
    } else {
      OtherNameRejected(b.binding, b.f.deep, commit, b.f.manifest, p, v);
      RejectedByBinding(b.f.(manifest := changed), b.binding, b.receipt, commit);
    }
  }

  lemma EqualReflexive()
    ensures forall j :: Equal(j, j)
  {
  }

  lemma OtherNameRejected(binding: Doc, deep: string, commit: string, manifest: Doc, p: Place, v: Json)
    requires CheckBinding(binding, deep, commit, manifest).Accepted? && (p.ManifestImage? || p.ManifestModel?)
    requires !Equal(v, if p.ManifestImage? then Field(manifest, "llama_cpp_image") else Field(Part(manifest, "model"), "id"))
    ensures CheckBinding(binding, deep, commit, Reforged(manifest, p, v)) == Rejected
  {
    AcceptedBindingSays(binding, deep, commit, manifest);
    hide ExpectedArtifacts, OrEmpty, Equal, Field, Part, Pinned, Hex64Text, Says, Reforged;
    ReforgedNames(manifest, p, v);
    EqualTransfers(Field(binding, "model_id"), Field(Part(manifest, "model"), "id"), v);
    EqualTransfers(Field(binding, "base_image"), Field(manifest, "llama_cpp_image"), v);
  }

  lemma DigestKept(manifest: Doc, name: string)
    requires ExpectedArtifacts(manifest).Accepted? && name in ADAPTERS + {"base"}
    ensures SameNames(Reforged(manifest, ManifestDigest(name), ManifestSha(manifest, name)), manifest)
  {
    hide ExpectedArtifacts, Hex64Text, OrEmpty, Equal, Field, Reforged, Part, ManifestSha, HasSections;
    var recorded := ManifestSha(manifest, name);
    AcceptedHasSections(manifest);
    assert OrEmpty(Field(manifest, "model")).Accepted? by { SectionsRead(manifest); }
    ReforgedDigest(manifest, name, recorded);
    ReforgedDigestNames(manifest, name, recorded);
    ExpectedArtifactsAreFour(manifest);
    EqualReflexive();
    assert DigestMap(manifest)[name := recorded] == DigestMap(manifest);
  }

  lemma DigestChanged(binding: Doc, deep: string, commit: string, manifest: Doc, name: string, v: Json)
    requires CheckBinding(binding, deep, commit, manifest).Accepted? && name in ADAPTERS + {"base"}
    requires v != ManifestSha(manifest, name)
    ensures CheckBinding(binding, deep, commit, Reforged(manifest, ManifestDigest(name), v)) == Rejected
  {
    hide CheckBinding, ExpectedArtifacts, Hex64Text, OrEmpty, Equal, Field, Reforged, Part, ManifestSha;
    AcceptedBindingSays(binding, deep, commit, manifest);
    ReforgedDigest(manifest, name, v);
    ReforgedDigestNames(manifest, name, v);
    var digests := DigestMap(manifest);
    assert digests[name := v][name] != digests[name];
    OtherArtifactsRejected(binding, deep, commit, manifest, Reforged(manifest, ManifestDigest(name), v));
  }

  lemma DigestIsText(manifest: Doc, name: string, v: Json)
    requires ExpectedArtifacts(manifest).Accepted? && name in ADAPTERS + {"base"}
    ensures Equal(v, ManifestSha(manifest, name)) <==> v == ManifestSha(manifest, name)
  {
    ReforgedDigest(manifest, name, Null);
    ExpectedArtifactsAreFour(manifest);
    hide ExpectedArtifacts, Hex64, ManifestSha, Reforged, Equal;
    assert name in DigestMap(manifest);
    EqualText(v, ManifestSha(manifest, name).s);
  }

  lemma ManifestDigestsCompared(b: Bundle, p: Place, v: Json, commit: string)
    requires b.Decision(commit).Accepted? && p.Exists() && p.ManifestDigest?
    ensures Replaced(b, p, v).Decision(commit) == Judged(v, Recorded(b, p))
  {
    hide Bundle.Decision, Decide, CheckBinding, CheckWorker, CheckReporting, CheckReceipt, CheckTeardown, ExpectedArtifacts;
    hide ManifestSha, Equal, Reforged, Replaced, Recorded, SameNames;
    var manifest, changed := b.f.manifest, Reforged(b.f.manifest, p, v);
    AcceptedParts(b, commit);
    OnlyUnit(b.Decision(commit));
    DecisionIs(b, p, commit);
    ReforgedDecision(b, p, v, commit);
    DigestIsText(manifest, p.name, v);
    if v == ManifestSha(manifest, p.name) {
      DigestKept(manifest, p.name);
      SameDecision(b.f, changed, b.binding, b.receipt, commit);
    } else {
      DigestChanged(b.binding, b.f.deep, commit, manifest, p.name, v);
      RejectedByBinding(b.f.(manifest := changed), b.binding, b.receipt, commit);
    }
  }

  /** A manifest whose section shapes are unchanged but whose digests differ does not fit the binding. */
  lemma OtherArtifactsRejected(binding: Doc, deep: string, commit: string, manifest: Doc, changed: Doc)
    requires CheckBinding(binding, deep, commit, manifest).Accepted?
    requires ExpectedArtifacts(changed) != ExpectedArtifacts(manifest) && !ExpectedArtifacts(changed).Crashed?
    requires Field(changed, "llama_cpp_image") == Field(manifest, "llama_cpp_image")
    requires OrEmpty(Field(changed, "model")).Accepted?
    requires Field(OrEmpty(Field(changed, "model")).value, "id") == Field(OrEmpty(Field(manifest, "model")).value, "id")
    ensures CheckBinding(binding, deep, commit, changed) == Rejected
  {
    AcceptedBindingSays(binding, deep, commit, manifest);
    hide ExpectedArtifacts, OrEmpty, Equal, Field, Pinned, Hex64Text, Says;
  }

  /** MAIN RESULT. In an accepted bundle every recorded identity is really compared: replace the
      one at any place by any value, and the bundle is still accepted if the value is equal to
      the recorded one and rejected if it is not. It never ends in a crash. */
  lemma EveryIdentityIsCompared(b: Bundle, p: Place, v: Json, commit: string)
    requires b.Decision(commit).Accepted? && p.Exists()
    ensures Replaced(b, p, v).Decision(commit) == if Equal(v, Recorded(b, p)) then Accepted(()) else Rejected
  {
    hide Bundle.Decision, Replaced, Recorded;
    match p
    case InWorker(_) => RunMembersCompared(b, p, v, commit);
    case InReporting(_) => RunMembersCompared(b, p, v, commit);
    case InGateway => ExchangeMembersCompared(b, p, v, commit);
    case InReceipt => ExchangeMembersCompared(b, p, v, commit);
    case InBinding(_) => BindingMembersCompared(b, p, v, commit);
    case ManifestImage => ManifestNamesCompared(b, p, v, commit);
    case ManifestModel => ManifestNamesCompared(b, p, v, commit);
    case ManifestDigest(_) => ManifestDigestsCompared(b, p, v, commit);
  }

  // ------------------------------------------------------------------ on disk

  predicate PassedFlags(b: Bundle) {
    IsTrue(b.binding, "passed") && IsTrue(b.f.worker, "passed") && IsTrue(b.f.reporting, "passed") && IsTrue(b.f.gateway, "passed")
  }

  /** The bundle is what the evidence holds; `receiptDocument` carries its signed payload. */
  predicate Holds(e: Evidence, b: Bundle, receiptDocument: Doc) {
    Loads(e, b.f, b.binding, receiptDocument) && Signed(receiptDocument) == Accepted(b.receipt)
  }

  lemma StoredDecision(e: Evidence, b: Bundle, receiptDocument: Doc, commit: string)
    requires Holds(e, b, receiptDocument) && PassedFlags(b) && CommitId(commit)
    ensures ValidateAcceptance(e, commit, None, None) == b.Decision(commit)
  {
    hide Decide, ReadObject, CommitId, IsTrue, Signed, Evidence.TextOf;
  }

  lemma ReplacedKeepsFlags(b: Bundle, p: Place, v: Json)
    requires PassedFlags(b) && p.Exists()
    ensures PassedFlags(Replaced(b, p, v))
  {
    hide Part, Reforged, Provenance;
  }

  /** The same on disk: a bundle that holds another identity at one place is rejected. */
  lemma StoredIdentityIsCompared(e: Evidence, b: Bundle, receiptDocument: Doc, commit: string,
      g: Evidence, p: Place, v: Json, otherReceipt: Doc)
    requires Holds(e, b, receiptDocument) && PassedFlags(b) && Valid(e, commit, None, None)
    requires p.Exists() && Holds(g, Replaced(b, p, v), otherReceipt)
    ensures ValidateAcceptance(g, commit, None, None) == if Equal(v, Recorded(b, p)) then Accepted(()) else Rejected
  {
    assert CommitId(commit) by {
      hide CommitId, ReadObject, Decide, Signed;
    }
    ReplacedKeepsFlags(b, p, v);
    hide Bundle.Decision, Holds, PassedFlags, Replaced, Recorded, CommitId, ValidateAcceptance, Place.Exists, Equal;
    StoredDecision(e, b, receiptDocument, commit);
    EveryIdentityIsCompared(b, p, v, commit);
    StoredDecision(g, Replaced(b, p, v), otherReceipt, commit);
  }
}

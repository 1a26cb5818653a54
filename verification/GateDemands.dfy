/** What Gate 5 demands of every member it reads, as a table; and that no document of an accepted
    directory can hold anything else. */
module GateDemands {
  import opened Wrappers
  import opened Json
  import opened FileTree
  import opened EvidenceGate

  // --------------------------------------------------------------- the demands

  /** What a member must be. */
  datatype Test =
    | Is(value: Json)
    | Counts(n: int)
    | NoLess(least: int)
    | Nothing
    | Something

  /** A member inside nested objects, outermost key first. */
  type Place = p: seq<string> | p != [] witness ["passed"]

  /** What the member at a place must be. */
  datatype Demand = Demand(place: Place, test: Test)

  /** The demands on one document. */
  datatype Sheet = Sheet(file: Path, demands: seq<Demand>)

  predicate Meets(v: Json, test: Test) {
    match test
    case Is(value) => v == value
    case Counts(n) => Equal(v, Int(n))
    case NoLess(n) => Number(v).Some? && Number(v).value >= n as real
    case Nothing => !Truthy(v)
    case Something => Truthy(v)
  }

  /** The value at a place; null where there is none. */
  function At(d: Doc, place: seq<string>): Json
    decreases |place|
  {
    if place == [] then Obj(d)
    else if |place| == 1 then Field(d, place[0])
    else if Field(d, place[0]).Obj? then At(Field(d, place[0]).fields, place[1..])
    else Null
  }

  predicate Holds(d: Doc, demand: Demand) { Meets(At(d, demand.place), demand.test) }

  predicate MeetsAll(d: Doc, demands: seq<Demand>) { forall x :: x in demands ==> Holds(d, x) }

  function Yes(key: string): Demand { Demand([key], Is(Bool(true))) }

  function No(key: string): Demand { Demand([key], Is(Bool(false))) }

  /** The same value for all these keys, each at the top or in the same part. */
  function Flags(part: seq<string>, keys: seq<string>, value: bool): seq<Demand> {
    seq(|keys|, i requires 0 <= i < |keys| => Demand(part + [keys[i]], Is(Bool(value))))
  }

  const MANIFEST_DEMANDS: seq<Demand> := [Yes("passed"), Demand(["artifact_count"], Counts(4))]

  const WORKER_DEMANDS: seq<Demand> := Flags([], ["passed", "reporting_passed", "teardown_verified"], true)

  const REPORTING_DEMANDS: seq<Demand> := Flags([], ["passed", "teardown_verified"], true)

  const ISOLATION_FLAGS: seq<string> := ["passed", "no_published_ports", "network_none", "container_removed", "no_ollama"]

  const COST_DEMANDS: seq<Demand> := [
    Yes("passed"), Demand(["benchmark_repeats"], Counts(3)), Demand(["requests_completed"], NoLess(1)),
    Demand(["representative_run_requests"], NoLess(1))]

  const FAILURE_YES: seq<Demand> := Flags([], ["passed", "command_exit_nonzero"], true)

  const PRIVACY_FLAGS: seq<string> := [
    "inference_succeeded", "source_code_included", "prompt_recorded", "generated_code_recorded", "narrative_recorded",
    "credentials_recorded"]

  const FAILURE_DEMANDS: seq<Demand> := FAILURE_YES + Flags([], PRIVACY_FLAGS, false) + [Demand(["error_classes"], Something)]

  const REDACTION_DEMANDS: seq<Demand> := [
    Yes("passed"), No("staging_secrets_present"), Demand(["rejected_files"], Nothing), Demand(["missing_files"], Nothing),
    Demand(["files_scanned_count"], NoLess(1))]

  const TEARDOWN_FLAGS: seq<string> := [
    "passed", "candidate_container_absent", "rollback_container_absent", "llama_server_processes_absent",
    "worker_children_absent", "ollama_absent", "listener_inspection_succeeded", "container_inspection_succeeded",
    "model_listeners_absent", "prompt_slot_cache_absent", "known_sandbox_workspace_absent"]

  /** An empty expected model is not compared. */
  function ModelDemand(place: Place, model: string): seq<Demand> {
    if model == "" then [] else [Demand(place, Is(Str(model)))]
  }

  const GATEWAY_FLAGS: seq<Demand> := [
    Yes("passed"), Demand(["authorization_rejection", "passed"], Is(Bool(true))),
    Demand(["wrong_key_rejection", "passed"], Is(Bool(true))), Demand(["valid_request", "passed"], Is(Bool(true))),
    Demand(["redaction", "passed"], Is(Bool(true))), Demand(["source_rejection", "passed"], Is(Bool(true)))]

  const GATEWAY_FIGURES: seq<Demand> := [
    Demand(["source_rejection", "cases"], NoLess(4)), Demand(["redaction", "redactions_applied"], NoLess(1)),
    Demand(["valid_request", "source_code_included"], Is(Bool(false)))]

  function GatewayDemands(model: string): seq<Demand> {
    GATEWAY_FLAGS + GATEWAY_FIGURES + ModelDemand(["valid_request", "model"], model)
  }

  const RECEIPT_HEAD: seq<Demand> := [
    Demand(["receipt_version"], Counts(4)), Demand(["signature"], Something),
    Demand(["canary_check", "request_succeeded"], Is(Bool(false)))]

  const RECEIPT_TEARDOWN: seq<Demand> := Flags(["teardown_proof"],
    ["processes_terminated", "cgroup_removed", "network_namespace_removed", "workspace_removed"], true)

  const RECEIPT_PROVENANCE: seq<Demand> := [
    Demand(["agent_activity", "inference_provenance", "mode"], Is(Str("gateway"))),
    Demand(["agent_activity", "inference_provenance", "source_code_included"], Is(Bool(false))),
    Demand(["agent_activity", "inference_provenance", "error"], Nothing),
    Demand(["agent_activity", "inference_provenance", "requests"], NoLess(1)),
    Demand(["agent_activity", "inference_provenance", "request_ids"], Something)]

  /** On the signed payload. */
  function ReceiptDemands(model: string): seq<Demand> {
    RECEIPT_HEAD + RECEIPT_TEARDOWN + RECEIPT_PROVENANCE + ModelDemand(SIGNED_MODEL, model)
  }

  const ROLLBACK_DEMANDS: seq<Demand> := Flags([], ["passed", "manifest_verified", "smoke_passed"], true)

  const VERIFICATION_DEMANDS: seq<Demand> := [
    Yes("passed"), Demand(["status"], Is(Str("VALID"))), No("staging_secrets_present"), Yes("producer_index_verified"),
    Yes("acceptance_semantics_verified"), Demand(["tamper_checks_passed_count"], Counts(4))]

  const RESCAN_DEMANDS: seq<Demand> := [
    Yes("passed"), No("staging_secrets_present"), Demand(["rejected_files"], Nothing), Demand(["missing_files"], Nothing)]

  /** The whole table, in the order the gate reads its files. */
  function Sheets(commit: string, model: string, final: bool): seq<Sheet> {
    CommonSheets(commit) + OutcomeSheets(commit)
      + [Sheet(["gateway-smoke.json"], GatewayDemands(model)), Sheet(["sandbox-receipt", "receipt.json"], ReceiptDemands(model))]
      + ROLLBACK_SHEETS
      + if final then FINAL_SHEETS else []
  }

  function CommonSheets(commit: string): seq<Sheet> {
    [Sheet(["configuration-validation.json"], [Yes("passed")]),
     Sheet(["manifest-verification.json"], MANIFEST_DEMANDS),
     Sheet(["deep-image-binding.json"], [Yes("passed"), Demand(["release_commit"], Is(Str(commit)))]),
     Sheet(["llamacpp-worker-smoke.json"], WORKER_DEMANDS),
     Sheet(["reporting-smoke.json"], REPORTING_DEMANDS),
     Sheet(["container-isolation.json"], Flags([], ISOLATION_FLAGS, true))]
  }

  function OutcomeSheets(commit: string): seq<Sheet> {
    [Sheet(["run-identity.json"],
       [Yes("passed"), Demand(["release_commit"], Is(Str(commit))), Demand(["github_sha"], Is(Str(commit)))]),
     Sheet(["environment-setup.json"], [Yes("passed"), Demand(["release_commit"], Is(Str(commit)))]),
     Sheet(["cost-report.json"], COST_DEMANDS),
     Sheet(["failure-evidence.json"], FAILURE_DEMANDS),
     Sheet(["redaction-check.json"], REDACTION_DEMANDS),
     Sheet(["teardown-check.json"], Flags([], TEARDOWN_FLAGS, true))]
  }

  const ROLLBACK_SHEETS: seq<Sheet> := [
    Sheet(["previous-manifest-verification.json"], [Yes("passed")]),
    Sheet(["rollback-image-binding.json"], [Yes("passed")]),
    Sheet(["rollback-smoke", "llamacpp-worker-smoke.json"], [Yes("passed")]),
    Sheet(["rollback-smoke", "reporting-smoke.json"], [Yes("passed")]),
    Sheet(["rollback-smoke", "container-isolation.json"], [Yes("passed")]),
    Sheet(["rollback.json"], ROLLBACK_DEMANDS)]

  const FINAL_SHEETS: seq<Sheet> := [
    Sheet(["independent-verification.json"], VERIFICATION_DEMANDS),
    Sheet(["independent-redaction-check.json"], RESCAN_DEMANDS)]

  /** The part of a document that its sheet speaks of: of a receipt, the signed payload. */
  function Body(file: Path, d: Doc): Doc {
    if file == ["sandbox-receipt", "receipt.json"] && "receipt" in d then
      (if d["receipt"].Obj? then d["receipt"].fields else map[])
    else d
  }

  predicate SheetHolds(e: Evidence, sheet: Sheet) {
    e.Load(sheet.file).Ok? && MeetsAll(Body(sheet.file, e.Load(sheet.file).value), sheet.demands)
  }

  // ------------------------------------------------- the gate asks for the table

  lemma FlagIff(d: Doc, key: string)
    ensures Holds(d, Yes(key)) <==> IsTrue(d, key)
    ensures Holds(d, No(key)) <==> IsFalse(d, key)
  {
  }

  lemma PlainIff(d: Doc, key: string, test: Test)
    ensures Holds(d, Demand([key], test)) <==> Meets(Field(d, key), test)
  {
  }

  lemma PartIff(d: Doc, key: string, inner: string, test: Test)
    ensures Holds(d, Demand([key, inner], test)) <==>
      Meets(if Field(d, key).Obj? then Field(Field(d, key).fields, inner) else Null, test)
  {
    assert [key, inner][1..] == [inner];
    assert At(d, [key, inner]) == if Field(d, key).Obj? then At(Field(d, key).fields, [inner]) else Null;
  }

  /** Three levels deep, where the gate reads an empty object for a missing part. */
  lemma DeepIff(d: Doc, outer: string, key: string, inner: string, test: Test)
    ensures Holds(d, Demand([outer, key, inner], test)) <==>
      Meets(if Field(d, outer).Obj? && Field(Field(d, outer).fields, key).Obj? then Field(Field(Field(d, outer).fields, key).fields, inner)
        else Null, test)
  {
    assert [outer, key, inner][1..] == [key, inner];
    assert At(d, [outer, key, inner]) == if Field(d, outer).Obj? then At(Field(d, outer).fields, [key, inner]) else Null;
    if Field(d, outer).Obj? {
      PartIff(Field(d, outer).fields, key, inner, test);
    }
  }

  lemma CountIff(d: Doc, key: string, least: int)
    requires least >= 1
    ensures Holds(d, Demand([key], NoLess(least))) <==> AtLeast(FieldOr(d, key, Int(0)), least as real)
  {
  }

  lemma ByIndex(d: Doc, demands: seq<Demand>)
    ensures MeetsAll(d, demands) <==> forall i :: 0 <= i < |demands| ==> Holds(d, demands[i])
  {
    hide Holds;
    forall i | 0 <= i < |demands| && MeetsAll(d, demands) ensures Holds(d, demands[i]) {
      assert demands[i] in demands;
    }
  }

  lemma FlagsIff(d: Doc, keys: seq<string>)
    ensures MeetsAll(d, Flags([], keys, true)) <==> AllTrue(d, keys)
    ensures MeetsAll(d, Flags([], keys, false)) <==> AllFalse(d, keys)
  {
    ByIndex(d, Flags([], keys, true));
    ByIndex(d, Flags([], keys, false));
    forall i | 0 <= i < |keys| ensures
      && (Holds(d, Flags([], keys, true)[i]) <==> IsTrue(d, keys[i])) && (Holds(d, Flags([], keys, false)[i]) <==> IsFalse(d, keys[i]))
    {
      assert [] + [keys[i]] == [keys[i]];
      FlagIff(d, keys[i]);
    }
  }

  lemma ConcatIff(d: Doc, a: seq<Demand>, b: seq<Demand>)
    ensures MeetsAll(d, a + b) <==> MeetsAll(d, a) && MeetsAll(d, b)
  {
    hide Holds;
    assert forall x :: x in a + b <==> x in a || x in b;
  }

  lemma OneIff(d: Doc, demand: Demand)
    ensures MeetsAll(d, [demand]) <==> Holds(d, demand)
  {
    hide Holds;
    assert demand in [demand];
  }

  lemma TwoFirst(d: Doc, x: Demand, y: Demand)
    ensures MeetsAll(d, [x, y]) <==> Holds(d, x) && Holds(d, y)
  {
    OneIff(d, x);
    OneIff(d, y);
    ConcatIff(d, [x], [y]);
    assert [x] + [y] == [x, y];
    hide MeetsAll;
  }

  lemma ThreeFirst(d: Doc, x: Demand, y: Demand, z: Demand)
    ensures MeetsAll(d, [x, y, z]) <==> Holds(d, x) && Holds(d, y) && Holds(d, z)
  {
    TwoFirst(d, x, y);
    OneIff(d, z);
    ConcatIff(d, [x, y], [z]);
    assert [x, y] + [z] == [x, y, z];
    hide MeetsAll;
  }

  /** The demands on the redaction scan, named literally, are what the gate checks. */
  lemma RedactionIff(d: Doc)
    ensures RedactionPasses(d) <==> MeetsAll(d, REDACTION_DEMANDS)
  {
    FlagIff(d, "passed");
    FlagIff(d, "staging_secrets_present");
    PlainIff(d, "rejected_files", Nothing);
    PlainIff(d, "missing_files", Nothing);
    CountIff(d, "files_scanned_count", 1);
    hide Holds, IsTrue, IsFalse, MeetsAll, Field, AtLeast, Truthy;
    var l := REDACTION_DEMANDS;
    TwoFirst(d, l[0], l[1]);
    ThreeFirst(d, l[2], l[3], l[4]);
    ConcatIff(d, [l[0], l[1]], [l[2], l[3], l[4]]);
    assert [l[0], l[1]] + [l[2], l[3], l[4]] == l;
  }

  lemma FailureFlags(d: Doc)
    ensures MeetsAll(d, FAILURE_YES) <==> IsTrue(d, "passed") && IsTrue(d, "command_exit_nonzero")
    ensures MeetsAll(d, Flags([], PRIVACY_FLAGS, false)) <==> IsFalse(d, "inference_succeeded") && AllFalse(d, PRIVACY_FIELDS)
  {
    var yes, no := ["passed", "command_exit_nonzero"], ["inference_succeeded"] + PRIVACY_FIELDS;
    hide MeetsAll, Flags, Holds, IsTrue, IsFalse;
    FlagsIff(d, yes);
    FlagsIff(d, no);
    assert no == PRIVACY_FLAGS;
    assert yes[0] == "passed" && yes[1] == "command_exit_nonzero" && no[0] == "inference_succeeded";
    assert forall k :: k in no <==> k == "inference_succeeded" || k in PRIVACY_FIELDS;
  }

  lemma FailureIff(d: Doc)
    ensures FailurePasses(d) <==> MeetsAll(d, FAILURE_DEMANDS)
  {
    hide MeetsAll, Flags, Holds, IsTrue, IsFalse, Truthy, Field, AllFalse, FAILURE_YES, PRIVACY_FLAGS;
    var errors := Demand(["error_classes"], Something);
    FailureFlags(d);
    PlainIff(d, "error_classes", Something);
    OneIff(d, errors);
    ConcatIff(d, FAILURE_YES, Flags([], PRIVACY_FLAGS, false));
    ConcatIff(d, FAILURE_YES + Flags([], PRIVACY_FLAGS, false), [errors]);
  }

  lemma TeardownIff(d: Doc)
    ensures IsTrue(d, "passed") && AllTrue(d, TEARDOWN_FIELDS) <==> MeetsAll(d, Flags([], TEARDOWN_FLAGS, true))
  {
    hide MeetsAll, Flags, Holds, IsTrue;
    var keys := ["passed"] + TEARDOWN_FIELDS;
    FlagsIff(d, keys);
    assert keys == TEARDOWN_FLAGS;
    assert keys[0] == "passed";
  }

  lemma IsolationIff(d: Doc)
    ensures IsTrue(d, "passed") && AllTrue(d, ISOLATION_FIELDS) <==> MeetsAll(d, Flags([], ISOLATION_FLAGS, true))
  {
    hide MeetsAll, Flags, Holds, IsTrue;
    var keys := ["passed"] + ISOLATION_FIELDS;
    FlagsIff(d, keys);
    assert keys == ISOLATION_FLAGS;
    assert keys[0] == "passed";
  }

  lemma ManifestIff(d: Doc)
    ensures IsTrue(d, "passed") && Equal(Field(d, "artifact_count"), Int(4)) <==> MeetsAll(d, MANIFEST_DEMANDS)
  {
    FlagIff(d, "passed");
    PlainIff(d, "artifact_count", Counts(4));
    hide MeetsAll, Holds, IsTrue, Equal, Field;
    TwoFirst(d, MANIFEST_DEMANDS[0], MANIFEST_DEMANDS[1]);
  }

  lemma WorkerIff(d: Doc)
    ensures WorkerPasses(d) <==> MeetsAll(d, WORKER_DEMANDS)
  {
    var keys := ["passed", "reporting_passed", "teardown_verified"];
    hide MeetsAll, Flags, Holds, IsTrue;
    FlagsIff(d, keys);
    assert keys[0] == "passed" && keys[1] == "reporting_passed" && keys[2] == "teardown_verified";
  }

  lemma ReportingIff(d: Doc)
    ensures IsTrue(d, "passed") && IsTrue(d, "teardown_verified") <==> MeetsAll(d, REPORTING_DEMANDS)
  {
    var keys := ["passed", "teardown_verified"];
    hide MeetsAll, Flags, Holds, IsTrue;
    FlagsIff(d, keys);
    assert keys[0] == "passed" && keys[1] == "teardown_verified";
  }

  lemma VerificationIff(d: Doc)
    ensures VerificationPasses(d) <==> MeetsAll(d, VERIFICATION_DEMANDS)
  {
    FlagIff(d, "passed");
    PlainIff(d, "status", Is(Str("VALID")));
    FlagIff(d, "staging_secrets_present");
    FlagIff(d, "producer_index_verified");
    FlagIff(d, "acceptance_semantics_verified");
    PlainIff(d, "tamper_checks_passed_count", Counts(4));
    hide MeetsAll, Holds, IsTrue, IsFalse, Equal, Field;
    var l := VERIFICATION_DEMANDS;
    ThreeFirst(d, l[0], l[1], l[2]);
    ThreeFirst(d, l[3], l[4], l[5]);
    ConcatIff(d, [l[0], l[1], l[2]], [l[3], l[4], l[5]]);
    assert [l[0], l[1], l[2]] + [l[3], l[4], l[5]] == l;
  }

  lemma RescanIff(d: Doc)
    ensures RescanPasses(d) <==> MeetsAll(d, RESCAN_DEMANDS)
  {
    FlagIff(d, "passed");
    FlagIff(d, "staging_secrets_present");
    PlainIff(d, "rejected_files", Nothing);
    PlainIff(d, "missing_files", Nothing);
    hide MeetsAll, Holds, IsTrue, IsFalse, Truthy, Field;
    var l := RESCAN_DEMANDS;
    TwoFirst(d, l[0], l[1]);
    TwoFirst(d, l[2], l[3]);
    ConcatIff(d, [l[0], l[1]], [l[2], l[3]]);
    assert [l[0], l[1]] + [l[2], l[3]] == l;
  }

  // the gateway

  predicate PartFlag(d: Doc, key: string) { Holds(d, Demand([key, "passed"], Is(Bool(true)))) }

  lemma PartFlagIff(d: Doc, key: string)
    ensures PartFlag(d, key) <==> PartPasses(d, key)
  {
    PartIff(d, key, "passed", Is(Bool(true)));
    hide Holds;
  }

  lemma GatewayFlagsIff(d: Doc)
    ensures MeetsAll(d, GATEWAY_FLAGS) <==>
      && IsTrue(d, "passed") && PartPasses(d, "authorization_rejection") && PartPasses(d, "wrong_key_rejection")
      && PartPasses(d, "valid_request") && PartPasses(d, "redaction") && PartPasses(d, "source_rejection")
  {
    FlagIff(d, "passed");
    PartFlagIff(d, "authorization_rejection");
    PartFlagIff(d, "wrong_key_rejection");
    PartFlagIff(d, "valid_request");
    PartFlagIff(d, "redaction");
    PartFlagIff(d, "source_rejection");
    hide MeetsAll, Holds, PartPasses, IsTrue;
    var l := GATEWAY_FLAGS;
    ThreeFirst(d, l[0], l[1], l[2]);
    ThreeFirst(d, l[3], l[4], l[5]);
    ConcatIff(d, [l[0], l[1], l[2]], [l[3], l[4], l[5]]);
    assert [l[0], l[1], l[2]] + [l[3], l[4], l[5]] == l;
  }

  lemma PartCountIff(d: Doc, key: string, inner: string, least: int)
    requires least >= 1 && Field(d, key).Obj?
    ensures Holds(d, Demand([key, inner], NoLess(least))) <==> AtLeast(FieldOr(Field(d, key).fields, inner, Int(0)), least as real)
  {
    PartIff(d, key, inner, NoLess(least));
  }

  lemma GatewayFiguresIff(d: Doc)
    requires Field(d, "source_rejection").Obj? && Field(d, "redaction").Obj? && Field(d, "valid_request").Obj?
    ensures MeetsAll(d, GATEWAY_FIGURES) <==>
      && AtLeast(FieldOr(Field(d, "source_rejection").fields, "cases", Int(0)), 4.0)
      && AtLeast(FieldOr(Field(d, "redaction").fields, "redactions_applied", Int(0)), 1.0)
      && IsFalse(Field(d, "valid_request").fields, "source_code_included")
  {
    PartCountIff(d, "source_rejection", "cases", 4);
    PartCountIff(d, "redaction", "redactions_applied", 1);
    PartIff(d, "valid_request", "source_code_included", Is(Bool(false)));
    hide MeetsAll, Holds, AtLeast, FieldOr;
    var l := GATEWAY_FIGURES;
    ThreeFirst(d, l[0], l[1], l[2]);
    assert [l[0], l[1], l[2]] == l;
  }

  lemma ModelDemandIff(d: Doc, place: Place, model: string)
    ensures MeetsAll(d, ModelDemand(place, model)) <==> model != "" ==> At(d, place) == Str(model)
  {
    if model != "" {
      OneIff(d, Demand(place, Is(Str(model))));
    }
  }

  lemma GatewayIff(d: Doc, model: string)
    ensures GatewayPasses(d, model) <==> MeetsAll(d, GatewayDemands(model))
  {
    hide MeetsAll, Holds, At, AtLeast, FieldOr, GATEWAY_FLAGS, GATEWAY_FIGURES, ModelDemand;
    GatewayFlagsIff(d);
    ConcatIff(d, GATEWAY_FLAGS, GATEWAY_FIGURES);
    ConcatIff(d, GATEWAY_FLAGS + GATEWAY_FIGURES, ModelDemand(["valid_request", "model"], model));
    if MeetsAll(d, GATEWAY_FLAGS) {
      GatewayFiguresIff(d);
      ModelDemandIff(d, ["valid_request", "model"], model);
      PartIff(d, "valid_request", "model", Is(Str(model)));
      PartPlace(d, "valid_request", "model");
    }
  }

  lemma PartPlace(d: Doc, key: string, inner: string)
    ensures At(d, [key, inner]) == if Field(d, key).Obj? then Field(Field(d, key).fields, inner) else Null
  {
    assert [key, inner][1..] == [inner];
    assert At(d, [key, inner]) == if Field(d, key).Obj? then At(Field(d, key).fields, [inner]) else Null;
  }

  // the receipt

  lemma PartFlagsIff(d: Doc, key: string, keys: seq<string>)
    requires keys != []
    ensures MeetsAll(d, Flags([key], keys, true)) <==> ObjectOrEmpty(Field(d, key)) && AllTrue(Fields(Field(d, key)), keys)
  {
    ByIndex(d, Flags([key], keys, true));
    forall i | 0 <= i < |keys|
      ensures Holds(d, Flags([key], keys, true)[i]) <==> Field(d, key).Obj? && IsTrue(Field(d, key).fields, keys[i])
    {
      assert [key] + [keys[i]] == [key, keys[i]];
      PartIff(d, key, keys[i], Is(Bool(true)));
    }
    hide Holds, MeetsAll;
    assert keys[0] in keys;
  }

  lemma ReceiptHeadIff(d: Doc)
    ensures MeetsAll(d, RECEIPT_HEAD) <==>
      && Equal(Field(d, "receipt_version"), Int(4)) && Truthy(Field(d, "signature"))
      && ObjectOrEmpty(Field(d, "canary_check")) && IsFalse(Fields(Field(d, "canary_check")), "request_succeeded")
  {
    PlainIff(d, "receipt_version", Counts(4));
    PlainIff(d, "signature", Something);
    PartIff(d, "canary_check", "request_succeeded", Is(Bool(false)));
    hide MeetsAll, Holds, Equal;
    var l := RECEIPT_HEAD;
    ThreeFirst(d, l[0], l[1], l[2]);
    assert [l[0], l[1], l[2]] == l;
  }

  /** The provenance part, if it is there. */
  function Provenance(d: Doc): Option<Doc> {
    if Field(d, "agent_activity").Obj? && Field(Field(d, "agent_activity").fields, "inference_provenance").Obj? then
      Some(Field(Field(d, "agent_activity").fields, "inference_provenance").fields)
    else None
  }

  lemma ProvenanceIff(d: Doc, inner: string, test: Test)
    ensures Holds(d, Demand(["agent_activity", "inference_provenance", inner], test)) <==>
      Meets(if Provenance(d).Some? then Field(Provenance(d).value, inner) else Null, test)
  {
    DeepIff(d, "agent_activity", "inference_provenance", inner, test);
  }

  lemma ProvenancePartIff(d: Doc)
    ensures MeetsAll(d, RECEIPT_PROVENANCE) <==>
      && Provenance(d).Some?
      && var p := Provenance(d).value;
      Says(p, "mode", "gateway") && IsFalse(p, "source_code_included") && !Truthy(Field(p, "error"))
        && AtLeast(FieldOr(p, "requests", Int(0)), 1.0) && Truthy(Field(p, "request_ids"))
  {
    ProvenanceIff(d, "mode", Is(Str("gateway")));
    ProvenanceIff(d, "source_code_included", Is(Bool(false)));
    ProvenanceIff(d, "error", Nothing);
    ProvenanceIff(d, "requests", NoLess(1));
    ProvenanceIff(d, "request_ids", Something);
    if Provenance(d).Some? {
      CountIff(Provenance(d).value, "requests", 1);
      PlainIff(Provenance(d).value, "requests", NoLess(1));
    }
    hide MeetsAll, Holds, Provenance, AtLeast, FieldOr, Truthy;
    var l := RECEIPT_PROVENANCE;
    TwoFirst(d, l[0], l[1]);
    ThreeFirst(d, l[2], l[3], l[4]);
    ConcatIff(d, [l[0], l[1]], [l[2], l[3], l[4]]);
    assert [l[0], l[1]] + [l[2], l[3], l[4]] == l;
  }

  predicate SignedPasses(signed: Doc, model: string) {
    && Equal(Field(signed, "receipt_version"), Int(4)) && Truthy(Field(signed, "signature"))
    && ObjectOrEmpty(Field(signed, "teardown_proof")) && AllTrue(Fields(Field(signed, "teardown_proof")), SANDBOX_TEARDOWN)
    && ObjectOrEmpty(Field(signed, "canary_check")) && IsFalse(Fields(Field(signed, "canary_check")), "request_succeeded")
    && Provenance(signed).Some?
    && var p := Provenance(signed).value;
    && Says(p, "mode", "gateway") && IsFalse(p, "source_code_included")
    && (model != "" ==> Says(p, "model", model)) && !Truthy(Field(p, "error"))
    && AtLeast(FieldOr(p, "requests", Int(0)), 1.0) && Truthy(Field(p, "request_ids"))
  }

  lemma ReceiptIsSigned(d: Doc, model: string)
    ensures ReceiptPasses(d, model) <==> SignedPasses(Body(["sandbox-receipt", "receipt.json"], d), model)
  {
    hide AllTrue, Equal, AtLeast;
  }

  const SIGNED_MODEL: seq<string> := ["agent_activity", "inference_provenance", "model"]

  lemma ReceiptDemandsSplit(d: Doc, model: string)
    ensures MeetsAll(d, ReceiptDemands(model)) <==>
      && MeetsAll(d, RECEIPT_HEAD) && MeetsAll(d, RECEIPT_TEARDOWN) && MeetsAll(d, RECEIPT_PROVENANCE)
      && (model != "" ==> At(d, SIGNED_MODEL) == Str(model))
  {
    hide MeetsAll, RECEIPT_HEAD, RECEIPT_TEARDOWN, RECEIPT_PROVENANCE, ModelDemand, At;
    ConcatIff(d, RECEIPT_HEAD, RECEIPT_TEARDOWN);
    ConcatIff(d, RECEIPT_HEAD + RECEIPT_TEARDOWN, RECEIPT_PROVENANCE);
    ConcatIff(d, RECEIPT_HEAD + RECEIPT_TEARDOWN + RECEIPT_PROVENANCE, ModelDemand(SIGNED_MODEL, model));
    ModelDemandIff(d, SIGNED_MODEL, model);
  }

  lemma ReceiptTeardownIff(d: Doc)
    ensures MeetsAll(d, RECEIPT_TEARDOWN) <==>
      ObjectOrEmpty(Field(d, "teardown_proof")) && AllTrue(Fields(Field(d, "teardown_proof")), SANDBOX_TEARDOWN)
  {
    var names := ["processes_terminated", "cgroup_removed", "network_namespace_removed", "workspace_removed"];
    assert names == SANDBOX_TEARDOWN;
    hide MeetsAll, Flags, AllTrue, ObjectOrEmpty, Fields, SANDBOX_TEARDOWN;
    PartFlagsIff(d, "teardown_proof", names);
  }

  lemma SignedIff(d: Doc, model: string)
    ensures SignedPasses(d, model) <==> MeetsAll(d, ReceiptDemands(model))
  {
    hide MeetsAll, At, AtLeast, FieldOr, Field, RECEIPT_HEAD, RECEIPT_PROVENANCE, RECEIPT_TEARDOWN, ReceiptDemands, Provenance, AllTrue,
      ObjectOrEmpty, Fields, Equal, Truthy, SIGNED_MODEL;
    ReceiptDemandsSplit(d, model);
    ReceiptHeadIff(d);
    ReceiptTeardownIff(d);
    ProvenancePartIff(d);
    if Provenance(d).Some? {
      ProvenancePlace(d);
    }
  }

  lemma ProvenancePlace(d: Doc)
    requires Provenance(d).Some?
    ensures At(d, SIGNED_MODEL) == Field(Provenance(d).value, "model")
  {
    assert ["agent_activity", "inference_provenance", "model"][1..] == ["inference_provenance", "model"];
    PartPlace(Field(d, "agent_activity").fields, "inference_provenance", "model");
  }

  /** What the gate checks of the receipt is the table's sheet of its signed payload. */
  lemma ReceiptIff(d: Doc, model: string)
    ensures ReceiptPasses(d, model) <==> MeetsAll(Body(["sandbox-receipt", "receipt.json"], d), ReceiptDemands(model))
  {
    hide ReceiptPasses, SignedPasses, MeetsAll, ReceiptDemands;
    ReceiptIsSigned(d, model);
    SignedIff(Body(["sandbox-receipt", "receipt.json"], d), model);
  }

  // identity, cost and rollback

  lemma BindingIff(d: Doc, commit: string)
    ensures BindingPasses(d, commit) <==>
      MeetsAll(d, [Yes("passed"), Demand(["release_commit"], Is(Str(commit)))]) && PinnedText(Field(d, "deep_image"))
  {
    FlagIff(d, "passed");
    PlainIff(d, "release_commit", Is(Str(commit)));
    TwoFirst(d, Yes("passed"), Demand(["release_commit"], Is(Str(commit))));
    hide MeetsAll, Holds, IsTrue, PinnedText;
  }

  lemma IdentityIff(d: Doc, commit: string)
    ensures MeetsAll(d, [Yes("passed"), Demand(["release_commit"], Is(Str(commit))), Demand(["github_sha"], Is(Str(commit)))])
      <==> IsTrue(d, "passed") && Says(d, "release_commit", commit) && Says(d, "github_sha", commit)
    ensures MeetsAll(d, [Yes("passed"), Demand(["release_commit"], Is(Str(commit)))])
      <==> IsTrue(d, "passed") && Says(d, "release_commit", commit)
  {
    FlagIff(d, "passed");
    PlainIff(d, "release_commit", Is(Str(commit)));
    PlainIff(d, "github_sha", Is(Str(commit)));
    TwoFirst(d, Yes("passed"), Demand(["release_commit"], Is(Str(commit))));
    ThreeFirst(d, Yes("passed"), Demand(["release_commit"], Is(Str(commit))), Demand(["github_sha"], Is(Str(commit))));
    hide MeetsAll, Holds, IsTrue;
  }

  /** A figure that `float()` reads and that is not negative. */
  predicate Figure(codec: Codec, v: Json) {
    match v
    case Bool(_) => true
    case Int(n) => 0 <= n && !TooLarge(v)
    case Float(r) => 0.0 <= r
    case Str(s) => codec.ParseFloat(s).Some? && 0.0 <= codec.ParseFloat(s).value
    case _ => false
  }

  lemma FigureIff(codec: Codec, d: Doc, key: string)
    ensures NonNegativeFloat(codec, d, key) <==> Figure(codec, Field(d, key))
  {
    hide Pow2;
  }

  /** What the cost report must say beyond its sheet: usable figures, and all requests completed. */
  predicate FiguresHold(codec: Codec, d: Doc) {
    && Figure(codec, Field(d, "assumption_instance_hourly_usd"))
    && Figure(codec, Field(d, "estimated_cost_per_request_usd"))
    && Figure(codec, Field(d, "estimated_cost_per_representative_run_usd"))
    && Equal(Field(d, "requests_completed"), Field(d, "requests_requested"))
  }

  lemma CostIff(codec: Codec, d: Doc)
    ensures CostPasses(codec, d) <==> MeetsAll(d, COST_DEMANDS) && FiguresHold(codec, d)
  {
    FlagIff(d, "passed");
    PlainIff(d, "benchmark_repeats", Counts(3));
    CountIff(d, "requests_completed", 1);
    CountIff(d, "representative_run_requests", 1);
    FigureIff(codec, d, "assumption_instance_hourly_usd");
    FigureIff(codec, d, "estimated_cost_per_request_usd");
    FigureIff(codec, d, "estimated_cost_per_representative_run_usd");
    hide MeetsAll, Holds, IsTrue, Equal, AtLeast, NonNegativeFloat, Figure, Field, FieldOr;
    var l := COST_DEMANDS;
    TwoFirst(d, l[0], l[1]);
    TwoFirst(d, l[2], l[3]);
    ConcatIff(d, [l[0], l[1]], [l[2], l[3]]);
    assert [l[0], l[1]] + [l[2], l[3]] == l;
  }

  /** What the rollback must say beyond its sheet: an earlier release, with its own image and
      commit, and a binding that names the same two. */
  predicate RollbackFits(rollback: Doc, rollbackBinding: Doc, binding: Doc, commit: string) {
    && PinnedText(Field(rollback, "restored_image")) && Field(rollback, "restored_image") != Field(binding, "deep_image")
    && CommitText(Field(rollback, "restored_commit")) && Field(rollback, "restored_commit") != Str(commit)
    && Field(rollback, "restored_image") == Field(rollbackBinding, "deep_image")
    && Field(rollback, "restored_commit") == Field(rollbackBinding, "release_commit")
  }

  lemma RollbackIff(rollback: Doc, rollbackBinding: Doc, binding: Doc, commit: string)
    ensures RollbackPasses(rollback, rollbackBinding, binding, commit) <==>
      && MeetsAll(rollback, ROLLBACK_DEMANDS) && MeetsAll(rollbackBinding, [Yes("passed")])
      && RollbackFits(rollback, rollbackBinding, binding, commit)
  {
    var keys := ["passed", "manifest_verified", "smoke_passed"];
    hide MeetsAll, Holds, IsTrue, PinnedText, CommitText, Flags;
    FlagsIff(rollback, keys);
    assert keys[0] == "passed" && keys[1] == "manifest_verified" && keys[2] == "smoke_passed";
    FlagIff(rollbackBinding, "passed");
    OneIff(rollbackBinding, Yes("passed"));
  }

  // ---------------------------------------------------------- whole directories

  predicate AllSheets(e: Evidence, sheets: seq<Sheet>) { forall x :: x in sheets ==> SheetHolds(e, x) }

  lemma SheetsConcat(e: Evidence, a: seq<Sheet>, b: seq<Sheet>)
    ensures AllSheets(e, a + b) <==> AllSheets(e, a) && AllSheets(e, b)
  {
    hide SheetHolds;
    assert forall x :: x in a + b <==> x in a || x in b;
  }

  lemma OneSheet(e: Evidence, x: Sheet)
    ensures AllSheets(e, [x]) <==> SheetHolds(e, x)
  {
    hide SheetHolds;
    assert x in [x];
  }

  lemma TwoSheets(e: Evidence, x: Sheet, y: Sheet)
    ensures AllSheets(e, [x, y]) <==> SheetHolds(e, x) && SheetHolds(e, y)
  {
    OneSheet(e, x);
    OneSheet(e, y);
    SheetsConcat(e, [x], [y]);
    assert [x] + [y] == [x, y];
    hide AllSheets;
  }

  lemma SixSheets(e: Evidence, s: seq<Sheet>)
    requires |s| == 6
    ensures AllSheets(e, s) <==>
      SheetHolds(e, s[0]) && SheetHolds(e, s[1]) && SheetHolds(e, s[2]) && SheetHolds(e, s[3]) && SheetHolds(e, s[4]) && SheetHolds(e, s[5])
  {
    TwoSheets(e, s[0], s[1]);
    TwoSheets(e, s[2], s[3]);
    TwoSheets(e, s[4], s[5]);
    SheetsConcat(e, [s[0], s[1]], [s[2], s[3]]);
    SheetsConcat(e, [s[0], s[1]] + [s[2], s[3]], [s[4], s[5]]);
    assert [s[0], s[1]] + [s[2], s[3]] + [s[4], s[5]] == s;
    hide AllSheets, SheetHolds;
  }

  lemma SheetIff(e: Evidence, file: Path, demands: seq<Demand>)
    requires file != RECEIPT
    ensures SheetHolds(e, Sheet(file, demands)) <==> Loaded(e, file) && MeetsAll(Read(e, file), demands)
  {
    hide Evidence.Load, MeetsAll;
  }

  lemma CommonIff(e: Evidence, commit: string)
    ensures CommonPasses(e, commit) <==>
      AllSheets(e, CommonSheets(commit)) && PinnedText(Field(Read(e, ["deep-image-binding.json"]), "deep_image"))
  {
    var s := CommonSheets(commit);
    hide AllSheets, SheetHolds, Loaded, Read, MeetsAll, PinnedText, IsTrue, AllTrue, BindingPasses, WorkerPasses, Equal, Field, Evidence.Load;
    SixSheets(e, s);
    SheetIff(e, CONFIGURATION, [Yes("passed")]);
    OneIff(Read(e, CONFIGURATION), Yes("passed"));
    FlagIff(Read(e, CONFIGURATION), "passed");
    SheetIff(e, MANIFEST_CHECK, MANIFEST_DEMANDS);
    ManifestIff(Read(e, MANIFEST_CHECK));
    SheetIff(e, BINDING, [Yes("passed"), Demand(["release_commit"], Is(Str(commit)))]);
    BindingIff(Read(e, BINDING), commit);
    SheetIff(e, WORKER, WORKER_DEMANDS);
    WorkerIff(Read(e, WORKER));
    SheetIff(e, REPORTING, REPORTING_DEMANDS);
    ReportingIff(Read(e, REPORTING));
    SheetIff(e, ISOLATION, Flags([], ISOLATION_FLAGS, true));
    IsolationIff(Read(e, ISOLATION));
  }

  /** The names, texts and digests that tie the metadata to one release. */
  predicate MetadataFits(e: Evidence, commit: string) {
    var binding, environment := Read(e, ["deep-image-binding.json"]), Read(e, ["environment-setup.json"]);
    && (forall name :: name in METADATA_FILES ==> e.Has(name))
    && DigitsText(Field(Read(e, ["run-identity.json"]), "github_run_id"))
    && e.TextOf(["commit.txt"]) == Some(commit)
    && e.TextOf(["deep-image-digest.txt"]).Some?
    && Field(binding, "deep_image") == Str(e.TextOf(["deep-image-digest.txt"]).value)
    && Field(environment, "deep_image") == Field(binding, "deep_image")
    && Hex64Text(Field(environment, "binary_sha256"))
    && e.TextOf(["manifest.sha256"]).Some?
    && Hex64(e.TextOf(["manifest.sha256"]).value)
    && IsFile(e.tree, e.root + ["model-artifacts.json"])
    && e.codec.Sha(Content(e.tree, e.root + ["model-artifacts.json"])) == e.TextOf(["manifest.sha256"]).value
  }

  const METADATA_FILES: seq<Path> := [
    ["run-identity.json"], ["commit.txt"], ["python-version.txt"], ["manifest.sha256"], ["model-artifacts.json"],
    ["deep-image-digest.txt"], ["previous-model-artifacts.json"]]

  const RECEIPT_FILES: seq<Path> := [
    ["sandbox-receipt", "receipt.json"], ["sandbox-receipt", "receipt-key.pub.pem"],
    ["sandbox-receipt", "evidence", "manifest.json"], ["sandbox-receipt", "evidence", "events.jsonl"]]

  lemma ThereIff(e: Evidence, names: seq<Path>)
    ensures AllThere(e, names) <==> forall name :: name in names ==> e.Has(name)
  {
    hide Evidence.Has;
    forall k | 0 <= k < |names| && (forall name :: name in names ==> e.Has(name)) ensures e.Has(names[k]) {
      assert names[k] in names;
    }
  }

  lemma MetadataIff(e: Evidence, commit: string)
    ensures var identity, environment := Read(e, RUN_IDENTITY), Read(e, ENVIRONMENT);
      (AllThere(e, METADATA) && MetadataPasses(e, commit, Read(e, BINDING), identity, environment)) <==>
      && MetadataFits(e, commit) && Says(identity, "release_commit", commit) && Says(identity, "github_sha", commit)
      && Says(environment, "release_commit", commit)
  {
    ThereIff(e, METADATA);
    assert METADATA == METADATA_FILES;
    assert MODEL_ARTIFACTS in METADATA by { assert METADATA[4] == MODEL_ARTIFACTS; }
    assert e.Has(MODEL_ARTIFACTS) ==> IsFile(e.tree, e.root + MODEL_ARTIFACTS);
    hide Read, Evidence.Has, Evidence.TextOf, IsFile, Content, DigitsText, Hex64, Hex64Text, METADATA, METADATA_FILES, AllThere, Field;
  }

  lemma OutcomesIff(e: Evidence, commit: string)
    ensures OutcomesPass(e, commit) <==>
      AllSheets(e, OutcomeSheets(commit)) && MetadataFits(e, commit) && FiguresHold(e.codec, Read(e, ["cost-report.json"]))
  {
    var s := OutcomeSheets(commit);
    hide AllSheets, SheetHolds, Loaded, Read, MeetsAll, IsTrue, AllTrue, CostPasses, FailurePasses, RedactionPasses, FiguresHold, MetadataFits,
      MetadataPasses, AllThere, Evidence.Load, Says;
    SixSheets(e, s);
    SheetIff(e, RUN_IDENTITY, s[0].demands);
    IdentityIff(Read(e, RUN_IDENTITY), commit);
    SheetIff(e, ENVIRONMENT, s[1].demands);
    IdentityIff(Read(e, ENVIRONMENT), commit);
    MetadataIff(e, commit);
    SheetIff(e, COST, COST_DEMANDS);
    CostIff(e.codec, Read(e, COST));
    SheetIff(e, FAILURE, FAILURE_DEMANDS);
    FailureIff(Read(e, FAILURE));
    SheetIff(e, REDACTION, REDACTION_DEMANDS);
    RedactionIff(Read(e, REDACTION));
    SheetIff(e, TEARDOWN, Flags([], TEARDOWN_FLAGS, true));
    TeardownIff(Read(e, TEARDOWN));
  }

  predicate RollbackRelated(e: Evidence, commit: string) {
    RollbackFits(Read(e, ["rollback.json"]), Read(e, ["rollback-image-binding.json"]), Read(e, ["deep-image-binding.json"]), commit)
  }

  lemma PassedSheet(e: Evidence, file: Path)
    requires file != RECEIPT
    ensures SheetHolds(e, Sheet(file, [Yes("passed")])) <==> Loaded(e, file) && IsTrue(Read(e, file), "passed")
  {
    SheetIff(e, file, [Yes("passed")]);
    OneIff(Read(e, file), Yes("passed"));
    FlagIff(Read(e, file), "passed");
    hide SheetHolds, MeetsAll, Loaded, Read;
  }

  lemma FinalIff(e: Evidence)
    ensures AllSheets(e, FINAL_SHEETS) <==>
      && Loaded(e, VERIFICATION) && Loaded(e, INDEPENDENT_REDACTION)
      && VerificationPasses(Read(e, VERIFICATION)) && RescanPasses(Read(e, INDEPENDENT_REDACTION))
  {
    hide AllSheets, SheetHolds, Loaded, Read, MeetsAll, VerificationPasses, RescanPasses, Evidence.Load;
    TwoSheets(e, FINAL_SHEETS[0], FINAL_SHEETS[1]);
    SheetIff(e, VERIFICATION, VERIFICATION_DEMANDS);
    VerificationIff(Read(e, VERIFICATION));
    SheetIff(e, INDEPENDENT_REDACTION, RESCAN_DEMANDS);
    RescanIff(Read(e, INDEPENDENT_REDACTION));
  }

  lemma RollbackDocsIff(e: Evidence, commit: string, final: bool)
    ensures RollbackDocsPass(e, commit, final) <==>
      AllSheets(e, ROLLBACK_SHEETS) && RollbackRelated(e, commit) && (final ==> AllSheets(e, FINAL_SHEETS))
  {
    var s := ROLLBACK_SHEETS;
    hide AllSheets, SheetHolds, Loaded, Read, MeetsAll, IsTrue, RollbackPasses, RollbackFits, VerificationPasses, RescanPasses, Evidence.Load;
    SixSheets(e, s);
    PassedSheet(e, PREVIOUS_MANIFEST);
    PassedSheet(e, ROLLBACK_BINDING);
    PassedSheet(e, ROLLBACK_WORKER);
    PassedSheet(e, ROLLBACK_REPORTING);
    PassedSheet(e, ROLLBACK_ISOLATION);
    SheetIff(e, ROLLBACK, ROLLBACK_DEMANDS);
    RollbackIff(Read(e, ROLLBACK), Read(e, ROLLBACK_BINDING), Read(e, BINDING), commit);
    OneIff(Read(e, ROLLBACK_BINDING), Yes("passed"));
    FlagIff(Read(e, ROLLBACK_BINDING), "passed");
    FinalIff(e);
  }

  lemma ExchangeIff(e: Evidence, model: string)
    ensures AllSheets(e, [Sheet(["gateway-smoke.json"], GatewayDemands(model)), Sheet(["sandbox-receipt", "receipt.json"], ReceiptDemands(model))])
      <==> Loaded(e, GATEWAY) && GatewayPasses(Read(e, GATEWAY), model) && Loaded(e, RECEIPT) && ReceiptPasses(Read(e, RECEIPT), model)
  {
    hide AllSheets, MeetsAll, GatewayPasses, ReceiptPasses, GatewayDemands, ReceiptDemands, Evidence.Load, Body;
    TwoSheets(e, Sheet(GATEWAY, GatewayDemands(model)), Sheet(RECEIPT, ReceiptDemands(model)));
    SheetIff(e, GATEWAY, GatewayDemands(model));
    GatewayIff(Read(e, GATEWAY), model);
    ReceiptIff(Read(e, RECEIPT), model);
  }

  const REPEAT_NAMES: seq<(Path, Path)> := [
    (["model-benchmark-1.json"], ["model-benchmark-1.md"]), (["model-benchmark-2.json"], ["model-benchmark-2.md"]),
    (["model-benchmark-3.json"], ["model-benchmark-3.md"])]

  const LEVEL_CONCURRENCIES: seq<int> := [1, 2, 4]

  function LevelDemands(concurrency: int): seq<Demand> {
    [Demand(["concurrency"], Counts(concurrency)), Demand(["failed"], Counts(0)), Demand(["leakage_failures"], Counts(0))]
  }

  /** One level: the right concurrency, no failure, and every request succeeded and verified. */
  predicate LevelFits(level: Json, concurrency: int) {
    && level.Obj? && MeetsAll(level.fields, LevelDemands(concurrency))
    && Equal(Field(level.fields, "requests"), Field(level.fields, "succeeded"))
    && Equal(Field(level.fields, "requests"), Field(level.fields, "canaries_verified"))
  }

  /** One repeat: three such levels of a named endpoint, and its rendering. */
  predicate RepeatFits(e: Evidence, i: int)
    requires 0 <= i < 3
  {
    var (name, text) := REPEAT_NAMES[i];
    var levels := Field(Read(e, name), "levels");
    && e.Load(name).Ok? && e.Has(text)
    && levels.Arr? && |levels.items| == 3
    && (forall k :: 0 <= k < 3 ==> LevelFits(levels.items[k], LEVEL_CONCURRENCIES[k]))
    && Hex64Text(Field(Read(e, name), "endpoint_sha256"))
  }

  lemma LevelIff(level: Json, concurrency: int)
    ensures LevelFits(level, concurrency) <==>
      level.Obj? && Equal(Field(level.fields, "concurrency"), Int(concurrency)) && LevelPasses(level.fields)
  {
    if level.Obj? {
      var d := level.fields;
      PlainIff(d, "concurrency", Counts(concurrency));
      PlainIff(d, "failed", Counts(0));
      PlainIff(d, "leakage_failures", Counts(0));
      ThreeFirst(d, LevelDemands(concurrency)[0], LevelDemands(concurrency)[1], LevelDemands(concurrency)[2]);
      hide MeetsAll, Holds, Field;
    }
  }

  lemma RepeatIff(e: Evidence, i: int)
    requires 0 <= i < 3
    ensures RepeatFits(e, i) <==> RepeatPasses(e, i)
  {
    hide LevelFits, LevelPasses, Equal, Field, Hex64Text, Evidence.Load, Evidence.Has;
    assert REPEAT_NAMES[i] == (BENCHMARKS[i], BENCHMARK_TEXTS[i]);
    assert LEVEL_CONCURRENCIES == CONCURRENCIES;
    forall level, concurrency ensures LevelFits(level, concurrency) <==>
      level.Obj? && Equal(Field(level.fields, "concurrency"), Int(concurrency)) && LevelPasses(level.fields)
    {
      LevelIff(level, concurrency);
    }
  }

  /** What ties the documents to each other and to the other files of the directory. */
  predicate Related(e: Evidence, commit: string) {
    && PinnedText(Field(Read(e, ["deep-image-binding.json"]), "deep_image"))
    && MetadataFits(e, commit)
    && FiguresHold(e.codec, Read(e, ["cost-report.json"]))
    && (forall i :: 0 <= i < 3 ==> RepeatFits(e, i))
    && (forall name :: name in RECEIPT_FILES ==> e.Has(name))
    && RollbackRelated(e, commit)
  }

  /** MAIN RESULT. The gate, section by section over a dozen predicates, demands exactly the table
      and what ties the documents together. */
  lemma GateIffTable(e: Evidence, commit: string, model: string, final: bool)
    ensures Gate5Passes(e, commit, model, final) <==> AllSheets(e, Sheets(commit, model, final)) && Related(e, commit)
  {
    hide AllSheets, CommonPasses, OutcomesPass, GatewayPasses, ReceiptPasses, RollbackDocsPass, RepeatPasses, RepeatFits, AllThere, MetadataFits, FiguresHold,
      RollbackRelated, PinnedText, Read, Loaded, Evidence.Has, CommonSheets, OutcomeSheets, ROLLBACK_SHEETS, FINAL_SHEETS, GatewayDemands,
      ReceiptDemands;
    CommonIff(e, commit);
    OutcomesIff(e, commit);
    ExchangeIff(e, model);
    RollbackDocsIff(e, commit, final);
    ThereIff(e, BUNDLE_FILES);
    forall i | 0 <= i < 3 ensures RepeatFits(e, i) <==> RepeatPasses(e, i) {
      RepeatIff(e, i);
    }
    assert BUNDLE_FILES == RECEIPT_FILES;
    var common, outcomes := CommonSheets(commit), OutcomeSheets(commit);
    var exchange := [Sheet(["gateway-smoke.json"], GatewayDemands(model)), Sheet(["sandbox-receipt", "receipt.json"], ReceiptDemands(model))];
    SheetsConcat(e, common, outcomes);
    SheetsConcat(e, common + outcomes, exchange);
    SheetsConcat(e, common + outcomes + exchange, ROLLBACK_SHEETS);
    SheetsConcat(e, common + outcomes + exchange + ROLLBACK_SHEETS, if final then FINAL_SHEETS else []);
    NoSheets(e);
  }

  lemma NoSheets(e: Evidence)
    ensures AllSheets(e, [])
  {
  }

  // ------------------------------------------------------------------- tampers

  /** The document with the member at a place replaced. */
  function With(d: Doc, place: seq<string>, v: Json): Doc
    requires place != []
    decreases |place|
  {
    if |place| == 1 then d[place[0] := v]
    else
      var part := if Field(d, place[0]).Obj? then Field(d, place[0]).fields else map[];
      d[place[0] := Obj(With(part, place[1..], v))]
  }

  lemma {:induction false} AtWith(d: Doc, place: seq<string>, v: Json)
    requires place != []
    ensures At(With(d, place, v), place) == v
    decreases |place|
  {
    if |place| > 1 {
      var part := if Field(d, place[0]).Obj? then Field(d, place[0]).fields else map[];
      AtWith(part, place[1..], v);
    }
  }

  /** The same inside a receipt's signed payload, which may stand alone or under a key. */
  function Tampered(file: Path, d: Doc, place: Place, v: Json): Doc {
    if file == ["sandbox-receipt", "receipt.json"] then d["receipt" := Obj(With(Body(file, d), place, v))]
    else With(d, place, v)
  }

  lemma BodyTampered(file: Path, d: Doc, place: Place, v: Json)
    ensures At(Body(file, Tampered(file, d, place, v)), place) == v
  {
    AtWith(Body(file, d), place, v);
    hide At;
  }

  /** MAIN RESULT. Replace the member at any place of the table, in any document of an evidence
      directory, by any value that does not meet the demand: the gate refuses the directory. */
  lemma TamperRefused(e: Evidence, t: Evidence, commit: string, model: string, final: bool, sheet: Sheet, demand: Demand, v: Json)
    requires sheet in Sheets(commit, model, final) && demand in sheet.demands
    requires t.Load(sheet.file) == Ok(Tampered(sheet.file, Read(e, sheet.file), demand.place, v))
    requires !Meets(v, demand.test)
    ensures !Gate5Passes(t, commit, model, final)
  {
    hide Sheets, Gate5Passes, Related, Meets, Tampered, At, Body, Evidence.Load, Read;
    BodyTampered(sheet.file, Read(e, sheet.file), demand.place, v);
    assert !Holds(Body(sheet.file, t.Load(sheet.file).value), demand);
    assert !SheetHolds(t, sheet);
    GateIffTable(t, commit, model, final);
  }

  /** The tampered document in the place of the old one. */
  function Stored(e: Evidence, file: Path, d: Doc): Evidence {
    e.(tree := e.tree.(files := e.tree.files[e.root + file := e.codec.Dump(Obj(d))]))
  }

  /** MAIN RESULT. The same on disk: the tampered document is written over the old one, and the
      gate on the tree that then lies there returns no file list. */
  method GateOnTampered(e: Evidence, commit: string, model: string, final: bool, sheet: Sheet, demand: Demand, v: Json)
    returns (r: Result<seq<Path>>)
    requires e.PlainTree() && e.codec.Lawful() && sheet in Sheets(commit, model, final) && demand in sheet.demands
    requires Clean(sheet.file) && Exact(Obj(Tampered(sheet.file, Read(e, sheet.file), demand.place, v)))
    requires !Meets(v, demand.test)
    ensures !r.Ok?
  {
    hide Sheets, Gate5Passes, Meets, Tampered, Exact;
    ghost var d := Tampered(sheet.file, Read(e, sheet.file), demand.place, v);
    StoredLoads(e, sheet.file, d);
    TamperRefused(e, Stored(e, sheet.file, d), commit, model, final, sheet, demand, v);
    r := Gate5(Stored(e, sheet.file, Tampered(sheet.file, Read(e, sheet.file), demand.place, v)), commit, model, final);
  }

  lemma StoredLoads(e: Evidence, file: Path, d: Doc)
    requires e.PlainTree() && e.codec.Lawful() && Clean(file) && Exact(Obj(d))
    ensures Stored(e, file, d).PlainTree() && Stored(e, file, d).Load(file) == Ok(d)
  {
    var t := Stored(e, file, d);
    assert Clean(e.root + file);
    t.PlainResolve(file);
    hide Clean, Exact;
  }

  // ------------------------------------------------------------ uncaught errors

  /** A value that is read with `get` without being an object. */
  predicate Unreadable(j: Json) { !j.Obj? && Truthy(j) }

  /** Which documents end the gate in an uncaught error once they are reached: a benchmark with a level
      that is no object, and a cost report whose first unreadable figure is an integer too large. */
  lemma CrashingDocuments(codec: Codec, d: Doc)
    ensures BenchmarkCrashes(d) <==> Field(d, "levels").Arr? && exists level :: level in Field(d, "levels").items && !level.Obj?
    ensures CostCrashes(codec, d) <==>
      var hourly, request, run := Field(d, "assumption_instance_hourly_usd"), Field(d, "estimated_cost_per_request_usd"),
        Field(d, "estimated_cost_per_representative_run_usd");
      || TooLarge(hourly)
      || (AsFloat(codec, hourly).Some? && TooLarge(request))
      || (AsFloat(codec, hourly).Some? && AsFloat(codec, request).Some? && TooLarge(run))
  {
    hide Pow2;
    if Field(d, "levels").Arr? {
      var items := Field(d, "levels").items;
      assert forall i :: 0 <= i < |items| ==> items[i] in items;
    }
    var l := COST_FIGURES;
    assert |l| == 3 && l[0] == "assumption_instance_hourly_usd" && l[1] == "estimated_cost_per_request_usd"
      && l[2] == "estimated_cost_per_representative_run_usd";
    hide TooLarge;
    if TooLarge(Field(d, l[0])) {
      assert l[0] in d;
    } else if AsFloat(codec, Field(d, l[0])).Some? && TooLarge(Field(d, l[1])) {
      assert l[1] in d;
    } else if AsFloat(codec, Field(d, l[0])).Some? && AsFloat(codec, Field(d, l[1])).Some? && TooLarge(Field(d, l[2])) {
      assert l[2] in d;
    }
  }

  /** And a receipt: its wrapper, or a part that is reached, is not an object. */
  lemma CrashingReceipts(d: Doc)
    ensures ReceiptCrashes(d) <==>
      var signed := Body(["sandbox-receipt", "receipt.json"], d);
      || ("receipt" in d && !d["receipt"].Obj?)
      || (ReceiptHeadFine(signed) && Unreadable(Field(signed, "teardown_proof")))
      || (ReceiptHeadFine(signed) && MeetsAll(signed, RECEIPT_TEARDOWN) && Unreadable(Field(signed, "canary_check")))
      || (ReceiptHeadFine(signed) && MeetsAll(signed, RECEIPT_TEARDOWN)
            && Holds(signed, Demand(["canary_check", "request_succeeded"], Is(Bool(false))))
            && (Unreadable(Field(signed, "agent_activity"))
                  || (Field(signed, "agent_activity").Obj? && Unreadable(Field(Field(signed, "agent_activity").fields, "inference_provenance")))))
  {
    var signed := Body(["sandbox-receipt", "receipt.json"], d);
    ReceiptTeardownIff(signed);
    PartIff(signed, "canary_check", "request_succeeded", Is(Bool(false)));
    hide MeetsAll, Holds, Equal, AllTrue, RECEIPT_TEARDOWN;
  }

  predicate ReceiptHeadFine(signed: Doc) { Equal(Field(signed, "receipt_version"), Int(4)) && Truthy(Field(signed, "signature")) }

  /** The six outcome documents, each of which must say that it passed before any is looked into. */
  const OUTCOME_NAMES: seq<Path> := [
    ["run-identity.json"], ["environment-setup.json"], ["cost-report.json"], ["failure-evidence.json"], ["redaction-check.json"],
    ["teardown-check.json"]]

  predicate Passed(e: Evidence, name: Path) { e.Load(name).Ok? && Field(Read(e, name), "passed") == Bool(true) }

  /** The cost section is reached and crashes. */
  predicate CostReached(e: Evidence, commit: string) {
    && (forall i :: 0 <= i < 6 ==> Passed(e, OUTCOME_NAMES[i]))
    && MetadataFits(e, commit)
    && Says(Read(e, ["run-identity.json"]), "release_commit", commit) && Says(Read(e, ["run-identity.json"]), "github_sha", commit)
    && Says(Read(e, ["environment-setup.json"]), "release_commit", commit)
    && CostCrashes(e.codec, Read(e, ["cost-report.json"]))
  }

  lemma CostReachedIff(e: Evidence, commit: string)
    ensures OutcomesCrash(e, commit) <==> CostReached(e, commit)
  {
    MetadataIff(e, commit);
    PassedIff(e);
    hide Evidence.Load, Read, Loaded, IsTrue, AllThere, MetadataPasses, MetadataFits, Says, CostCrashes, Passed, OUTCOME_NAMES;
  }

  lemma PassedIff(e: Evidence)
    ensures (forall i :: 0 <= i < 6 ==> Passed(e, OUTCOME_NAMES[i])) <==>
      && Loaded(e, RUN_IDENTITY) && IsTrue(Read(e, RUN_IDENTITY), "passed")
      && Loaded(e, ENVIRONMENT) && IsTrue(Read(e, ENVIRONMENT), "passed")
      && Loaded(e, COST) && IsTrue(Read(e, COST), "passed")
      && Loaded(e, FAILURE) && IsTrue(Read(e, FAILURE), "passed")
      && Loaded(e, REDACTION) && IsTrue(Read(e, REDACTION), "passed")
      && Loaded(e, TEARDOWN) && IsTrue(Read(e, TEARDOWN), "passed")
  {
    hide Evidence.Load, Read;
    var l := OUTCOME_NAMES;
    assert (forall i :: 0 <= i < 6 ==> Passed(e, l[i])) <==>
      Passed(e, l[0]) && Passed(e, l[1]) && Passed(e, l[2]) && Passed(e, l[3]) && Passed(e, l[4]) && Passed(e, l[5]);
  }

  /** A repeat is reached and holds a level that is no object. */
  predicate RepeatReached(e: Evidence) {
    exists i :: 0 <= i < 3 && (forall k :: 0 <= k < i ==> RepeatFits(e, k))
      && e.Load(REPEAT_NAMES[i].0).Ok? && BenchmarkCrashes(Read(e, REPEAT_NAMES[i].0))
  }

  lemma RepeatReachedIff(e: Evidence)
    ensures RepeatsCrash(e) <==> RepeatReached(e)
  {
    hide RepeatFits, RepeatPasses, BenchmarkCrashes, Evidence.Load, Read;
    forall i | 0 <= i < 3 ensures (RepeatFits(e, i) <==> RepeatPasses(e, i)) && REPEAT_NAMES[i].0 == BENCHMARKS[i] {
      RepeatIff(e, i);
    }
    hide REPEAT_NAMES;
    if RepeatsCrash(e) {
      var i :| 0 <= i < 3 && (forall k :: 0 <= k < i ==> RepeatPasses(e, k))
        && Loaded(e, BENCHMARKS[i]) && BenchmarkCrashes(Read(e, BENCHMARKS[i]));
      assert forall k :: 0 <= k < i ==> RepeatFits(e, k);
    }
    if RepeatReached(e) {
      var i :| 0 <= i < 3 && (forall k :: 0 <= k < i ==> RepeatFits(e, k))
        && e.Load(REPEAT_NAMES[i].0).Ok? && BenchmarkCrashes(Read(e, REPEAT_NAMES[i].0));
      assert forall k :: 0 <= k < i ==> RepeatPasses(e, k);
    }
  }

  /** MAIN RESULT. The gate ends in an uncaught error exactly when everything it reads before holds and
      then the cost figures, a repeat, or the receipt crash: a document that crashes behind a failed
      demand is never reached. */
  lemma CrashIffReached(e: Evidence, commit: string, model: string)
    ensures Gate5Crashes(e, commit, model) <==>
      && AllSheets(e, CommonSheets(commit)) && PinnedText(Field(Read(e, ["deep-image-binding.json"]), "deep_image"))
      && (CostReached(e, commit)
            || (AllSheets(e, OutcomeSheets(commit)) && MetadataFits(e, commit) && FiguresHold(e.codec, Read(e, ["cost-report.json"]))
                  && SheetHolds(e, Sheet(["gateway-smoke.json"], GatewayDemands(model)))
                  && (RepeatReached(e)
                        || ((forall i :: 0 <= i < 3 ==> RepeatFits(e, i))
                              && e.Load(["sandbox-receipt", "receipt.json"]).Ok? && ReceiptCrashes(Read(e, ["sandbox-receipt", "receipt.json"]))))))
  {
    hide AllSheets, SheetHolds, CommonPasses, OutcomesPass, OutcomesCrash, CostReached, GatewayPasses, RepeatsCrash, RepeatReached, RepeatPasses,
      RepeatFits, ReceiptCrashes, MetadataFits, FiguresHold, PinnedText, Read, Evidence.Load, CommonSheets, OutcomeSheets, GatewayDemands, MeetsAll, Field;
    CommonIff(e, commit);
    OutcomesIff(e, commit);
    CostReachedIff(e, commit);
    CrashedOutcomesFail(e, commit);
    SheetIff(e, GATEWAY, GatewayDemands(model));
    GatewayIff(Read(e, GATEWAY), model);
    RepeatReachedIff(e);
    forall i | 0 <= i < 3 ensures RepeatFits(e, i) <==> RepeatPasses(e, i) {
      RepeatIff(e, i);
    }
  }
}

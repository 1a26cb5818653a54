/** The independent verifier's run, and the report it leaves for the final gate. */
module VerifierReport {
  import opened Wrappers
  import opened Json
  import opened FileTree
  import opened EvidenceGate
  import opened EvidenceIndex
  import opened ReceiptBundle

  /** What the verifier learns outside these files: whether staging credentials were inherited,
      and the signature verifier's verdicts on the receipt and on the tampered receipt. */
  datatype Session = Session(secrets: bool, receiptValid: bool, tamperedValid: bool, passedCount: nat, failedCount: nat)

  /** The four files whose digests the report records. */
  const SIGNED_FILES: seq<Path> := [RECEIPT, RECEIPT_KEY, EVIDENCE_MANIFEST, EVIDENCE_EVENTS]

  predicate SignedFilesPresent(e: Evidence) {
    forall p :: p in SIGNED_FILES ==> IsFile(e.tree, e.root + p)
  }

  function Digest(e: Evidence, p: Path): (j: Json)
    requires IsFile(e.tree, e.root + p)
    ensures j.Str?
  {
    Str(e.codec.Sha(Content(e.tree, e.root + p)))
  }

  function CheckDoc(passed: bool): Json { Obj(map["passed" := Bool(passed), "outcome" := Str("rejected")]) }

  function MatrixDoc(checks: Option<Matrix>): Doc {
    match checks
    case None => map[]
    case Some(m) =>
      map["model_image_identity" := CheckDoc(m.image), "base_model_sha256" := CheckDoc(m.base),
          "adapter_sha256" := CheckDoc(m.adapter), "teardown_status" := CheckDoc(m.teardown)]
  }

  function One(b: bool): nat { if b then 1 else 0 }

  function PassedChecks(checks: Option<Matrix>): nat {
    match checks
    case None => 0
    case Some(m) => One(m.image) + One(m.base) + One(m.adapter) + One(m.teardown)
  }

  function PassedReport(e: Evidence, s: Session, semantic: bool, checks: Option<Matrix>): Doc
    requires SignedFilesPresent(e)
  {
    map["passed" := Bool(true),
        "status" := Str("VALID"),
        "checks_passed_count" := Int(s.passedCount),
        "checks_failed_count" := Int(s.failedCount),
        "staging_secrets_present" := Bool(false),
        "receipt_sha256" := Digest(e, RECEIPT),
        "public_key_sha256" := Digest(e, RECEIPT_KEY),
        "evidence_manifest_sha256" := Digest(e, EVIDENCE_MANIFEST),
        "evidence_events_sha256" := Digest(e, EVIDENCE_EVENTS),
        "producer_index_verified" := Bool(semantic),
        "acceptance_semantics_verified" := Bool(semantic),
        "tamper_checks_passed_count" := Int(PassedChecks(checks)),
        "tamper_checks" := Obj(MatrixDoc(checks))]
  }

  function FailedReport(s: Session): Doc {
    map["passed" := Bool(false), "status" := Str("VERIFICATION_FAILED"),
        "checks_passed_count" := Int(0), "checks_failed_count" := Int(1),
        "staging_secrets_present" := Bool(s.secrets)]
  }

  /** The release differs from every constant written into a tamper. */
  predicate DiffersFromTampers(e: Evidence) {
    && e.TextOf(DEEP_DIGEST) != Some(TamperImage())
    && RecordedDigest(e, "base") != Str(Zeros())
    && RecordedDigest(e, "test-gen") != Str(Zeros())
  }

  /** What has to hold for a report of success: of the acceptance half when it is asked for, and
      of the tamper matrix when that is asked for too. */
  predicate Succeeds(e: Evidence, acceptance: bool, commit: string, tamperChecks: bool, s: Session) {
    && !s.secrets && s.receiptValid && SignedFilesPresent(e)
    && (acceptance ==>
          && commit != "" && Verifies(e, commit) && Valid(e, commit, None, None)
          && (tamperChecks ==> DiffersFromTampers(e) && !s.tamperedValid))
  }

  lemma MatrixIsExact(checks: Option<Matrix>)
    ensures Exact(Obj(MatrixDoc(checks)))
  {
    var matrix := MatrixDoc(checks);
    forall key | key in matrix ensures Exact(matrix[key]) {
      FlatIsExact(matrix[key].fields, {});
    }
  }

  lemma PassedReportIsExact(e: Evidence, s: Session, semantic: bool, checks: Option<Matrix>)
    requires SignedFilesPresent(e)
    ensures Exact(Obj(PassedReport(e, s, semantic, checks)))
  {
    MatrixIsExact(checks);
    var part := Obj(MatrixDoc(checks));
    hide Exact, MatrixDoc, Digest, PassedChecks;
    FlatIsExact(PassedReport(e, s, semantic, checks), {part});
  }

  lemma FailedReportIsExact(s: Session)
    ensures Exact(Obj(FailedReport(s)))
  {
    FlatIsExact(FailedReport(s), {});
  }

  /** The final gate reads three members: success, the acceptance half, and all four tampers. */
  lemma ReportVerdict(e: Evidence, s: Session, semantic: bool, checks: Option<Matrix>)
    requires SignedFilesPresent(e)
    ensures VerificationPasses(PassedReport(e, s, semantic, checks))
      <==> semantic && checks.Some? && checks.value == Matrix(true, true, true, true)
    ensures !VerificationPasses(FailedReport(s))
  {
    hide MatrixDoc, Digest;
    var report := PassedReport(e, s, semantic, checks);
    assert Field(report, "tamper_checks_passed_count") == Int(PassedChecks(checks));
  }

  /** The verifier's `main`. The report satisfies the final gate exactly when the run was asked
      for the acceptance half and the tamper matrix, and everything succeeded. */
  method VerifyBundle(e: Evidence, acceptance: bool, commit: string, tamperChecks: bool, s: Session) returns (report: Doc)
    ensures IsTrue(report, "passed") <==> Succeeds(e, acceptance, commit, tamperChecks, s)
    ensures VerificationPasses(report) <==> acceptance && tamperChecks && Succeeds(e, acceptance, commit, tamperChecks, s)
    ensures !Succeeds(e, acceptance, commit, tamperChecks, s) ==> report == FailedReport(s)
    ensures Exact(Obj(report))
  {
    hide Verifies, Valid, VerificationPasses, SignedFilesPresent, Exact, MatrixDoc, Digest;
    FailedReportIsExact(s);
    report := FailedReport(s);
    if SignedFilesPresent(e) {
      ReportVerdict(e, s, false, None);
    }
    FailedVerdict(s);
    if s.secrets || !s.receiptValid {
      return;
    }
    var checks: Option<Matrix> := None;
    if acceptance {
      if commit == "" {
        return;
      }
      var indexed := VerifyProducerIndex(e, commit);
      if !indexed || !Valid(e, commit, None, None) {
        return;
      }
      if tamperChecks {
        var matrix := TamperChecks(e, commit, !s.tamperedValid);
        if !matrix.image || !matrix.base || !matrix.adapter || !matrix.teardown {
          return;
        }
        checks := Some(matrix);
      }
    }
    if !SignedFilesPresent(e) {
      return;
    }
    ReportVerdict(e, s, acceptance, checks);
    PassedReportIsExact(e, s, acceptance, checks);
    report := PassedReport(e, s, acceptance, checks);
  }

  lemma FailedVerdict(s: Session)
    ensures !VerificationPasses(FailedReport(s)) && !IsTrue(FailedReport(s), "passed")
  {
  }

  // ------------------------------------------------------- what a run lacks

  /** The verifier stops at inherited credentials, an invalid receipt or a missing signed file; of an
      acceptance run also at an empty commit, a faulty index, an invalid bundle, and with the tamper
      matrix at a release that equals a tamper's constant or a tampered receipt that still verifies. */
  predicate RunFaulty(e: Evidence, acceptance: bool, commit: string, tamperChecks: bool, s: Session) {
    || s.secrets || !s.receiptValid
    || !IsFile(e.tree, e.root + ["sandbox-receipt", "receipt.json"])
    || !IsFile(e.tree, e.root + ["sandbox-receipt", "receipt-key.pub.pem"])
    || !IsFile(e.tree, e.root + ["sandbox-receipt", "evidence", "manifest.json"])
    || !IsFile(e.tree, e.root + ["sandbox-receipt", "evidence", "events.jsonl"])
    || (acceptance && (|commit| == 0 || IndexFaulty(e, commit) || !ValidateAcceptance(e, commit, None, None).Accepted?))
    || (acceptance && tamperChecks && (s.tamperedValid || !DiffersFromTampers(e)))
  }

  /** MAIN RESULT. The verifier's report says success exactly when none of these faults is there. */
  lemma SucceedsIffFaultless(e: Evidence, acceptance: bool, commit: string, tamperChecks: bool, s: Session)
    ensures Succeeds(e, acceptance, commit, tamperChecks, s) <==> !RunFaulty(e, acceptance, commit, tamperChecks, s)
  {
    RefusedIffFaulty(e, commit);
    SignedFilesIff(e);
    hide Verifies, IndexFaulty, ValidateAcceptance, DiffersFromTampers, SignedFilesPresent, IsFile;
  }

  lemma SignedFilesIff(e: Evidence)
    ensures SignedFilesPresent(e) <==>
      && IsFile(e.tree, e.root + ["sandbox-receipt", "receipt.json"])
      && IsFile(e.tree, e.root + ["sandbox-receipt", "receipt-key.pub.pem"])
      && IsFile(e.tree, e.root + ["sandbox-receipt", "evidence", "manifest.json"])
      && IsFile(e.tree, e.root + ["sandbox-receipt", "evidence", "events.jsonl"])
  {
    hide IsFile;
    assert SIGNED_FILES[0] in SIGNED_FILES && SIGNED_FILES[1] in SIGNED_FILES && SIGNED_FILES[2] in SIGNED_FILES && SIGNED_FILES[3] in SIGNED_FILES;
  }

  /** What the reports say: the four digests, the receipt's counts, and the verdict of each tamper. */
  lemma ReportSays(e: Evidence, s: Session, semantic: bool, m: Matrix)
    requires SignedFilesPresent(e)
    ensures var d := PassedReport(e, s, semantic, Some(m));
      && Field(d, "passed") == Bool(true) && Field(d, "status") == Str("VALID") && Field(d, "staging_secrets_present") == Bool(false)
      && Field(d, "checks_passed_count") == Int(s.passedCount) && Field(d, "checks_failed_count") == Int(s.failedCount)
      && Field(d, "receipt_sha256") == Digest(e, ["sandbox-receipt", "receipt.json"])
      && Field(d, "public_key_sha256") == Digest(e, ["sandbox-receipt", "receipt-key.pub.pem"])
      && Field(d, "evidence_manifest_sha256") == Digest(e, ["sandbox-receipt", "evidence", "manifest.json"])
      && Field(d, "evidence_events_sha256") == Digest(e, ["sandbox-receipt", "evidence", "events.jsonl"])
      && Field(d, "tamper_checks").Obj?
      && var checks := Field(d, "tamper_checks").fields;
      Rejection(checks, "model_image_identity", m.image) && Rejection(checks, "base_model_sha256", m.base)
        && Rejection(checks, "adapter_sha256", m.adapter) && Rejection(checks, "teardown_status", m.teardown)
  {
    MatrixSays(m);
    SignedFilesIff(e);
    hide Digest, MatrixDoc, IsFile, SignedFilesPresent, Rejection;
  }

  lemma FailureSays(s: Session)
    ensures var d := FailedReport(s);
      && Field(d, "passed") == Bool(false) && Field(d, "status") == Str("VERIFICATION_FAILED")
      && Field(d, "staging_secrets_present") == Bool(s.secrets)
      && Field(d, "checks_passed_count") == Int(0) && Field(d, "checks_failed_count") == Int(1)
  {
  }

  predicate Rejection(checks: Doc, name: string, passed: bool) {
    Field(checks, name).Obj? && Field(Field(checks, name).fields, "passed") == Bool(passed)
      && Field(Field(checks, name).fields, "outcome") == Str("rejected")
  }

  lemma MatrixSays(m: Matrix)
    ensures var checks := MatrixDoc(Some(m));
      Rejection(checks, "model_image_identity", m.image) && Rejection(checks, "base_model_sha256", m.base)
        && Rejection(checks, "adapter_sha256", m.adapter) && Rejection(checks, "teardown_status", m.teardown)
  {
  }
}

/** The functional checks behind the acceptance gate, in full for the reporting task. */
module FunctionalChecks {
  import opened Wrappers
  import T = Text

  datatype FunctionalResult<R> = FunctionalResult(ok: bool, reasons: seq<R>)

  /** The evaluation relies on this of every check. */
  predicate Consistent<R>(r: FunctionalResult<R>) { r.ok <==> |r.reasons| == 0 }

  // ------------------------------------------------------------- the other two

  /** How `check_test_gen` ends: an unparsable test, static reasons, then collection. */
  function TestGenResult<R>(parses: bool, unparsable: R, reasons: seq<R>, collected: seq<R>): FunctionalResult<R> {
    if !parses then FunctionalResult(false, [unparsable])
    else if |reasons| != 0 then FunctionalResult(false, reasons)
    else if |collected| != 0 then FunctionalResult(false, collected)
    else FunctionalResult(true, [])
  }

  /** How `check_reasoning` ends. */
  function ReasoningResult<R>(reasons: seq<R>): FunctionalResult<R> {
    FunctionalResult(|reasons| == 0, reasons)
  }

  lemma OtherChecksConsistent<R>(parses: bool, unparsable: R, reasons: seq<R>, collected: seq<R>)
    ensures Consistent(TestGenResult(parses, unparsable, reasons, collected))
    ensures Consistent(ReasoningResult(reasons))
    ensures TestGenResult(parses, unparsable, reasons, collected).ok <==> parses && reasons == [] && collected == []
  {
  }

  // ---------------------------------------------------------------- reporting

  datatype TestFailure = TestFailure(test: string, outcome: string)

  datatype Run = Run(failures: seq<TestFailure>, notes: string, failedTotal: int)

  datatype Finding = Finding(affectedTests: seq<string>, severity: string, rootCause: string, explanation: string)

  datatype Narrative = Narrative(findings: seq<Finding>, priorityOrder: seq<string>, summary: string)

  /** Text services of the host language: lower case, the words of four letters or more that
      the token pattern finds, and decimal digits. */
  datatype Language = Language(lowerFn: string -> string, wordsFn: string -> set<string>, decimalFn: int -> string) {
    function Lower(s: string): string { lowerFn(s) }

    function Words(s: string): set<string> { wordsFn(s) }

    function Decimal(n: int): string { decimalFn(n) }
  }

  datatype Reason =
    | BadInput
    | Invented(test: string)
    | Uncovered(tests: set<string>)
    | Ungrounded(rootCause: string)
    | NoFindings
    | BadPriority(entry: string)
    | EmptyPriority
    | SilentSummary

  const FAILING: set<string> := {"FAILED", "ERROR", "TIMEOUT"}

  function FailingTests(failures: seq<TestFailure>): seq<string> {
    if failures == [] then []
    else
      var last := failures[|failures| - 1];
      FailingTests(failures[..|failures| - 1]) + if last.outcome in FAILING then [last.test] else []
  }

  lemma {:induction false} FailingTestsMembers(failures: seq<TestFailure>)
    ensures forall t :: t in FailingTests(failures) <==>
      exists i :: 0 <= i < |failures| && failures[i].test == t && failures[i].outcome in FAILING
  {
    if failures != [] {
      var init := failures[..|failures| - 1];
      FailingTestsMembers(init);
      var last := failures[|failures| - 1];
      forall t ensures t in FailingTests(failures) <==>
        exists i :: 0 <= i < |failures| && failures[i].test == t && failures[i].outcome in FAILING
      {
        if t in FailingTests(init) {
          var i :| 0 <= i < |init| && init[i].test == t && init[i].outcome in FAILING;
          assert failures[i] == init[i];
        }
        if i :| 0 <= i < |failures| && failures[i].test == t && failures[i].outcome in FAILING {
          if i < |init| {
            assert init[i] == failures[i];
          }
        }
      }
    }
  }

  predicate Affects(findings: seq<Finding>, test: string) {
    exists i :: 0 <= i < |findings| && test in findings[i].affectedTests
  }

  function Covered(findings: seq<Finding>): set<string> {
    if findings == [] then {}
    else
      var last := findings[|findings| - 1];
      Covered(findings[..|findings| - 1]) + set t | t in last.affectedTests
  }

  function RootCauses(findings: seq<Finding>): set<string> {
    set f | f in findings :: f.rootCause
  }

  /** A finding on a green run is an info note that names no test and shares a word with the
      run's own notes. */
  predicate Grounded(lang: Language, run: Run, f: Finding) {
    && f.affectedTests == [] && f.severity == "info" && lang.Lower(run.notes) != ""
    && lang.Words(lang.Lower(run.notes)) * lang.Words(lang.Lower(f.rootCause + " " + f.explanation)) != {}
  }

  predicate HasUngrounded(lang: Language, run: Run, findings: seq<Finding>, root: string) {
    exists i :: 0 <= i < |findings| && !Grounded(lang, run, findings[i]) && findings[i].rootCause == root
  }

  lemma UngroundedGrows(lang: Language, run: Run, findings: seq<Finding>, k: nat)
    requires k < |findings|
    ensures forall root :: HasUngrounded(lang, run, findings[..k + 1], root) <==>
      (HasUngrounded(lang, run, findings[..k], root) || (!Grounded(lang, run, findings[k]) && findings[k].rootCause == root))
  {
    hide Grounded;
    forall root ensures HasUngrounded(lang, run, findings[..k + 1], root) <==>
      (HasUngrounded(lang, run, findings[..k], root) || (!Grounded(lang, run, findings[k]) && findings[k].rootCause == root))
    {
      if i :| 0 <= i < k && !Grounded(lang, run, findings[..k][i]) && findings[..k][i].rootCause == root {
        assert findings[..k + 1][i] == findings[i];
      }
      if !Grounded(lang, run, findings[k]) && findings[k].rootCause == root {
        assert findings[..k + 1][k] == findings[k];
      }
    }
  }

  predicate Mentions(lang: Language, run: Run, failing: seq<string>, summary: string) {
    || (exists i :: 0 <= i < |failing| && T.Contains(summary, lang.Lower(failing[i])))
    || (run.failedTotal > 0 && T.Contains(summary, lang.Decimal(run.failedTotal)))
    || T.Contains(summary, "fail")
  }

  /** When a reason is in order. */
  predicate Applies(lang: Language, run: Run, n: Narrative, r: Reason) {
    var failing := FailingTests(run.failures);
    match r
    case BadInput => false
    case Invented(t) => t !in failing && t in Covered(n.findings)
    case Uncovered(tests) => tests == (set t | t in failing) - Covered(n.findings) && tests != {}
    case Ungrounded(root) => failing == [] && HasUngrounded(lang, run, n.findings, root)
    case NoFindings => failing != [] && n.findings == []
    case BadPriority(e) => e in n.priorityOrder && e !in RootCauses(n.findings)
    case EmptyPriority => n.findings != [] && n.priorityOrder == []
    case SilentSummary => failing != [] && !Mentions(lang, run, failing, lang.Lower(n.summary))
  }

  lemma {:induction false} CoveredMembers(findings: seq<Finding>)
    ensures forall t :: t in Covered(findings) <==> Affects(findings, t)
  {
    if findings != [] {
      var init := findings[..|findings| - 1];
      CoveredMembers(init);
      forall t ensures t in Covered(findings) <==> Affects(findings, t) {
        if Affects(init, t) {
          var i :| 0 <= i < |init| && t in init[i].affectedTests;
          assert t in findings[i].affectedTests;
        }
        if Affects(findings, t) {
          var i :| 0 <= i < |findings| && t in findings[i].affectedTests;
          if i < |init| {
            assert t in init[i].affectedTests;
          }
        }
      }
    }
  }

  /** A narrative that says what the run shows: it covers exactly the failing tests, its
      priorities are its findings' causes, a green run has grounded notes only, and the
      summary speaks of the outcome. */
  predicate Truthful(lang: Language, run: Run, n: Narrative) {
    var failing := FailingTests(run.failures);
    && Covered(n.findings) == (set t | t in failing)
    && (failing == [] ==> forall i :: 0 <= i < |n.findings| ==> Grounded(lang, run, n.findings[i]))
    && (failing != [] ==> n.findings != [] && Mentions(lang, run, failing, lang.Lower(n.summary)))
    && (forall e :: e in n.priorityOrder ==> e in RootCauses(n.findings))
    && (n.findings != [] ==> n.priorityOrder != [])
  }

  /** What a green run allows: a finding that names a test, is more than an info note, or has no
      word in common with the run's own notes makes the narrative untruthful, and is reported. */
  lemma FindingOnGreenRun(lang: Language, run: Run, n: Narrative, i: nat)
    requires FailingTests(run.failures) == [] && i < |n.findings|
    requires
      || n.findings[i].affectedTests != [] || n.findings[i].severity != "info" || lang.Lower(run.notes) == ""
      || forall w :: w in lang.Words(lang.Lower(run.notes)) ==>
           w !in lang.Words(lang.Lower(n.findings[i].rootCause + " " + n.findings[i].explanation))
    ensures !Truthful(lang, run, n) && Applies(lang, run, n, Ungrounded(n.findings[i].rootCause))
  {
    assert !Grounded(lang, run, n.findings[i]);
    hide Grounded;
    assert HasUngrounded(lang, run, n.findings, n.findings[i].rootCause);
  }

  /** And an info note that shares a word with the notes and names no test is in order. */
  lemma NoteOnGreenRun(lang: Language, run: Run, f: Finding, word: string)
    requires f.affectedTests == [] && f.severity == "info" && lang.Lower(run.notes) != ""
    requires word in lang.Words(lang.Lower(run.notes)) && word in lang.Words(lang.Lower(f.rootCause + " " + f.explanation))
    ensures Grounded(lang, run, f)
  {
    assert word in lang.Words(lang.Lower(run.notes)) * lang.Words(lang.Lower(f.rootCause + " " + f.explanation));
  }

  /** Which tests count as failing, by the names of their outcomes, in the run's order. */
  lemma FailingByName(before: seq<TestFailure>, last: TestFailure)
    ensures FailingTests(before + [last])
      == if last.outcome == "FAILED" || last.outcome == "ERROR" || last.outcome == "TIMEOUT" then FailingTests(before) + [last.test]
         else FailingTests(before)
  {
    assert (before + [last])[..|before|] == before;
  }

  /** What a red run asks of the summary: the name of a failing test, the number of failures, or the
      word "fail", in lower case; without any of them it is untruthful and reported. */
  lemma SummaryOfRedRun(lang: Language, run: Run, n: Narrative)
    requires FailingTests(run.failures) != []
    ensures var failing, summary := FailingTests(run.failures), lang.Lower(n.summary);
      var speaks := T.Contains(summary, "fail") || (run.failedTotal >= 1 && T.Contains(summary, lang.Decimal(run.failedTotal)))
        || exists t :: t in failing && T.Contains(summary, lang.Lower(t));
      && (Applies(lang, run, n, SilentSummary) <==> !speaks)
      && (Truthful(lang, run, n) ==> speaks)
  {
    var failing, summary := FailingTests(run.failures), lang.Lower(n.summary);
    if t :| t in failing && T.Contains(summary, lang.Lower(t)) {
      var i :| 0 <= i < |failing| && failing[i] == t;
      assert T.Contains(summary, lang.Lower(failing[i]));
    }
  }

  lemma NoReasonIffTruthful(lang: Language, run: Run, n: Narrative)
    ensures (forall r :: !Applies(lang, run, n, r)) <==> Truthful(lang, run, n)
  {
    var failing := set t | t in FailingTests(run.failures);
    if forall r :: !Applies(lang, run, n, r) {
      var missing := failing - Covered(n.findings);
      assert !Applies(lang, run, n, Uncovered(missing));
      assert missing == {};
      assert failing <= Covered(n.findings) by {
        assert forall t :: t in failing && t !in Covered(n.findings) ==> t in missing;
      }
      forall t | t in Covered(n.findings) ensures t in failing {
        assert !Applies(lang, run, n, Invented(t));
      }
      forall i | FailingTests(run.failures) == [] && 0 <= i < |n.findings| ensures Grounded(lang, run, n.findings[i]) {
        assert !Applies(lang, run, n, Ungrounded(n.findings[i].rootCause));
        assert !HasUngrounded(lang, run, n.findings, n.findings[i].rootCause);
      }
      forall e | e in n.priorityOrder ensures e in RootCauses(n.findings) {
        assert !Applies(lang, run, n, BadPriority(e));
      }
      assert !Applies(lang, run, n, NoFindings) && !Applies(lang, run, n, EmptyPriority)
        && !Applies(lang, run, n, SilentSummary);
    }
  }

  /** The first pass: every test a finding names is checked and counted as covered. */
  method CoverFindings(findings: seq<Finding>, failing: seq<string>) returns (reasons: seq<Reason>, covered: set<string>)
    ensures covered == Covered(findings)
    ensures forall r :: r in reasons <==> r.Invented? && r.test !in failing && r.test in covered
  {
    reasons, covered := [], {};
    for i := 0 to |findings|
      invariant covered == Covered(findings[..i])
      invariant forall r :: r in reasons <==> r.Invented? && r.test !in failing && r.test in covered
    {
      var names := findings[i].affectedTests;
      ghost var before := covered;
      for j := 0 to |names|
        invariant covered == before + set t | t in names[..j]
        invariant forall r :: r in reasons <==> r.Invented? && r.test !in failing && r.test in covered
      {
        if names[j] !in failing {
          reasons := reasons + [Invented(names[j])];
        }
        covered := covered + {names[j]};
      }
      assert names[..|names|] == names;
      assert findings[..i + 1][..i] == findings[..i];
    }
    assert findings[..|findings|] == findings;
  }

  /** The grounding pass over the findings of a green run. */
  method GroundFindings(lang: Language, run: Run, findings: seq<Finding>) returns (reasons: seq<Reason>)
    ensures forall r :: r in reasons <==> r.Ungrounded? && HasUngrounded(lang, run, findings, r.rootCause)
  {
    reasons := [];
    for k := 0 to |findings|
      invariant forall r :: r in reasons <==> r.Ungrounded? && HasUngrounded(lang, run, findings[..k], r.rootCause)
    {
      UngroundedGrows(lang, run, findings, k);
      if !Grounded(lang, run, findings[k]) {
        reasons := reasons + [Ungrounded(findings[k].rootCause)];
      }
    }
    assert findings[..|findings|] == findings;
  }

  /** The priority pass. */
  method CheckPriorities(entries: seq<string>, rootCauses: set<string>) returns (reasons: seq<Reason>)
    ensures forall r :: r in reasons <==> r.BadPriority? && r.entry in entries && r.entry !in rootCauses
  {
    reasons := [];
    for k := 0 to |entries|
      invariant forall r :: r in reasons <==> r.BadPriority? && r.entry in entries[..k] && r.entry !in rootCauses
    {
      if entries[k] !in rootCauses {
        reasons := reasons + [BadPriority(entries[k])];
      }
    }
    assert entries[..|entries|] == entries;
  }

  function When(b: bool, r: Reason): seq<Reason> { if b then [r] else [] }

  /** The passes together collect exactly the reasons that apply. */
  lemma PassesCollectReasons(lang: Language, run: Run, n: Narrative, invented: seq<Reason>, missing: set<string>,
      ungrounded: seq<Reason>, priorities: seq<Reason>, all: seq<Reason>)
    requires var failing := FailingTests(run.failures);
      && (forall r :: r in invented <==> r.Invented? && r.test !in failing && r.test in Covered(n.findings))
      && missing == (set t | t in failing) - Covered(n.findings)
      && (forall r :: r in ungrounded <==> failing == [] && r.Ungrounded? && HasUngrounded(lang, run, n.findings, r.rootCause))
      && (forall r :: r in priorities <==> r.BadPriority? && r.entry in n.priorityOrder && r.entry !in RootCauses(n.findings))
      && all == invented + When(missing != {}, Uncovered(missing)) + ungrounded
           + When(failing != [] && n.findings == [], NoFindings) + priorities
           + When(n.findings != [] && n.priorityOrder == [], EmptyPriority)
           + When(failing != [] && !Mentions(lang, run, failing, lang.Lower(n.summary)), SilentSummary)
    ensures forall r :: r in all <==> Applies(lang, run, n, r)
  {
    hide FailingTests, Covered, Mentions, HasUngrounded, RootCauses, Language.Lower;
  }

  lemma ConcludedIsConsistent(lang: Language, run: Run, n: Narrative, reasons: seq<Reason>)
    requires forall r :: r in reasons <==> Applies(lang, run, n, r)
    ensures |reasons| == 0 <==> Truthful(lang, run, n)
  {
    NoReasonIffTruthful(lang, run, n);
    hide Applies, Truthful;
    if |reasons| != 0 {
      assert reasons[0] in reasons;
    }
  }

  /** `check_reporting`; `input` is the run, if the record holds one. */
  method CheckReporting(lang: Language, input: Option<Run>, n: Narrative) returns (result: FunctionalResult<Reason>)
    ensures Consistent(result)
    ensures input.None? ==> result.reasons == [BadInput]
    ensures input.Some? ==> forall r :: r in result.reasons <==> Applies(lang, input.value, n, r)
    ensures result.ok <==> input.Some? && Truthful(lang, input.value, n)
  {
    if input.None? {
      return FunctionalResult(false, [BadInput]);
    }
    hide FailingTests, Covered, Mentions, HasUngrounded, RootCauses, Language.Lower, Truthful, Applies;
    var run := input.value;
    var failing := FailingTests(run.failures);
    var invented, covered := CoverFindings(n.findings, failing);
    var missing := (set t | t in failing) - covered;
    var reasons := invented + When(missing != {}, Uncovered(missing));
    var ungrounded: seq<Reason> := [];
    if failing == [] {
      ungrounded := GroundFindings(lang, run, n.findings);
    }
    reasons := reasons + ungrounded + When(failing != [] && n.findings == [], NoFindings);
    var priorities := CheckPriorities(n.priorityOrder, RootCauses(n.findings));
    reasons := reasons + priorities + When(n.findings != [] && n.priorityOrder == [], EmptyPriority);
    reasons := reasons + When(failing != [] && !Mentions(lang, run, failing, lang.Lower(n.summary)), SilentSummary);
    PassesCollectReasons(lang, run, n, invented, missing, ungrounded, priorities, reasons);
    ConcludedIsConsistent(lang, run, n, reasons);
    return FunctionalResult(|reasons| == 0, reasons);
  }

  /** MAIN RESULT. A truthful narrative names exactly the failing tests of its run, each in
      some finding, and ranks only causes it has found. */
  lemma TruthfulNamesFailingTests(lang: Language, run: Run, n: Narrative)
    requires Truthful(lang, run, n)
    ensures forall t :: Affects(n.findings, t) <==>
      exists i :: 0 <= i < |run.failures| && run.failures[i].test == t && run.failures[i].outcome in FAILING
    ensures forall e :: e in n.priorityOrder ==> exists i :: 0 <= i < |n.findings| && n.findings[i].rootCause == e
  {
    CoveredMembers(n.findings);
    FailingTestsMembers(run.failures);
    forall t ensures Affects(n.findings, t) <==>
      exists i :: 0 <= i < |run.failures| && run.failures[i].test == t && run.failures[i].outcome in FAILING
    {
      assert t in Covered(n.findings) <==> t in FailingTests(run.failures);
    }
  }
}

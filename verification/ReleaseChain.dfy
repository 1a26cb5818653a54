/** The safe-failure reducer, and the agreement of every producer with the gate behind it. */
module ReleaseChain {
  import opened Wrappers
  import opened Json
  import opened Rounding
  import opened FileTree
  import opened Benchmark
  import opened ReleaseReports
  import Gate = EvidenceGate

  // -------------------------------------------------------------- error classes

  predicate IsLetter(c: char) { 'A' <= c <= 'Z' || 'a' <= c <= 'z' }

  predicate IsDigitChar(c: char) { '0' <= c <= '9' }

  /** [A-Za-z][A-Za-z0-9_]* */
  predicate IsIdentifier(s: string) {
    s != "" && IsLetter(s[0]) && forall i :: 0 <= i < |s| ==> IsLetter(s[i]) || IsDigitChar(s[i]) || s[i] == '_'
  }

  /** [1-5][0-9]{2} */
  predicate IsStatus(s: string) {
    |s| == 3 && '1' <= s[0] <= '5' && IsDigitChar(s[1]) && IsDigitChar(s[2])
  }

  /** [a-z0-9_]+ */
  predicate IsLowerWord(s: string) {
    s != "" && forall i :: 0 <= i < |s| ==> 'a' <= s[i] <= 'z' || IsDigitChar(s[i]) || s[i] == '_'
  }

  const TRANSPORT := "transport_"
  const STATUS := "http_status_"
  const INVALID := "invalid_"

  /** The reducer's `ERROR_CLASS`. */
  predicate ErrorClass(s: string) {
    || (TRANSPORT <= s && IsIdentifier(s[|TRANSPORT|..]))
    || (STATUS <= s && IsStatus(s[|STATUS|..]))
    || (INVALID <= s && IsLowerWord(s[|INVALID|..]))
    || s == "cross_request_leakage" || s == "isolation_marker_missing"
  }

  const UPPER := "ABCDEFGHIJKLMNOPQRSTUVWXYZ"

  const LOWER := "abcdefghijklmnopqrstuvwxyz"

  const DIGITS := "0123456789"

  /** The character classes of the error pattern, letter by letter. */
  lemma UpperCase(c: char)
    ensures 'A' <= c <= 'Z' <==> c in UPPER
  {
    if 'A' <= c <= 'Z' {
      assert UPPER[c as int - 'A' as int] == c;
    }
  }

  lemma LowerCase(c: char)
    ensures 'a' <= c <= 'z' <==> c in LOWER
  {
    if 'a' <= c <= 'z' {
      assert LOWER[c as int - 'a' as int] == c;
    }
  }

  lemma CharacterClasses(c: char)
    ensures IsLetter(c) <==> c in UPPER || c in LOWER
    ensures IsDigitChar(c) <==> c in DIGITS
    ensures IsLowerWord([c]) <==> c in LOWER || c in DIGITS || c == '_'
    ensures IsIdentifier([c]) <==> c in UPPER || c in LOWER
  {
    UpperCase(c);
    LowerCase(c);
    assert IsDigitChar(c) <==> c in DIGITS;
    hide UPPER, LOWER, DIGITS;
    assert [c][0] == c;
  }

  /** Longer names: one more character of the class at the end. */
  lemma LongerNames(s: string, c: char)
    ensures s != "" ==> (IsIdentifier(s + [c]) <==> IsIdentifier(s) && (IsLetter(c) || IsDigitChar(c) || c == '_'))
    ensures s != "" ==> (IsLowerWord(s + [c]) <==> IsLowerWord(s) && IsLowerWord([c]))
    ensures !IsIdentifier("") && !IsLowerWord("")
  {
    var t := s + [c];
    assert t[|s|] == c && forall i :: 0 <= i < |s| ==> t[i] == s[i];
    assert [c][0] == c;
  }

  /** Three digits are a status exactly when they spell a number from 100 to 599. */
  lemma StatusSpells(s: string)
    requires forall i :: 0 <= i < |s| ==> IsDigitChar(s[i])
    ensures IsStatus(s) <==> |s| == 3 && 100 <= Spelled(s) <= 599
  {
    if |s| == 3 {
      assert s[..2][..1] == s[..1] && s[..1][..0] == "";
      assert Spelled(s[..1]) == s[0] as int - '0' as int;
      assert Spelled(s[..2]) == 10 * Spelled(s[..1]) + (s[1] as int - '0' as int);
    }
  }

  lemma StatusIsDigits(s: string)
    ensures IsStatus(s) ==> forall i :: 0 <= i < |s| ==> IsDigitChar(s[i])
  {
  }

  /** A reply whose failure the classes can name. */
  predicate WellCoded(reply: Reply) {
    match reply
    case HttpError(code) => 100 <= code <= 599
    case Raised(name) => IsIdentifier(name)
    case _ => true
  }

  lemma {:induction false} DecimalDigits(n: nat)
    ensures |Decimal(n)| >= 1 && (|Decimal(n)| == 1 <==> n < 10) && (|Decimal(n)| == 2 <==> 10 <= n < 100)
    ensures |Decimal(n)| == 3 <==> 100 <= n < 1000
    ensures forall i :: 0 <= i < |Decimal(n)| ==> IsDigitChar(Decimal(n)[i])
  {
    if n >= 10 {
      DecimalDigits(n / 10);
    }
  }

  lemma StatusText(code: int)
    ensures IsStatus(IntText(code)) <==> 100 <= code <= 599
  {
    if code < 0 {
      assert IntText(code)[0] == '-';
    } else {
      DecimalDigits(code);
      if 100 <= code < 1000 {
        assert Decimal(code) == Decimal(code / 10) + Digit(code % 10);
        assert Decimal(code / 10) == Decimal(code / 100) + Digit(code / 10 % 10);
        assert Decimal(code / 100) == Digit(code / 100);
        assert Decimal(code)[0] == Digit(code / 100)[0];
      }
    }
  }

  lemma HttpErrorClass(code: int)
    ensures ErrorClass(STATUS + IntText(code)) <==> 100 <= code <= 599
  {
    StatusText(code);
    var s := STATUS + IntText(code);
    assert s[|STATUS|..] == IntText(code);
    assert s[0] == 'h';
    assert TRANSPORT[0] == 't' && INVALID[0] == 'i';
  }

  lemma TransportErrorClass(name: string)
    ensures ErrorClass(TRANSPORT + name) <==> IsIdentifier(name)
  {
    var s := TRANSPORT + name;
    assert s[|TRANSPORT|..] == name;
    assert s[0] == 't';
    assert STATUS[0] == 'h' && INVALID[0] == 'i';
  }

  lemma StatusErrorClass(rest: string)
    ensures ErrorClass("http_status_" + rest) <==> IsStatus(rest)
  {
    var s := "http_status_" + rest;
    assert s[|STATUS|..] == rest;
    assert s[0] == 'h';
    assert TRANSPORT[0] == 't' && INVALID[0] == 'i';
  }

  lemma InvalidErrorClass(rest: string)
    ensures ErrorClass("invalid_" + rest) <==> IsLowerWord(rest)
  {
    var s := "invalid_" + rest;
    assert s[|INVALID|..] == rest;
    assert s[0] == 'i' && s[1] == 'n';
    assert STATUS[0] == 'h' && TRANSPORT[0] == 't' && "isolation_marker_missing"[1] == 's';
  }

  lemma InvalidClass(s: string, word: string)
    requires s == INVALID + word && IsLowerWord(word)
    ensures ErrorClass(s)
  {
    assert s[|INVALID|..] == word;
  }

  lemma RootErrorClassed()
    ensures ErrorClass("invalid_json_root")
  {
    InvalidClass("invalid_json_root", "json_root");
  }

  lemma ChoicesErrorClassed()
    ensures ErrorClass("invalid_choices_message")
  {
    InvalidClass("invalid_choices_message", "choices_message");
  }

  lemma ContentErrorClassed()
    ensures ErrorClass("invalid_openai_message_content")
  {
    InvalidClass("invalid_openai_message_content", "openai_message_content");
  }

  lemma MissingErrorClassed()
    ensures ErrorClass("invalid_token_usage_missing")
  {
    InvalidClass("invalid_token_usage_missing", "token_usage_missing");
  }

  lemma TypeErrorClassed()
    ensures ErrorClass("invalid_token_usage_type")
  {
    InvalidClass("invalid_token_usage_type", "token_usage_type");
  }

  lemma NegativeErrorClassed()
    ensures ErrorClass("invalid_token_usage_negative")
  {
    InvalidClass("invalid_token_usage_negative", "token_usage_negative");
  }

  lemma MarkerErrorsClassed()
    ensures ErrorClass("cross_request_leakage") && ErrorClass("isolation_marker_missing")
    ensures !ErrorClass("")
  {
  }

  /** A failure's error text is classified exactly when the reply is well coded. */
  lemma ErrorClassIff(reply: Reply, latency: real, own: string, foreign: seq<string>)
    requires !Classify(reply, latency, own, foreign).ok
    ensures ErrorClass(Classify(reply, latency, own, foreign).error) <==> WellCoded(reply)
  {
    RootErrorClassed();
    ChoicesErrorClassed();
    ContentErrorClassed();
    MissingErrorClassed();
    TypeErrorClassed();
    NegativeErrorClassed();
    MarkerErrorsClassed();
    hide ErrorClass, IsIdentifier, IntText;
    match reply
    case HttpError(code) => HttpErrorClass(code);
    case Raised(name) => TransportErrorClass(name);
    case _ =>
  }

  // ----------------------------------------------------------------- the reducer

  /** Lexicographic order by code point. */
  predicate TextBefore(a: string, b: string) {
    a == "" || (b != "" && (a[0] < b[0] || (a[0] == b[0] && TextBefore(a[1..], b[1..]))))
  }

  function InsertText(x: string, s: seq<string>): seq<string> {
    if s == [] then [x]
    else if x == s[0] then s
    else if TextBefore(x, s[0]) then [x] + s
    else [s[0]] + InsertText(x, s[1..])
  }

  /** `sorted(set(texts))`. */
  function SortedSet(s: seq<string>): seq<string> {
    if s == [] then [] else InsertText(s[0], SortedSet(s[1..]))
  }

  lemma {:induction false} SortedSetMembers(s: seq<string>)
    ensures forall x :: x in SortedSet(s) <==> x in s
    ensures s != [] ==> SortedSet(s) != []
  {
    if s != [] {
      SortedSetMembers(s[1..]);
      InsertTextMembers(s[0], SortedSet(s[1..]));
      assert s == [s[0]] + s[1..];
    }
  }

  lemma {:induction false} InsertTextMembers(x: string, s: seq<string>)
    ensures forall y :: y in InsertText(x, s) <==> y == x || y in s
  {
    if s != [] {
      assert s == [s[0]] + s[1..];
      if x != s[0] && !TextBefore(x, s[0]) {
        InsertTextMembers(x, s[1..]);
      }
    }
  }

  /** Dictionary order by code point: a prefix, or smaller at the first difference. */
  lemma {:induction false} TextOrder(a: string, b: string)
    ensures TextBefore(a, b) <==>
      a <= b || exists k :: 0 <= k < |a| && k < |b| && a[..k] == b[..k] && a[k] < b[k]
  {
    if a != "" && b != "" {
      if a[0] == b[0] {
        TextOrder(a[1..], b[1..]);
        assert a <= b <==> a[1..] <= b[1..];
        if k :| 0 <= k < |a[1..]| && k < |b[1..]| && a[1..][..k] == b[1..][..k] && a[1..][k] < b[1..][k] {
          assert a[..k + 1] == [a[0]] + a[1..][..k] && b[..k + 1] == [b[0]] + b[1..][..k];
          assert a[k + 1] < b[k + 1];
        }
        if k :| 0 <= k < |a| && k < |b| && a[..k] == b[..k] && a[k] < b[k] {
          assert a[1..][..k - 1] == a[..k][1..] && b[1..][..k - 1] == b[..k][1..];
          assert a[1..][k - 1] < b[1..][k - 1];
        }
      } else if a[0] < b[0] {
        assert a[..0] == b[..0];
      } else {
        CommonPrefixHead(a, b);
      }
    }
  }

  lemma CommonPrefixHead(a: string, b: string)
    requires a != "" && b != ""
    ensures forall k :: 0 < k <= |a| && k <= |b| && a[..k] == b[..k] ==> a[0] == b[0]
  {
    forall k | 0 < k <= |a| && k <= |b| && a[..k] == b[..k] ensures a[0] == b[0] {
      assert a[..k][0] == a[0] && b[..k][0] == b[0];
    }
  }

  predicate Ascending(s: seq<string>) { forall i, j :: 0 <= i < j < |s| ==> TextBefore(s[i], s[j]) && s[i] != s[j] }

  lemma {:induction false} BeforeIsTotal(a: string, b: string)
    ensures TextBefore(a, b) || TextBefore(b, a)
  {
    if a != "" && b != "" && a[0] == b[0] {
      BeforeIsTotal(a[1..], b[1..]);
    }
  }

  lemma {:induction false} BeforeIsTransitive(a: string, b: string, c: string)
    requires TextBefore(a, b) && TextBefore(b, c)
    ensures TextBefore(a, c) && (a == c ==> a == b)
  {
    if a != "" && a[0] == b[0] == c[0] {
      BeforeIsTransitive(a[1..], b[1..], c[1..]);
      assert a == [a[0]] + a[1..] && b == [b[0]] + b[1..] && c == [c[0]] + c[1..];
    }
  }

  lemma {:induction false} InsertTextAscending(x: string, s: seq<string>)
    requires Ascending(s)
    ensures Ascending(InsertText(x, s))
  {
    var r := InsertText(x, s);
    if s != [] && x != s[0] {
      if TextBefore(x, s[0]) {
        forall j | 1 <= j < |r| ensures TextBefore(x, r[j]) && x != r[j] {
          if j > 1 {
            BeforeIsTransitive(x, s[0], s[j - 1]);
          }
        }
      } else {
        InsertTextAscending(x, s[1..]);
        InsertTextMembers(x, s[1..]);
        BeforeIsTotal(x, s[0]);
        var rest := InsertText(x, s[1..]);
        assert r == [s[0]] + rest;
        hide InsertText, TextBefore;
        forall j | 0 <= j < |rest| ensures TextBefore(s[0], rest[j]) && s[0] != rest[j] {
          assert rest[j] in rest;
        }
      }
    }
  }

  /** The error classes are listed in dictionary order, each once. */
  lemma {:induction false} SortedSetAscending(s: seq<string>)
    ensures Ascending(SortedSet(s))
  {
    if s != [] {
      SortedSetAscending(s[1..]);
      InsertTextAscending(s[0], SortedSet(s[1..]));
    }
  }

  /** The texts of a list of strings. */
  function AllTexts(items: seq<Json>): Option<seq<string>> {
    if forall i :: 0 <= i < |items| ==> items[i].Str? then
      Some(seq(|items|, i requires 0 <= i < |items| => if items[i].Str? then items[i].s else ""))
    else None
  }

  /** One level of a named endpoint, from a command that failed. */
  predicate IsProbe(raw: Doc, exitCode: int) {
    && exitCode != 0
    && Hex64Text(Field(raw, "endpoint_sha256"))
    && Field(raw, "levels").Arr? && |Field(raw, "levels").items| == 1
  }

  /** The conditions on the level, up to its counts. */
  predicate ProbeFailed(codec: Codec, level: Doc) {
    && Field(level, "errors").Arr? && Field(level, "errors").items != []
    && AllTexts(Field(level, "errors").items).Some?
    && (forall e :: e in AllTexts(Field(level, "errors").items).value ==> ErrorClass(e))
    && AsInt(codec, FieldOr(level, "succeeded", Int(-1))) == Some(0)
    && AsInt(codec, FieldOr(level, "failed", Int(0))).Some? && AsInt(codec, FieldOr(level, "failed", Int(0))).value >= 1
    && AsInt(codec, FieldOr(level, "concurrency", Int(0))).Some?
    && AsInt(codec, FieldOr(level, "requests", Int(0))).Some?
  }

  /** The acceptance conditions of `assert_safe_failure`. */
  predicate SafelyFailed(codec: Codec, raw: Doc, exitCode: int) {
    && IsProbe(raw, exitCode)
    && Field(raw, "levels").items[0].Obj?
    && var level := Field(raw, "levels").items[0].fields;
    && ProbeFailed(codec, level)
    && Gate.AsFloat(codec, FieldOr(level, "wall_seconds", Float(0.0))).Some?
  }

  /** A level that is no object has no `get`; a wall time too large for `float()` overflows. */
  predicate ProbeCrashes(codec: Codec, raw: Doc, exitCode: int) {
    && IsProbe(raw, exitCode)
    && if !Field(raw, "levels").items[0].Obj? then true
       else
         var level := Field(raw, "levels").items[0].fields;
         ProbeFailed(codec, level) && TooLarge(FieldOr(level, "wall_seconds", Float(0.0)))
  }

  /** The source-free evidence: counts and classified error names. */
  function EvidenceDoc(endpoint: Json, model: Json, concurrency: int, requests: int, failed: int, elapsed: real,
      classes: seq<string>): Doc
  {
    map["passed" := Bool(true),
        "inference_succeeded" := Bool(false),
        "command_exit_nonzero" := Bool(true),
        "endpoint_sha256" := endpoint,
        "model" := model,
        "concurrency" := Int(concurrency),
        "requests" := Int(requests),
        "failed" := Int(failed),
        "elapsed_seconds" := Float(elapsed),
        "error_classes" := Arr(Texts(classes)),
        "source_code_included" := Bool(false),
        "prompt_recorded" := Bool(false),
        "generated_code_recorded" := Bool(false),
        "narrative_recorded" := Bool(false),
        "credentials_recorded" := Bool(false)]
  }

  function SafeFailure(codec: Codec, raw: Doc, exitCode: int): Gate.Result<Doc> {
    if ProbeCrashes(codec, raw, exitCode) then Gate.Crash
    else if !SafelyFailed(codec, raw, exitCode) then Gate.Err("failure probe is not safe")
    else
      var level := Field(raw, "levels").items[0].fields;
      Gate.Ok(EvidenceDoc(
        Field(raw, "endpoint_sha256"),
        Field(raw, "model"),
        AsInt(codec, FieldOr(level, "concurrency", Int(0))).value,
        AsInt(codec, FieldOr(level, "requests", Int(0))).value,
        AsInt(codec, FieldOr(level, "failed", Int(0))).value,
        Gate.AsFloat(codec, FieldOr(level, "wall_seconds", Float(0.0))).value,
        SortedSet(AllTexts(Field(level, "errors").items).value)))
  }

  lemma EvidenceDocPasses(endpoint: Json, model: Json, concurrency: int, requests: int, failed: int, elapsed: real,
      classes: seq<string>)
    requires classes != []
    ensures Gate.FailurePasses(EvidenceDoc(endpoint, model, concurrency, requests, failed, elapsed, classes))
  {
  }

  /** Whatever the reducer accepts, the gate's failure section accepts. */
  lemma SafeFailurePassesGate(codec: Codec, raw: Doc, exitCode: int)
    requires SafelyFailed(codec, raw, exitCode)
    ensures SafeFailure(codec, raw, exitCode).Ok? && Gate.FailurePasses(SafeFailure(codec, raw, exitCode).value)
  {
    hide ErrorClass, Hex64Text, EvidenceDoc, Gate.FailurePasses, Pow2;
    var level := Field(raw, "levels").items[0].fields;
    var classes := SortedSet(AllTexts(Field(level, "errors").items).value);
    SortedSetMembers(AllTexts(Field(level, "errors").items).value);
    EvidenceDocPasses(
      Field(raw, "endpoint_sha256"),
      Field(raw, "model"),
      AsInt(codec, FieldOr(level, "concurrency", Int(0))).value,
      AsInt(codec, FieldOr(level, "requests", Int(0))).value,
      AsInt(codec, FieldOr(level, "failed", Int(0))).value,
      Gate.AsFloat(codec, FieldOr(level, "wall_seconds", Float(0.0))).value,
      classes);
  }

  // -------------------------------------------------- the failing run, end to end

  predicate AllFailed(outcomes: seq<RequestResult>) {
    forall i :: 0 <= i < |outcomes| ==> !outcomes[i].ok
  }

  lemma {:induction false} AllFailedTally(outcomes: seq<RequestResult>)
    requires AllClassified(outcomes) && AllFailed(outcomes)
    ensures Count(outcomes, SUCCEEDED) == 0 && Count(outcomes, FAILED) == |outcomes| == |Errors(outcomes)|
    ensures forall i :: 0 <= i < |outcomes| ==> Errors(outcomes)[i] == outcomes[i].error
  {
    if outcomes != [] {
      assert Classified(outcomes[|outcomes| - 1]);
      AllFailedTally(outcomes[..|outcomes| - 1]);
    }
  }

  /** The first five replies are the ones whose errors the report keeps. */
  predicate FirstFiveWellCoded(replies: seq<Reply>) {
    forall i :: 0 <= i < |replies| && i < 5 ==> WellCoded(replies[i])
  }

  lemma LevelErrorsRead(l: Level, hourly: real)
    ensures AllTexts(Field(LevelDoc(l, hourly), "errors").items) == Some(FirstFive(l.errors))
  {
    var kept := FirstFive(l.errors);
    assert Field(LevelDoc(l, hourly), "errors") == Arr(Texts(kept));
    assert AllTexts(Texts(kept)).value == kept;
  }

  lemma LevelNumbersRead(codec: Codec, l: Level, hourly: real)
    ensures var level := LevelDoc(l, hourly);
      && FieldOr(level, "succeeded", Int(-1)) == Int(l.succeeded)
      && FieldOr(level, "failed", Int(0)) == Int(l.failed)
      && FieldOr(level, "concurrency", Int(0)) == Int(l.concurrency)
      && FieldOr(level, "requests", Int(0)) == Int(l.requested)
      && FieldOr(level, "wall_seconds", Float(0.0)).Float?
      && Field(level, "errors").Arr? && |Field(level, "errors").items| == |FirstFive(l.errors)|
  {
  }

  lemma SingleLevelReport(endpointSha: string, model: string, l: Level, hourly: real)
    ensures var raw := ReportDoc(endpointSha, model, [l], hourly);
      && Field(raw, "endpoint_sha256") == Str(endpointSha)
      && Field(raw, "levels") == Arr([Obj(LevelDoc(l, hourly))])
  {
    assert LevelDocs([l], hourly) == [Obj(LevelDoc(l, hourly))];
  }

  /** MAIN RESULT. A single-level run in which every request failed is accepted as a safe
      failure exactly when the five errors it keeps come from well-coded replies, and the
      evidence made from it then passes the gate. */
  lemma FailedRunAcceptedIff(codec: Codec, replies: seq<Reply>, latencies: seq<real>, canaries: seq<string>,
      concurrency: int, wall: real, endpointSha: string, model: string, hourly: real)
    requires |replies| == |latencies| == |canaries| >= 1 && Hex64(endpointSha)
    requires forall i :: 0 <= i < |canaries| ==> canaries[i] != ""
    requires AllFailed(Outcomes(replies, latencies, canaries))
    ensures var level := Tally(concurrency, |replies|, wall, Outcomes(replies, latencies, canaries));
      var raw := ReportDoc(endpointSha, model, [level], hourly);
      && ExitCode([level]) == 1
      && (SafeFailure(codec, raw, ExitCode([level])).Ok? <==> FirstFiveWellCoded(replies))
      && (FirstFiveWellCoded(replies) ==> Gate.FailurePasses(SafeFailure(codec, raw, ExitCode([level])).value))
  {
    var outcomes := Outcomes(replies, latencies, canaries);
    var level := Tally(concurrency, |replies|, wall, outcomes);
    var raw := ReportDoc(endpointSha, model, [level], hourly);
    OutcomesClassified(replies, latencies, canaries);
    AllFailedTally(outcomes);
    ExitOfOne(level);
    KeptErrorsClassedIff(replies, latencies, canaries);
    SafelyFailedLevel(codec, endpointSha, model, level, hourly);
    hide SafelyFailed, SafeFailure, Outcomes, ReportDoc, FirstFiveWellCoded, Hex64, Gate.FailurePasses;
    if SafelyFailed(codec, raw, 1) {
      SafeFailurePassesGate(codec, raw, 1);
    }
    SafeFailureIff(codec, raw, 1);
  }

  /** The failing input: one request answered with status 600. The run failed safely, and the
      reducer refuses it. */
  lemma UnknownStatusRefused(codec: Codec, endpointSha: string, model: string)
    requires Hex64(endpointSha)
    ensures var outcomes := Outcomes([HttpError(600)], [0.1], ["marker"]);
      var level := Tally(1, 1, 0.1, outcomes);
      AllFailed(outcomes) && !SafeFailure(codec, ReportDoc(endpointSha, model, [level], 1.0), 1).Ok?
  {
    var outcomes := Outcomes([HttpError(600)], [0.1], ["marker"]);
    assert !outcomes[0].ok && |outcomes| == 1;
    hide Outcomes, SafeFailure, ReportDoc, Hex64;
    assert AllFailed(outcomes);
    assert !WellCoded([HttpError(600)][0]);
    FailedRunAcceptedIff(codec, [HttpError(600)], [0.1], ["marker"], 1, 0.1, endpointSha, model, 1.0);
  }

  lemma SafeFailureIff(codec: Codec, raw: Doc, exitCode: int)
    ensures SafeFailure(codec, raw, exitCode).Ok? <==> SafelyFailed(codec, raw, exitCode)
    ensures SafeFailure(codec, raw, exitCode).Crash? <==> ProbeCrashes(codec, raw, exitCode)
  {
    hide ErrorClass, Hex64Text, EvidenceDoc, ProbeFailed, IsProbe, Pow2;
  }

  lemma ExitOfOne(l: Level)
    requires l.failed >= 1
    ensures ExitCode([l]) == 1
  {
    assert [l][1..] == [];
    assert TotalFailed([l]) == l.failed;
  }

  lemma KeptErrorClassedIff(replies: seq<Reply>, latencies: seq<real>, canaries: seq<string>, i: nat)
    requires |replies| == |latencies| == |canaries| && i < |replies|
    requires !Outcomes(replies, latencies, canaries)[i].ok
    ensures ErrorClass(Outcomes(replies, latencies, canaries)[i].error) <==> WellCoded(replies[i])
  {
    hide Classify, ErrorClass;
    ErrorClassIff(replies[i], latencies[i], canaries[i], canaries[..i] + canaries[i + 1..]);
  }

  lemma KeptErrorsClassedIff(replies: seq<Reply>, latencies: seq<real>, canaries: seq<string>)
    requires |replies| == |latencies| == |canaries|
    requires forall i :: 0 <= i < |canaries| ==> canaries[i] != ""
    requires AllFailed(Outcomes(replies, latencies, canaries))
    ensures (forall e :: e in FirstFive(Errors(Outcomes(replies, latencies, canaries))) ==> ErrorClass(e))
      <==> FirstFiveWellCoded(replies)
  {
    hide Outcomes, Errors, ErrorClass, WellCoded, AllClassified;
    var outcomes := Outcomes(replies, latencies, canaries);
    OutcomesClassified(replies, latencies, canaries);
    AllFailedTally(outcomes);
    var kept := FirstFive(Errors(outcomes));
    forall i | 0 <= i < |kept| ensures ErrorClass(kept[i]) <==> WellCoded(replies[i]) {
      KeptErrorClassedIff(replies, latencies, canaries, i);
    }
    if FirstFiveWellCoded(replies) {
      forall e | e in kept ensures ErrorClass(e) {
        var i :| 0 <= i < |kept| && kept[i] == e;
      }
    } else {
      var i :| 0 <= i < |replies| && i < 5 && !WellCoded(replies[i]);
      assert kept[i] in kept;
    }
  }

  lemma SafelyFailedLevel(codec: Codec, endpointSha: string, model: string, l: Level, hourly: real)
    requires Hex64(endpointSha) && l.succeeded == 0 && l.failed >= 1 && l.errors != []
    ensures SafelyFailed(codec, ReportDoc(endpointSha, model, [l], hourly), 1)
      <==> forall e :: e in FirstFive(l.errors) ==> ErrorClass(e)
  {
    SingleLevelReport(endpointSha, model, l, hourly);
    LevelErrorsRead(l, hourly);
    LevelNumbersRead(codec, l, hourly);
    hide LevelDoc, ReportDoc, ErrorClass, Hex64;
    assert [Obj(LevelDoc(l, hourly))][0] == Obj(LevelDoc(l, hourly));
  }

  // -------------------------------------------------- the clean run, end to end

  /** A level none of whose requests failed. */
  predicate CleanLevel(l: Level) {
    && l.failed == 0 && l.leakageFailures == 0
    && l.succeeded == l.requested == l.canariesVerified
  }

  /** A tally without failures is clean. */
  lemma TallyWithoutFailuresIsClean(concurrency: int, wall: real, outcomes: seq<RequestResult>)
    requires AllClassified(outcomes) && Count(outcomes, FAILED) == 0
    ensures CleanLevel(Tally(concurrency, |outcomes|, wall, outcomes))
  {
    TallyConserves(concurrency, wall, outcomes);
  }

  lemma CleanLevelPasses(l: Level, hourly: real)
    requires CleanLevel(l)
    ensures Gate.LevelPasses(LevelDoc(l, hourly))
    ensures Field(LevelDoc(l, hourly), "concurrency") == Int(l.concurrency)
  {
  }

  /** One repeat: the three concurrency levels of the release benchmark, all clean. */
  predicate CleanRepeat(levels: seq<Level>) {
    && |levels| == 3 && levels[0].concurrency == 1 && levels[1].concurrency == 2 && levels[2].concurrency == 4
    && forall i :: 0 <= i < 3 ==> CleanLevel(levels[i])
  }

  lemma ReportMembers(levels: seq<Level>, endpointSha: string, model: string, hourly: real)
    ensures var report := ReportDoc(endpointSha, model, levels, hourly);
      && Field(report, "levels") == Arr(LevelDocs(levels, hourly))
      && Field(report, "endpoint_sha256") == Str(endpointSha)
      && Field(report, "assumptions") == Obj(map["instance_hourly_usd" := Float(hourly)])
  {
  }

  predicate LevelAsExpected(j: Json, concurrency: int) {
    j.Obj? && Equal(Field(j.fields, "concurrency"), Int(concurrency)) && Gate.LevelPasses(j.fields)
  }

  lemma CleanLevelAsExpected(l: Level, hourly: real)
    requires CleanLevel(l)
    ensures LevelAsExpected(Obj(LevelDoc(l, hourly)), l.concurrency)
  {
    CleanLevelPasses(l, hourly);
  }

  lemma CleanRepeatPasses(levels: seq<Level>, endpointSha: string, model: string, hourly: real)
    requires CleanRepeat(levels) && Hex64(endpointSha)
    ensures Gate.BenchmarkPasses(ReportDoc(endpointSha, model, levels, hourly))
  {
    ReportMembers(levels, endpointSha, model, hourly);
    CleanLevelAsExpected(levels[0], hourly);
    CleanLevelAsExpected(levels[1], hourly);
    CleanLevelAsExpected(levels[2], hourly);
    hide LevelDoc, ReportDoc, Hex64, CleanLevel;
    BenchmarkFromParts(ReportDoc(endpointSha, model, levels, hourly), LevelDocs(levels, hourly), endpointSha);
  }

  lemma BenchmarkFromParts(report: Doc, levels: seq<Json>, endpointSha: string)
    requires Field(report, "levels") == Arr(levels) && Field(report, "endpoint_sha256") == Str(endpointSha)
    requires Hex64(endpointSha) && |levels| == 3
    requires LevelAsExpected(levels[0], 1) && LevelAsExpected(levels[1], 2) && LevelAsExpected(levels[2], 4)
    ensures Gate.BenchmarkPasses(report)
  {
    hide Gate.LevelPasses, Hex64, Equal, Field;
  }

  lemma LevelDocsGrow(levels: seq<Level>, hourly: real)
    requires levels != []
    ensures LevelDocs(levels, hourly)
      == LevelDocs(levels[..|levels| - 1], hourly) + [Obj(LevelDoc(levels[|levels| - 1], hourly))]
  {
    hide LevelDoc;
  }

  lemma {:induction false} CleanLevelsTotal(codec: Codec, levels: seq<Level>, hourly: real)
    requires forall i :: 0 <= i < |levels| ==> CleanLevel(levels[i])
    ensures LevelsTotal(codec, LevelDocs(levels, hourly))
      == Some(Share(SumRounded(levels), SumSucceeded(levels), SumSucceeded(levels)))
  {
    hide LevelDoc, LevelShare, RoundAt, CleanLevel;
    if levels != [] {
      var init, last := levels[..|levels| - 1], levels[|levels| - 1];
      CleanLevelsTotal(codec, init, hourly);
      CleanLevelShare(codec, last, hourly);
      LevelDocsGrow(levels, hourly);
      TotalGrows(codec, LevelDocs(init, hourly), Obj(LevelDoc(last, hourly)));
    }
  }

  lemma TotalGrows(codec: Codec, docs: seq<Json>, last: Json)
    ensures LevelsTotal(codec, docs + [last]) == Plus(LevelsTotal(codec, docs), LevelShare(codec, last))
  {
    hide LevelShare, Plus;
    assert (docs + [last])[..|docs|] == docs;
  }

  lemma CleanLevelShare(codec: Codec, l: Level, hourly: real)
    requires CleanLevel(l)
    ensures LevelShare(codec, Obj(LevelDoc(l, hourly))) == Some(Share(RoundAt(l.wall, 10000.0), l.succeeded, l.succeeded))
  {
    hide RoundAt;
    var d := LevelDoc(l, hourly);
    assert d["wall_seconds"] == Float(RoundAt(l.wall, 10000.0));
    assert d["succeeded"] == Int(l.succeeded) && d["requests"] == Int(l.requested) && d["failed"] == Int(l.failed);
  }

  lemma CleanReportTotal(codec: Codec, levels: seq<Level>, endpointSha: string, model: string, hourly: real)
    requires CleanRepeat(levels)
    ensures ReportTotal(codec, ReportDoc(endpointSha, model, levels, hourly), hourly)
      == Some(Share(SumRounded(levels), SumSucceeded(levels), SumSucceeded(levels)))
  {
    CleanLevelsTotal(codec, levels, hourly);
    ReportMembers(levels, endpointSha, model, hourly);
    hide ReportDoc, LevelsTotal, SumRounded, SumSucceeded, CleanLevel;
    assert |LevelDocs(levels, hourly)| == 3;
  }

  lemma PerRequestNotNegative(t: Share, rate: real)
    requires rate >= 0.0 && t.completed >= 1 && t.seconds > 0.0
    ensures EstimatedPerRequest(t, rate) >= 0.0
  {
    assert rate * t.seconds >= 0.0;
  }

  lemma EstimatesNotNegative(t: Share, rate: real, representative: int)
    requires rate >= 0.0 && representative >= 1 && t.completed >= 1 && t.seconds > 0.0
    ensures RoundAt(EstimatedPerRequest(t, rate), 100000000.0) >= 0.0
    ensures RoundAt(EstimatedPerRun(t, rate, representative), 100000000.0) >= 0.0
  {
    PerRequestNotNegative(t, rate);
    hide EstimatedPerRequest, RoundAt;
    assert EstimatedPerRun(t, rate, representative) >= 0.0;
    RoundAtClose(EstimatedPerRequest(t, rate), 100000000.0);
    RoundAtClose(EstimatedPerRun(t, rate, representative), 100000000.0);
  }

  lemma CostFromMembers(codec: Codec, d: Doc, rate: real, perRequest: real, perRun: real, completed: int, representative: int)
    requires rate >= 0.0 && perRequest >= 0.0 && perRun >= 0.0 && completed >= 1 && representative >= 1
    requires d.Keys >= {"assumption_instance_hourly_usd", "estimated_cost_per_request_usd",
      "estimated_cost_per_representative_run_usd", "requests_completed", "representative_run_requests"}
    requires Field(d, "passed") == Bool(true) && Field(d, "benchmark_repeats") == Int(3)
    requires d["assumption_instance_hourly_usd"] == Float(rate)
    requires d["estimated_cost_per_request_usd"] == Float(perRequest)
    requires d["estimated_cost_per_representative_run_usd"] == Float(perRun)
    requires d["requests_completed"] == Int(completed) == Field(d, "requests_requested")
    requires d["representative_run_requests"] == Int(representative)
    ensures Gate.CostPasses(codec, d)
  {
  }

  /** The cost report of three repeats passes the gate's cost section. */
  lemma CostDocPassesGate(codec: Codec, t: Share, rate: real, representative: int)
    requires rate >= 0.0 && representative >= 1 && t.completed >= 1 && t.completed == t.requested && t.seconds > 0.0
    ensures Gate.CostPasses(codec, CostDoc(t, 3, rate, representative))
  {
    EstimatesNotNegative(t, rate, representative);
    hide RoundAt, EstimatedTotal, EstimatedPerRequest, EstimatedPerRun, Gate.CostPasses;
    CostFromMembers(codec, CostDoc(t, 3, rate, representative), rate, RoundAt(EstimatedPerRequest(t, rate), 100000000.0),
      RoundAt(EstimatedPerRun(t, rate, representative), 100000000.0), t.completed, representative);
  }

  /** Three clean repeats of the release benchmark pass every level check of the
      gate; and unless all their wall times round to nothing or no request was made, they
      support a cost report that the gate accepts too. */
  lemma CleanRunPassesGate(codec: Codec, a: seq<Level>, b: seq<Level>, c: seq<Level>,
      endpointSha: string, model: string, hourly: real, representative: int)
    requires CleanRepeat(a) && CleanRepeat(b) && CleanRepeat(c)
    requires Hex64(endpointSha) && hourly >= 0.0 && representative >= 1
    ensures Gate.BenchmarkPasses(ReportDoc(endpointSha, model, a, hourly))
    ensures Gate.BenchmarkPasses(ReportDoc(endpointSha, model, b, hourly))
    ensures Gate.BenchmarkPasses(ReportDoc(endpointSha, model, c, hourly))
    ensures var reports := [ReportDoc(endpointSha, model, a, hourly), ReportDoc(endpointSha, model, b, hourly), ReportDoc(endpointSha, model, c, hourly)];
      && Total(codec, reports, hourly).Some?
      && (Supports(Total(codec, reports, hourly)) <==>
            SumRounded(a) + SumRounded(b) + SumRounded(c) > 0.0 && SumSucceeded(a) + SumSucceeded(b) + SumSucceeded(c) >= 1)
      && (Supports(Total(codec, reports, hourly)) ==>
            Gate.CostPasses(codec, CostDoc(Total(codec, reports, hourly).value, 3, hourly, representative)))
  {
    hide ReportDoc, ReportTotal, Total, CleanRepeat, Hex64, Gate.BenchmarkPasses, Gate.CostPasses, CostDoc, SumRounded, SumSucceeded;
    CleanRepeatPasses(a, endpointSha, model, hourly);
    CleanRepeatPasses(b, endpointSha, model, hourly);
    CleanRepeatPasses(c, endpointSha, model, hourly);
    CleanReportTotal(codec, a, endpointSha, model, hourly);
    CleanReportTotal(codec, b, endpointSha, model, hourly);
    CleanReportTotal(codec, c, endpointSha, model, hourly);
    var ra, rb, rc := ReportDoc(endpointSha, model, a, hourly), ReportDoc(endpointSha, model, b, hourly), ReportDoc(endpointSha, model, c, hourly);
    TotalOfThree(codec, ra, rb, rc, hourly);
    var t := Total(codec, [ra, rb, rc], hourly);
    if Supports(t) {
      CostDocPassesGate(codec, t.value, hourly, representative);
    }
  }

  lemma TotalOfThree(codec: Codec, a: Doc, b: Doc, c: Doc, rate: real)
    ensures Total(codec, [a, b, c], rate)
      == Plus(Plus(Plus(NOTHING, ReportTotal(codec, a, rate)), ReportTotal(codec, b, rate)), ReportTotal(codec, c, rate))
  {
    hide ReportTotal, Plus;
    assert [a, b, c][..2] == [a, b] && [a, b][..1] == [a] && [a][..0] == [];
    assert Total(codec, [a], rate) == Plus(NOTHING, ReportTotal(codec, a, rate));
    assert Total(codec, [a, b], rate) == Plus(Total(codec, [a], rate), ReportTotal(codec, b, rate));
  }

  // ------------------------------------------------- what a refused probe lacks

  /** Each fault alone refuses the probe: an exit code of 0, an endpoint that is no digest, not exactly
      one level, no error or an unclassified one, a success, or no failure. */
  lemma ProbeFaults(codec: Codec, raw: Doc, exitCode: int)
    requires
      || exitCode == 0
      || !Field(raw, "endpoint_sha256").Str? || !Hex64(Field(raw, "endpoint_sha256").s)
      || !Field(raw, "levels").Arr? || |Field(raw, "levels").items| != 1
      || (Field(raw, "levels").items[0].Obj? && LevelFaulty(codec, Field(raw, "levels").items[0].fields))
    ensures !SafeFailure(codec, raw, exitCode).Ok?
  {
    SafeFailureIff(codec, raw, exitCode);
    hide ErrorClass, EvidenceDoc, Pow2, LevelFaulty, ProbeFailed, ProbeCrashes, SafeFailure;
    if IsProbe(raw, exitCode) && Field(raw, "levels").items[0].Obj? && LevelFaulty(codec, Field(raw, "levels").items[0].fields) {
      FaultyLevelFails(codec, Field(raw, "levels").items[0].fields);
    }
  }

  lemma FaultyLevelFails(codec: Codec, level: Doc)
    requires LevelFaulty(codec, level)
    ensures !ProbeFailed(codec, level)
  {
    hide ErrorClass;
    if "errors" in level && level["errors"].Arr? {
      var items := level["errors"].items;
      if e :| e in items && (!e.Str? || !ErrorClass(e.s)) {
        var i :| 0 <= i < |items| && items[i] == e;
        assert AllTexts(items).Some? ==> items[i].Str? && AllTexts(items).value[i] == e.s;
      }
    }
  }

  predicate LevelFaulty(codec: Codec, level: Doc) {
    || "errors" !in level || !level["errors"].Arr? || level["errors"].items == []
    || (exists e :: e in level["errors"].items && (!e.Str? || !ErrorClass(e.s)))
    || "succeeded" !in level || AsInt(codec, level["succeeded"]) != Some(0)
    || "failed" !in level || AsInt(codec, level["failed"]) == None || AsInt(codec, level["failed"]).value <= 0
  }

  /** The evidence repeats the probe's endpoint, model and counts, and lists its error classes in
      dictionary order, each once; nothing else of the report. */
  lemma EvidenceSays(codec: Codec, raw: Doc, exitCode: int, concurrency: int, requests: int, failed: int, seconds: real)
    requires SafelyFailed(codec, raw, exitCode)
    requires var level := Field(raw, "levels").items[0].fields;
      && Field(level, "concurrency") == Int(concurrency) && Field(level, "requests") == Int(requests)
      && Field(level, "failed") == Int(failed) && Field(level, "wall_seconds") == Float(seconds)
    ensures SafeFailure(codec, raw, exitCode).Ok?
    ensures var d := SafeFailure(codec, raw, exitCode).value;
      && Field(d, "endpoint_sha256") == Field(raw, "endpoint_sha256") && Field(d, "model") == Field(raw, "model")
      && Field(d, "concurrency") == Int(concurrency) && Field(d, "requests") == Int(requests)
      && Field(d, "failed") == Int(failed) && Field(d, "elapsed_seconds") == Float(seconds)
      && Field(d, "error_classes").Arr?
      && (forall x :: x in Field(d, "error_classes").items <==> x in Field(Field(raw, "levels").items[0].fields, "errors").items)
      && d.Keys == EVIDENCE_KEYS
  {
    SafeFailureIff(codec, raw, exitCode);
    var level := Field(raw, "levels").items[0].fields;
    var errors := Field(level, "errors").items;
    var texts := AllTexts(errors).value;
    SortedSetMembers(texts);
    TextsHold(errors, texts, SortedSet(texts));
    EvidenceDocSays(Field(raw, "endpoint_sha256"), Field(raw, "model"), concurrency, requests, failed, seconds, SortedSet(texts));
    EvidenceIs(codec, raw, exitCode, level);
    LevelNumbers(codec, level, concurrency, requests, failed, seconds);
    hide ErrorClass, Hex64Text, Pow2, SortedSet, ProbeCrashes, SafelyFailed, SafeFailure, EvidenceDoc, AllTexts, AsInt, Gate.AsFloat, FieldOr;
  }

  lemma EvidenceIs(codec: Codec, raw: Doc, exitCode: int, level: Doc)
    requires SafelyFailed(codec, raw, exitCode) && level == Field(raw, "levels").items[0].fields
    ensures Field(level, "errors").Arr? && AllTexts(Field(level, "errors").items).Some?
    ensures AsInt(codec, FieldOr(level, "concurrency", Int(0))).Some? && AsInt(codec, FieldOr(level, "requests", Int(0))).Some?
    ensures AsInt(codec, FieldOr(level, "failed", Int(0))).Some? && Gate.AsFloat(codec, FieldOr(level, "wall_seconds", Float(0.0))).Some?
    ensures SafeFailure(codec, raw, exitCode) == Gate.Ok(EvidenceDoc(Field(raw, "endpoint_sha256"), Field(raw, "model"),
      AsInt(codec, FieldOr(level, "concurrency", Int(0))).value, AsInt(codec, FieldOr(level, "requests", Int(0))).value,
      AsInt(codec, FieldOr(level, "failed", Int(0))).value, Gate.AsFloat(codec, FieldOr(level, "wall_seconds", Float(0.0))).value,
      SortedSet(AllTexts(Field(level, "errors").items).value)))
  {
    SafeFailureIff(codec, raw, exitCode);
    hide ErrorClass, Hex64Text, Pow2, SortedSet, EvidenceDoc, AllTexts, AsInt, Gate.AsFloat, FieldOr;
  }

  lemma LevelNumbers(codec: Codec, level: Doc, concurrency: int, requests: int, failed: int, seconds: real)
    requires Field(level, "concurrency") == Int(concurrency) && Field(level, "requests") == Int(requests)
    requires Field(level, "failed") == Int(failed) && Field(level, "wall_seconds") == Float(seconds)
    ensures AsInt(codec, FieldOr(level, "concurrency", Int(0))) == Some(concurrency) && AsInt(codec, FieldOr(level, "requests", Int(0))) == Some(requests)
    ensures AsInt(codec, FieldOr(level, "failed", Int(0))) == Some(failed)
    ensures Gate.AsFloat(codec, FieldOr(level, "wall_seconds", Float(0.0))) == Some(seconds)
  {
    hide Pow2;
  }

  lemma EvidenceDocSays(endpoint: Json, model: Json, concurrency: int, requests: int, failed: int, elapsed: real, classes: seq<string>)
    ensures var d := EvidenceDoc(endpoint, model, concurrency, requests, failed, elapsed, classes);
      && Field(d, "endpoint_sha256") == endpoint && Field(d, "model") == model
      && Field(d, "concurrency") == Int(concurrency) && Field(d, "requests") == Int(requests)
      && Field(d, "failed") == Int(failed) && Field(d, "elapsed_seconds") == Float(elapsed)
      && Field(d, "error_classes") == Arr(Texts(classes)) && d.Keys == EVIDENCE_KEYS
  {
    hide Texts;
  }

  const EVIDENCE_KEYS: set<string> := {
    "passed", "inference_succeeded", "command_exit_nonzero", "endpoint_sha256", "model", "concurrency", "requests", "failed",
    "elapsed_seconds", "error_classes", "source_code_included", "prompt_recorded", "generated_code_recorded",
    "narrative_recorded", "credentials_recorded"}

  lemma TextsHold(errors: seq<Json>, texts: seq<string>, sorted: seq<string>)
    requires AllTexts(errors) == Some(texts) && forall x :: x in sorted <==> x in texts
    ensures forall x :: x in Texts(sorted) <==> x in errors
  {
    forall x | x in Texts(sorted) ensures x in errors {
      var i :| 0 <= i < |sorted| && x == Str(sorted[i]);
      assert sorted[i] in texts;
      var j :| 0 <= j < |texts| && texts[j] == sorted[i];
      assert errors[j] == x;
    }
    forall x | x in errors ensures x in Texts(sorted) {
      var j :| 0 <= j < |errors| && errors[j] == x;
      assert texts[j] in texts;
      var i :| 0 <= i < |sorted| && sorted[i] == texts[j];
      assert Texts(sorted)[i] == x;
    }
  }
}

/** The model-serving benchmark: how one reply is classified, how a level is tallied, and
    what is reported about it. */
module Benchmark {
  import opened Wrappers
  import opened Json
  import opened Rounding
  import T = Text

  // ----------------------------------------------------------- one request

  /** What the endpoint did, as far as the classification tells it apart. */
  datatype Reply =
    | HttpError(code: int)
    | Raised(exceptionName: string)
    | NotAnObject
    | BadChoices
    | NoContent
    | Content(text: string, usage: Usage)

  datatype Usage = Missing | WrongType | Counts(prompt: int, completion: int)

  datatype RequestResult = RequestResult(
    latency: real,
    ok: bool,
    promptTokens: int,
    completionTokens: int,
    canaryVerified: bool,
    leakageDetected: bool,
    error: string)

  function Failure(latency: real, leakage: bool, error: string): RequestResult {
    RequestResult(latency, false, 0, 0, false, leakage, error)
  }

  function Digit(d: int): string
    requires 0 <= d < 10
  {
    [('0' as int + d) as char]
  }

  function Decimal(n: nat): string {
    if n < 10 then Digit(n) else Decimal(n / 10) + Digit(n % 10)
  }

  function IntText(n: int): string { if n < 0 then "-" + Decimal(-n) else Decimal(n) }

  /** The number a digit string spells. */
  function Spelled(s: string): int {
    if s == "" then 0 else 10 * Spelled(s[..|s| - 1]) + (s[|s| - 1] as int - '0' as int)
  }

  /** A status code is written in decimal: it reads back, without leading zeros, with a sign exactly
      when negative. */
  lemma {:induction false} DecimalReadsBack(n: nat)
    ensures Decimal(n) != "" && (forall i :: 0 <= i < |Decimal(n)| ==> '0' <= Decimal(n)[i] <= '9')
    ensures Spelled(Decimal(n)) == n && (Decimal(n)[0] == '0' <==> n == 0)
  {
    if n < 10 {
      assert Digit(n)[..0] == "";
    } else {
      DecimalReadsBack(n / 10);
      var s := Decimal(n / 10) + Digit(n % 10);
      assert s[..|s| - 1] == Decimal(n / 10);
    }
  }

  lemma IntTextReadsBack(n: int)
    ensures n >= 0 ==> IntText(n) == Decimal(n) && Spelled(IntText(n)) == n
    ensures n < 0 ==> IntText(n)[0] == '-' && Spelled(IntText(n)[1..]) == -n
  {
    DecimalReadsBack(if n < 0 then -n else n);
  }

  predicate AnyMarker(content: string, markers: seq<string>) {
    exists i :: 0 <= i < |markers| && T.Contains(content, markers[i])
  }

  /** `one_request` after the reply is in; an empty `own` marker means none is expected. */
  function Classify(reply: Reply, latency: real, own: string, foreign: seq<string>): RequestResult {
    match reply
    case HttpError(code) => Failure(latency, false, "http_status_" + IntText(code))
    case Raised(name) => Failure(latency, false, "transport_" + name)
    case NotAnObject => Failure(latency, false, "invalid_json_root")
    case BadChoices => Failure(latency, false, "invalid_choices_message")
    case NoContent => Failure(latency, false, "invalid_openai_message_content")
    case Content(text, usage) =>
      if own != "" && AnyMarker(text, foreign) then Failure(latency, true, "cross_request_leakage")
      else if own != "" && !T.Contains(text, own) then Failure(latency, false, "isolation_marker_missing")
      else
        match usage
        case Missing => Failure(latency, false, "invalid_token_usage_missing")
        case WrongType => Failure(latency, false, "invalid_token_usage_type")
        case Counts(p, c) =>
          if p < 0 || c < 0 then Failure(latency, false, "invalid_token_usage_negative")
          else RequestResult(latency, true, p, c, own != "", false, "")
  }

  /** A success carries its own marker, no other request's, and usable token counts. */
  lemma SuccessIsIsolated(reply: Reply, latency: real, own: string, foreign: seq<string>)
    ensures var r := Classify(reply, latency, own, foreign);
      && (r.ok <==> (reply.Content? && reply.usage.Counts? && reply.usage.prompt >= 0 && reply.usage.completion >= 0
            && (own != "" ==> T.Contains(reply.text, own) && !AnyMarker(reply.text, foreign))))
      && (r.ok && own != "" ==> r.canaryVerified)
      && (r.leakageDetected ==> !r.ok)
      && (!r.ok <==> r.error != "")
  {
  }

  /** The error a failed request keeps, by what the endpoint did. */
  lemma ErrorByReply(reply: Reply, latency: real, own: string, foreign: seq<string>)
    ensures var r := Classify(reply, latency, own, foreign);
      && r.latency == latency
      && (forall code :: reply == HttpError(code) ==> r.error == "http_status_" + IntText(code))
      && (forall name :: reply == Raised(name) ==> r.error == "transport_" + name)
      && (reply.NotAnObject? ==> r.error == "invalid_json_root")
      && (reply.BadChoices? ==> r.error == "invalid_choices_message")
      && (reply.NoContent? ==> r.error == "invalid_openai_message_content")
      && (r.leakageDetected <==> reply.Content? && own != "" && AnyMarker(reply.text, foreign))
      && (r.leakageDetected ==> r.error == "cross_request_leakage")
      && (reply.Content? && own != "" && !r.leakageDetected && !T.Contains(reply.text, own) ==> r.error == "isolation_marker_missing")
      && (r.error in {"invalid_token_usage_missing", "invalid_token_usage_type", "invalid_token_usage_negative"} ==>
            reply.Content? && (own != "" ==> T.Contains(reply.text, own)))
      && (reply.Content? && r.ok ==> r.promptTokens == reply.usage.prompt && r.completionTokens == reply.usage.completion)
      && (!r.ok ==> r.promptTokens == 0 && r.completionTokens == 0 && !r.canaryVerified)
  {
    if reply.HttpError? {
      DifferentErrors("http_status_", IntText(reply.code));
    } else if reply.Raised? {
      DifferentErrors("transport_", reply.exceptionName);
    }
  }

  lemma DifferentErrors(prefix: string, rest: string)
    requires prefix in {"http_status_", "transport_"}
    ensures prefix + rest !in {"invalid_token_usage_missing", "invalid_token_usage_type", "invalid_token_usage_negative"}
  {
    assert (prefix + rest)[0] == prefix[0];
  }

  // --------------------------------------------------------------- one level

  datatype Level = Level(
    concurrency: int,
    requested: int,
    succeeded: int,
    failed: int,
    wall: real,
    latencies: seq<real>,
    promptTokens: int,
    completionTokens: int,
    canariesVerified: int,
    leakageFailures: int,
    errors: seq<string>)

  function Count(outcomes: seq<RequestResult>, f: RequestResult -> bool): nat {
    if outcomes == [] then 0
    else Count(outcomes[..|outcomes| - 1], f) + if f(outcomes[|outcomes| - 1]) then 1 else 0
  }

  function Latencies(outcomes: seq<RequestResult>): seq<real> {
    if outcomes == [] then []
    else
      var last := outcomes[|outcomes| - 1];
      Latencies(outcomes[..|outcomes| - 1]) + if last.ok then [last.latency] else []
  }

  function Errors(outcomes: seq<RequestResult>): seq<string> {
    if outcomes == [] then []
    else
      var last := outcomes[|outcomes| - 1];
      Errors(outcomes[..|outcomes| - 1]) + if !last.ok && last.error != "" then [last.error] else []
  }

  function Tokens(outcomes: seq<RequestResult>, f: RequestResult -> int): int {
    if outcomes == [] then 0
    else Tokens(outcomes[..|outcomes| - 1], f) + if outcomes[|outcomes| - 1].ok then f(outcomes[|outcomes| - 1]) else 0
  }

  const SUCCEEDED: RequestResult -> bool := (r: RequestResult) => r.ok
  const FAILED: RequestResult -> bool := (r: RequestResult) => !r.ok
  const VERIFIED: RequestResult -> bool := (r: RequestResult) => r.ok && r.canaryVerified
  const LEAKED: RequestResult -> bool := (r: RequestResult) => !r.ok && r.leakageDetected
  const PROMPT: RequestResult -> int := (r: RequestResult) => r.promptTokens
  const COMPLETION: RequestResult -> int := (r: RequestResult) => r.completionTokens

  /** The level result of a list of outcomes. */
  function Tally(concurrency: int, requested: int, wall: real, outcomes: seq<RequestResult>): Level {
    Level(concurrency, requested, Count(outcomes, SUCCEEDED), Count(outcomes, FAILED), wall,
      Latencies(outcomes), Tokens(outcomes, PROMPT), Tokens(outcomes, COMPLETION),
      Count(outcomes, VERIFIED), Count(outcomes, LEAKED), Errors(outcomes))
  }

  /** An outcome as `one_request` produces it when a marker is expected. */
  predicate Classified(r: RequestResult) {
    && (r.ok ==> r.canaryVerified)
    && (r.leakageDetected ==> !r.ok)
    && (!r.ok <==> r.error != "")
    && (r.ok ==> r.promptTokens >= 0 && r.completionTokens >= 0)
  }

  predicate AllClassified(outcomes: seq<RequestResult>) {
    forall i :: 0 <= i < |outcomes| ==> Classified(outcomes[i])
  }

  /** MAIN RESULT. Nothing is lost or counted twice in a level. */
  lemma {:induction false} TallyConserves(concurrency: int, wall: real, outcomes: seq<RequestResult>)
    requires AllClassified(outcomes)
    ensures var l := Tally(concurrency, |outcomes|, wall, outcomes);
      && l.succeeded + l.failed == l.requested
      && |l.latencies| == l.canariesVerified == l.succeeded
      && l.leakageFailures <= l.failed == |l.errors|
      && l.promptTokens >= 0 && l.completionTokens >= 0
  {
    if outcomes != [] {
      var init := outcomes[..|outcomes| - 1];
      assert Classified(outcomes[|outcomes| - 1]);
      TallyConserves(concurrency, wall, init);
    }
  }

  /** The outcomes of a level: every request sends its own marker and must not see others'. */
  function Outcomes(replies: seq<Reply>, latencies: seq<real>, canaries: seq<string>): (o: seq<RequestResult>)
    requires |replies| == |latencies| == |canaries|
    ensures |o| == |replies|
  {
    seq(|replies|, i requires 0 <= i < |replies| =>
      Classify(replies[i], latencies[i], canaries[i], canaries[..i] + canaries[i + 1..]))
  }

  lemma OutcomesClassified(replies: seq<Reply>, latencies: seq<real>, canaries: seq<string>)
    requires |replies| == |latencies| == |canaries|
    requires forall i :: 0 <= i < |canaries| ==> canaries[i] != ""
    ensures AllClassified(Outcomes(replies, latencies, canaries))
  {
    forall i | 0 <= i < |replies| ensures Classified(Outcomes(replies, latencies, canaries)[i]) {
      SuccessIsIsolated(replies[i], latencies[i], canaries[i], canaries[..i] + canaries[i + 1..]);
    }
  }

  /** MAIN RESULT. In a level, request i is counted as a leak exactly when its reply holds the marker
      of another request, and verified exactly when it holds its own, no other, and usable counts. */
  lemma LeakIffForeignMarker(replies: seq<Reply>, latencies: seq<real>, canaries: seq<string>, i: nat)
    requires |replies| == |latencies| == |canaries| && i < |replies| && canaries[i] != ""
    ensures var r := Outcomes(replies, latencies, canaries)[i];
      && (r.leakageDetected <==> replies[i].Content? && HoldsAnother(replies[i].text, canaries, i))
      && (r.canaryVerified <==> r.ok)
      && (r.ok <==> (replies[i].Content? && replies[i].usage.Counts? && replies[i].usage.prompt >= 0 && replies[i].usage.completion >= 0
            && T.Contains(replies[i].text, canaries[i]) && !HoldsAnother(replies[i].text, canaries, i)))
  {
    var foreign := canaries[..i] + canaries[i + 1..];
    if replies[i].Content? {
      var text := replies[i].text;
      if k :| 0 <= k < |foreign| && T.Contains(text, foreign[k]) {
        assert canaries[if k < i then k else k + 1] == foreign[k];
      }
      if j :| 0 <= j < |canaries| && j != i && T.Contains(text, canaries[j]) {
        assert foreign[if j < i then j else j - 1] == canaries[j];
      }
    }
  }

  predicate HoldsAnother(text: string, canaries: seq<string>, i: nat) {
    exists j :: 0 <= j < |canaries| && j != i && T.Contains(text, canaries[j])
  }

  /** What one outcome adds to a level. */
  lemma TallyOfOne(concurrency: int, r: RequestResult)
    ensures var l := Tally(concurrency, 1, 0.0, [r]);
      if r.ok then
        && l.succeeded == 1 && l.failed == 0 && l.latencies == [r.latency] && l.leakageFailures == 0 && l.errors == []
        && l.promptTokens == r.promptTokens && l.completionTokens == r.completionTokens
        && l.canariesVerified == (if r.canaryVerified then 1 else 0)
      else
        && l.succeeded == 0 && l.failed == 1 && l.latencies == [] && l.canariesVerified == 0
        && l.promptTokens == 0 && l.completionTokens == 0
        && l.leakageFailures == (if r.leakageDetected then 1 else 0) && l.errors == if r.error == "" then [] else [r.error]
  {
    assert [r][..|[r]| - 1] == [] && Latencies([]) == [] && Errors([]) == [];
    assert SUCCEEDED(r) == r.ok && FAILED(r) == !r.ok && PROMPT(r) == r.promptTokens && COMPLETION(r) == r.completionTokens;
    assert VERIFIED(r) == (r.ok && r.canaryVerified) && LEAKED(r) == (!r.ok && r.leakageDetected);
    CountOfOne(r, SUCCEEDED);
    CountOfOne(r, FAILED);
    CountOfOne(r, VERIFIED);
    CountOfOne(r, LEAKED);
    TokensOfOne(r, PROMPT);
    TokensOfOne(r, COMPLETION);
  }

  lemma CountOfOne(r: RequestResult, f: RequestResult -> bool)
    ensures Count([r], f) == if f(r) then 1 else 0
  {
    assert [r][..|[r]| - 1] == [] && Count([], f) == 0;
  }

  lemma TokensOfOne(r: RequestResult, f: RequestResult -> int)
    ensures Tokens([r], f) == if r.ok then f(r) else 0
  {
    assert [r][..|[r]| - 1] == [] && Tokens([], f) == 0;
  }

  /** MAIN RESULT. A level is the sum of its parts: the figures of two lists of outcomes add up, and
      their latencies and errors follow each other. With single outcomes this fixes every figure. */
  lemma {:induction false} TallyAdds(concurrency: int, wall: real, a: seq<RequestResult>, b: seq<RequestResult>)
    ensures var x, y := Tally(concurrency, |a|, wall, a), Tally(concurrency, |b|, wall, b);
      Tally(concurrency, |a + b|, wall, a + b)
        == Level(concurrency, x.requested + y.requested, x.succeeded + y.succeeded, x.failed + y.failed, wall,
             x.latencies + y.latencies, x.promptTokens + y.promptTokens, x.completionTokens + y.completionTokens,
             x.canariesVerified + y.canariesVerified, x.leakageFailures + y.leakageFailures, x.errors + y.errors)
  {
    CountAdds(a, b, SUCCEEDED);
    CountAdds(a, b, FAILED);
    CountAdds(a, b, VERIFIED);
    CountAdds(a, b, LEAKED);
    TokensAdd(a, b, PROMPT);
    TokensAdd(a, b, COMPLETION);
    ListsAdd(a, b);
    hide Count, Tokens, Latencies, Errors;
  }

  lemma {:induction false} CountAdds(a: seq<RequestResult>, b: seq<RequestResult>, f: RequestResult -> bool)
    ensures Count(a + b, f) == Count(a, f) + Count(b, f)
  {
    if b == [] {
      assert a + b == a;
    } else {
      assert (a + b)[..|a + b| - 1] == a + b[..|b| - 1];
      CountAdds(a, b[..|b| - 1], f);
    }
  }

  lemma {:induction false} TokensAdd(a: seq<RequestResult>, b: seq<RequestResult>, f: RequestResult -> int)
    ensures Tokens(a + b, f) == Tokens(a, f) + Tokens(b, f)
  {
    if b == [] {
      assert a + b == a;
    } else {
      assert (a + b)[..|a + b| - 1] == a + b[..|b| - 1];
      TokensAdd(a, b[..|b| - 1], f);
    }
  }

  lemma {:induction false} ListsAdd(a: seq<RequestResult>, b: seq<RequestResult>)
    ensures Latencies(a + b) == Latencies(a) + Latencies(b) && Errors(a + b) == Errors(a) + Errors(b)
  {
    if b == [] {
      assert a + b == a;
    } else {
      assert (a + b)[..|a + b| - 1] == a + b[..|b| - 1];
      ListsAdd(a, b[..|b| - 1]);
    }
  }

  /** The mutable record the tally is kept in. */
  class LevelResult {
    const concurrency: int
    const requested: int
    var succeeded: int
    var failed: int
    var wall: real
    var latencies: seq<real>
    var promptTokens: int
    var completionTokens: int
    var canariesVerified: int
    var leakageFailures: int
    var errors: seq<string>

    constructor (concurrency: int, requested: int)
      ensures View() == Tally(concurrency, requested, 0.0, [])
      ensures this.concurrency == concurrency && this.requested == requested
    {
      this.concurrency, this.requested := concurrency, requested;
      succeeded, failed, wall, latencies := 0, 0, 0.0, [];
      promptTokens, completionTokens, canariesVerified, leakageFailures, errors := 0, 0, 0, 0, [];
    }

    function View(): Level
      reads this
    {
      Level(concurrency, requested, succeeded, failed, wall, latencies, promptTokens, completionTokens,
        canariesVerified, leakageFailures, errors)
    }

    /** The body of the tally loop. */
    method Add(outcome: RequestResult, ghost before: seq<RequestResult>)
      requires View() == Tally(concurrency, requested, wall, before)
      modifies this
      ensures View() == Tally(concurrency, requested, old(wall), before + [outcome])
    {
      assert (before + [outcome])[..|before|] == before;
      if outcome.ok {
        succeeded := succeeded + 1;
        latencies := latencies + [outcome.latency];
        promptTokens := promptTokens + outcome.promptTokens;
        completionTokens := completionTokens + outcome.completionTokens;
        canariesVerified := canariesVerified + if outcome.canaryVerified then 1 else 0;
      } else {
        failed := failed + 1;
        leakageFailures := leakageFailures + if outcome.leakageDetected then 1 else 0;
        if outcome.error != "" {
          errors := errors + [outcome.error];
        }
      }
    }
  }

  /** `run_level` once the replies are in; `wall` is the measured wall time. */
  method RunLevel(concurrency: int, requestsCount: int, replies: seq<Reply>, latencies: seq<real>,
      canaries: seq<string>, wall: real) returns (result: LevelResult)
    requires requestsCount > 0 ==> |replies| == |latencies| == |canaries| == requestsCount
    requires forall i :: 0 <= i < |canaries| ==> canaries[i] != ""
    ensures fresh(result)
    ensures requestsCount <= 0 ==> result.View() == Tally(concurrency, requestsCount, 0.0, [])
    ensures requestsCount > 0 ==>
      && AllClassified(Outcomes(replies, latencies, canaries))
      && result.View() == Tally(concurrency, requestsCount, wall, Outcomes(replies, latencies, canaries))
    ensures requestsCount >= 0 ==> result.succeeded + result.failed == result.requested == requestsCount
    ensures |result.latencies| == result.canariesVerified == result.succeeded
    ensures result.leakageFailures <= result.failed == |result.errors|
  {
    hide Outcomes, AllClassified;
    result := new LevelResult(concurrency, requestsCount);
    if requestsCount <= 0 {
      return;
    }
    var outcomes := Outcomes(replies, latencies, canaries);
    OutcomesClassified(replies, latencies, canaries);
    TallyConserves(concurrency, wall, outcomes);
    TallyInto(result, wall, outcomes);
  }

  /** The loop that folds the outcomes into the record. */
  method TallyInto(result: LevelResult, wall: real, outcomes: seq<RequestResult>)
    requires result.View() == Tally(result.concurrency, result.requested, 0.0, [])
    modifies result
    ensures result.View() == Tally(result.concurrency, result.requested, wall, outcomes)
  {
    hide Count, Latencies, Errors, Tokens;
    result.wall := wall;
    for i := 0 to |outcomes|
      invariant result.View() == Tally(result.concurrency, result.requested, wall, outcomes[..i])
    {
      result.Add(outcomes[i], outcomes[..i]);
      assert outcomes[..i] + [outcomes[i]] == outcomes[..i + 1];
    }
    assert outcomes[..|outcomes|] == outcomes;
  }

  // ------------------------------------------------------ concurrency levels

  /** One comma-separated chunk of the levels argument. */
  datatype Chunk = Blank | Number(n: int) | Garbage

  /** A chunk's text, stripped and read by `int()`, which the language supplies. */
  function ReadChunk(text: string, intOf: string -> Option<int>): Chunk {
    var stripped := T.Strip(text);
    if stripped == "" then Blank
    else
      match intOf(stripped)
      case Some(n) => Number(n)
      case None => Garbage
  }

  function Chunks(raw: string, intOf: string -> Option<int>): seq<Chunk> {
    var texts := T.Split(raw, ',');
    seq(|texts|, i requires 0 <= i < |texts| => ReadChunk(texts[i], intOf))
  }

  function InsertLevel(x: int, s: seq<int>): seq<int> {
    if s == [] || x <= s[0] then [x] + s else [s[0]] + InsertLevel(x, s[1..])
  }

  function SortLevels(s: seq<int>): seq<int> {
    if s == [] then [] else InsertLevel(s[0], SortLevels(s[1..]))
  }

  predicate StrictlyIncreasing(s: seq<int>) {
    forall i, j :: 0 <= i < j < |s| ==> s[i] < s[j]
  }

  predicate Distinct(s: seq<int>) {
    forall i, j :: 0 <= i < j < |s| ==> s[i] != s[j]
  }

  lemma {:induction false} InsertLevelIncreasing(x: int, s: seq<int>)
    requires StrictlyIncreasing(s) && x !in s
    ensures StrictlyIncreasing(InsertLevel(x, s))
    ensures forall y :: y in InsertLevel(x, s) <==> y == x || y in s
  {
    if s != [] && x > s[0] {
      InsertLevelIncreasing(x, s[1..]);
      assert forall y :: y in s <==> y == s[0] || y in s[1..];
      var r := InsertLevel(x, s[1..]);
      assert forall i :: 0 <= i < |r| ==> r[i] in r;
      assert forall y :: y in [s[0]] + r <==> y == s[0] || y in r;
    } else {
      assert forall y :: y in [x] + s <==> y == x || y in s;
    }
  }

  lemma {:induction false} SortLevelsIncreasing(s: seq<int>)
    requires Distinct(s)
    ensures StrictlyIncreasing(SortLevels(s))
    ensures forall y :: y in SortLevels(s) <==> y in s
  {
    if s != [] {
      SortLevelsIncreasing(s[1..]);
      InsertLevelIncreasing(s[0], SortLevels(s[1..]));
      assert forall y :: y in s <==> y == s[0] || y in s[1..];
    }
  }

  predicate GoodLevels(chunks: seq<Chunk>) {
    && (forall i :: 0 <= i < |chunks| ==> !chunks[i].Garbage? && (chunks[i].Number? ==> chunks[i].n >= 1))
    && exists i :: 0 <= i < |chunks| && chunks[i].Number?
  }

  /** Which lists of levels are accepted, one fault at a time. */
  lemma LevelFaults(chunks: seq<Chunk>)
    ensures Garbage in chunks ==> !GoodLevels(chunks)
    ensures (exists n :: n <= 0 && Number(n) in chunks) ==> !GoodLevels(chunks)
    ensures (forall n :: Number(n) !in chunks) ==> !GoodLevels(chunks)
    ensures Garbage !in chunks && (forall n :: Number(n) in chunks ==> n >= 1) && (exists n :: Number(n) in chunks) ==> GoodLevels(chunks)
  {
    if exists i :: 0 <= i < |chunks| && chunks[i].Number? {
      var i :| 0 <= i < |chunks| && chunks[i].Number?;
      assert Number(chunks[i].n) in chunks;
    }
  }

  /** A chunk of white space is skipped; any other is what `int()` makes of it without the white
      space around it. */
  lemma ChunkReads(left: string, text: string, right: string, intOf: string -> Option<int>)
    requires forall i :: 0 <= i < |left| ==> T.IsSpace(left[i])
    requires forall i :: 0 <= i < |right| ==> T.IsSpace(right[i])
    requires T.Stripped(text)
    ensures ReadChunk(left + text + right, intOf)
      == if text == "" then Blank else if intOf(text).Some? then Number(intOf(text).value) else Garbage
  {
    T.StripOfPadded(left, text, right);
    hide T.Strip;
  }

  /** `parse_levels`: each level once, in increasing order, or an error. */
  method ParseLevels(raw: string, intOf: string -> Option<int>) returns (levels: Option<seq<int>>)
    ensures levels.Some? <==> GoodLevels(Chunks(raw, intOf))
    ensures levels.Some? ==> levels.value != [] && StrictlyIncreasing(levels.value)
    ensures levels.Some? ==> forall n :: n in levels.value <==> Number(n) in Chunks(raw, intOf)
  {
    hide ReadChunk;
    var texts := T.Split(raw, ',');
    ghost var chunks := Chunks(raw, intOf);
    var found: seq<int> := [];
    for i := 0 to |texts|
      invariant Distinct(found)
      invariant forall n :: n in found <==> Number(n) in chunks[..i]
      invariant forall k :: 0 <= k < i ==> !chunks[k].Garbage? && (chunks[k].Number? ==> chunks[k].n >= 1)
    {
      var chunk := ReadChunk(texts[i], intOf);
      assert chunk == chunks[i];
      match chunk
      case Blank =>
      case Garbage => return None;
      case Number(n) =>
        if n < 1 {
          return None;
        }
        if n !in found {
          found := found + [n];
        }
    }
    assert chunks[..|chunks|] == chunks;
    if found == [] {
      assert forall k :: 0 <= k < |chunks| && chunks[k].Number? ==> Number(chunks[k].n) in chunks;
      return None;
    }
    assert found[0] in found;
    SortLevelsIncreasing(found);
    return Some(SortLevels(found));
  }

  // -------------------------------------------------------------- percentiles

  function Clamp(r: int, n: nat): int {
    var capped := if r <= n then r else n;
    if capped >= 1 then capped else 1
  }

  /** The rank for the exact share x = pct / 100 * n. */
  function RankOf(x: real, n: nat): int { Clamp(RoundHalfEven(x + 0.5), n) }

  /** pct percent of n. */
  function Portion(pct: real, n: nat): real { pct / 100.0 * n as real }

  /** The rank of a percentile among n samples. */
  function Rank(pct: real, n: nat): int { RankOf(Portion(pct, n), n) }

  function Ceil(x: real): int { -((-x).Floor) }

  predicate OddInteger(x: real) { x == x.Floor as real && x.Floor % 2 == 1 }

  /** MAIN RESULT. The rank is the textbook nearest rank ceil(pct * n / 100), clamped, except
      exactly when pct * n / 100 is an odd integer below n: then it is one higher. */
  lemma RankIsNearestRankUnlessOdd(pct: real, n: nat)
    requires n >= 1
    ensures 1 <= Rank(pct, n) <= n
    ensures var x := Portion(pct, n);
      && (Rank(pct, n) == Clamp(Ceil(x), n) <==> !(OddInteger(x) && 1 <= x.Floor < n))
      && (OddInteger(x) && 1 <= x.Floor < n ==> Rank(pct, n) == Clamp(Ceil(x), n) + 1)
  {
    RankShape(Portion(pct, n));
  }

  /** The failing input: the median of two samples is the larger one. */
  lemma MedianOfTwo()
    ensures Portion(50.0, 2) == 1.0 && Rank(50.0, 2) == 2 && Clamp(Ceil(Portion(50.0, 2)), 2) == 1
  {
    assert RoundHalfEven(1.5) == 2;
  }

  lemma RankShape(x: real)
    ensures RoundHalfEven(x + 0.5) == if OddInteger(x) then Ceil(x) + 1 else Ceil(x)
  {
    var m := x.Floor;
    if x == m as real {
      assert (x + 0.5).Floor == m;
      assert (-x).Floor == -m;
    } else {
      assert m as real < x < m as real + 1.0;
      assert (-x).Floor == -m - 1;
      if x - m as real < 0.5 {
        assert (x + 0.5).Floor == m;
      } else {
        assert (x + 0.5).Floor == m + 1;
      }
    }
  }

  lemma RankMonotone(p: real, q: real, n: nat)
    requires p <= q
    ensures Rank(p, n) <= Rank(q, n)
  {
    PortionMonotone(p, q, n);
    hide RankOf, Portion;
    RankOfMonotone(Portion(p, n), Portion(q, n), n);
  }

  lemma PortionMonotone(p: real, q: real, n: nat)
    requires p <= q
    ensures Portion(p, n) <= Portion(q, n)
  {
    Scale(p / 100.0, q / 100.0, n as real);
  }

  lemma RankOfMonotone(x: real, y: real, n: nat)
    requires x <= y
    ensures RankOf(x, n) <= RankOf(y, n)
  {
    RoundHalfEvenMonotone(x + 0.5, y + 0.5);
  }

  lemma Scale(a: real, b: real, k: real)
    requires a <= b && k >= 0.0
    ensures a * k <= b * k
  {
  }

  /** `percentile_ms`, in milliseconds. */
  function PercentileMs(latencies: seq<real>, pct: real): real {
    if latencies == [] then 0.0
    else
      SortIsSorted(latencies);
      RankIsNearestRankUnlessOdd(pct, |latencies|);
      Sort(latencies)[Rank(pct, |latencies|) - 1] * 1000.0
  }

  /** MAIN RESULT. Each percentile is one of the samples, and a higher percentage never
      gives less. */
  lemma PercentilesAreOrderedSamples(latencies: seq<real>, p: real, q: real)
    requires latencies != [] && p <= q
    ensures PercentileMs(latencies, p) <= PercentileMs(latencies, q)
    ensures exists i :: 0 <= i < |latencies| && PercentileMs(latencies, p) == latencies[i] * 1000.0
  {
    var s := Sort(latencies);
    SortIsSorted(latencies);
    RankIsNearestRankUnlessOdd(p, |latencies|);
    RankIsNearestRankUnlessOdd(q, |latencies|);
    RankMonotone(p, q, |latencies|);
    var v := s[Rank(p, |latencies|) - 1];
    assert v <= s[Rank(q, |latencies|) - 1];
    assert v in multiset(s);
    assert v in latencies;
  }

  /** The samples of at most and of less than so many milliseconds. */
  function WithinMs(latencies: seq<real>, ms: real): nat { AtMost(latencies, ms / 1000.0) }

  function UnderMs(latencies: seq<real>, ms: real): nat { StrictlyBelow(latencies, ms / 1000.0) }

  /** MAIN RESULT. The percentile is the order statistic of its rank, by counting the samples as
      they came: at least as many as the rank are within it and fewer than the rank are under
      it; so at least the asked-for share of the samples lies within it. */
  lemma PercentileCounts(latencies: seq<real>, pct: real)
    requires latencies != []
    ensures var v := PercentileMs(latencies, pct);
      && WithinMs(latencies, v) >= Rank(pct, |latencies|)
      && UnderMs(latencies, v) < Rank(pct, |latencies|)
      && (pct <= 100.0 ==> WithinMs(latencies, v) as real >= Portion(pct, |latencies|))
  {
    RankIsNearestRankUnlessOdd(pct, |latencies|);
    OrderStatistic(latencies, Rank(pct, |latencies|) - 1);
    if pct <= 100.0 {
      RankCoversShare(pct, |latencies|);
    }
  }

  /** Two samples of 100 and 900 milliseconds: the 95th percentile is the larger one. */
  lemma LateOfTwo()
    ensures PercentileMs([0.1, 0.9], 95.0) == 900.0
  {
    assert RoundHalfEven(2.4) == 2;
    assert Sort([0.1, 0.9]) == [0.1, 0.9] by {
      assert [0.1, 0.9][1..] == [0.9] && [0.9][1..] == [];
    }
  }

  /** Percentiles lie between the smallest and the largest sample. */
  lemma PercentileWithin(latencies: seq<real>, p: real, lo: real, hi: real)
    requires latencies != [] && forall i :: 0 <= i < |latencies| ==> lo <= latencies[i] <= hi
    ensures lo * 1000.0 <= PercentileMs(latencies, p) <= hi * 1000.0
  {
    PercentilesAreOrderedSamples(latencies, p, p);
  }

  lemma RankOfCovers(x: real, n: nat)
    requires x <= n as real && n >= 1
    ensures RankOf(x, n) as real >= x
  {
    RankShape(x);
    assert Ceil(x) as real >= x;
  }

  /** The rank covers at least the asked-for share of the samples. */
  lemma RankCoversShare(pct: real, n: nat)
    requires pct <= 100.0 && n >= 1
    ensures Rank(pct, n) as real >= Portion(pct, n)
  {
    Scale(pct / 100.0, 1.0, n as real);
    hide RankOf;
    RankOfCovers(Portion(pct, n), n);
  }

  // ----------------------------------------------------------------- reporting

  function Rps(l: Level): real {
    if l.wall <= 0.0 then 0.0 else l.succeeded as real / l.wall
  }

  /** The wall time a request occupies, at the instance's hourly rate. */
  function CostPerRequest(l: Level, hourly: real): real {
    if Rps(l) <= 0.0 then 0.0 else hourly / (Rps(l) * 3600.0)
  }

  type Doc = map<string, Json>

  function Texts(s: seq<string>): seq<Json> {
    seq(|s|, i requires 0 <= i < |s| => Str(s[i]))
  }

  function FirstFive(s: seq<string>): seq<string> {
    if |s| <= 5 then s else s[..5]
  }

  /** `to_dict` without its latency and throughput figures. */
  function LevelDoc(l: Level, hourly: real): Doc {
    map["concurrency" := Int(l.concurrency),
        "requests" := Int(l.requested),
        "succeeded" := Int(l.succeeded),
        "failed" := Int(l.failed),
        "wall_seconds" := Float(RoundAt(l.wall, 10000.0)),
        "prompt_tokens" := Int(l.promptTokens),
        "completion_tokens" := Int(l.completionTokens),
        "canaries_verified" := Int(l.canariesVerified),
        "leakage_failures" := Int(l.leakageFailures),
        "cost_per_request_usd" := Float(RoundAt(CostPerRequest(l, hourly), 100000000.0)),
        "errors" := Arr(Texts(FirstFive(l.errors)))]
  }

  function LevelDocs(levels: seq<Level>, hourly: real): seq<Json> {
    seq(|levels|, i requires 0 <= i < |levels| => Obj(LevelDoc(levels[i], hourly)))
  }

  /** The report `run_benchmark` writes, without its free-text and timing members. */
  function ReportDoc(endpointSha: string, model: string, levels: seq<Level>, hourly: real): Doc {
    map["mode" := Str("direct"),
        "endpoint_sha256" := Str(endpointSha),
        "model" := Str(model),
        "levels" := Arr(LevelDocs(levels, hourly)),
        "assumptions" := Obj(map["instance_hourly_usd" := Float(hourly)])]
  }

  function TotalFailed(levels: seq<Level>): int {
    if levels == [] then 0 else levels[0].failed + TotalFailed(levels[1..])
  }

  /** The exit code of a benchmark run. */
  function ExitCode(levels: seq<Level>): int {
    if TotalFailed(levels) != 0 then 1
    else if forall i :: 0 <= i < |levels| ==> levels[i].succeeded == 0 then 1
    else 0
  }

  /** A run exits with 0 exactly when no request failed and some request succeeded. */
  lemma {:induction false} ExitCodeIff(levels: seq<Level>)
    requires forall i :: 0 <= i < |levels| ==> levels[i].failed >= 0 && levels[i].succeeded >= 0
    ensures ExitCode(levels) in {0, 1}
    ensures ExitCode(levels) == 0 <==>
      && (forall i :: 0 <= i < |levels| ==> levels[i].failed == 0) && (exists i :: 0 <= i < |levels| && levels[i].succeeded >= 1)
  {
    NoneFailed(levels);
  }

  lemma {:induction false} NoneFailed(levels: seq<Level>)
    requires forall i :: 0 <= i < |levels| ==> levels[i].failed >= 0
    ensures TotalFailed(levels) >= 0
    ensures TotalFailed(levels) == 0 <==> forall i :: 0 <= i < |levels| ==> levels[i].failed == 0
  {
    if levels != [] {
      NoneFailed(levels[1..]);
      assert levels == [levels[0]] + levels[1..];
    }
  }

  /** What a reported level says of its tokens, its time and its price: the price times the
      completed requests is the rate for the wall time, up to the eighth decimal of the price. */
  lemma LevelDocSays(l: Level, hourly: real)
    requires l.wall > 0.0 && l.succeeded >= 1
    ensures var doc, n := LevelDoc(l, hourly), l.succeeded as real;
      && Field(doc, "prompt_tokens") == Int(l.promptTokens) && Field(doc, "completion_tokens") == Int(l.completionTokens)
      && Field(doc, "wall_seconds").Float? && -0.00005 <= Field(doc, "wall_seconds").r - l.wall <= 0.00005
      && Field(doc, "cost_per_request_usd").Float?
      && -0.000000005 <= Field(doc, "cost_per_request_usd").r - CostPerRequest(l, hourly) <= 0.000000005
      && CostPerRequest(l, hourly) * n == hourly * l.wall / 3600.0
  {
    RoundAtClose(l.wall, 10000.0);
    RoundAtClose(CostPerRequest(l, hourly), 100000000.0);
    PriceTimesRequests(l, hourly);
    hide RoundAt, CostPerRequest;
  }

  lemma PriceTimesRequests(l: Level, hourly: real)
    requires l.wall > 0.0 && l.succeeded >= 1
    ensures CostPerRequest(l, hourly) * l.succeeded as real == hourly * l.wall / 3600.0
  {
    var n, w := l.succeeded as real, l.wall;
    var q := n / w;
    assert q * w == n && q > 0.0;
    var c := hourly / (q * 3600.0);
    assert c * (q * 3600.0) == hourly;
    assert c * n * 3600.0 == c * (q * 3600.0) * w;
  }

  /** The report keeps the first five errors, in order. */
  lemma FirstFiveIsPrefix(s: seq<string>)
    ensures FirstFive(s) <= s && |FirstFive(s)| == if |s| < 5 then |s| else 5
  {
  }

  /** Without a sample, a wall time or a success there is nothing to report. */
  lemma NothingMeasured(l: Level, pct: real, hourly: real)
    ensures PercentileMs([], pct) == 0.0
    ensures l.wall <= 0.0 || l.succeeded <= 0 ==> CostPerRequest(l, hourly) == 0.0
  {
    if l.wall > 0.0 && l.succeeded <= 0 {
      assert l.succeeded as real / l.wall * l.wall == l.succeeded as real;
    }
  }

  /** The head of a report, as the later stages read it. */
  lemma ReportDocSays(endpointSha: string, model: string, levels: seq<Level>, hourly: real)
    ensures var doc := ReportDoc(endpointSha, model, levels, hourly);
      && Field(doc, "mode") == Str("direct") && Field(doc, "endpoint_sha256") == Str(endpointSha) && Field(doc, "model") == Str(model)
      && Field(doc, "assumptions").Obj? && Field(Field(doc, "assumptions").fields, "instance_hourly_usd") == Float(hourly)
      && Field(doc, "levels").Arr? && |Field(doc, "levels").items| == |levels|
  {
    hide LevelDoc;
  }
}

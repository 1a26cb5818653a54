/** The asset page of the frontend: overlapping requests, and tokens that discard the
    replies to all but the latest. */
module LatestRequest {
  import opened Wrappers

  type Urn = string
  datatype Asset = Asset(urn: Urn, name: string)
  datatype Graph = Graph(nodes: seq<Urn>, edges: seq<(Urn, Urn)>)
  datatype Reply<T> = Pending | Loaded(value: T) | Failed(message: string)

  /** One live `loadAsset` call: its two fetches, and whether its continuation has run. */
  datatype Load = Load(urn: Urn, asset: Reply<Asset>, graph: Reply<Graph>, settled: bool)

  /** What a scenario run returned, or nothing after an error. */
  type Outcome = Option<string>

  datatype Page = Page(
    selectedUrn: Urn,
    asset: Option<Asset>,
    graphData: Option<Graph>,
    graphError: Option<string>,
    graphToken: nat,
    loads: map<nat, Load>,
    loading: bool,
    scenario: Option<string>,
    scenarioToken: nat,
    runs: map<nat, Option<Outcome>>)

  datatype Event =
    | LoadLive(urn: Urn)
    | LoadMock(urn: Urn)
    | AssetReply(token: nat, asset: Reply<Asset>)
    | GraphReply(token: nat, graph: Reply<Graph>)
    | Settle(token: nat)
    | RunStart
    | RunEnd(token: nat, outcome: Outcome)

  /** The bundled sample assets, by urn. */
  type Samples = Urn -> Option<Asset>

  function Initial(asset: Option<Asset>, urn: Urn): Page {
    Page(urn, asset, None, None, 0, map[], false, None, 0, map[])
  }

  function Message(m: string, fallback: string): Option<string> {
    Some(if m == "" then fallback else m)
  }

  /** Both fetches are in, or the asset fetch has failed and nothing waits for the graph. */
  predicate Ready(l: Load) {
    !l.settled && (l.asset.Failed? || (l.asset.Loaded? && !l.graph.Pending?))
  }

  predicate Enabled(p: Page, e: Event) {
    match e
    case LoadLive(_) => true
    case LoadMock(_) => true
    case AssetReply(t, r) => t in p.loads && p.loads[t].asset.Pending? && !r.Pending?
    case GraphReply(t, r) => t in p.loads && p.loads[t].graph.Pending? && !r.Pending?
    case Settle(t) => t in p.loads && Ready(p.loads[t])
    case RunStart => true
    case RunEnd(t, _) => t in p.runs && p.runs[t] == None
  }

  function Next(p: Page, e: Event, samples: Samples): Page
    requires Enabled(p, e)
  {
    match e
    case LoadLive(urn) =>
      var t := p.graphToken + 1;
      p.(selectedUrn := urn, graphError := None, graphToken := t,
         loads := p.loads[t := Load(urn, Pending, Pending, false)])
    case LoadMock(urn) =>
      p.(selectedUrn := urn, graphError := None, asset := samples(urn), graphData := None)
    case AssetReply(t, r) => p.(loads := p.loads[t := p.loads[t].(asset := r)])
    case GraphReply(t, r) =>
      p.(loads := p.loads[t := p.loads[t].(graph := r)],
         graphError := if r.Failed? && t == p.graphToken then Message(r.message, "graph unavailable") else p.graphError)
    case Settle(t) =>
      var l := p.loads[t];
      var q := p.(loads := p.loads[t := l.(settled := true)]);
      if t != p.graphToken then q
      else if l.asset.Failed? then
        q.(asset := samples(l.urn), graphData := None, graphError := Message(l.asset.message, "asset unavailable"))
      else
        q.(asset := Some(l.asset.value), graphData := if l.graph.Loaded? then Some(l.graph.value) else None)
    case RunStart =>
      p.(loading := true, scenarioToken := p.scenarioToken + 1, runs := p.runs[p.scenarioToken + 1 := None])
    case RunEnd(t, outcome) =>
      var q := p.(runs := p.runs[t := Some(outcome)]);
      if t != p.scenarioToken then q
      else q.(loading := false, scenario := if outcome.Some? then outcome else p.scenario)
  }

  /** The result of a load that has settled reaches the screen with this event. */
  function Commit(p: Page, e: Event): seq<nat> {
    if e.Settle? && e.token == p.graphToken then [e.token] else []
  }

  /** Every event is enabled when its turn comes. */
  predicate Admissible(p: Page, events: seq<Event>, samples: Samples)
    decreases |events|
  {
    events == [] || (Enabled(p, events[0]) && Admissible(Next(p, events[0], samples), events[1..], samples))
  }

  function Run(p: Page, events: seq<Event>, samples: Samples): Page
    requires Admissible(p, events, samples)
    decreases |events|
  {
    if events == [] then p else Run(Next(p, events[0], samples), events[1..], samples)
  }

  /** The tokens whose results reach the screen, in order. */
  function Commits(p: Page, events: seq<Event>, samples: Samples): seq<nat>
    requires Admissible(p, events, samples)
    decreases |events|
  {
    if events == [] then []
    else Commit(p, events[0]) + Commits(Next(p, events[0], samples), events[1..], samples)
  }

  // --------------------------------------------------------------- invariant

  ghost predicate Invariant(p: Page) {
    && (forall t :: t in p.loads <==> 1 <= t <= p.graphToken)
    && (forall t :: t in p.loads && p.loads[t].settled ==>
          p.loads[t].asset.Failed? || (p.loads[t].asset.Loaded? && !p.loads[t].graph.Pending?))
    && (forall t :: t in p.runs <==> 1 <= t <= p.scenarioToken)
    && (p.loading <==> p.scenarioToken > 0 && p.runs[p.scenarioToken] == None)
  }

  lemma NextKeepsInvariant(p: Page, e: Event, samples: Samples)
    requires Invariant(p) && Enabled(p, e)
    ensures Invariant(Next(p, e, samples))
  {
  }

  lemma {:induction false} RunKeepsInvariant(p: Page, events: seq<Event>, samples: Samples)
    requires Invariant(p) && Admissible(p, events, samples)
    ensures Invariant(Run(p, events, samples))
    decreases |events|
  {
    if events != [] {
      NextKeepsInvariant(p, events[0], samples);
      RunKeepsInvariant(Next(p, events[0], samples), events[1..], samples);
    }
  }

  /** MAIN RESULT. `loading` is on exactly while the newest scenario run is unsettled. */
  lemma LoadingIffNewestRunOpen(p: Page, events: seq<Event>, samples: Samples)
    requires Invariant(p) && Admissible(p, events, samples)
    ensures var q := Run(p, events, samples);
      q.loading <==> q.scenarioToken > 0 && q.scenarioToken in q.runs && q.runs[q.scenarioToken] == None
  {
    RunKeepsInvariant(p, events, samples);
  }

  predicate Increasing(s: seq<nat>) {
    forall i, j :: 0 <= i < j < |s| ==> s[i] < s[j]
  }

  /** The newest live load has had its say. */
  predicate NewestSettled(p: Page) {
    p.graphToken == 0 || (p.graphToken in p.loads && p.loads[p.graphToken].settled)
  }

  /** A token that may still reach the screen. */
  predicate MayShow(p: Page, t: nat) {
    if NewestSettled(p) then p.graphToken < t else p.graphToken <= t
  }

  lemma CommitIsNewest(p: Page, e: Event, samples: Samples, t: nat)
    requires Invariant(p) && Enabled(p, e) && MayShow(Next(p, e, samples), t)
    ensures MayShow(p, t)
    ensures Commit(p, e) != [] ==> e.token < t
  {
  }

  /** MAIN RESULT. Over every interleaving, mock loads included, the live loads whose results
      reach the screen only get newer. */
  lemma {:induction false} CommitsOnlyIncrease(p: Page, events: seq<Event>, samples: Samples)
    requires Invariant(p) && Admissible(p, events, samples)
    ensures Increasing(Commits(p, events, samples))
    ensures forall i :: 0 <= i < |Commits(p, events, samples)| ==> MayShow(p, Commits(p, events, samples)[i])
    decreases |events|
  {
    if events != [] {
      var e, q := events[0], Next(p, events[0], samples);
      NextKeepsInvariant(p, e, samples);
      CommitsOnlyIncrease(q, events[1..], samples);
      var rest := Commits(q, events[1..], samples);
      hide MayShow, Invariant, Next, NewestSettled;
      forall i | 0 <= i < |rest|
        ensures MayShow(p, rest[i]) && (Commit(p, e) != [] ==> e.token < rest[i])
      {
        CommitIsNewest(p, e, samples, rest[i]);
      }
      if Commit(p, e) != [] {
        OpenMayShow(p, e);
        assert Commits(p, events, samples) == [e.token] + rest;
      } else {
        assert Commits(p, events, samples) == rest;
      }
    }
  }

  lemma OpenMayShow(p: Page, e: Event)
    requires Invariant(p) && Enabled(p, e) && Commit(p, e) != []
    ensures MayShow(p, e.token)
  {
  }

  // ------------------------------------------------------ what the screen shows

  function ShownAsset(l: Load, samples: Samples): Option<Asset> {
    if l.asset.Loaded? then Some(l.asset.value) else samples(l.urn)
  }

  function ShownGraph(l: Load): Option<Graph> {
    if l.asset.Loaded? && l.graph.Loaded? then Some(l.graph.value) else None
  }

  /** The error line reports on this load alone. */
  predicate ErrorFits(l: Load, error: Option<string>) {
    && (l.asset.Failed? && l.graph.Failed? ==>
          error in {Message(l.asset.message, "asset unavailable"), Message(l.graph.message, "graph unavailable")})
    && (l.asset.Failed? && !l.graph.Failed? ==> error == Message(l.asset.message, "asset unavailable"))
    && (!l.asset.Failed? && l.graph.Failed? ==> error == Message(l.graph.message, "graph unavailable"))
    && (!l.asset.Failed? && !l.graph.Failed? ==> error == None)
  }

  /** The screen shows the newest live load; `p.graphToken` has settled. */
  predicate ShowsNewest(p: Page, samples: Samples)
    requires p.graphToken in p.loads
  {
    var l := p.loads[p.graphToken];
    && p.selectedUrn == l.urn
    && p.asset == ShownAsset(l, samples)
    && p.graphData == ShownGraph(l)
    && ErrorFits(l, p.graphError)
  }

  /** Before it settles, the newest load has touched at most the error line. */
  predicate AwaitsNewest(p: Page)
    requires p.graphToken in p.loads
  {
    var l := p.loads[p.graphToken];
    && p.selectedUrn == l.urn
    && p.graphError == if l.graph.Failed? then Message(l.graph.message, "graph unavailable") else None
  }

  predicate NoMock(events: seq<Event>) {
    forall i :: 0 <= i < |events| ==> !events[i].LoadMock?
  }

  predicate Tracks(p: Page, samples: Samples) {
    p.graphToken in p.loads
      && if p.loads[p.graphToken].settled then ShowsNewest(p, samples) else AwaitsNewest(p)
  }

  lemma NextTracks(p: Page, e: Event, samples: Samples)
    requires Invariant(p) && Enabled(p, e) && !e.LoadMock?
    requires Tracks(p, samples) || e.LoadLive?
    ensures Tracks(Next(p, e, samples), samples)
  {
  }

  lemma {:induction false} RunTracks(p: Page, events: seq<Event>, samples: Samples)
    requires Invariant(p) && Admissible(p, events, samples) && NoMock(events)
    requires Tracks(p, samples)
    ensures Tracks(Run(p, events, samples), samples)
    decreases |events|
  {
    if events != [] {
      NextTracks(p, events[0], samples);
      NextKeepsInvariant(p, events[0], samples);
      RunTracks(Next(p, events[0], samples), events[1..], samples);
    }
  }

  /** MAIN RESULT. Whatever happened before, from a live load on and over every interleaving
      of live calls and replies: once the newest request has settled, the screen is that
      request's, and until then nothing but its own graph error shows. */
  lemma NewestRequestWins(p: Page, urn: Urn, events: seq<Event>, samples: Samples)
    requires Invariant(p) && NoMock(events)
    requires Admissible(Next(p, LoadLive(urn), samples), events, samples)
    ensures var q := Run(Next(p, LoadLive(urn), samples), events, samples);
      && q.graphToken in q.loads
      && (if q.loads[q.graphToken].settled then ShowsNewest(q, samples) else AwaitsNewest(q))
  {
    NextTracks(p, LoadLive(urn), samples);
    NextKeepsInvariant(p, LoadLive(urn), samples);
    RunTracks(Next(p, LoadLive(urn), samples), events, samples);
  }

  // ------------------------------------------------------------ mock selections

  predicate NoLoad(events: seq<Event>) {
    forall i :: 0 <= i < |events| ==> !events[i].LoadMock? && !events[i].LoadLive?
  }

  lemma {:induction false} SettledPageStays(p: Page, events: seq<Event>, samples: Samples)
    requires Invariant(p) && Admissible(p, events, samples) && NoLoad(events) && NewestSettled(p)
    ensures var q := Run(p, events, samples);
      q.asset == p.asset && q.graphData == p.graphData && q.selectedUrn == p.selectedUrn
    decreases |events|
  {
    if events != [] {
      NextKeepsInvariant(p, events[0], samples);
      SettledPageStays(Next(p, events[0], samples), events[1..], samples);
    }
  }

  lemma StepShows(p: Page, e: Event, samples: Samples)
    requires Invariant(p) && Enabled(p, e) && !e.LoadMock? && !e.LoadLive?
    ensures var q := Next(p, e, samples);
      && q.graphToken == p.graphToken && q.selectedUrn == p.selectedUrn
      && (NewestSettled(p) ==> NewestSettled(q))
      && if Commit(p, e) == [] then q.asset == p.asset && q.graphData == p.graphData
         else
           && !NewestSettled(p) && p.graphToken in q.loads && q.loads[p.graphToken].settled
           && q.asset == ShownAsset(q.loads[p.graphToken], samples) && q.graphData == ShownGraph(q.loads[p.graphToken])
  {
  }

  /** Without a new selection, asset and graph change only if the newest load settles late, and
      then they are that load's, whatever had been selected meanwhile. The error line changes
      to a message of that load alone, but also without a commit: when its graph fails. */
  lemma {:induction false} ScreenChangesByCommit(p: Page, events: seq<Event>, samples: Samples)
    requires Invariant(p) && Admissible(p, events, samples) && NoLoad(events)
    ensures Run(p, events, samples).graphToken == p.graphToken
    ensures Run(p, events, samples).selectedUrn == p.selectedUrn
    ensures if Commits(p, events, samples) == [] then
        Run(p, events, samples).asset == p.asset && Run(p, events, samples).graphData == p.graphData
      else
        && !NewestSettled(p)
        && p.graphToken in Run(p, events, samples).loads
        && Run(p, events, samples).asset == ShownAsset(Run(p, events, samples).loads[p.graphToken], samples)
        && Run(p, events, samples).graphData == ShownGraph(Run(p, events, samples).loads[p.graphToken])
    decreases |events|
  {
    if events != [] {
      var q := Next(p, events[0], samples);
      NextKeepsInvariant(p, events[0], samples);
      StepShows(p, events[0], samples);
      hide Next, Invariant, NewestSettled, ShownAsset, ShownGraph;
      ScreenChangesByCommit(q, events[1..], samples);
      if Commit(p, events[0]) != [] {
        SettledNow(q);
        SettledLoadStays(q, events[1..], samples, p.graphToken);
        SettledPageStays(q, events[1..], samples);
      }
    }
  }

  lemma SettledNow(p: Page)
    requires p.graphToken in p.loads && p.loads[p.graphToken].settled
    ensures NewestSettled(p)
  {
  }

  /** A message of a load that has reached the error line. */
  predicate IsErrorOf(l: Load, error: Option<string>) {
    || (l.graph.Failed? && error == Message(l.graph.message, "graph unavailable"))
    || (l.settled && l.asset.Failed? && error == Message(l.asset.message, "asset unavailable"))
  }

  /** The error line, without a new selection: as it was, or a message of the newest load. */
  lemma {:induction false} ErrorLineIsNewest(p: Page, events: seq<Event>, samples: Samples)
    requires Invariant(p) && Admissible(p, events, samples) && NoLoad(events)
    ensures var q := Run(p, events, samples);
      && q.graphToken == p.graphToken && (p.graphToken in p.loads ==> p.graphToken in q.loads)
      && (q.graphError == p.graphError || (p.graphToken in q.loads && IsErrorOf(q.loads[p.graphToken], q.graphError)))
    ensures var q := Run(p, events, samples);
      p.graphToken in p.loads && IsErrorOf(p.loads[p.graphToken], p.graphError) ==>
        p.graphToken in q.loads && IsErrorOf(q.loads[p.graphToken], q.graphError)
    decreases |events|
  {
    if events != [] {
      NextKeepsInvariant(p, events[0], samples);
      ErrorLineIsNewest(Next(p, events[0], samples), events[1..], samples);
    }
  }

  /** The replies of a settled load are final, except a graph that failed to matter. */
  lemma {:induction false} SettledLoadStays(p: Page, events: seq<Event>, samples: Samples, t: nat)
    requires Invariant(p) && Admissible(p, events, samples) && NoLoad(events)
    requires t in p.loads && p.loads[t].settled
    ensures t in Run(p, events, samples).loads
    ensures ShownAsset(Run(p, events, samples).loads[t], samples) == ShownAsset(p.loads[t], samples)
    ensures ShownGraph(Run(p, events, samples).loads[t]) == ShownGraph(p.loads[t])
    decreases |events|
  {
    if events != [] {
      NextKeepsInvariant(p, events[0], samples);
      SettledLoadStays(Next(p, events[0], samples), events[1..], samples, t);
    }
  }

  /** The asset or the graph of a mock selection can be replaced exactly when a live load is
      open at that moment. */
  lemma MockSelectionReplaceableIff(p: Page, urn: Urn, samples: Samples)
    requires Invariant(p)
    ensures !NewestSettled(p) <==>
      exists events :: NoLoad(events) && Admissible(Next(p, LoadMock(urn), samples), events, samples)
        && Commits(Next(p, LoadMock(urn), samples), events, samples) != []
  {
    var q := Next(p, LoadMock(urn), samples);
    NextKeepsInvariant(p, LoadMock(urn), samples);
    if NewestSettled(p) {
      forall events | NoLoad(events) && Admissible(q, events, samples)
        ensures Commits(q, events, samples) == []
      {
        ScreenChangesByCommit(q, events, samples);
      }
    } else {
      var events := LateCommit(q, samples);
    }
  }

  predicate SameScreen(p: Page, q: Page) {
    p.selectedUrn == q.selectedUrn && p.asset == q.asset && p.graphData == q.graphData && p.graphError == q.graphError
  }

  /** Nothing of the newest live load is still to come: there was none, or it has settled and
      its graph reply is in too. */
  predicate Quiet(p: Page) {
    p.graphToken == 0 || (p.graphToken in p.loads && p.loads[p.graphToken].settled && !p.loads[p.graphToken].graph.Pending?)
  }

  /** All of the newest live load is in except its continuation, which would write `asset`, no
      graph and no error. */
  predicate OnlyRewrites(p: Page, asset: Option<Asset>) {
    && p.graphToken in p.loads && !p.loads[p.graphToken].settled
    && p.loads[p.graphToken].asset.Loaded? && Some(p.loads[p.graphToken].asset.value) == asset
    && p.loads[p.graphToken].graph.Failed?
  }

  lemma {:induction false} QuietPageStays(p: Page, events: seq<Event>, samples: Samples)
    requires Invariant(p) && Admissible(p, events, samples) && NoLoad(events)
    requires Quiet(p) || (OnlyRewrites(p, p.asset) && p.graphData == None)
    ensures SameScreen(Run(p, events, samples), p)
    decreases |events|
  {
    if events != [] {
      NextKeepsInvariant(p, events[0], samples);
      QuietPageStays(Next(p, events[0], samples), events[1..], samples);
    }
  }

  /** MAIN RESULT. The whole screen after a mock selection: no run without a new selection can
      change it exactly if nothing of the newest live load is still to come, or all that is to
      come would write what the selection itself shows. */
  lemma MockSelectionStaysIff(p: Page, urn: Urn, samples: Samples)
    requires Invariant(p)
    ensures Quiet(p) || OnlyRewrites(p, samples(urn)) <==>
      forall events :: NoLoad(events) && Admissible(Next(p, LoadMock(urn), samples), events, samples) ==>
        SameScreen(Run(Next(p, LoadMock(urn), samples), events, samples), Next(p, LoadMock(urn), samples))
  {
    var q := Next(p, LoadMock(urn), samples);
    NextKeepsInvariant(p, LoadMock(urn), samples);
    if Quiet(p) || OnlyRewrites(p, samples(urn)) {
      forall events | NoLoad(events) && Admissible(q, events, samples) ensures SameScreen(Run(q, events, samples), q) {
        QuietPageStays(q, events, samples);
      }
    } else {
      var events := LateChange(q, samples);
    }
  }

  /** The reply or continuation that changes the screen. */
  lemma LateChange(p: Page, samples: Samples) returns (events: seq<Event>)
    requires Invariant(p) && p.graphError == None && p.graphData == None
    requires !Quiet(p) && !OnlyRewrites(p, p.asset)
    ensures NoLoad(events) && Admissible(p, events, samples) && !SameScreen(Run(p, events, samples), p)
  {
    var t := p.graphToken;
    var l := p.loads[t];
    if l.graph.Pending? {
      events := [GraphReply(t, Failed(""))];
      assert events[1..] == [];
    } else if l.asset.Pending? {
      var reply := AssetReply(t, Failed(""));
      var q := Next(p, reply, samples);
      assert [Settle(t)][1..] == [];
      events := [reply, Settle(t)];
      assert events[1..] == [Settle(t)];
      assert Run(q, [Settle(t)], samples) == Next(q, Settle(t), samples);
    } else {
      events := [Settle(t)];
      assert events[1..] == [];
    }
  }

  lemma LateCommit(p: Page, samples: Samples) returns (events: seq<Event>)
    requires Invariant(p) && !NewestSettled(p)
    ensures NoLoad(events) && Admissible(p, events, samples) && Commits(p, events, samples) != []
  {
    var t := p.graphToken;
    if p.loads[t].asset.Pending? {
      var reply := AssetReply(t, Failed(""));
      SettleCommits(Next(p, reply, samples), samples);
      events := [reply, Settle(t)];
      assert events[1..] == [Settle(t)];
    } else if Ready(p.loads[t]) {
      SettleCommits(p, samples);
      events := [Settle(t)];
    } else {
      var reply := GraphReply(t, Failed(""));
      SettleCommits(Next(p, reply, samples), samples);
      events := [reply, Settle(t)];
      assert events[1..] == [Settle(t)];
    }
  }

  lemma SettleCommits(p: Page, samples: Samples)
    requires p.graphToken in p.loads && Ready(p.loads[p.graphToken])
    ensures Admissible(p, [Settle(p.graphToken)], samples)
    ensures Commits(p, [Settle(p.graphToken)], samples) == [p.graphToken]
  {
    var events := [Settle(p.graphToken)];
    assert events[1..] == [];
  }

  lemma RunCons(p: Page, e: Event, rest: seq<Event>, samples: Samples)
    requires Enabled(p, e) && Admissible(Next(p, e, samples), rest, samples)
    ensures Admissible(p, [e] + rest, samples)
    ensures Run(p, [e] + rest, samples) == Run(Next(p, e, samples), rest, samples)
  {
    assert ([e] + rest)[1..] == rest;
  }

  /** The failing family in one run: select "a" live, switch to mock data and select "b", and
      the reply for "a" replaces it while "b" stays the selected urn. */
  lemma StaleReplyOverMock(samples: Samples, a: Asset, g: Graph) returns (events: seq<Event>)
    ensures |events| == 5 && events[0] == LoadLive("a") && events[1] == LoadMock("b") && NoLoad(events[2..])
    ensures Admissible(Initial(None, ""), events, samples)
    ensures Run(Initial(None, ""), events, samples).selectedUrn == "b"
    ensures Run(Initial(None, ""), events, samples).asset == Some(a)
  {
    var p0 := Initial(None, "");
    var p1 := Next(p0, LoadLive("a"), samples);
    var p2 := Next(p1, LoadMock("b"), samples);
    var p3 := Next(p2, AssetReply(1, Loaded(a)), samples);
    var p4 := Next(p3, GraphReply(1, Loaded(g)), samples);
    events := [];
    RunCons(p4, Settle(1), events, samples);
    events := [Settle(1)] + events;
    RunCons(p3, GraphReply(1, Loaded(g)), events, samples);
    events := [GraphReply(1, Loaded(g))] + events;
    RunCons(p2, AssetReply(1, Loaded(a)), events, samples);
    events := [AssetReply(1, Loaded(a))] + events;
    RunCons(p1, LoadMock("b"), events, samples);
    events := [LoadMock("b")] + events;
    RunCons(p0, LoadLive("a"), events, samples);
    events := [LoadLive("a")] + events;
  }

  /** The second failing family: the live load of "a" has settled with an error and its graph is
      still out; its late failure writes the error line over the mock selection "b". */
  lemma LateGraphErrorOverMock(samples: Samples) returns (before: seq<Event>, late: Event)
    ensures before == [LoadLive("a"), AssetReply(1, Failed("x")), Settle(1), LoadMock("b")] && NoLoad([late])
    ensures Admissible(Initial(None, ""), before, samples)
    ensures var p := Run(Initial(None, ""), before, samples);
      && NewestSettled(p) && p.selectedUrn == "b" && p.graphError == None
      && Enabled(p, late) && Next(p, late, samples).graphError == Some("old graph down")
      && Next(p, late, samples).selectedUrn == "b"
  {
    var p0 := Initial(None, "");
    var p1 := Next(p0, LoadLive("a"), samples);
    var p2 := Next(p1, AssetReply(1, Failed("x")), samples);
    var p3 := Next(p2, Settle(1), samples);
    before := [];
    RunCons(p3, LoadMock("b"), before, samples);
    before := [LoadMock("b")] + before;
    RunCons(p2, Settle(1), before, samples);
    before := [Settle(1)] + before;
    RunCons(p1, AssetReply(1, Failed("x")), before, samples);
    before := [AssetReply(1, Failed("x"))] + before;
    RunCons(p0, LoadLive("a"), before, samples);
    before := [LoadLive("a")] + before;
    late := GraphReply(1, Failed("old graph down"));
  }

  // -------------------------------------------------------------- scenario runs

  /** The result of this scenario run reaches the panels with this event. */
  function ScenarioCommit(p: Page, e: Event): seq<nat> {
    if e.RunEnd? && e.token == p.scenarioToken && e.outcome.Some? then [e.token] else []
  }

  function ScenarioCommits(p: Page, events: seq<Event>, samples: Samples): seq<nat>
    requires Admissible(p, events, samples)
    decreases |events|
  {
    if events == [] then []
    else ScenarioCommit(p, events[0]) + ScenarioCommits(Next(p, events[0], samples), events[1..], samples)
  }

  /** A scenario token that may still reach the panels. */
  predicate MayFinish(p: Page, t: nat) { if p.loading then p.scenarioToken <= t else p.scenarioToken < t }

  lemma ScenarioCommitIsNewest(p: Page, e: Event, samples: Samples, t: nat)
    requires Invariant(p) && Enabled(p, e) && MayFinish(Next(p, e, samples), t)
    ensures MayFinish(p, t)
    ensures ScenarioCommit(p, e) != [] ==> e.token < t && MayFinish(p, e.token)
  {
  }

  /** MAIN RESULT. Over every interleaving the scenario runs whose results reach the panels only
      get newer. */
  lemma {:induction false} ScenarioCommitsOnlyIncrease(p: Page, events: seq<Event>, samples: Samples)
    requires Invariant(p) && Admissible(p, events, samples)
    ensures Increasing(ScenarioCommits(p, events, samples))
    ensures forall i :: 0 <= i < |ScenarioCommits(p, events, samples)| ==> MayFinish(p, ScenarioCommits(p, events, samples)[i])
    decreases |events|
  {
    if events != [] {
      var e, q := events[0], Next(p, events[0], samples);
      NextKeepsInvariant(p, e, samples);
      ScenarioCommitsOnlyIncrease(q, events[1..], samples);
      var first, rest := ScenarioCommit(p, e), ScenarioCommits(q, events[1..], samples);
      assert first != [] ==> MayFinish(p, e.token);
      hide MayFinish, Invariant, Next;
      forall i | 0 <= i < |rest|
        ensures MayFinish(p, rest[i]) && (first != [] ==> e.token < rest[i])
      {
        ScenarioCommitIsNewest(p, e, samples, rest[i]);
      }
    }
  }

  /** What a run returned, once it has ended. */
  predicate Returned(p: Page, t: nat, result: string) { t in p.runs && p.runs[t] == Some(Some(result)) }

  lemma {:induction false} ReturnedStays(p: Page, events: seq<Event>, samples: Samples, t: nat, result: string)
    requires Admissible(p, events, samples) && t <= p.scenarioToken && Returned(p, t, result)
    ensures Returned(Run(p, events, samples), t, result)
    decreases |events|
  {
    if events != [] {
      ReturnedStays(Next(p, events[0], samples), events[1..], samples, t, result);
    }
  }

  /** The panels show the result of the last run that reached them, or what they showed before. */
  lemma {:induction false} PanelsShowLastCommit(p: Page, events: seq<Event>, samples: Samples)
    requires Invariant(p) && Admissible(p, events, samples)
    ensures var commits, q := ScenarioCommits(p, events, samples), Run(p, events, samples);
      if commits == [] then q.scenario == p.scenario
      else q.scenario.Some? && Returned(q, commits[|commits| - 1], q.scenario.value)
    decreases |events|
  {
    if events != [] {
      var e, q := events[0], Next(p, events[0], samples);
      NextKeepsInvariant(p, e, samples);
      PanelsShowLastCommit(q, events[1..], samples);
      var rest := ScenarioCommits(q, events[1..], samples);
      if ScenarioCommit(p, e) != [] && rest == [] {
        ReturnedStays(q, events[1..], samples, e.token, e.outcome.value);
        assert ScenarioCommits(p, events, samples) == [e.token];
      }
    }
  }

  /** The newest run has not returned a result, or the panels show it. */
  ghost predicate PanelsFit(p: Page) {
    p.scenarioToken in p.runs && forall result :: Returned(p, p.scenarioToken, result) ==> p.scenario == Some(result)
  }

  lemma {:induction false} RunKeepsPanels(p: Page, events: seq<Event>, samples: Samples)
    requires Invariant(p) && Admissible(p, events, samples) && PanelsFit(p)
    ensures PanelsFit(Run(p, events, samples))
    decreases |events|
  {
    if events != [] {
      NextKeepsInvariant(p, events[0], samples);
      RunKeepsPanels(Next(p, events[0], samples), events[1..], samples);
    }
  }

  /** MAIN RESULT. From a scenario run on, over every interleaving of further runs and ends: once
      the newest run has returned a result, the panels show that result and loading is off. */
  lemma NewestRunWins(p: Page, events: seq<Event>, samples: Samples, result: string)
    requires Invariant(p) && Admissible(Next(p, RunStart, samples), events, samples)
    ensures var q := Run(Next(p, RunStart, samples), events, samples);
      Returned(q, q.scenarioToken, result) ==> q.scenario == Some(result) && !q.loading
  {
    NextKeepsInvariant(p, RunStart, samples);
    RunKeepsPanels(Next(p, RunStart, samples), events, samples);
    RunKeepsInvariant(Next(p, RunStart, samples), events, samples);
  }

  /** The end of an older run changes nothing that is shown. */
  lemma StaleRunIsDiscarded(p: Page, t: nat, outcome: Outcome, samples: Samples)
    requires Enabled(p, RunEnd(t, outcome)) && t != p.scenarioToken
    ensures var q := Next(p, RunEnd(t, outcome), samples);
      SameScreen(p, q) && q.scenario == p.scenario && q.loading == p.loading
  {
  }

  /** Two overlapping runs: the older one ends last and is discarded. */
  lemma LateRunIsDiscarded(samples: Samples)
    ensures var events := [RunStart, RunStart, RunEnd(2, Some("new")), RunEnd(1, Some("old"))];
      && Admissible(Initial(None, ""), events, samples)
      && Run(Initial(None, ""), events, samples).scenario == Some("new")
  {
    var p0 := Initial(None, "");
    var p1 := Next(p0, RunStart, samples);
    var p2 := Next(p1, RunStart, samples);
    var p3 := Next(p2, RunEnd(2, Some("new")), samples);
    RunCons(p3, RunEnd(1, Some("old")), [], samples);
    RunCons(p2, RunEnd(2, Some("new")), [RunEnd(1, Some("old"))], samples);
    RunCons(p1, RunStart, [RunEnd(2, Some("new")), RunEnd(1, Some("old"))], samples);
    RunCons(p0, RunStart, [RunStart, RunEnd(2, Some("new")), RunEnd(1, Some("old"))], samples);
    assert [RunStart] + [RunStart, RunEnd(2, Some("new")), RunEnd(1, Some("old"))]
      == [RunStart, RunStart, RunEnd(2, Some("new")), RunEnd(1, Some("old"))];
    assert [RunStart] + [RunEnd(2, Some("new")), RunEnd(1, Some("old"))] == [RunStart, RunEnd(2, Some("new")), RunEnd(1, Some("old"))];
    assert [RunEnd(2, Some("new"))] + [RunEnd(1, Some("old"))] == [RunEnd(2, Some("new")), RunEnd(1, Some("old"))];
    assert [RunEnd(1, Some("old"))] + [] == [RunEnd(1, Some("old"))];
  }

  /** An error without a message shows the fallback text, any other its own. */
  lemma EmptyMessageFallsBack(p: Page, t: nat, message: string, samples: Samples)
    requires Enabled(p, GraphReply(t, Failed(message))) && t == p.graphToken
    ensures Next(p, GraphReply(t, Failed(message)), samples).graphError
      == Some(if |message| == 0 then "graph unavailable" else message)
  {
  }

  // ----------------------------------------------------- what the page remembers

  /** The load has the urn it was called with and the replies that arrived for its token. */
  predicate LoadTold(q: Page, p: Page, events: seq<Event>, t: nat)
    requires t in q.loads
  {
    var l := q.loads[t];
    && (if t in p.loads then l.urn == p.loads[t].urn else LoadLive(l.urn) in events)
    && (l.asset.Pending? || (t in p.loads && l.asset == p.loads[t].asset) || AssetReply(t, l.asset) in events)
    && (l.graph.Pending? || (t in p.loads && l.graph == p.loads[t].graph) || GraphReply(t, l.graph) in events)
  }

  /** The scenario run has the outcome it ended with. */
  predicate RunTold(q: Page, p: Page, events: seq<Event>, t: nat)
    requires t in q.runs
  {
    q.runs[t] == None || (t in p.runs && q.runs[t] == p.runs[t]) || RunEnd(t, q.runs[t].value) in events
  }

  lemma FirstTold(p: Page, e: Event, samples: Samples, t: nat)
    requires Invariant(p) && Enabled(p, e)
    ensures t in Next(p, e, samples).loads ==> LoadTold(Next(p, e, samples), p, [e], t)
    ensures t in Next(p, e, samples).runs ==> RunTold(Next(p, e, samples), p, [e], t)
    ensures (t in p.loads ==> t in Next(p, e, samples).loads) && (t in p.runs ==> t in Next(p, e, samples).runs)
  {
  }

  /** Over every run, what the page remembers of a load or of a scenario run is what arrived. */
  lemma {:induction false} RepliesAreRecorded(p: Page, events: seq<Event>, samples: Samples, t: nat)
    requires Invariant(p) && Admissible(p, events, samples)
    ensures t in Run(p, events, samples).loads ==> LoadTold(Run(p, events, samples), p, events, t)
    ensures t in Run(p, events, samples).runs ==> RunTold(Run(p, events, samples), p, events, t)
    decreases |events|
  {
    if events != [] {
      var e, rest, q := events[0], events[1..], Next(p, events[0], samples);
      FirstTold(p, e, samples, t);
      NextKeepsInvariant(p, e, samples);
      RepliesAreRecorded(q, rest, samples, t);
      assert forall x :: x in rest ==> x in events;
      assert forall x :: x in [e] ==> x in events;
      hide Next, Invariant;
    }
  }

  // ------------------------------------------------------------------- the page

  /** The component: state fields, the two token refs, and the calls in flight. */
  class Home {
    var selectedUrn: Urn
    var asset: Option<Asset>
    var graphData: Option<Graph>
    var graphError: Option<string>
    var graphToken: nat
    var loads: map<nat, Load>
    var loading: bool
    var scenario: Option<string>
    var scenarioToken: nat
    var runs: map<nat, Option<Outcome>>
    const samples: Samples

    function View(): Page
      reads this
    {
      Page(selectedUrn, asset, graphData, graphError, graphToken, loads, loading, scenario, scenarioToken, runs)
    }

    constructor (samples: Samples, urn: Urn)
      ensures View() == Initial(samples(urn), urn) && Invariant(View())
      ensures this.samples == samples
    {
      this.samples := samples;
      selectedUrn, asset, graphData, graphError := urn, samples(urn), None, None;
      graphToken, loads := 0, map[];
      loading, scenario, scenarioToken, runs := false, None, 0, map[];
    }

    /** `loadAsset` up to its await, or to its end with mock data. */
    method LoadAsset(urn: Urn, useMock: bool)
      requires Invariant(View())
      modifies this
      ensures View() == Next(old(View()), if useMock then LoadMock(urn) else LoadLive(urn), samples)
      ensures Invariant(View())
    {
      selectedUrn, graphError := urn, None;
      if useMock {
        asset, graphData := samples(urn), None;
        return;
      }
      graphToken := graphToken + 1;
      loads := loads[graphToken := Load(urn, Pending, Pending, false)];
      NextKeepsInvariant(old(View()), LoadLive(urn), samples);
    }

    method OnAssetReply(token: nat, reply: Reply<Asset>)
      requires Invariant(View()) && Enabled(View(), AssetReply(token, reply))
      modifies this`loads
      ensures View() == Next(old(View()), AssetReply(token, reply), samples) && Invariant(View())
    {
      loads := loads[token := loads[token].(asset := reply)];
      NextKeepsInvariant(old(View()), AssetReply(token, reply), samples);
    }

    /** The graph fetch, with the error handler attached to it. */
    method OnGraphReply(token: nat, reply: Reply<Graph>)
      requires Invariant(View()) && Enabled(View(), GraphReply(token, reply))
      modifies this`loads, this`graphError
      ensures View() == Next(old(View()), GraphReply(token, reply), samples) && Invariant(View())
    {
      loads := loads[token := loads[token].(graph := reply)];
      if reply.Failed? {
        if token == graphToken {
          graphError := Message(reply.message, "graph unavailable");
        }
      }
      NextKeepsInvariant(old(View()), GraphReply(token, reply), samples);
    }

    /** The continuation after the await, or the catch block. */
    method OnSettle(token: nat)
      requires Invariant(View()) && Enabled(View(), Settle(token))
      modifies this
      ensures View() == Next(old(View()), Settle(token), samples) && Invariant(View())
    {
      NextKeepsInvariant(View(), Settle(token), samples);
      var l := loads[token];
      loads := loads[token := l.(settled := true)];
      if token != graphToken {
        return;
      }
      if l.asset.Failed? {
        asset, graphData := samples(l.urn), None;
        graphError := Message(l.asset.message, "asset unavailable");
      } else {
        asset := Some(l.asset.value);
        graphData := if l.graph.Loaded? then Some(l.graph.value) else None;
      }
    }

    method RunScenario()
      requires Invariant(View())
      modifies this
      ensures View() == Next(old(View()), RunStart, samples) && Invariant(View())
    {
      loading := true;
      scenarioToken := scenarioToken + 1;
      runs := runs[scenarioToken := None];
      NextKeepsInvariant(old(View()), RunStart, samples);
    }

    /** The rest of `runScenario`, its `finally` block included. */
    method OnScenarioEnd(token: nat, outcome: Outcome)
      requires Invariant(View()) && Enabled(View(), RunEnd(token, outcome))
      modifies this
      ensures View() == Next(old(View()), RunEnd(token, outcome), samples) && Invariant(View())
      ensures token != old(scenarioToken) ==> scenario == old(scenario) && loading == old(loading)
      ensures token == old(scenarioToken) ==> !loading && (outcome.Some? ==> scenario == outcome)
    {
      NextKeepsInvariant(View(), RunEnd(token, outcome), samples);
      runs := runs[token := Some(outcome)];
      if token == scenarioToken && outcome.Some? {
        scenario := outcome;
      }
      if token == scenarioToken {
        loading := false;
      }
    }
  }
}

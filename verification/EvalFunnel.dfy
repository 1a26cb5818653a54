/** The held-out evaluation: every generation goes through three gates, and the verdict. */
module EvalFunnel {
  import opened Wrappers
  import opened FunctionalChecks

  datatype Task = TestGen | Reasoning | Reporting

  /** What one generation turns out to be. The three safety verdicts are those of the compile
      check and of the two expression checks. */
  datatype Generation<R> =
    | NotJson
    | SchemaInvalid
    | Parsed(compiles: bool, hypothesisOk: bool, propertyOk: bool, functional: FunctionalResult<R>)

  datatype Failure<R> = NotJsonFailure | SchemaFailure | GateFailure | FunctionalFailure(reason: R)

  /** The safety gate of a task; reporting has none. */
  predicate GateOk<R>(task: Task, g: Generation<R>)
    requires g.Parsed?
  {
    match task
    case TestGen => g.compiles
    case Reasoning => g.hypothesisOk && g.propertyOk
    case Reporting => true
  }

  predicate Valid<R>(g: Generation<R>) { g.Parsed? }

  predicate Gated<R>(task: Task, g: Generation<R>) { g.Parsed? && GateOk(task, g) }

  predicate Passes<R>(task: Task, g: Generation<R>) { Gated(task, g) && g.functional.ok }

  /** How many gates a generation gets through. */
  function Depth<R>(task: Task, g: Generation<R>): nat {
    if !Valid(g) then 0 else if !Gated(task, g) then 1 else if !Passes(task, g) then 2 else 3
  }

  /** How many generations get through at least so many gates. */
  function Reached<R>(task: Task, gens: seq<Generation<R>>, gates: nat): nat {
    if gens == [] then 0
    else Reached(task, gens[..|gens| - 1], gates) + if Depth(task, gens[|gens| - 1]) >= gates then 1 else 0
  }

  /** The checks' own promise about their results. */
  predicate ConsistentResults<R>(gens: seq<Generation<R>>) {
    forall i :: 0 <= i < |gens| && gens[i].Parsed? ==> Consistent(gens[i].functional)
  }

  function FunctionalFailures<R>(reasons: seq<R>): seq<Failure<R>> {
    seq(|reasons|, i requires 0 <= i < |reasons| => FunctionalFailure(reasons[i]))
  }

  /** What is listed for one generation: the gate it fails, or the reasons of its function. */
  function Reported<R>(task: Task, g: Generation<R>): seq<Failure<R>> {
    match Depth(task, g)
    case 0 => [if g.NotJson? then NotJsonFailure else SchemaFailure]
    case 1 => [GateFailure]
    case 2 => if g.Parsed? then FunctionalFailures(g.functional.reasons) else []
    case _ => []
  }

  /** The list of failures, generation by generation. */
  function Listed<R>(task: Task, gens: seq<Generation<R>>): seq<Failure<R>> {
    if gens == [] then [] else Listed(task, gens[..|gens| - 1]) + Reported(task, gens[|gens| - 1])
  }

  datatype Tally<R> = Tally(schemaValid: nat, gatePass: nat, functionalPass: nat, failures: seq<Failure<R>>)

  /** The counters, for every prefix of the records. */
  ghost predicate Counts<R>(t: Tally<R>, task: Task, gens: seq<Generation<R>>) {
    CountsReached(t, task, gens) && CountsAll(t, task, gens)
  }

  ghost predicate CountsReached<R>(t: Tally<R>, task: Task, gens: seq<Generation<R>>) {
    && t.schemaValid == Reached(task, gens, 1) && t.gatePass == Reached(task, gens, 2)
    && t.functionalPass == Reached(task, gens, 3)
    && t.failures == Listed(task, gens)
  }

  ghost predicate CountsAll<R>(t: Tally<R>, task: Task, gens: seq<Generation<R>>) {
    && t.functionalPass <= t.gatePass <= t.schemaValid <= |gens|
    && (t.schemaValid == |gens| <==> forall i :: 0 <= i < |gens| ==> Valid(gens[i]))
    && (t.gatePass == |gens| <==> forall i :: 0 <= i < |gens| ==> Gated(task, gens[i]))
    && (t.functionalPass == |gens| <==> forall i :: 0 <= i < |gens| ==> Passes(task, gens[i]))
    && (|t.failures| == 0 <==> t.functionalPass == |gens|)
  }

  function Next<R>(t: Tally<R>, task: Task, g: Generation<R>): Tally<R> {
    match g
    case NotJson => t.(failures := t.failures + [NotJsonFailure])
    case SchemaInvalid => t.(failures := t.failures + [SchemaFailure])
    case Parsed(_, _, _, functional) =>
      var v := t.(schemaValid := t.schemaValid + 1);
      if !GateOk(task, g) then v.(failures := t.failures + [GateFailure])
      else
        var w := v.(gatePass := v.gatePass + 1);
        if functional.ok then w.(functionalPass := w.functionalPass + 1)
        else w.(failures := t.failures + FunctionalFailures(functional.reasons))
  }

  lemma NextCounts<R>(t: Tally<R>, task: Task, gens: seq<Generation<R>>, g: Generation<R>)
    requires Counts(t, task, gens) && (g.Parsed? ==> Consistent(g.functional))
    ensures Counts(Next(t, task, g), task, gens + [g])
  {
    NextCountsReached(t, task, gens, g);
    NextCountsAll(t, task, gens, g);
  }

  lemma NextCountsReached<R>(t: Tally<R>, task: Task, gens: seq<Generation<R>>, g: Generation<R>)
    requires CountsReached(t, task, gens)
    ensures CountsReached(Next(t, task, g), task, gens + [g])
  {
    ReachedGrows(task, gens, g);
    NextLists(t, task, g);
    hide Reported, Listed, Reached;
  }

  lemma ReachedGrows<R>(task: Task, gens: seq<Generation<R>>, g: Generation<R>)
    ensures forall gates :: Reached(task, gens + [g], gates) == Reached(task, gens, gates) + if Depth(task, g) >= gates then 1 else 0
    ensures Listed(task, gens + [g]) == Listed(task, gens) + Reported(task, g)
  {
    assert (gens + [g])[..|gens + [g]| - 1] == gens && (gens + [g])[|gens + [g]| - 1] == g;
    hide Depth, Reported;
  }

  lemma NextLists<R>(t: Tally<R>, task: Task, g: Generation<R>)
    ensures Next(t, task, g).failures == t.failures + Reported(task, g)
  {
  }

  lemma NextCountsAll<R>(t: Tally<R>, task: Task, gens: seq<Generation<R>>, g: Generation<R>)
    requires CountsAll(t, task, gens) && (g.Parsed? ==> Consistent(g.functional))
    ensures CountsAll(Next(t, task, g), task, gens + [g])
  {
    var all := gens + [g];
    assert all[|gens|] == g && forall i :: 0 <= i < |gens| ==> all[i] == gens[i];
    assert (forall i :: 0 <= i < |all| ==> Valid(all[i])) <==> (forall i :: 0 <= i < |gens| ==> Valid(gens[i])) && Valid(g);
    assert (forall i :: 0 <= i < |all| ==> Gated(task, all[i])) <==> (forall i :: 0 <= i < |gens| ==> Gated(task, gens[i])) && Gated(task, g);
    assert (forall i :: 0 <= i < |all| ==> Passes(task, all[i])) <==> (forall i :: 0 <= i < |gens| ==> Passes(task, gens[i])) && Passes(task, g);
  }

  lemma StartCounts<R>(t: Tally<R>, task: Task, gens: seq<Generation<R>>)
    requires t == Tally(0, 0, 0, []) && gens == []
    ensures Counts(t, task, gens)
  {
  }

  lemma CountsMean<R>(t: Tally<R>, task: Task, gens: seq<Generation<R>>)
    requires Counts(t, task, gens)
    ensures t.schemaValid == Reached(task, gens, 1) && t.gatePass == Reached(task, gens, 2)
    ensures t.functionalPass == Reached(task, gens, 3) && t.failures == Listed(task, gens)
    ensures t.functionalPass <= t.gatePass <= t.schemaValid <= |gens|
    ensures t.functionalPass == |gens| <==> forall i :: 0 <= i < |gens| ==> Passes(task, gens[i])
    ensures |t.failures| == 0 <==> t.functionalPass == |gens|
  {
  }

  /** The evaluation loop and its verdict. The gates nest, and the list of failures is empty
      exactly when every generation passes every gate. */
  method Evaluate<R>(task: Task, gens: seq<Generation<R>>) returns (t: Tally<R>, allPass: bool)
    requires ConsistentResults(gens)
    ensures t.schemaValid == Reached(task, gens, 1) && t.gatePass == Reached(task, gens, 2)
    ensures t.functionalPass == Reached(task, gens, 3) && t.failures == Listed(task, gens)
    ensures t.functionalPass <= t.gatePass <= t.schemaValid <= |gens|
    ensures allPass <==> forall i :: 0 <= i < |gens| ==> Passes(task, gens[i])
    ensures allPass <==> t.schemaValid == t.gatePass == t.functionalPass == |gens|
    ensures |t.failures| == 0 <==> allPass
  {
    hide Counts, GateOk;
    t := Tally(0, 0, 0, []);
    StartCounts(t, task, gens[..0]);
    for i := 0 to |gens|
      invariant Counts(t, task, gens[..i])
    {
      var g := gens[i];
      ghost var next := Next(t, task, g);
      NextCounts(t, task, gens[..i], g);
      assert gens[..i] + [g] == gens[..i + 1];
      match g
      case NotJson =>
        t := t.(failures := t.failures + [NotJsonFailure]);
      case SchemaInvalid =>
        t := t.(failures := t.failures + [SchemaFailure]);
      case Parsed(_, _, _, functional) =>
        t := t.(schemaValid := t.schemaValid + 1);
        if !GateOk(task, g) {
          t := t.(failures := t.failures + [GateFailure]);
          assert t == next;
          continue;
        }
        t := t.(gatePass := t.gatePass + 1);
        if functional.ok {
          t := t.(functionalPass := t.functionalPass + 1);
        } else {
          t := t.(failures := t.failures + FunctionalFailures(functional.reasons));
        }
    }
    assert gens[..|gens|] == gens;
    CountsMean(t, task, gens);
    allPass := t.functionalPass == |gens| && t.schemaValid == |gens| && t.gatePass == |gens|;
  }

  /** Without the checks' promise the failure list proves nothing: a check that fails without
      a reason leaves it empty although the gate is not passed. */
  lemma SilentFailureWouldHide<R>(task: Task, g: Generation<R>)
    requires Gated(task, g) && !g.functional.ok && g.functional.reasons == []
    ensures Next(Tally(0, 0, 0, []), task, g).failures == [] && !Passes(task, g)
  {
  }

  /** Which verdicts a task's safety gate reads: test generation its compile check, reasoning both
      expression checks, reporting none. A verdict of another task changes nothing, and one failed
      verdict of its own stops the generation behind the schema gate whatever its function is. */
  lemma SafetyGateReads<R>(compiles: bool, hypothesisOk: bool, propertyOk: bool, f: FunctionalResult<R>)
    ensures Depth(TestGen, Parsed(false, hypothesisOk, propertyOk, f)) == 1
    ensures Depth(TestGen, Parsed(true, hypothesisOk, propertyOk, f)) == if f.ok then 3 else 2
    ensures Depth(Reasoning, Parsed(compiles, false, propertyOk, f)) == 1
    ensures Depth(Reasoning, Parsed(compiles, hypothesisOk, false, f)) == 1
    ensures Depth(Reasoning, Parsed(compiles, true, true, f)) == if f.ok then 3 else 2
    ensures Depth(Reporting, Parsed(compiles, hypothesisOk, propertyOk, f)) == if f.ok then 3 else 2
    ensures forall task :: Depth<R>(task, NotJson) == 0 && Depth<R>(task, SchemaInvalid) == 0
  {
  }

  /** One generation that fails a check of its task keeps the evaluation from passing. */
  lemma {:induction false} OneFailureDecides<R>(task: Task, gens: seq<Generation<R>>, i: nat)
    requires i < |gens| && Depth(task, gens[i]) < 3
    ensures Reached(task, gens, 3) < |gens|
  {
    if i < |gens| - 1 {
      OneFailureDecides(task, gens[..|gens| - 1], i);
    } else {
      ReachedWithin(task, gens[..|gens| - 1], 3);
    }
  }

  lemma {:induction false} ReachedWithin<R>(task: Task, gens: seq<Generation<R>>, gates: nat)
    ensures Reached(task, gens, gates) <= |gens|
  {
    if gens != [] {
      ReachedWithin(task, gens[..|gens| - 1], gates);
    }
  }

  // -------------------------------------------------------- completion boundary

  predicate MatchesAt(ids: seq<int>, template: seq<int>, i: int) {
    0 <= i && i + |template| <= |ids| && ids[i..i + |template|] == template
  }

  /** An occurrence splits the sequence around the template. */
  lemma MatchSplits(ids: seq<int>, template: seq<int>, i: int)
    ensures MatchesAt(ids, template, i) <==> exists before, after :: |before| == i && ids == before + template + after
  {
    if MatchesAt(ids, template, i) {
      assert ids == ids[..i] + template + ids[i + |template|..];
    }
  }

  /** The index just behind the last occurrence of the response template. */
  method CompletionBoundary(fullIds: seq<int>, template: seq<int>) returns (boundary: Option<nat>)
    ensures boundary.None? <==> forall i :: !MatchesAt(fullIds, template, i)
    ensures boundary.Some? ==> MatchesAt(fullIds, template, boundary.value - |template|)
    ensures boundary.Some? ==> forall i :: MatchesAt(fullIds, template, i) ==> i + |template| <= boundary.value
  {
    var n := |template|;
    var i := |fullIds| - n;
    while i > -1
      invariant i <= |fullIds| - n
      invariant forall j :: j > i ==> !MatchesAt(fullIds, template, j)
    {
      if fullIds[i..i + n] == template {
        assert MatchesAt(fullIds, template, i);
        return Some(i + n);
      }
      i := i - 1;
    }
    return None;
  }
}

/** The plan/observation handshake between the planner and the agent thread: two files,
    polled, each carrying a sequence number. */
module PlanHandshake {

  datatype Step = Step(tool: string, args: string)

  datatype Observation = Observation(tool: string, detail: string, denied: bool)

  /** A plan without a "seq" member reads as seq 0. */
  datatype Plan = Plan(seqNo: int, steps: seq<Step>, done: bool)

  /** What a reader of plan.json finds. */
  datatype PlanFile = Missing | Torn | Whole(plan: Plan)

  datatype ObsFile = NoObs | TornObs | Obs(seqNo: int, observations: seq<Observation>)

  /** The outcome of the n-th governed step of the run. */
  type Gateway = (nat, Step) -> Observation

  const POLLS: nat := 600
  const MAX_STEPS: nat := 12

  function Prefix(steps: seq<Step>): seq<Step> {
    if |steps| <= MAX_STEPS then steps else steps[..MAX_STEPS]
  }

  /** The agent thread. `running` holds the plan picked up but not yet answered. */
  datatype Agent = Agent(
    last: int,
    running: seq<Plan>,
    executed: seq<Plan>,
    results: seq<seq<Observation>>,
    calls: nat,
    obs: ObsFile,
    returned: bool)

  const START := Agent(0, [], [], [], 0, NoObs, false)

  /** One poll up to the execution: a missing, torn or already seen plan is passed over. */
  function Pick(a: Agent, file: PlanFile): Agent {
    if a.returned || !file.Whole? || file.plan.seqNo <= a.last then a
    else a.(last := file.plan.seqNo, running := [file.plan])
  }

  function Execute(gateway: Gateway, calls: nat, steps: seq<Step>): (o: seq<Observation>)
    ensures |o| == |steps|
  {
    seq(|steps|, i requires 0 <= i < |steps| => gateway(calls + i, steps[i]))
  }

  /** The rest of that poll: run at most twelve steps, answer, stop if the plan says so. */
  function Answer(a: Agent, gateway: Gateway): Agent {
    if a.running == [] then a
    else
      var plan := a.running[0];
      var steps := Prefix(plan.steps);
      var observations := Execute(gateway, a.calls, steps);
      a.(running := [],
         executed := a.executed + [plan],
         results := a.results + [observations],
         calls := a.calls + |steps|,
         obs := Obs(a.last, observations),
         returned := plan.done)
  }

  function Poll(a: Agent, file: PlanFile, gateway: Gateway): Agent {
    Answer(Pick(a, file), gateway)
  }

  /** The agent after n polls, when poll k finds `view(k)`. */
  function After(view: nat -> PlanFile, gateway: Gateway, n: nat): Agent {
    if n == 0 then START else Poll(After(view, gateway, n - 1), view(n - 1), gateway)
  }

  predicate Increasing(plans: seq<Plan>) {
    forall i, j :: 0 <= i < j < |plans| ==> plans[i].seqNo < plans[j].seqNo
  }

  /** What holds of the agent whatever is found in plan.json. */
  predicate Sound(a: Agent) {
    && a.last >= 0
    && |a.running| <= 1
    && (a.running != [] ==> a.running[0].seqNo == a.last && !a.returned)
    && Increasing(a.executed + a.running)
    && (forall i :: 0 <= i < |a.executed + a.running| ==> 0 < (a.executed + a.running)[i].seqNo <= a.last)
    && |a.results| == |a.executed|
    && (forall i :: 0 <= i < |a.executed| ==>
          |a.results[i]| == |Prefix(a.executed[i].steps)| <= MAX_STEPS)
    && (a.executed == [] ==> !a.obs.Obs?)
    && (a.obs.Obs? ==> Answered(a))
    && (a.returned <==> a.executed != [] && a.executed[|a.executed| - 1].done)
  }

  /** The observation file answers the newest executed plan. */
  predicate Answered(a: Agent)
    requires |a.results| == |a.executed|
  {
    && a.executed != []
    && a.obs == Obs(a.executed[|a.executed| - 1].seqNo, a.results[|a.results| - 1])
  }

  lemma AppendIncreasing(plans: seq<Plan>, plan: Plan)
    requires Increasing(plans) && forall i :: 0 <= i < |plans| ==> plans[i].seqNo < plan.seqNo
    ensures Increasing(plans + [plan])
  {
  }

  lemma PickKeepsSound(a: Agent, file: PlanFile)
    requires Sound(a) && a.running == []
    ensures Sound(Pick(a, file))
  {
    hide Increasing, Prefix;
    assert a.executed + a.running == a.executed;
    if Pick(a, file) != a {
      AppendIncreasing(a.executed, file.plan);
    }
  }

  lemma AnswerKeepsSound(a: Agent, gateway: Gateway)
    requires Sound(a)
    ensures Sound(Answer(a, gateway)) && Answer(a, gateway).running == []
  {
    var b := Answer(a, gateway);
    if a.running != [] {
      assert a.running == [a.running[0]];
      assert b.executed + b.running == a.executed + a.running;
    }
  }

  /** A poll runs a new plan at once, step by step up to the twelfth, and leaves everything
      alone when plan.json is missing, torn or not newer. */
  lemma PollRunsNewPlans(a: Agent, file: PlanFile, gateway: Gateway)
    requires Settled(a)
    ensures var b := Poll(a, file, gateway);
      if !a.returned && file.Whole? && file.plan.seqNo > a.last then
        && b.executed == a.executed + [file.plan] && b.returned == file.plan.done
        && b.obs.Obs? && b.obs.seqNo == file.plan.seqNo
        && |b.obs.observations| == (if |file.plan.steps| < MAX_STEPS then |file.plan.steps| else MAX_STEPS)
        && (forall i :: 0 <= i < |b.obs.observations| ==>
              b.obs.observations[i] == gateway(a.calls + i, file.plan.steps[i]))
        && b.calls == a.calls + |b.obs.observations|
      else b == a
  {
    hide Sound;
  }

  /** Between two polls. */
  predicate Settled(a: Agent) {
    && Sound(a) && a.running == []
    && (a.executed != [] ==> Answered(a) && a.last == a.executed[|a.executed| - 1].seqNo)
  }

  lemma PollKeepsSettled(a: Agent, file: PlanFile, gateway: Gateway)
    requires Settled(a)
    ensures Settled(Poll(a, file, gateway))
    ensures |Poll(a, file, gateway).executed| <= |a.executed| + 1
  {
    hide Increasing, Prefix, Execute;
    PickKeepsSound(a, file);
    AnswerKeepsSound(Pick(a, file), gateway);
  }

  lemma StartSettled()
    ensures Settled(START)
  {
  }

  /** MAIN RESULT. Whatever plan.json holds at each poll, no plan runs twice, the executed
      sequence numbers increase, at most twelve steps run per plan, and the observation file
      answers the last executed plan. */
  lemma {:induction false} AgentAlwaysSound(view: nat -> PlanFile, gateway: Gateway, n: nat)
    ensures Settled(After(view, gateway, n)) && |After(view, gateway, n).executed| <= n
  {
    hide Settled, Poll;
    if n == 0 {
      StartSettled();
    } else {
      var a := After(view, gateway, n - 1);
      AgentAlwaysSound(view, gateway, n - 1);
      PollKeepsSettled(a, view(n - 1), gateway);
    }
  }

  lemma {:induction false} ReturnedStaysPut(view: nat -> PlanFile, gateway: Gateway, m: nat, n: nat)
    requires m <= n && After(view, gateway, m).returned && After(view, gateway, m).running == []
    ensures After(view, gateway, n) == After(view, gateway, m)
  {
    if m < n {
      ReturnedStaysPut(view, gateway, m, n - 1);
    }
  }

  method ExecuteSteps(gateway: Gateway, calls: nat, steps: seq<Step>) returns (observations: seq<Observation>)
    ensures observations == Execute(gateway, calls, steps)
  {
    observations := [];
    for i := 0 to |steps|
      invariant observations == Execute(gateway, calls, steps[..i])
    {
      observations := observations + [gateway(calls + i, steps[i])];
    }
    assert steps[..|steps|] == steps;
  }

  /** The polling loop of the agent thread. */
  method AgentSide(view: nat -> PlanFile, gateway: Gateway)
    returns (obs: ObsFile, executed: seq<Plan>, calls: nat)
    ensures obs == After(view, gateway, POLLS).obs
    ensures executed == After(view, gateway, POLLS).executed
    ensures calls == After(view, gateway, POLLS).calls
  {
    hide Execute, Prefix;
    var last := 0;
    obs, executed, calls := NoObs, [], 0;
    ghost var results: seq<seq<Observation>> := [];
    for k := 0 to POLLS
      invariant After(view, gateway, k) == Agent(last, [], executed, results, calls, obs, false)
    {
      var file := view(k);
      if !file.Whole? {
        continue;
      }
      var plan := file.plan;
      if plan.seqNo <= last {
        continue;
      }
      last := plan.seqNo;
      var steps := Prefix(plan.steps);
      var observations := ExecuteSteps(gateway, calls, steps);
      obs := Obs(last, observations);
      executed, results, calls := executed + [plan], results + [observations], calls + |steps|;
      if plan.done {
        ReturnedStaysPut(view, gateway, k + 1, POLLS);
        return;
      }
    }
  }

  // ------------------------------------------------ both sides, interleaved

  datatype Phase = Deciding | Waiting | Closing(observed: bool) | Finished

  /** The planner loop of the host. `timedOut` remembers a wait given up. */
  datatype System = System(
    agent: Agent,
    polls: nat,
    file: PlanFile,
    written: seq<Plan>,
    phase: Phase,
    timedOut: bool,
    abandoned: bool)

  const INITIAL := System(START, 0, Missing, [], Deciding, false, false)

  datatype Event =
    | AgentPick
    | AgentTearsObs
    | AgentAnswers
    | PlannerTears
    | PlannerWrites(steps: seq<Step>, modelDone: bool, lastBatch: bool)
    | PlannerReads
    | PlannerTimesOut
    | PlannerCloses
    | PlannerWritesFinal

  predicate Enabled(s: System, e: Event) {
    match e
    case AgentPick => s.agent.running == [] && !s.agent.returned && s.polls < POLLS
    case AgentTearsObs => s.agent.running != []
    case AgentAnswers => s.agent.running != []
    case PlannerTears => s.phase.Deciding? || s.phase.Closing?
    case PlannerWrites(_, _, _) => s.phase.Deciding?
    case PlannerReads => s.phase.Waiting? && s.agent.obs.Obs? && s.agent.obs.seqNo == |s.written|
    case PlannerTimesOut => s.phase.Waiting?
    case PlannerCloses => s.phase.Deciding?
    case PlannerWritesFinal => s.phase.Closing?
  }

  function Next(s: System, e: Event, gateway: Gateway): System
    requires Enabled(s, e)
  {
    match e
    case AgentPick => s.(agent := Pick(s.agent, s.file), polls := s.polls + 1)
    case AgentTearsObs => s.(agent := s.agent.(obs := TornObs))
    case AgentAnswers => s.(agent := Answer(s.agent, gateway))
    case PlannerTears => s.(file := Torn)
    case PlannerWrites(steps, modelDone, lastBatch) =>
      var plan := Plan(|s.written| + 1, steps, modelDone || lastBatch);
      s.(file := Whole(plan),
         written := s.written + [plan],
         phase := if steps == [] && modelDone then Closing(false) else Waiting)
    case PlannerReads => s.(phase := Deciding)
    case PlannerTimesOut => s.(phase := Closing(false), timedOut := true)
    case PlannerCloses => s.(phase := Closing(true))
    case PlannerWritesFinal =>
      var plan := Plan(|s.written| + 1, [], true);
      s.(file := Whole(plan),
         written := s.written + [plan],
         phase := Finished,
         abandoned := !s.phase.observed)
  }

  /** Plans the agent has started, in order. */
  function Started(s: System): seq<Plan> { s.agent.executed + s.agent.running }

  /** The started plans are the first `k` written ones. */
  predicate StartedFirst(s: System, k: int) {
    0 <= k <= |s.written| && Started(s) == s.written[..k]
  }

  /** Everything but the plan before the last one has been started. */
  predicate SkippedOne(s: System) {
    var n := |s.written|;
    n >= 2 && Started(s) == s.written[..n - 2] + [s.written[n - 1]]
  }

  predicate Invariant(s: System) {
    var n := |s.written|;
    && Sound(s.agent)
    && (forall i :: 0 <= i < n ==> s.written[i].seqNo == i + 1)
    && (s.file.Whole? ==> n > 0 && s.file.plan == s.written[n - 1])
    && (s.abandoned ==> s.phase.Finished?)
    && (s.agent.running == [] && s.agent.executed != [] ==> Answered(s.agent))
    && (n == 0 ==> s.phase == Deciding || s.phase == Closing(true))
    && match s.phase
       case Deciding => StartedFirst(s, n) && s.agent.last == n && s.agent.running == []
       case Closing(true) => StartedFirst(s, n) && s.agent.last == n && s.agent.running == []
       case Closing(false) =>
         && n > 0
         && s.agent.last in {n - 1, n} && StartedFirst(s, s.agent.last)
         && (!s.timedOut ==> s.written[n - 1].steps == [] && s.written[n - 1].done)
       case Waiting => n > 0 && s.agent.last in {n - 1, n} && StartedFirst(s, s.agent.last)
       case Finished =>
         && n > 0
         && if !s.abandoned then s.agent.last in {n - 1, n} && StartedFirst(s, s.agent.last)
            else
              && n >= 2
              && (!s.timedOut ==> s.written[n - 2].steps == [] && s.written[n - 2].done)
              && (if s.agent.last < n then s.agent.last in {n - 2, n - 1} && StartedFirst(s, s.agent.last)
                  else s.agent.last == n && (StartedFirst(s, n) || SkippedOne(s)))
  }

  /** Picking up the newest written plan starts it, right after the plans started before. */
  lemma PickStartsNewest(s: System, t: System)
    requires s.agent.running == [] && s.written != []
    requires t.written == s.written && t.agent.executed == s.agent.executed
    requires t.agent.running == [s.written[|s.written| - 1]]
    ensures StartedFirst(s, |s.written| - 1) ==> StartedFirst(t, |s.written|)
    ensures |s.written| >= 2 && StartedFirst(s, |s.written| - 2) ==> SkippedOne(t)
  {
    assert Started(t) == Started(s) + [s.written[|s.written| - 1]];
    assert s.written[..|s.written| - 1] + [s.written[|s.written| - 1]] == s.written[..|s.written|];
  }

  lemma PickKeepsInvariant(s: System, gateway: Gateway)
    requires Invariant(s) && Enabled(s, AgentPick)
    ensures Invariant(Next(s, AgentPick, gateway))
  {
    hide Sound, Answered, StartedFirst, SkippedOne;
    var t := Next(s, AgentPick, gateway);
    PickKeepsSound(s.agent, s.file);
    if t.agent == s.agent {
      SameStart(s, t);
    } else {
      PickStartsNewest(s, t);
    }
  }

  lemma SameStart(s: System, t: System)
    requires t.agent == s.agent && t.written == s.written
    ensures SkippedOne(s) == SkippedOne(t)
    ensures forall k :: StartedFirst(s, k) == StartedFirst(t, k)
  {
  }

  lemma AnswerKeepsInvariant(s: System, gateway: Gateway)
    requires Invariant(s) && Enabled(s, AgentAnswers)
    ensures Invariant(Next(s, AgentAnswers, gateway))
  {
    hide Increasing, Prefix, Execute;
    var t := Next(s, AgentAnswers, gateway);
    AnswerKeepsSound(s.agent, gateway);
    assert s.agent.running == [s.agent.running[0]];
    assert Started(t) == Started(s);
  }

  lemma WriteKeepsInvariant(s: System, e: Event, gateway: Gateway)
    requires Invariant(s) && Enabled(s, e) && (e.PlannerWrites? || e.PlannerWritesFinal?)
    ensures Invariant(Next(s, e, gateway))
  {
    hide Sound, Answered, Prefix;
    var t := Next(s, e, gateway);
    var n := |s.written|;
    assert t.written[..n] == s.written;
    assert forall k :: 0 <= k <= n ==> t.written[..k] == s.written[..k];
    assert Started(t) == Started(s);
  }

  lemma ReadMeansAllExecuted(s: System, gateway: Gateway)
    requires Invariant(s) && Enabled(s, PlannerReads)
    ensures s.agent.executed == s.written && s.agent.running == []
    ensures Answered(s.agent)
  {
    var n := |s.written|;
    var a := s.agent;
    var k := |a.executed| - 1;
    assert Started(s)[k] == a.executed[k];
    assert k == n - 1;
    assert |Started(s)| == |a.executed| + |a.running| == a.last;
    assert s.written[..n] == s.written;
  }

  lemma ReadKeepsInvariant(s: System, gateway: Gateway)
    requires Invariant(s) && Enabled(s, PlannerReads)
    ensures Invariant(Next(s, PlannerReads, gateway))
  {
    ReadMeansAllExecuted(s, gateway);
    assert s.written[..|s.written|] == s.written;
    assert Started(s) == s.written;
  }

  lemma TearKeepsInvariant(s: System, gateway: Gateway)
    requires Invariant(s) && Enabled(s, AgentTearsObs)
    ensures Invariant(Next(s, AgentTearsObs, gateway))
  {
    hide Increasing, Prefix, Answered;
    var t := Next(s, AgentTearsObs, gateway);
    assert t.agent.executed + t.agent.running == s.agent.executed + s.agent.running;
    assert Started(t) == Started(s);
  }

  lemma PhaseKeepsInvariant(s: System, e: Event, gateway: Gateway)
    requires Invariant(s) && Enabled(s, e)
    requires e.PlannerTears? || e.PlannerTimesOut? || e.PlannerCloses?
    ensures Invariant(Next(s, e, gateway))
  {
    hide Sound, Answered, Prefix;
    assert Started(Next(s, e, gateway)) == Started(s);
  }

  lemma StepKeepsInvariant(s: System, e: Event, gateway: Gateway)
    requires Invariant(s) && Enabled(s, e)
    ensures Invariant(Next(s, e, gateway))
  {
    match e
    case AgentPick => PickKeepsInvariant(s, gateway);
    case AgentAnswers => AnswerKeepsInvariant(s, gateway);
    case PlannerWrites(_, _, _) => WriteKeepsInvariant(s, e, gateway);
    case PlannerWritesFinal => WriteKeepsInvariant(s, e, gateway);
    case PlannerReads => ReadKeepsInvariant(s, gateway);
    case AgentTearsObs => TearKeepsInvariant(s, gateway);
    case _ => PhaseKeepsInvariant(s, e, gateway);
  }

  /** A run: enabled steps of either side, in any order. */
  predicate IsRun(trace: seq<System>, events: seq<Event>, gateway: Gateway) {
    && |trace| == |events| + 1 && trace[0] == INITIAL
    && forall i :: 0 <= i < |events| ==>
         Enabled(trace[i], events[i]) && trace[i + 1] == Next(trace[i], events[i], gateway)
  }

  lemma {:induction false} RunKeepsInvariant(trace: seq<System>, events: seq<Event>, gateway: Gateway, i: nat)
    requires IsRun(trace, events, gateway) && i < |trace|
    ensures Invariant(trace[i])
  {
    if i > 0 {
      RunKeepsInvariant(trace, events, gateway, i - 1);
      StepKeepsInvariant(trace[i - 1], events[i - 1], gateway);
    }
  }

  /** MAIN RESULT. In every interleaving: as long as the planner has overwritten no plan
      unread, the started plans are a prefix of the written ones that lacks at most the
      newest; and even then at most the plan before the final one is lost, which is empty and
      marked done unless the planner stopped waiting for it. */
  lemma StartedPlansFollowWrittenPlans(trace: seq<System>, events: seq<Event>, gateway: Gateway, i: nat)
    requires IsRun(trace, events, gateway) && i < |trace|
    ensures var s := trace[i];
      && (!s.abandoned ==> StartedFirst(s, s.agent.last) && |s.written| - 1 <= s.agent.last)
      && (s.abandoned ==>
            && |s.written| >= 2
            && ((StartedFirst(s, s.agent.last) && |s.written| - 2 <= s.agent.last) || SkippedOne(s))
            && (s.timedOut || (s.written[|s.written| - 2].steps == [] && s.written[|s.written| - 2].done)))
  {
    RunKeepsInvariant(trace, events, gateway, i);
  }

  /** MAIN RESULT. Whenever the planner accepts an observation file, it holds the outcome of
      exactly the plan it wrote last, limited to twelve steps. */
  lemma PlannerReadsItsOwnPlan(trace: seq<System>, events: seq<Event>, gateway: Gateway, i: nat)
    requires IsRun(trace, events, gateway) && i < |events| && events[i].PlannerReads?
    ensures var s := trace[i];
      var n := |s.written|;
      && n > 0 && |s.agent.executed| == n == |s.agent.results|
      && s.agent.executed == s.written
      && s.agent.obs == Obs(n, s.agent.results[n - 1])
      && |s.agent.results[n - 1]| == |Prefix(s.written[n - 1].steps)|
  {
    RunKeepsInvariant(trace, events, gateway, i);
    var s := trace[i];
    ReadMeansAllExecuted(s, gateway);
  }

  // ------------------------------------------------------------- limits and steps

  /** Plans are cut at twelve steps, in every run at most one plan starts per poll, and there are at
      most six hundred polls. */
  lemma {:induction false} RunWithinLimits(trace: seq<System>, events: seq<Event>, gateway: Gateway, i: nat)
    requires IsRun(trace, events, gateway) && i < |trace|
    ensures |Started(trace[i])| <= trace[i].polls <= 600
    ensures |trace[i].agent.running| <= 1
    ensures forall steps :: |Prefix(steps)| == if |steps| < 12 then |steps| else 12
  {
    if i > 0 {
      RunWithinLimits(trace, events, gateway, i - 1);
      var s, e := trace[i - 1], events[i - 1];
      if e.AgentAnswers? {
        assert s.agent.running == [s.agent.running[0]];
      }
    }
  }

  /** The agent's two steps are one poll of its loop: picking up and answering a newer plan, or
      passing over what is there. */
  lemma PickAndAnswerArePoll(s: System, gateway: Gateway)
    requires Enabled(s, AgentPick)
    ensures var t := Next(s, AgentPick, gateway);
      && t.polls == s.polls + 1 && t.file == s.file && t.written == s.written && t.phase == s.phase
      && if t.agent.running == [] then t.agent == Poll(s.agent, s.file, gateway)
         else Enabled(t, AgentAnswers) && Next(t, AgentAnswers, gateway).agent == Poll(s.agent, s.file, gateway)
  {
  }

  /** After a wait was given up the planner only closes the run. */
  lemma {:induction false} TimeoutOnlyCloses(trace: seq<System>, events: seq<Event>, gateway: Gateway, i: nat, j: nat)
    requires IsRun(trace, events, gateway) && i < j < |trace| && events[i].PlannerTimesOut?
    ensures trace[j].phase.Closing? || trace[j].phase.Finished?
    ensures j < |events| ==> !events[j].PlannerWrites? && !events[j].PlannerReads? && !events[j].PlannerTimesOut?
  {
    if j > i + 1 {
      TimeoutOnlyCloses(trace, events, gateway, i, j - 1);
    }
  }

  /** The one loss that needs no time-out: an empty plan that says done is not waited for, the final
      plan overwrites it, and the agent starts the final plan alone. */
  lemma EmptyDonePlanIsSkipped(gateway: Gateway) returns (trace: seq<System>, events: seq<Event>)
    ensures IsRun(trace, events, gateway) && |trace| == 4
    ensures events == [PlannerWrites([], true, false), PlannerWritesFinal, AgentPick]
    ensures trace[3].abandoned && !trace[3].timedOut && SkippedOne(trace[3])
  {
    events := [PlannerWrites([], true, false), PlannerWritesFinal, AgentPick];
    var s1 := Next(INITIAL, events[0], gateway);
    var s2 := Next(s1, events[1], gateway);
    trace := [INITIAL, s1, s2, Next(s2, events[2], gateway)];
    assert IsRun(trace, events, gateway);
  }

  // ------------------------------------------------------------ how a run ends

  /** The planner's step that wrote this plan. */
  predicate Wrote(s: System, e: Event, plan: Plan) {
    && plan.seqNo == |s.written| + 1
    && match e
       case PlannerWrites(steps, modelDone, lastBatch) => plan.steps == steps && (plan.done <==> modelDone || lastBatch)
       case PlannerWritesFinal => plan.steps == [] && plan.done
       case _ => false
  }

  /** The planner's step marks its plan as done. */
  predicate Ends(e: Event) { e.PlannerWritesFinal? || (e.PlannerWrites? && (e.modelDone || e.lastBatch)) }

  ghost predicate WrittenBefore(trace: seq<System>, events: seq<Event>, i: nat, plan: Plan)
    requires i <= |events| <= |trace|
  {
    exists k :: 0 <= k < i && Wrote(trace[k], events[k], plan)
  }

  lemma {:induction false} PlansAreWritten(trace: seq<System>, events: seq<Event>, gateway: Gateway, i: nat, m: nat)
    requires IsRun(trace, events, gateway) && i < |trace| && m < |trace[i].written|
    ensures WrittenBefore(trace, events, i, trace[i].written[m])
  {
    var s, e := trace[i - 1], events[i - 1];
    if m < |s.written| {
      PlansAreWritten(trace, events, gateway, i - 1, m);
    } else {
      assert Wrote(s, e, trace[i].written[m]);
    }
  }

  lemma StartedAreWritten(s: System, plan: Plan)
    requires Invariant(s) && plan in s.agent.executed
    ensures plan in s.written
  {
    hide Sound, Answered;
    assert plan in Started(s);
    var n := |s.written|;
    assert forall k :: 0 <= k <= n ==> forall x :: x in s.written[..k] ==> x in s.written;
  }

  /** MAIN RESULT. In every run the agent has returned exactly when the plan it executed last was
      written as the final one, or after the model's "done", or in the last batch. */
  lemma AgentReturnedIff(trace: seq<System>, events: seq<Event>, gateway: Gateway, i: nat)
    requires IsRun(trace, events, gateway) && i < |trace| && trace[i].agent.executed != []
    ensures var a := trace[i].agent;
      var plan := a.executed[|a.executed| - 1];
      a.returned <==> exists k :: 0 <= k < i && Wrote(trace[k], events[k], plan) && Ends(events[k])
  {
    RunKeepsInvariant(trace, events, gateway, i);
    var s := trace[i];
    var plan := s.agent.executed[|s.agent.executed| - 1];
    StartedAreWritten(s, plan);
    var m :| 0 <= m < |s.written| && s.written[m] == plan;
    PlansAreWritten(trace, events, gateway, i, m);
    hide IsRun, Invariant;
    var k :| 0 <= k < i && Wrote(trace[k], events[k], plan);
  }

  predicate FinalPlan(s: System) {
    s.phase.Finished? ==> s.written != [] && s.written[|s.written| - 1].done && s.written[|s.written| - 1].steps == []
  }

  lemma {:induction false} FinishedIsFinal(trace: seq<System>, events: seq<Event>, gateway: Gateway, i: nat)
    requires IsRun(trace, events, gateway) && i < |trace|
    ensures FinalPlan(trace[i])
  {
    if i > 0 {
      FinishedIsFinal(trace, events, gateway, i - 1);
    }
  }

  /** The planner ends by writing an empty plan marked done, and the agent returns once it has
      answered that plan. */
  lemma FinalPlanEndsAgent(trace: seq<System>, events: seq<Event>, gateway: Gateway, i: nat)
    requires IsRun(trace, events, gateway) && i < |trace| && trace[i].phase.Finished?
    ensures FinalPlan(trace[i])
    ensures trace[i].agent.last == |trace[i].written| && trace[i].agent.running == [] ==> trace[i].agent.returned
  {
    RunKeepsInvariant(trace, events, gateway, i);
    FinishedIsFinal(trace, events, gateway, i);
    hide IsRun, Invariant, FinalPlan;
    if trace[i].agent.last == |trace[i].written| && trace[i].agent.running == [] {
      AnsweredFinal(trace[i]);
    }
  }

  lemma AnsweredFinal(s: System)
    requires Invariant(s) && FinalPlan(s) && s.phase.Finished?
    requires s.agent.last == |s.written| && s.agent.running == []
    ensures s.agent.returned
  {
    var n, k := |s.written|, |s.agent.executed| - 1;
    assert Started(s) == s.agent.executed;
    assert s.written[..n] == s.written;
    assert k >= 0 && s.agent.executed[k] == s.written[n - 1];
  }
}

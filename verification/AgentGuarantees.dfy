/** Termination, budget conservation and what COMPLETED means, for every run of the agent graph. */
module AgentGuarantees {
  import opened Prelude
  import opened Budgets
  import opened Evidence
  import opened AgentGraph

  // ---------------------------------------------------------------------------
  // The invariant
  // ---------------------------------------------------------------------------

  predicate AtStep(s: State) {
    s.plan.Some? && s.currentStep < |s.plan.value.steps|
  }

  ghost predicate Justified(policy: Policy, s: State) {
    || (s.direct && s.citations != [])
    || (s.plan.Some? && Suffices(policy, s.tenantId, s.plan.value, s.evidence))
  }

  /** What holds of a run at each node. */
  ghost predicate Shaped(policy: Policy, r: Run) {
    var s := r.state;
    && (s.plan.Some? ==> s.plan.value.Valid())
    && match r.node
       case Route => s == Begin(s.tenantId, s.limits).state && r.started == 0
       case DirectRag => s.plan.Some? && s.direct && s.finalStatus.None? && r.started == 0
       case ExecuteStep => s.plan.Some? && !s.direct && s.finalStatus in {None, Some(Completed)}
       case AwaitApproval => AtStep(s) && !s.direct && s.pending && s.approvalId.Some?
                             && s.finalStatus == Some(ApprovalRequired)
       case Evaluate => s.plan.Some? && !s.direct
       case Finalize => s.finalStatus.Some?
                        && (s.finalStatus == Some(Completed) ==>
                              s.plan.Some? && Suffices(policy, s.tenantId, s.plan.value, s.evidence))
       case End => s.finalStatus == Some(Completed) ==> Justified(policy, s)
       case Aborted => true
  }

  /** What holds of the budget in every reachable state. */
  predicate Accounted(r: Run) {
    && r.state.limits.Valid() && WithinCaps(r.state.limits, r.state.usage)
    && r.state.usage.toolAttempts <= r.started
    && (r.node != Aborted ==> r.state.usage.toolAttempts == r.started)
    && (OverTokens(r.state.limits, r.state.usage) ==> r.node in {Finalize, End})
  }

  ghost predicate Good(policy: Policy, r: Run) {
    Shaped(policy, r) && Accounted(r)
  }

  // ---------------------------------------------------------------------------
  // Node by node
  // ---------------------------------------------------------------------------

  lemma RecordCallIsSound(limits: Limits, usage: Usage, input: nat, generated: nat)
    requires limits.Valid()
    ensures var charge := RecordCall(limits, usage, input, generated);
            && Sound(limits, usage, charge)
            && (charge.signal == Fine ==> !OverTokens(limits, charge.usage))
            && charge.usage.toolAttempts == usage.toolAttempts && charge.usage.modelCalls == usage.modelCalls
            && charge.usage.iterations == usage.iterations
  {
    var cost := if limits.rates.Some?
                then Some((input as real * limits.rates.value.0 + generated as real * limits.rates.value.1) / 1000000.0)
                else None;
    RecordingIsSound(limits, usage, input, generated, cost, Some(if limits.rates.Some? then Known else Unknown));
  }

  lemma RouteStep(policy: Policy, r: Run, c: Choice)
    requires Good(policy, r) && r.node == Route && Fits(r, c)
    ensures Good(policy, Perform(policy, r, c)) && AtMost(r.state.usage, Perform(policy, r, c).state.usage)
    ensures Perform(policy, r, c).node in {DirectRag, ExecuteStep, Finalize}
    ensures Perform(policy, r, c).state.limits == r.state.limits
    ensures Perform(policy, r, c).state.usage.iterations == r.state.usage.iterations
  {
    var s := r.state;
    ChargesAreSound(s.limits, s.usage, 1);
    var begun := if c.usesModel then BeginModelCall(s.limits, s.usage) else Charge(s.usage, Fine);
    RecordCallIsSound(s.limits, begun.usage, c.inputTokens, c.generatedTokens);
  }

  /** A model call of the direct path: begun, answered with citations, and recorded. */
  lemma AnsweredCharge(limits: Limits, usage: Usage, callsModel: bool, input: nat, generated: nat)
    requires limits.Valid() && WithinCaps(limits, usage)
    ensures var begun := if callsModel then BeginModelCall(limits, usage) else Charge(usage, Fine);
            var recorded := RecordCall(limits, begun.usage, input, generated);
            && AtMost(usage, begun.usage) && AtMost(usage, recorded.usage)
            && WithinCaps(limits, begun.usage) && WithinCaps(limits, recorded.usage)
            && begun.usage.toolAttempts == recorded.usage.toolAttempts == usage.toolAttempts
            && begun.usage.iterations == recorded.usage.iterations == usage.iterations
            && begun.usage.totalTokens == usage.totalTokens && begun.usage.generatedTokens == usage.generatedTokens
  {
    ChargesAreSound(limits, usage, 1);
    var begun := if callsModel then BeginModelCall(limits, usage) else Charge(usage, Fine);
    RecordCallIsSound(limits, begun.usage, input, generated);
  }

  /** What one node may do to the usage without calling a tool. */
  predicate Grown(limits: Limits, usage: Usage, usage': Usage) {
    && AtMost(usage, usage') && WithinCaps(limits, usage')
    && usage'.toolAttempts == usage.toolAttempts && usage'.iterations == usage.iterations
  }

  lemma DirectEndOk(s: State, c: Choice, retrieved: Charge, begun: Charge, recorded: Charge)
    requires c.Direct? && Grown(s.limits, s.usage, retrieved.usage) && Grown(s.limits, s.usage, begun.usage)
    requires Grown(s.limits, s.usage, recorded.usage)
    ensures var s' := DirectEnd(s, c, retrieved, begun, recorded);
            && s' == s.(usage := s'.usage, finalStatus := s'.finalStatus, citations := s'.citations)
            && Grown(s.limits, s.usage, s'.usage)
            && (s'.finalStatus == Some(Completed) ==> s'.citations != [])
  {
  }

  lemma DirectCharge(s: State, c: Choice)
    requires s.limits.Valid() && WithinCaps(s.limits, s.usage) && c.Direct?
    ensures var s' := AfterDirect(s, c);
            && s' == s.(usage := s'.usage, finalStatus := s'.finalStatus, citations := s'.citations)
            && Grown(s.limits, s.usage, s'.usage)
            && (s'.finalStatus == Some(Completed) ==> s'.citations != [])
  {
    ChargesAreSound(s.limits, s.usage, 1);
    var retrieved := Retrieve(s.limits, s.usage);
    AnsweredCharge(s.limits, retrieved.usage, c.callsModel, c.inputTokens, c.outputTokens);
    var begun := if c.callsModel then BeginModelCall(s.limits, retrieved.usage) else Charge(retrieved.usage, Fine);
    DirectEndOk(s, c, retrieved, begun, RecordCall(s.limits, begun.usage, c.inputTokens, c.outputTokens));
  }

  lemma DirectStep(policy: Policy, r: Run, c: Choice)
    requires Good(policy, r) && r.node == DirectRag && Fits(r, c)
    ensures Good(policy, Perform(policy, r, c)) && AtMost(r.state.usage, Perform(policy, r, c).state.usage)
    ensures Perform(policy, r, c).node == End && Perform(policy, r, c).state.limits == r.state.limits
    ensures Perform(policy, r, c).state.usage.iterations == r.state.usage.iterations
  {
    DirectCharge(r.state, c);
  }

  lemma StepChargeIsSound(s: State)
    requires AtStep(s)
    ensures Sound(s.limits, s.usage, StepCharge(s))
    ensures StepCharge(s).usage.toolAttempts == s.usage.toolAttempts
    ensures StepCharge(s).usage.totalTokens == s.usage.totalTokens
    ensures StepCharge(s).usage.generatedTokens == s.usage.generatedTokens
    ensures StepCharge(s).usage.modelCalls == s.usage.modelCalls
    ensures StepCharge(s).usage.iterations ==
            if s.usage.iterations < s.limits.maxIterations then s.usage.iterations + 1 else s.usage.iterations
    ensures s.usage.iterations >= s.limits.maxIterations ==> StepCharge(s) == Charge(s.usage, Exceeded)
  {
  }

  /** What `execute_step` leaves of the state, when it does not raise. */
  lemma ExecuteLeaves(policy: Policy, s: State, c: Choice)
    requires AtStep(s) && c.Tool? && WithinCaps(s.limits, s.usage)
    requires Plausible(s.limits, StepCharge(s).usage, c.result)
    ensures AfterExecute(policy, s, c).Some? ==>
              var s' := AfterExecute(policy, s, c).value;
              && s'.plan == s.plan && s'.direct == s.direct && s'.limits == s.limits
              && s'.usage == StepCharge(s).usage.(toolAttempts := s'.usage.toolAttempts)
              && s'.usage.toolAttempts == s.usage.toolAttempts
                   + (if StepCharge(s).signal == Fine then c.result.started else 0)
              && WithinCaps(s.limits, s'.usage) && AtMost(s.usage, s'.usage)
              && (s'.finalStatus == Some(ApprovalRequired) ==>
                    s'.finalStatus == s.finalStatus
                    || (s'.currentStep == s.currentStep && s'.pending && s'.approvalId.Some?))
              && (s'.finalStatus == s.finalStatus
                  || s'.finalStatus in {Some(Completed), Some(BudgetExhausted), Some(Failed), Some(ApprovalRequired)})
  {
    StepChargeIsSound(s);
  }

  lemma ExecuteStepKeeps(policy: Policy, r: Run, c: Choice)
    requires Good(policy, r) && r.node == ExecuteStep && Fits(r, c)
    ensures Good(policy, Perform(policy, r, c)) && AtMost(r.state.usage, Perform(policy, r, c).state.usage)
    ensures Perform(policy, r, c).node in {ExecuteStep, AwaitApproval, Evaluate, Finalize, Aborted}
    ensures Perform(policy, r, c).state.limits == r.state.limits
    ensures AtStep(r.state) && Perform(policy, r, c).node != Aborted ==>
              Perform(policy, r, c).state.usage.iterations == StepCharge(r.state).usage.iterations
    ensures !AtStep(r.state) ==>
              Perform(policy, r, c).state.usage == r.state.usage
              && Perform(policy, r, c).node == Evaluate
  {
    if AtStep(r.state) {
      StepChargeIsSound(r.state);
      ExecuteLeaves(policy, r.state, c);
    }
  }

  lemma AwaitStepKeeps(policy: Policy, r: Run, c: Choice)
    requires Good(policy, r) && r.node == AwaitApproval && Fits(r, c)
    ensures Good(policy, Perform(policy, r, c)) && AtMost(r.state.usage, Perform(policy, r, c).state.usage)
    ensures Perform(policy, r, c).node in {ExecuteStep, Finalize, Aborted}
    ensures Perform(policy, r, c).state.limits == r.state.limits
    ensures Perform(policy, r, c).state.usage.iterations == r.state.usage.iterations
  {
  }

  lemma EvaluateStepKeeps(policy: Policy, r: Run, c: Choice)
    requires Good(policy, r) && r.node == Evaluate && Fits(r, c)
    ensures Good(policy, Perform(policy, r, c)) && Perform(policy, r, c).state.usage == r.state.usage
    ensures Perform(policy, r, c).state.limits == r.state.limits
    ensures Perform(policy, r, c).node in {ExecuteStep, Finalize}
    ensures Perform(policy, r, c).node == ExecuteStep ==> AtStep(Perform(policy, r, c).state)
  {
    SufficientExactly(policy, r.state.tenantId, r.state.plan.value, r.state.evidence);
  }

  lemma FinalizeStepKeeps(policy: Policy, r: Run, c: Choice)
    requires Good(policy, r) && r.node == Finalize && Fits(r, c)
    ensures Good(policy, Perform(policy, r, c)) && Perform(policy, r, c).state.usage == r.state.usage
    ensures Perform(policy, r, c).state.limits == r.state.limits && Perform(policy, r, c).node == End
  {
  }

  lemma StepKeeps(policy: Policy, r: Run, r': Run)
    requires Good(policy, r) && Next(policy, r, r')
    ensures Good(policy, r') && AtMost(r.state.usage, r'.state.usage) && r'.state.limits == r.state.limits
  {
    var c :| Fits(r, c) && r' == Perform(policy, r, c);
    match r.node
    case Route => RouteStep(policy, r, c);
    case DirectRag => DirectStep(policy, r, c);
    case ExecuteStep => ExecuteStepKeeps(policy, r, c);
    case AwaitApproval => AwaitStepKeeps(policy, r, c);
    case Evaluate => EvaluateStepKeeps(policy, r, c);
    case _ => FinalizeStepKeeps(policy, r, c);
  }

  lemma {:induction false} PathIsGood(policy: Policy, runs: seq<Run>, i: nat)
    requires Path(policy, runs) && Good(policy, runs[0]) && i < |runs|
    ensures Good(policy, runs[i]) && AtMost(runs[0].state.usage, runs[i].state.usage)
    ensures runs[i].state.limits == runs[0].state.limits
  {
    if i > 0 {
      PathIsGood(policy, runs, i - 1);
      assert Linked(policy, runs, i);
      StepKeeps(policy, runs[i - 1], runs[i]);
    }
  }

  lemma StartIsGood(policy: Policy, runs: seq<Run>)
    requires Starts(runs)
    ensures Good(policy, runs[0])
  {
  }

  // ---------------------------------------------------------------------------
  // Termination
  // ---------------------------------------------------------------------------

  function Rank(r: Run): nat {
    match r.node
    case Route => 6
    case AwaitApproval => 5
    case ExecuteStep => if AtStep(r.state) then 2 else 4
    case Evaluate => 3
    case Finalize => 1
    case DirectRag => 1
    case _ => 0
  }

  function Measure(r: Run): int {
    (r.state.limits.maxIterations - r.state.usage.iterations) * 8 + Rank(r)
  }

  /** The exit that makes no progress, taken with no iteration left. */
  ghost predicate Stuck(policy: Policy, r: Run) {
    && r.node == ExecuteStep && AtStep(r.state)
    && r.state.usage.iterations >= r.state.limits.maxIterations
    && EnoughToFinish(policy, r.state, r.state.usage)
  }

  lemma StepDecreases(policy: Policy, r: Run, r': Run)
    requires Good(policy, r) && Next(policy, r, r') && !Stuck(policy, r)
    ensures 0 <= Measure(r') < Measure(r)
  {
    StepKeeps(policy, r, r');
    var c :| Fits(r, c) && r' == Perform(policy, r, c);
    match r.node
    case Route => RouteStep(policy, r, c);
    case DirectRag => DirectStep(policy, r, c);
    case ExecuteStep =>
      ExecuteStepKeeps(policy, r, c);
      if AtStep(r.state) { StepChargeIsSound(r.state); }
    case AwaitApproval => AwaitStepKeeps(policy, r, c);
    case Evaluate => EvaluateStepKeeps(policy, r, c);
    case _ => FinalizeStepKeeps(policy, r, c);
  }

  lemma LinkDecreases(policy: Policy, runs: seq<Run>, i: nat)
    requires Path(policy, runs) && Good(policy, runs[0]) && 0 < i < |runs| && !Stuck(policy, runs[i - 1])
    ensures 0 <= Measure(runs[i]) < Measure(runs[i - 1])
  {
    PathIsGood(policy, runs, i - 1);
    assert Linked(policy, runs, i);
    StepDecreases(policy, runs[i - 1], runs[i]);
  }

  lemma {:induction false} MeasureFalls(policy: Policy, runs: seq<Run>, i: nat)
    requires Path(policy, runs) && Good(policy, runs[0]) && i < |runs|
    requires forall j :: 0 <= j < i ==> !Stuck(policy, runs[j])
    ensures 0 <= Measure(runs[i]) <= Measure(runs[0]) - i
  {
    if i > 0 {
      MeasureFalls(policy, runs, i - 1);
      LinkDecreases(policy, runs, i);
    }
  }

  /**
   * Counting across approvals and resumes, a run takes at most 8 * max_agent_iterations + 6 steps, or else gets
   * stuck at the stalled exit within that many.
   */
  lemma EveryRunEndsOrIsStuck(policy: Policy, runs: seq<Run>)
    requires Path(policy, runs) && Starts(runs)
    ensures |runs| - 1 <= 8 * runs[0].state.limits.maxIterations + 6
            || exists i :: 0 <= i <= 8 * runs[0].state.limits.maxIterations + 6 && i < |runs| && Stuck(policy, runs[i])
  {
    StartIsGood(policy, runs);
    var bound := 8 * runs[0].state.limits.maxIterations + 6;
    if bound < |runs| - 1 && forall i :: 0 <= i <= bound ==> !Stuck(policy, runs[i]) {
      MeasureFalls(policy, runs, bound + 1);
      assert false;
    }
  }

  /** Once stuck, always stuck: the same step of the same plan, no evidence gained, nothing charged, no `finalize`. */
  lemma StuckStays(policy: Policy, r: Run, r': Run)
    requires Good(policy, r) && Stuck(policy, r) && Next(policy, r, r')
    ensures Stuck(policy, r') && r'.state == r.state.(finalStatus := Some(Completed)) && r'.started == r.started
    ensures r.state.finalStatus == Some(Completed) ==> r' == r
  {
    StepChargeIsSound(r.state);
  }

  lemma {:induction false} StuckForever(policy: Policy, runs: seq<Run>, i: nat, j: nat)
    requires Path(policy, runs) && Good(policy, runs[0]) && i < j < |runs| && Stuck(policy, runs[i])
    ensures Stuck(policy, runs[j]) && runs[j].state == runs[i].state.(finalStatus := Some(Completed))
  {
    PathIsGood(policy, runs, j - 1);
    assert Linked(policy, runs, j);
    if i < j - 1 { StuckForever(policy, runs, i, j - 1); }
    StuckStays(policy, runs[j - 1], runs[j]);
  }

  const TWO_STEPS: Plan :=
      Plan(false, [PlanStep("q1", true, [], "lookup", "1"), PlanStep("q2", false, [], "lookup", "1")])

  const ONE_ITERATION: Limits := Limits(1, 6, 3, 10, 50000, 8000, 1500, 120.0, 0.5, None)

  const HIT: Answer := Answer("call", "lookup", false, Some("digest"), true, [], "found", false)

  lemma PlanTwoSteps(policy: Policy) returns (r: Run)
    ensures Next(policy, Begin("tenant", ONE_ITERATION), r)
    ensures r == Run(ExecuteStep, Begin("tenant", ONE_ITERATION).state.(plan := Some(TWO_STEPS)), 0)
  {
    var start := Begin("tenant", ONE_ITERATION);
    var c := Planned(false, Some(TWO_STEPS), 0, 0);
    assert TWO_STEPS.Valid() && Fits(start, c);
    r := Perform(policy, start, c);
  }

  /** A successful call of a tool that is not the knowledge base moves on by one step. */
  lemma TakeStep(policy: Policy, r: Run, answer: Answer) returns (r': Run)
    requires r.node == ExecuteStep && AtStep(r.state) && StepCharge(r.state).signal == Fine && r.state.finalStatus.None?
    requires r.state.usage.toolAttempts == 0 < r.state.limits.maxToolAttempts
    requires Buildable(answer) && answer.toolName != KNOWLEDGE_BASE
             && r.state.currentStep + 1 < |r.state.plan.value.steps|
    ensures Next(policy, r, r') && r'.node == ExecuteStep
    ensures r'.state == ApplyOutcome(r.state, r.state.plan.value.steps[r.state.currentStep].stepId, answer,
                                     StepCharge(r.state).usage.(toolAttempts := 1))
  {
    var c := Choice.Tool(ToolResult(1, Success(answer)), None);
    StepChargeIsSound(r.state);
    assert Fits(r, c);
    r' := Perform(policy, r, c);
  }

  lemma TakeFirstStep(policy: Policy, r: Run) returns (r': Run)
    requires r == Run(ExecuteStep, Begin("tenant", ONE_ITERATION).state.(plan := Some(TWO_STEPS)), 0)
    ensures Next(policy, r, r') && r'.node == ExecuteStep && AtStep(r'.state)
    ensures r'.state.tenantId == "tenant" && r'.state.plan == Some(TWO_STEPS)
    ensures r'.state.evidence == [] + ItemsOf("tenant", "q1", HIT)
    ensures r'.state.limits == ONE_ITERATION && r'.state.usage == FRESH.(iterations := 1, toolAttempts := 1)
  {
    assert "lookup" != KNOWLEDGE_BASE by { assert "lookup"[0] != KNOWLEDGE_BASE[0]; }
    assert StepCharge(r.state) == Charge(FRESH.(iterations := 1), Fine);
    r' := TakeStep(policy, r, HIT);
  }

  /** It happens: one iteration, two steps, and the first step already brings all the evidence the plan needs. */
  lemma StalledExitIsReachable() returns (policy: Policy, runs: seq<Run>)
    ensures Starts(runs) && Path(policy, runs) && Stuck(policy, runs[|runs| - 1])
  {
    policy := Policy(0.0, (t: string) => false, (t: string) => t);
    var r0 := Begin("tenant", ONE_ITERATION);
    var r1 := PlanTwoSteps(policy);
    var r2 := TakeFirstStep(policy, r1);
    runs := [r0, r1, r2];
    forall i | 0 < i < |runs| ensures Linked(policy, runs, i) {}
    HitSuffices(policy, r2.state);
  }

  lemma HitSuffices(policy: Policy, s: State)
    requires policy.minimumScore == 0.0 && !policy.injects("found")
    requires s.tenantId == "tenant" && s.plan == Some(TWO_STEPS) && s.evidence == [] + ItemsOf("tenant", "q1", HIT)
    ensures StatusOf(policy, s.tenantId, TWO_STEPS, s.evidence) == Sufficient
  {
    assert ParsedItems("tenant", "q1", HIT, 0) == [];
    assert |s.evidence| == 1 && s.evidence[0] == ItemsOf("tenant", "q1", HIT)[0];
    assert Eligible(policy, "tenant", s.evidence[0]);
    assert Covers(policy, "tenant", s.evidence, "q1");
    SufficientExactly(policy, "tenant", TWO_STEPS, s.evidence);
  }

  // ---------------------------------------------------------------------------
  // When the stalled exit can be left again
  // ---------------------------------------------------------------------------

  /** The exit itself: whichever budget runs out, with enough evidence the run goes back to the very same step. */
  lemma StalledExitGoesBack(policy: Policy, r: Run, c: Choice)
    requires r.node == ExecuteStep && AtStep(r.state) && Fits(r, c)
    requires StepCharge(r.state).signal != Fine || c.result.end == OverBudget
    requires var charge := StepCharge(r.state);
             EnoughToFinish(policy, r.state, if charge.signal != Fine then charge.usage
                            else Charged(charge.usage, c.result))
    ensures var r' := Perform(policy, r, c);
            && r'.node == ExecuteStep && r'.state.finalStatus == Some(Completed)
            && r'.state.currentStep == r.state.currentStep && r'.state.evidence == r.state.evidence
  {
  }

  /** A step with enough evidence whose budget check fails before the tool is called. */
  ghost predicate Blocked(policy: Policy, r: Run) {
    && r.node == ExecuteStep && AtStep(r.state)
    && EnoughToFinish(policy, r.state, r.state.usage)
    && (r.state.usage.iterations >= r.state.limits.maxIterations
        || (r.state.plan.value.steps[r.state.currentStep].preferredTool == KNOWLEDGE_BASE
            && r.state.usage.retrievalRounds >= r.state.limits.maxRetrievalRounds))
  }

  /** Blocked for want of iterations or retrieval rounds, a run never leaves the step and never finishes. */
  lemma BlockedStays(policy: Policy, r: Run, r': Run)
    requires Good(policy, r) && Blocked(policy, r) && Next(policy, r, r')
    ensures Blocked(policy, r') && r'.state.finalStatus == Some(Completed) && r'.started == r.started
    ensures r'.state.evidence == r.state.evidence && r'.state.currentStep == r.state.currentStep
  {
    StepChargeIsSound(r.state);
  }

  lemma {:induction false} BlockedForever(policy: Policy, runs: seq<Run>, i: nat, j: nat)
    requires Path(policy, runs) && Good(policy, runs[0]) && i <= j < |runs| && Blocked(policy, runs[i])
    ensures Blocked(policy, runs[j]) && runs[j].state.evidence == runs[i].state.evidence
  {
    if i < j {
      PathIsGood(policy, runs, j - 1);
      BlockedForever(policy, runs, i, j - 1);
      assert Linked(policy, runs, j);
      BlockedStays(policy, runs[j - 1], runs[j]);
    }
  }

  /**
   * With enough evidence at an unfinished step, the step can be left if and only if neither iterations nor
   * retrieval rounds block it: an exhausted tool budget alone is not final, a call that attempts nothing gets by.
   */
  lemma LeavesExactlyWhenNotBlocked(policy: Policy, r: Run)
    requires Good(policy, r) && r.node == ExecuteStep && AtStep(r.state)
    requires EnoughToFinish(policy, r.state, r.state.usage)
    ensures (exists r' :: Next(policy, r, r') && r'.node != ExecuteStep) <==> !Blocked(policy, r)
  {
    if Blocked(policy, r) {
      forall r' | Next(policy, r, r') ensures r'.node == ExecuteStep { BlockedStays(policy, r, r'); }
    } else {
      StepChargeIsSound(r.state);
      var c := Choice.Tool(ToolResult(0, Raised), None);
      assert Fits(r, c);
      var r' := Perform(policy, r, c);
      assert r'.node == Finalize;
      assert Next(policy, r, r');
    }
  }

  // ---------------------------------------------------------------------------
  // What COMPLETED means
  // ---------------------------------------------------------------------------

  /**
   * A run that ends COMPLETED answered directly with a citation, or its evidence suffices: every critical step has
   * an eligible item of the run's tenant, and no fact has two stances among eligible items.
   */
  lemma CompletedIsJustified(policy: Policy, runs: seq<Run>)
    requires Path(policy, runs) && Starts(runs)
    requires runs[|runs| - 1].node == End && runs[|runs| - 1].state.finalStatus == Some(Completed)
    ensures var s := runs[|runs| - 1].state;
            || (s.direct && s.citations != [])
            || (s.plan.Some?
                && (forall k :: 0 <= k < |s.plan.value.steps| && s.plan.value.steps[k].critical ==>
                      exists i :: 0 <= i < |s.evidence| && s.evidence[i].tenantId == s.tenantId
                                  && Eligible(policy, s.tenantId, s.evidence[i])
                                  && s.evidence[i].stepId == s.plan.value.steps[k].stepId)
                && forall key :: !Disputed(policy, s.tenantId, s.evidence, key))
  {
    StartIsGood(policy, runs);
    PathIsGood(policy, runs, |runs| - 1);
    var s := runs[|runs| - 1].state;
    if !(s.direct && s.citations != []) {
      forall k | 0 <= k < |s.plan.value.steps| && s.plan.value.steps[k].critical
        ensures exists i :: 0 <= i < |s.evidence| && s.evidence[i].tenantId == s.tenantId
                            && Eligible(policy, s.tenantId, s.evidence[i])
                            && s.evidence[i].stepId == s.plan.value.steps[k].stepId
      {
        assert Covers(policy, s.tenantId, s.evidence, s.plan.value.steps[k].stepId);
      }
    }
  }

  // ---------------------------------------------------------------------------
  // The budget
  // ---------------------------------------------------------------------------

  lemma {:induction false} UsageGrows(policy: Policy, runs: seq<Run>, i: nat, j: nat)
    requires Path(policy, runs) && Good(policy, runs[0]) && i <= j < |runs|
    ensures AtMost(runs[i].state.usage, runs[j].state.usage)
    decreases j
  {
    if i < j {
      UsageGrows(policy, runs, i, j - 1);
      PathIsGood(policy, runs, j - 1);
      assert Linked(policy, runs, j);
      StepKeeps(policy, runs[j - 1], runs[j]);
    }
  }

  /**
   * The branches on which a node raises in a state it can be in: evidence that cannot be built, an approval request
   * without an approval id, and an approved call that comes back as anything but a success.
   */
  predicate Raises(r: Run, c: Choice) {
    match r.node
    case ExecuteStep =>
      c.Tool? && AtStep(r.state) && StepCharge(r.state).signal == Fine
      && ((c.result.end.Success? && !Buildable(c.result.end.answer))
          || (c.result.end.AskApproval? && c.approvalId.None?))
    case AwaitApproval =>
      c.Approval? && c.view in {Waiting, Granted}
      && ((c.result.end.Success? && !Buildable(c.result.end.answer)) || c.result.end.Broken?
          || c.result.end.AskApproval?)
    case _ => false
  }

  /** The attempts a step starts without leaving a charge for them in the checkpoint. */
  function LostBy(r: Run, c: Choice): nat {
    if Raises(r, c) then StartedBy(r, c) else 0
  }

  /**
   * From any state of a run, a step aborts if and only if one of these branches is taken, and what it then started is
   * exactly what the budget misses.
   */
  lemma ChargesAreLostExactly(policy: Policy, r: Run, c: Choice)
    requires Good(policy, r) && CanStep(r) && Fits(r, c)
    ensures var r' := Perform(policy, r, c);
            && (r'.node == Aborted <==> Raises(r, c))
            && r'.started == r'.state.usage.toolAttempts + LostBy(r, c)
            && (r'.node == Aborted ==> r'.state == r.state)
  {
    assert Next(policy, r, Perform(policy, r, c));
    StepKeeps(policy, r, Perform(policy, r, c));
  }

  /** A run together with the move of the outside behind each step. */
  ghost predicate Steered(policy: Policy, runs: seq<Run>, choices: seq<Choice>) {
    && |runs| == |choices| + 1
    && forall i {:trigger SteeredAt(policy, runs, choices, i)} :: 0 <= i < |choices| ==>
         SteeredAt(policy, runs, choices, i)
  }

  ghost predicate SteeredAt(policy: Policy, runs: seq<Run>, choices: seq<Choice>, i: nat)
    requires i < |choices| && |runs| == |choices| + 1
  {
    CanStep(runs[i]) && Fits(runs[i], choices[i]) && runs[i + 1] == Perform(policy, runs[i], choices[i])
  }

  lemma SteeredIsPath(policy: Policy, runs: seq<Run>, choices: seq<Choice>)
    requires Steered(policy, runs, choices)
    ensures Path(policy, runs)
  {
    forall i | 0 < i < |runs| ensures Linked(policy, runs, i) { assert SteeredAt(policy, runs, choices, i - 1); }
  }

  /** Every run is such a run. */
  lemma {:induction false} PathIsSteered(policy: Policy, runs: seq<Run>) returns (choices: seq<Choice>)
    requires Path(policy, runs)
    ensures Steered(policy, runs, choices)
  {
    choices := [];
    if |runs| > 1 {
      var n := |runs| - 1;
      assert Linked(policy, runs, n);
      forall i | 0 < i < n ensures Linked(policy, runs[..n], i) { assert Linked(policy, runs, i); }
      var before := PathIsSteered(policy, runs[..n]);
      var c :| Fits(runs[n - 1], c) && runs[n] == Perform(policy, runs[n - 1], c);
      choices := before + [c];
      forall i | 0 <= i < n ensures SteeredAt(policy, runs, choices, i) {
        if i < n - 1 { assert SteeredAt(policy, runs[..n], before, i); }
      }
    }
  }

  /**
   * In every state of every run, across approvals and resumes: the handler invocations started are those charged plus
   * those of a last step that raised, no counter ever falls, and the four counters checked beforehand stay within
   * their limits.
   */
  lemma BudgetIsConserved(policy: Policy, runs: seq<Run>, choices: seq<Choice>, i: nat, j: nat)
    requires Steered(policy, runs, choices) && Starts(runs) && i <= j < |runs|
    ensures var s := runs[j].state;
            && runs[j].started == s.usage.toolAttempts + (if j == 0 then 0 else LostBy(runs[j - 1], choices[j - 1]))
            && (j < |choices| ==> runs[j].started == s.usage.toolAttempts)
            && WithinCaps(s.limits, s.usage) && s.limits == runs[0].state.limits
            && AtMost(runs[i].state.usage, s.usage)
  {
    SteeredIsPath(policy, runs, choices);
    StartIsGood(policy, runs);
    PathIsGood(policy, runs, i);
    UsageGrows(policy, runs, i, j);
    PathIsGood(policy, runs, j);
    if j > 0 {
      PathIsGood(policy, runs, j - 1);
      assert SteeredAt(policy, runs, choices, j - 1);
      ChargesAreLostExactly(policy, runs[j - 1], choices[j - 1]);
    }
    if j < |choices| { assert SteeredAt(policy, runs, choices, j); }
  }

  /** The first step needs an approval; one is requested, and no handler has started. */
  lemma AskForApproval(policy: Policy, r: Run) returns (r': Run, c: Choice)
    requires r == Run(ExecuteStep, Begin("tenant", ONE_ITERATION).state.(plan := Some(TWO_STEPS)), 0)
    ensures CanStep(r) && Fits(r, c) && r' == Perform(policy, r, c)
    ensures r' == Run(AwaitApproval, r.state.(usage := FRESH.(iterations := 1), finalStatus := Some(ApprovalRequired),
                                              pending := true, approvalId := Some("approval")), 0)
  {
    assert "lookup" != KNOWLEDGE_BASE by { assert "lookup"[0] != KNOWLEDGE_BASE[0]; }
    assert StepCharge(r.state) == Charge(FRESH.(iterations := 1), Fine);
    c := Choice.Tool(ToolResult(0, AskApproval), Some("approval"));
    r' := Perform(policy, r, c);
  }

  /** It is granted; the handler starts and fails, and applying an outcome without a digest raises. */
  lemma FailApproved(policy: Policy, r: Run) returns (r': Run, c: Choice)
    requires r.node == AwaitApproval && AtStep(r.state) && r.state.pending && r.state.approvalId.Some?
    requires r.state.usage.toolAttempts == 0 < r.state.limits.maxToolAttempts
    ensures CanStep(r) && Fits(r, c) && r' == Perform(policy, r, c)
    ensures r' == Run(Aborted, r.state, r.started + 1)
  {
    c := Approval(Granted, ToolResult(1, Broken(CallRecord("lookup", false))));
    r' := Perform(policy, r, c);
  }

  /**
   * It happens: an approved call is started and fails, `resume` hands its outcome back, and the attempt is charged
   * nowhere.
   */
  lemma ApprovedFailureLosesItsCharge(policy: Policy) returns (runs: seq<Run>, choices: seq<Choice>)
    ensures Starts(runs) && Steered(policy, runs, choices)
    ensures var last := runs[|runs| - 1];
            last.node == Aborted && last.started == 1 && last.state.usage.toolAttempts == 0
  {
    var r0 := Begin("tenant", ONE_ITERATION);
    var r1 := PlanTwoSteps(policy);
    var c0 :| Fits(r0, c0) && r1 == Perform(policy, r0, c0);
    var r2, c1 := AskForApproval(policy, r1);
    var r3, c2 := FailApproved(policy, r2);
    runs, choices := [r0, r1, r2, r3], [c0, c1, c2];
    FourStates(policy, r0, r1, r2, r3, c0, c1, c2);
  }

  lemma FourStates(policy: Policy, r0: Run, r1: Run, r2: Run, r3: Run, c0: Choice, c1: Choice, c2: Choice)
    requires CanStep(r0) && Fits(r0, c0) && r1 == Perform(policy, r0, c0)
    requires CanStep(r1) && Fits(r1, c1) && r2 == Perform(policy, r1, c1)
    requires CanStep(r2) && Fits(r2, c2) && r3 == Perform(policy, r2, c2)
    ensures Steered(policy, [r0, r1, r2, r3], [c0, c1, c2])
  {
    forall i | 0 <= i < 3 ensures SteeredAt(policy, [r0, r1, r2, r3], [c0, c1, c2], i) {}
  }

  lemma OverspentStep(policy: Policy, r: Run, r': Run)
    requires Good(policy, r) && Next(policy, r, r') && OverTokens(r.state.limits, r.state.usage)
    ensures r'.state.usage == r.state.usage && r'.node in {Finalize, End} && r'.state.limits == r.state.limits
  {
  }

  /**
   * A token total passes its limit only by the last recorded call: after that no model call begins and no token is
   * added.
   */
  lemma {:induction false} OverspendingIsLast(policy: Policy, runs: seq<Run>, i: nat, j: nat)
    requires Path(policy, runs) && Starts(runs) && i <= j < |runs|
    requires OverTokens(runs[i].state.limits, runs[i].state.usage)
    ensures runs[j].state.usage == runs[i].state.usage && runs[j].node in {Finalize, End}
    ensures runs[j].state.limits == runs[i].state.limits
    decreases j
  {
    StartIsGood(policy, runs);
    if i < j {
      OverspendingIsLast(policy, runs, i, j - 1);
      PathIsGood(policy, runs, j - 1);
      assert Linked(policy, runs, j);
      OverspentStep(policy, runs[j - 1], runs[j]);
    } else {
      PathIsGood(policy, runs, j);
    }
  }
}

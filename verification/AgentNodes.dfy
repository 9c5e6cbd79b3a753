/** The node methods: each drives a budget ledger, and the tool service, and leaves the state the graph model says. */
module AgentNodes {
  import opened Prelude
  import opened Budgets
  import opened Evidence
  import opened AgentGraph
  import T = ToolExecution

  /** `route`; `plan` is `None` when the planner raises. */
  method RouteNode(s: State, usesModel: bool, plan: Option<Plan>, inputTokens: nat, generatedTokens: nat)
    returns (s': State)
    ensures s' == AfterRoute(s, Planned(usesModel, plan, inputTokens, generatedTokens))
  {
    var ledger := new BudgetLedger(s.limits, s.usage);
    if usesModel {
      var signal := ledger.BeginModel();
      if signal == Exceeded { return Stop(s, ledger.usage, BudgetExhausted); }
    }
    if plan.None? { return Stop(s, ledger.usage, Failed); }
    if usesModel {
      var signal := RecordUsage(ledger, inputTokens, generatedTokens);
      if signal == Exceeded { return Stop(s, ledger.usage, BudgetExhausted); }
      if signal == Invalid { return Stop(s, ledger.usage, Failed); }
    }
    s' := s.(plan := plan, direct := plan.value.isSimple, usage := ledger.usage);
  }

  method RecordUsage(ledger: BudgetLedger, inputTokens: nat, generatedTokens: nat) returns (signal: Signal)
    modifies ledger
    ensures Charge(ledger.usage, signal) == RecordCall(ledger.limits, old(ledger.usage), inputTokens, generatedTokens)
  {
    if ledger.limits.rates.Some? {
      var cost := (inputTokens as real * ledger.limits.rates.value.0
                   + generatedTokens as real * ledger.limits.rates.value.1)
                  / 1000000.0;
      signal := ledger.RecordModel(inputTokens, generatedTokens, Some(cost), Some(Known));
    } else {
      signal := ledger.RecordModel(inputTokens, generatedTokens, None, Some(Unknown));
    }
  }

  /** `direct_rag`. The gateway may call the model, and may raise before answering. */
  method DirectNode(s: State, callsModel: bool, raises: bool, citations: seq<string>, inputTokens: nat,
                    outputTokens: nat)
    returns (s': State)
    ensures s' == AfterDirect(s, Direct(callsModel, raises, citations, inputTokens, outputTokens))
  {
    var ledger := new BudgetLedger(s.limits, s.usage);
    var signal := ledger.ConsumeRetrieval();
    if signal == Exceeded { return Stop(s, ledger.usage, BudgetExhausted); }
    if callsModel {
      signal := ledger.BeginModel();
      if signal == Exceeded { return Stop(s, ledger.usage, BudgetExhausted); }
    }
    if raises { return Stop(s, ledger.usage, Failed); }
    if citations != [] {
      signal := RecordUsage(ledger, inputTokens, outputTokens);
      if signal == Invalid { return Stop(s, ledger.usage, Failed); }
      if signal == Exceeded {
        if CanFinalize(s.limits, ledger.usage) {
          return Stop(s, ledger.usage, Completed).(citations := citations);
        }
        return Stop(s, ledger.usage, BudgetExhausted);
      }
      return Stop(s, ledger.usage, Completed).(citations := citations);
    }
    s' := Stop(s, ledger.usage, Unanswered).(citations := []);
  }

  /** `_structured_tool_evidence`: the loop over the entries, counting from 1. */
  method StructuredEvidence(tenantId: string, stepId: string, a: Answer) returns (items: seq<Item>)
    requires a.toolName != KNOWLEDGE_BASE
    ensures items == ItemsOf(tenantId, stepId, a)
  {
    var parsed: seq<Item> := [];
    for i := 0 to |a.raws|
      invariant parsed == ParsedItems(tenantId, stepId, a, i)
    {
      var raw := a.raws[i];
      if !raw.isObject { continue; }
      if raw.excerpt == "" { continue; }
      parsed := parsed + [ParsedItem(tenantId, stepId, a, raw, i + 1)];
    }
    if parsed != [] { return parsed; }
    items := [Item("tool:" + a.callId, stepId, KindOf(a.toolName), tenantId, a.text, 1.0,
                   Some(KindName(KindOf(a.toolName)) + ":" + a.callId), true, true, a.injection, None, None)];
  }

  /** How the outputs of a tool read: whether a knowledge-base output validates, the evidence list, the text. */
  datatype Reader = Reader(wellFormed: string -> bool, raws: string -> seq<RawItem>, text: Option<string> -> string)

  function AnswerOf(reader: Reader, outcome: T.Outcome): Answer {
    var sm := outcome.summary;
    Answer(sm.toolCallId, sm.toolName, sm.status == T.Reused, sm.outputDigest,
           outcome.output.Some? && reader.wellFormed(outcome.output.value),
           if outcome.output.Some? then reader.raws(outcome.output.value) else [],
           reader.text(outcome.output), outcome.injection)
  }

  function EndOf(reader: Reader, end: T.CallEnd): ToolEnd {
    match end
    case BudgetError => OverBudget
    case ToolError => Raised
    case Answered(outcome) =>
      match outcome.status
      case NeedsApproval => AskApproval
      case Broken => ToolEnd.Broken(CallRecord(outcome.summary.toolName, false))
      case Succeeded => Success(AnswerOf(reader, outcome))
  }

  /** Everything the tool service needs to know about the outside. */
  datatype World = World(
    registration: Option<T.Registration>, wellFormed: bool, replies: seq<T.Reply>, digest: string -> string,
    injects: string -> bool, reader: Reader)
  {
    predicate Valid() { registration.Some? ==> |replies| == registration.value.maxRetries + 1 }
  }

  /** A call of the tool service, summed up as the graph model sees it. */
  method CallTool(tools: T.SecureToolExecutionService, invocation: T.Invocation, context: T.Context,
                  ledger: BudgetLedger,
                  approved: bool, world: World) returns (end: T.CallEnd, ghost result: ToolResult)
    requires tools.Valid() && world.Valid()
    modifies tools, ledger
    ensures tools.Valid() && tools.started == old(tools.started) + result.started
    ensures ledger.usage == Charged(old(ledger.usage), result) && Plausible(ledger.limits, old(ledger.usage), result)
    ensures result.end == EndOf(world.reader, end)
  {
    end := tools.Execute(invocation, context, ledger, approved, world.registration, world.wellFormed, world.replies,
                         world.digest, world.injects);
    result := ToolResult(tools.started - old(tools.started), EndOf(world.reader, end));
  }

  /** The budget handler shared by the charges and the tool call of `execute_step`. */
  method HandleExhaustion(policy: Policy, s: State, usage: Usage) returns (s': State)
    requires s.plan.Some?
    ensures s' == OutOfBudget(policy, s, usage)
  {
    var decision := Evidence.Evaluate(policy, s.tenantId, s.plan.value, s.evidence);
    if decision.status == Sufficient && CanFinalize(s.limits, usage) { return Stop(s, usage, Completed); }
    s' := Stop(s, usage, BudgetExhausted);
  }

  function InvocationOf(s: State, runId: string, digest: string): T.Invocation
    requires s.plan.Some? && s.currentStep < |s.plan.value.steps|
  {
    var step := s.plan.value.steps[s.currentStep];
    T.Invocation(runId + ":" + step.stepId + ":" + Decimal(s.usage.retrievalRounds), step.preferredTool,
                 step.toolVersion, digest, None)
  }

  /** `execute_step`; `approvalId` is what requesting an approval returns, `None` if that raises. */
  method ExecuteNode(policy: Policy, tools: T.SecureToolExecutionService, s: State, runId: string, context: T.Context,
                     digest: string, world: World, approvalId: Option<string>)
    returns (s': Option<State>, ghost choice: Choice)
    requires tools.Valid() && world.Valid() && s.plan.Some?
    modifies tools
    ensures tools.Valid() && choice.Tool? && s' == AfterExecute(policy, s, choice)
    ensures s.currentStep < |s.plan.value.steps| ==> Plausible(s.limits, StepCharge(s).usage, choice.result)
    ensures tools.started == old(tools.started)
            + (if s.currentStep < |s.plan.value.steps| && StepCharge(s).signal == Fine then choice.result.started
               else 0)
  {
    choice := Choice.Tool(ToolResult(0, Raised), approvalId);
    if s.currentStep >= |s.plan.value.steps| { return Some(s), choice; }
    var ledger := new BudgetLedger(s.limits, s.usage);
    var step := s.plan.value.steps[s.currentStep];
    var signal := ledger.ConsumeIteration(1);
    if signal == Fine && step.preferredTool == KNOWLEDGE_BASE { signal := ledger.ConsumeRetrieval(); }
    assert Charge(ledger.usage, signal) == StepCharge(s);
    if signal != Fine {
      var stopped := HandleExhaustion(policy, s, ledger.usage);
      return Some(stopped), choice;
    }
    ghost var result;
    var end;
    end, result := CallTool(tools, InvocationOf(s, runId, digest), context, ledger, false, world);
    choice := Choice.Tool(result, approvalId);
    match end {
      case BudgetError =>
        var stopped := HandleExhaustion(policy, s, ledger.usage);
        return Some(stopped), choice;
      case ToolError => return Some(Stop(s, ledger.usage, Failed)), choice;
      case Answered(outcome) =>
        if outcome.status == T.NeedsApproval {
          if approvalId.None? { return None, choice; }
          return Some(Stop(s, ledger.usage, ApprovalRequired).(pending := true, approvalId := approvalId)), choice;
        }
        if outcome.status == T.Broken {
          return Some(Stop(s, ledger.usage, Failed).(
                        toolCalls := s.toolCalls + [CallRecord(outcome.summary.toolName, false)],
                            iteration := s.iteration + 1)),
                 choice;
        }
        var answer := AnswerOf(world.reader, outcome);
        if !Buildable(answer) { return None, choice; }
        s' := Some(ApplyOutcome(s, step.stepId, answer, ledger.usage));
    }
  }

  /** What `resume` finds: a stored summary, an approval it may execute, or something it refuses. */
  datatype Resumption = Replay(summary: T.Summary) | Execute | Refuse

  /** `await_approval`, after the interrupt. */
  method AwaitNode(tools: T.SecureToolExecutionService, s: State, view: ApprovalView, resumption: Resumption,
                   invocation: T.Invocation, context: T.Context, world: World)
    returns (s': Option<State>, ghost choice: Choice)
    requires tools.Valid() && world.Valid() && s.plan.Some? && s.currentStep < |s.plan.value.steps|
    modifies tools
    ensures tools.Valid() && choice.Approval? && choice.view == view && s' == AfterAwait(s, choice)
    ensures Plausible(s.limits, s.usage, choice.result)
    ensures tools.started == old(tools.started) + choice.result.started
    ensures resumption.Replay? ==> tools.started == old(tools.started)
  {
    choice := Approval(view, ToolResult(0, Raised));
    match view {
      case Refused => return Some(s.(finalStatus := Some(Rejected))), choice;
      case Expired => return Some(s.(finalStatus := Some(Rejected))), choice;
      case Withdrawn => return Some(s.(finalStatus := Some(Cancelled))), choice;
      case _ =>
    }
    var ledger := new BudgetLedger(s.limits, s.usage);
    var end := T.ToolError;
    ghost var result := ToolResult(0, Raised);
    if resumption.Execute? {
      end, result := CallTool(tools, invocation, context, ledger, true, world);
    } else if resumption.Replay? {
      end := T.Answered(T.Outcome(T.Succeeded, resumption.summary, None, false));
      result := ToolResult(0, EndOf(world.reader, end));
    }
    choice := Approval(view, result);
    match end {
      case BudgetError => return Some(Stop(s, ledger.usage, Failed)), choice;
      case ToolError => return Some(Stop(s, ledger.usage, Failed)), choice;
      case Answered(outcome) =>
        if outcome.status != T.Succeeded { return None, choice; }
        var answer := AnswerOf(world.reader, outcome);
        if !Buildable(answer) { return None, choice; }
        var stepId := s.plan.value.steps[s.currentStep].stepId;
        s' := Some(ApplyOutcome(s, stepId, answer, ledger.usage).(pending := false, finalStatus := None));
    }
  }

  /** `evaluate`. */
  method EvaluateNode(policy: Policy, s: State) returns (s': State)
    requires s.plan.Some?
    ensures s' == AfterEvaluate(policy, s)
  {
    var decision := Evidence.Evaluate(policy, s.tenantId, s.plan.value, s.evidence);
    var ledger := new BudgetLedger(s.limits, s.usage);
    var canRetry := decision.status in {PartialEvidence, NoEvidence}
      && ledger.usage.retrievalRounds < ledger.limits.maxRetrievalRounds
      && (s.toolCalls == [] || !s.toolCalls[|s.toolCalls| - 1].reused);
    if canRetry { return s.(finalStatus := None, currentStep := 0); }
    s' := s.(finalStatus := Some(StatusFor(decision.status)), currentStep := |s.plan.value.steps|);
  }
}

/**
 * The agent graph: six nodes over one checkpointed state. Planner, knowledge gateway, tools and approvers are
 * adversaries whose moves are the `Choice`s; a node that raises outside its own handlers aborts the run.
 */
module AgentGraph {
  import opened Prelude
  import opened Budgets
  import opened Evidence

  datatype Node = Route | DirectRag | ExecuteStep | AwaitApproval | Evaluate | Finalize | End | Aborted

  datatype RunStatus =
    | Completed | PartiallyAnswered | Unanswered | Contradicted | ApprovalRequired | Rejected | Cancelled
    | BudgetExhausted | Failed

  datatype ApprovalView = Waiting | Granted | Refused | Expired | Withdrawn

  datatype CallRecord = CallRecord(toolName: string, reused: bool)

  datatype State = State(
    tenantId: string,
    limits: Limits,
    usage: Usage,
    plan: Option<Plan>,
    direct: bool,
    currentStep: nat,
    iteration: nat,
    evidence: seq<Item>,
    citations: seq<string>,
    toolCalls: seq<CallRecord>,
    pending: bool,
    approvalId: Option<string>,
    finalStatus: Option<RunStatus>)

  /** `started` counts the handler invocations begun on behalf of this run; the source stores it nowhere. */
  datatype Run = Run(node: Node, state: State, started: nat)

  function Begin(tenantId: string, limits: Limits): Run {
    Run(Route, State(tenantId, limits, FRESH, None, false, 0, 0, [], [], [], false, None, None), 0)
  }

  // ---------------------------------------------------------------------------
  // What the outside may answer
  // ---------------------------------------------------------------------------

  datatype Score = Absent | NotANumber | Number(value: real)

  /** One entry of a tool's evidence list; `isObject` is false for an entry that is no dictionary. */
  datatype RawItem = RawItem(
    isObject: bool, chunkId: string, excerpt: string, score: Score, factKey: Option<string>, stance: Option<string>)

  /**
   * A tool outcome that is not an approval request. `wellFormed` says whether a knowledge-base output validates;
   * `raws` is the evidence list in the output, `text` the whole output as text.
   */
  datatype Answer = Answer(
    callId: string, toolName: string, reused: bool, digest: Option<string>, wellFormed: bool,
    raws: seq<RawItem>, text: string, injection: bool)

  datatype ToolEnd = Success(answer: Answer) | Broken(record: CallRecord) | AskApproval | OverBudget | Raised

  /** A call to the tool service: how many attempts it started, and how it ended. */
  datatype ToolResult = ToolResult(started: nat, end: ToolEnd)

  datatype Choice =
    | Planned(usesModel: bool, plan: Option<Plan>, inputTokens: nat, generatedTokens: nat)
    | Direct(callsModel: bool, raises: bool, citations: seq<string>, inputTokens: nat, outputTokens: nat)
    | Tool(result: ToolResult, approvalId: Option<string>)
    | Approval(view: ApprovalView, result: ToolResult)
    | Silent

  /** The tool service charges every attempt it starts, stops at the cap, and gives up only there. */
  predicate Plausible(limits: Limits, usage: Usage, result: ToolResult) {
    && (usage.toolAttempts <= limits.maxToolAttempts ==> usage.toolAttempts + result.started <= limits.maxToolAttempts)
    && (result.end == OverBudget ==> usage.toolAttempts + result.started >= limits.maxToolAttempts)
  }

  function Charged(usage: Usage, result: ToolResult): Usage {
    usage.(toolAttempts := usage.toolAttempts + result.started)
  }

  // ---------------------------------------------------------------------------
  // route and direct_rag
  // ---------------------------------------------------------------------------

  /** `_record_model_usage`. */
  function RecordCall(limits: Limits, usage: Usage, input: nat, generated: nat): Charge {
    if limits.rates.Some? then
      RecordModelUsage(limits, usage, input, generated,
                       Some((input as real * limits.rates.value.0
                             + generated as real * limits.rates.value.1) / 1000000.0),
                       Some(Known))
    else RecordModelUsage(limits, usage, input, generated, None, Some(Unknown))
  }

  function Stop(s: State, usage: Usage, status: RunStatus): State {
    s.(usage := usage, finalStatus := Some(status))
  }

  function AfterRoute(s: State, c: Choice): State
    requires c.Planned?
  {
    var begun := if c.usesModel then BeginModelCall(s.limits, s.usage) else Charge(s.usage, Fine);
    if begun.signal == Exceeded then Stop(s, begun.usage, BudgetExhausted)
    else if c.plan.None? then Stop(s, begun.usage, Failed)
    else
      var recorded := if c.usesModel then RecordCall(s.limits, begun.usage, c.inputTokens, c.generatedTokens)
                      else Charge(begun.usage, Fine);
      match recorded.signal
      case Exceeded => Stop(s, recorded.usage, BudgetExhausted)
      case Invalid => Stop(s, recorded.usage, Failed)
      case Fine => s.(plan := c.plan, direct := c.plan.value.isSimple, usage := recorded.usage)
  }

  /** An answer with citations, its model usage recorded: too late to fail unless the reserve is gone. */
  function Recorded(s: State, recorded: Charge, citations: seq<string>): State {
    match recorded.signal
    case Invalid => Stop(s, recorded.usage, Failed)
    case Exceeded =>
      if CanFinalize(s.limits, recorded.usage) then Stop(s, recorded.usage, Completed).(citations := citations)
      else Stop(s, recorded.usage, BudgetExhausted)
    case Fine => Stop(s, recorded.usage, Completed).(citations := citations)
  }

  /** The direct path, given its three charges: the retrieval round, the model call and its usage. */
  function DirectEnd(s: State, c: Choice, retrieved: Charge, begun: Charge, recorded: Charge): State
    requires c.Direct?
  {
    if retrieved.signal == Exceeded then Stop(s, retrieved.usage, BudgetExhausted)
    else if begun.signal == Exceeded then Stop(s, begun.usage, BudgetExhausted)
    else if c.raises then Stop(s, begun.usage, Failed)
    else if c.citations == [] then Stop(s, begun.usage, Unanswered).(citations := [])
    else Recorded(s, recorded, c.citations)
  }

  function AfterDirect(s: State, c: Choice): State
    requires c.Direct?
  {
    var retrieved := Retrieve(s.limits, s.usage);
    var begun := if c.callsModel then BeginModelCall(s.limits, retrieved.usage) else Charge(retrieved.usage, Fine);
    DirectEnd(s, c, retrieved, begun, RecordCall(s.limits, begun.usage, c.inputTokens, c.outputTokens))
  }

  // ---------------------------------------------------------------------------
  // execute_step and await_approval
  // ---------------------------------------------------------------------------

  function Clamp(score: Score): real {
    match score
    case Absent => 1.0
    case NotANumber => 0.0
    case Number(v) => if v < 0.0 then 0.0 else if v > 1.0 then 1.0 else v
  }

  const KNOWLEDGE_BASE: string := "knowledge_base"

  function KindOf(toolName: string): SourceKind {
    if toolName == KNOWLEDGE_BASE then Knowledge else if toolName == "readonly_sql" then Sql else Api
  }

  function KindName(kind: SourceKind): string {
    match kind case Knowledge => "kb" case Sql => "sql" case Api => "api"
  }

  /** What the entry at position `index` (counting from 1) of a structured tool's evidence list becomes. */
  function ParsedItem(tenantId: string, stepId: string, a: Answer, raw: RawItem, index: nat): Item {
    var kind := KindOf(a.toolName);
    Item("tool:" + a.callId + ":" + Decimal(index), stepId, kind, tenantId, raw.excerpt, Clamp(raw.score),
         Some(KindName(kind) + ":" + a.callId + ":" + Decimal(index)), true, true, a.injection, raw.factKey, raw.stance)
  }

  /** Entries that are no objects, or have no excerpt, are skipped. */
  function ParsedItems(tenantId: string, stepId: string, a: Answer, n: nat): (items: seq<Item>)
    requires n <= |a.raws|
    ensures forall i :: 0 <= i < |items| ==> FromTool(items[i], tenantId, stepId, a)
  {
    if n == 0 then []
    else
      var raw := a.raws[n - 1];
      ParsedItems(tenantId, stepId, a, n - 1)
      + (if raw.isObject && raw.excerpt != "" then [ParsedItem(tenantId, stepId, a, raw, n)] else [])
  }

  predicate FromTool(item: Item, tenantId: string, stepId: string, a: Answer) {
    && item.tenantId == tenantId && item.stepId == stepId && item.citationId.Some? && 0.0 <= item.score <= 1.0
    && item.injectionDetected == a.injection
  }

  function KnowledgeItem(tenantId: string, stepId: string, a: Answer, raw: RawItem): Item {
    Item(raw.chunkId, stepId, Knowledge, tenantId, raw.excerpt, Clamp(raw.score), Some("kb:" + raw.chunkId), true, true,
         a.injection, None, None)
  }

  function ItemsOf(tenantId: string, stepId: string, a: Answer): (items: seq<Item>)
    ensures forall i :: 0 <= i < |items| ==> FromTool(items[i], tenantId, stepId, a)
  {
    if a.toolName == KNOWLEDGE_BASE then
      seq(|a.raws|, i requires 0 <= i < |a.raws| => KnowledgeItem(tenantId, stepId, a, a.raws[i]))
    else
      var parsed := ParsedItems(tenantId, stepId, a, |a.raws|);
      if parsed != [] then parsed
      else [Item("tool:" + a.callId, stepId, KindOf(a.toolName), tenantId, a.text, 1.0,
                 Some(KindName(KindOf(a.toolName)) + ":" + a.callId), true, true, a.injection, None, None)]
  }

  /** Whether building the evidence raises: an invalid knowledge output, or a tool result without a digest. */
  predicate Buildable(a: Answer) {
    if a.toolName == KNOWLEDGE_BASE then a.wellFormed else a.digest.Some? && a.digest.value != ""
  }

  /** `_apply_tool_outcome`. */
  function ApplyOutcome(s: State, stepId: string, a: Answer, usage: Usage): State
    requires s.plan.Some?
  {
    s.(evidence := s.evidence + ItemsOf(s.tenantId, stepId, a),
       toolCalls := s.toolCalls + [CallRecord(a.toolName, a.reused)],
       currentStep := if a.toolName == KNOWLEDGE_BASE && usage.retrievalRounds >= s.limits.maxRetrievalRounds
                      then |s.plan.value.steps| else s.currentStep + 1,
       iteration := s.iteration + 1,
       usage := usage)
  }

  /** What a step costs before its tool is called. */
  function StepCharge(s: State): Charge
    requires s.plan.Some? && s.currentStep < |s.plan.value.steps|
  {
    var iterated := Iterate(s.limits, s.usage, 1);
    if iterated.signal == Fine && s.plan.value.steps[s.currentStep].preferredTool == KNOWLEDGE_BASE
    then Retrieve(s.limits, iterated.usage)
    else iterated
  }

  ghost predicate EnoughToFinish(policy: Policy, s: State, usage: Usage)
    requires s.plan.Some?
  {
    && StatusOf(policy, s.tenantId, s.plan.value, s.evidence) == Sufficient && CanFinalize(s.limits, usage)
  }

  /** The budget handler of `execute_step`: with enough evidence it claims completion, but stays at the same step. */
  ghost function OutOfBudget(policy: Policy, s: State, usage: Usage): State
    requires s.plan.Some?
  {
    Stop(s, usage, if EnoughToFinish(policy, s, usage) then Completed else BudgetExhausted)
  }

  /** `None` when the node raises. */
  ghost function AfterExecute(policy: Policy, s: State, c: Choice): Option<State>
    requires c.Tool? && s.plan.Some?
  {
    if s.currentStep >= |s.plan.value.steps| then Some(s)
    else
      var charge := StepCharge(s);
      if charge.signal != Fine then Some(OutOfBudget(policy, s, charge.usage))
      else
        var usage := Charged(charge.usage, c.result);
        match c.result.end
        case OverBudget => Some(OutOfBudget(policy, s, usage))
        case Raised => Some(Stop(s, usage, Failed))
        case AskApproval =>
          if c.approvalId.None? then None
          else Some(Stop(s, usage, ApprovalRequired).(pending := true, approvalId := c.approvalId))
        case Broken(record) =>
          Some(Stop(s, usage, Failed).(toolCalls := s.toolCalls + [record], iteration := s.iteration + 1))
        case Success(answer) =>
          if Buildable(answer) then Some(ApplyOutcome(s, s.plan.value.steps[s.currentStep].stepId, answer, usage))
          else None
  }

  /** A failed outcome has no digest and no output, so applying it raises even when `resume` returned normally. */
  function AfterAwait(s: State, c: Choice): Option<State>
    requires c.Approval? && s.plan.Some? && s.currentStep < |s.plan.value.steps|
  {
    match c.view
    case Refused => Some(s.(finalStatus := Some(Rejected)))
    case Expired => Some(s.(finalStatus := Some(Rejected)))
    case Withdrawn => Some(s.(finalStatus := Some(Cancelled)))
    case _ =>
      var usage := Charged(s.usage, c.result);
      match c.result.end
      case Success(answer) =>
        if Buildable(answer) then
          Some(ApplyOutcome(s, s.plan.value.steps[s.currentStep].stepId, answer, usage).(pending := false,
              finalStatus := None))
        else None
      case OverBudget => Some(Stop(s, usage, Failed))
      case Raised => Some(Stop(s, usage, Failed))
      case _ => None
  }

  // ---------------------------------------------------------------------------
  // evaluate and finalize
  // ---------------------------------------------------------------------------

  predicate LastReused(s: State) {
    s.toolCalls != [] && s.toolCalls[|s.toolCalls| - 1].reused
  }

  predicate CanRetry(s: State, status: EvidenceStatus) {
    && status in {PartialEvidence, NoEvidence} && s.usage.retrievalRounds < s.limits.maxRetrievalRounds
    && !LastReused(s)
  }

  function StatusFor(status: EvidenceStatus): RunStatus {
    match status
    case Sufficient => Completed
    case PartialEvidence => PartiallyAnswered
    case NoEvidence => Unanswered
    case ConflictingEvidence => Contradicted
  }

  ghost function AfterEvaluate(policy: Policy, s: State): State
    requires s.plan.Some?
  {
    var status := StatusOf(policy, s.tenantId, s.plan.value, s.evidence);
    if CanRetry(s, status) then s.(finalStatus := None, currentStep := 0)
    else s.(finalStatus := Some(StatusFor(status)), currentStep := |s.plan.value.steps|)
  }

  function CitationsOf(items: seq<Item>): seq<string> {
    if items == [] then []
    else (if items[0].citationId.Some? then [items[0].citationId.value] else []) + CitationsOf(items[1..])
  }

  function AfterFinalize(s: State): State {
    s.(citations := CitationsOf(s.evidence))
  }

  // ---------------------------------------------------------------------------
  // The edges
  // ---------------------------------------------------------------------------

  function EdgeAfterRoute(s: State): Node {
    if s.finalStatus.Some? then Finalize else if s.direct then DirectRag else ExecuteStep
  }

  function EdgeAfterExecute(s: State): Node {
    if s.finalStatus == Some(ApprovalRequired) then AwaitApproval
    else if s.finalStatus in {Some(Failed), Some(BudgetExhausted)} then Finalize
    else if s.plan.Some? && s.currentStep < |s.plan.value.steps| then ExecuteStep
    else Evaluate
  }

  function EdgeAfterApproval(s: State): Node {
    if s.finalStatus.Some? then Finalize else ExecuteStep
  }

  function EdgeAfterEvaluate(s: State): Node {
    if s.finalStatus.None? then ExecuteStep else Finalize
  }

  predicate CanStep(r: Run) {
    match r.node
    case End => false
    case Aborted => false
    case _ => true
  }

  /** The choices that belong to a node; a plan always validates, and the tool service keeps to its contract. */
  predicate Fits(r: Run, c: Choice) {
    match r.node
    case Route => c.Planned? && (c.plan.Some? ==> c.plan.value.Valid())
    case DirectRag => c.Direct?
    case ExecuteStep =>
      && c.Tool? && r.state.plan.Some?
      && (r.state.currentStep < |r.state.plan.value.steps| ==>
            Plausible(r.state.limits, StepCharge(r.state).usage, c.result))
    case AwaitApproval => c.Approval? && Plausible(r.state.limits, r.state.usage, c.result)
    case _ => c.Silent?
  }

  function StartedBy(r: Run, c: Choice): nat {
    if r.node == ExecuteStep && c.Tool? && r.state.plan.Some? && r.state.currentStep < |r.state.plan.value.steps|
       && StepCharge(r.state).signal == Fine then c.result.started
    else if r.node == AwaitApproval && c.Approval? && c.view in {Waiting, Granted} then c.result.started
    else 0
  }

  function Moved(r: Run, started: nat, s: Option<State>, edge: State -> Node): Run {
    if s.Some? then Run(edge(s.value), s.value, r.started + started) else Run(Aborted, r.state, r.started + started)
  }

  /** One node. `AwaitApproval` and `ExecuteStep` without a plan, and `Finalize` without a status, raise. */
  ghost function Perform(policy: Policy, r: Run, c: Choice): Run
    requires CanStep(r) && Fits(r, c)
  {
    match r.node
    case Route => var s := AfterRoute(r.state, c); Run(EdgeAfterRoute(s), s, r.started)
    case DirectRag => Run(End, AfterDirect(r.state, c), r.started)
    case ExecuteStep => Moved(r, StartedBy(r, c), AfterExecute(policy, r.state, c), EdgeAfterExecute)
    case AwaitApproval =>
      if !r.state.pending || r.state.approvalId.None? || r.state.plan.None?
         || r.state.currentStep >= |r.state.plan.value.steps| then Run(Aborted, r.state, r.started)
      else Moved(r, StartedBy(r, c), AfterAwait(r.state, c), EdgeAfterApproval)
    case Evaluate =>
      if r.state.plan.None? then Run(Aborted, r.state, r.started)
      else var s := AfterEvaluate(policy, r.state); Run(EdgeAfterEvaluate(s), s, r.started)
    case _ =>
      if r.state.finalStatus.None? then Run(Aborted, r.state, r.started)
      else Run(End, AfterFinalize(r.state), r.started)
  }

  /** A run: each state follows from the one before by some move of the outside. */
  ghost predicate Next(policy: Policy, r: Run, r': Run) {
    CanStep(r) && exists c :: Fits(r, c) && r' == Perform(policy, r, c)
  }

  ghost predicate Path(policy: Policy, runs: seq<Run>) {
    runs != [] && forall i {:trigger Linked(policy, runs, i)} :: 0 < i < |runs| ==> Linked(policy, runs, i)
  }

  ghost predicate Linked(policy: Policy, runs: seq<Run>, i: nat)
    requires 0 < i < |runs|
  {
    Next(policy, runs[i - 1], runs[i])
  }

  ghost predicate Starts(runs: seq<Run>) {
    runs != [] && runs[0].state.limits.Valid() && runs[0] == Begin(runs[0].state.tenantId, runs[0].state.limits)
  }
}

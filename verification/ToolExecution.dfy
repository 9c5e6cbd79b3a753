/** The tool execution service: policy first, then its two result caches, then a bounded attempt loop. */
module ToolExecution {
  import opened Prelude
  import opened Budgets

  datatype Effect = ReadOnly | SideEffecting

  datatype RiskLevel = Low | Medium | High | Critical

  datatype Registration = Registration(
    toolName: string,
    version: string,
    effect: Effect,
    riskLevel: RiskLevel,
    allowedTenants: set<string>,
    allowedRoles: set<string>,
    approvalRoles: set<string>,
    allowedScopes: set<string>,
    maxRetries: nat,
    requiresHitl: bool)

  /** `argumentDigest` stands for the arguments. */
  datatype Invocation = Invocation(
    toolCallId: string, toolName: string, toolVersion: string, argumentDigest: string, businessScope: Option<string>)

  datatype Context = Context(tenantId: string, actorId: string, roles: set<string>)

  datatype Action = Allow | RequireApproval | Deny

  datatype SummaryStatus = ApprovalRequired | Success | Failed | Reused

  datatype Summary = Summary(
    toolCallId: string, toolName: string, toolVersion: string, argumentDigest: string, status: SummaryStatus,
    outputDigest: Option<string>)

  datatype OutcomeStatus = Succeeded | NeedsApproval | Broken

  datatype Outcome = Outcome(status: OutcomeStatus, summary: Summary, output: Option<string>, injection: bool)

  // ---------------------------------------------------------------------------
  // Policy
  // ---------------------------------------------------------------------------

  predicate Denied(registration: Registration, context: Context, scope: Option<string>) {
    || (registration.allowedTenants != {} && context.tenantId !in registration.allowedTenants)
    || (registration.allowedRoles != {} && context.roles * registration.allowedRoles == {})
    || (registration.allowedScopes != {} && (scope.None? || scope.value !in registration.allowedScopes))
  }

  predicate Dangerous(registration: Registration) {
    registration.requiresHitl || registration.effect == SideEffecting || registration.riskLevel in {High, Critical}
  }

  /** `ToolPolicyEngine.evaluate`, rule by rule. */
  function EvaluatePolicy(registration: Registration, context: Context, scope: Option<string>): (action: Action)
    ensures action == Deny <==> Denied(registration, context, scope)
    ensures action == RequireApproval <==> !Denied(registration, context, scope) && Dangerous(registration)
  {
    if registration.allowedTenants != {} && context.tenantId !in registration.allowedTenants then Deny
    else if registration.allowedRoles != {} && context.roles * registration.allowedRoles == {} then Deny
    else if registration.allowedScopes != {} && (scope.None? || scope.value !in registration.allowedScopes) then Deny
    else if registration.requiresHitl || registration.effect == SideEffecting
        || registration.riskLevel in {High, Critical}
    then RequireApproval
    else Allow
  }

  // ---------------------------------------------------------------------------
  // The attempt loop
  // ---------------------------------------------------------------------------

  /** What the handler does with one attempt; a `Returned` output is redacted and, if invalid or too big, refused. */
  datatype Reply = Returned(output: string, acceptable: bool) | TimedOut | Crashed | Refused

  /** How the loop ends: within budget or not, with the last reply it saw. */
  datatype Ending = OverBudget | RaisedByTool | GotOutput(output: string, acceptable: bool) | GaveUp

  datatype Attempts = Attempts(usage: Usage, started: nat, ending: Ending)

  /** `replies[i]` is what the handler would do with attempt `i`; the budget is charged before each attempt starts. */
  function RunAttempts(limits: Limits, usage: Usage, replies: seq<Reply>): Attempts
    requires |replies| >= 1
    decreases |replies|
  {
    var charge := Attempt(limits, usage);
    if charge.signal == Exceeded then Attempts(usage, 0, OverBudget)
    else
      match replies[0]
      case Refused => Attempts(charge.usage, 1, RaisedByTool)
      case Returned(output, acceptable) => Attempts(charge.usage, 1, GotOutput(output, acceptable))
      case _ =>
        if |replies| == 1 then Attempts(charge.usage, 1, GaveUp)
        else
          var rest := RunAttempts(limits, charge.usage, replies[1..]);
          rest.(started := rest.started + 1)
  }

  /** Every started attempt is charged, nothing else is, and the cap stops the loop rather than being passed. */
  lemma {:induction false} AttemptsAreCharged(limits: Limits, usage: Usage, replies: seq<Reply>)
    requires |replies| >= 1
    ensures var run := RunAttempts(limits, usage, replies);
            && run.usage == usage.(toolAttempts := usage.toolAttempts + run.started)
            && run.started <= |replies|
            && (usage.toolAttempts <= limits.maxToolAttempts ==> run.usage.toolAttempts <= limits.maxToolAttempts)
            && (run.ending == OverBudget ==> run.usage.toolAttempts >= limits.maxToolAttempts)
            && (run.ending == OverBudget ==> run.started < |replies|)
            && (run.ending == GaveUp ==> run.started == |replies|)
            && (forall i :: 0 <= i < run.started - 1 ==> replies[i] in {TimedOut, Crashed})
            && (run.ending.GotOutput? ==>
                  run.started >= 1 && replies[run.started - 1] == Returned(run.ending.output, run.ending.acceptable))
    decreases |replies|
  {
    if Attempt(limits, usage).signal != Exceeded && replies[0] in {TimedOut, Crashed} && |replies| > 1 {
      AttemptsAreCharged(limits, Attempt(limits, usage).usage, replies[1..]);
      var run := RunAttempts(limits, usage, replies);
      forall i | 0 <= i < run.started - 1 ensures replies[i] in {TimedOut, Crashed} {
        if i > 0 { assert replies[i] == replies[1..][i - 1]; }
      }
    }
  }

  // ---------------------------------------------------------------------------
  // The service
  // ---------------------------------------------------------------------------

  datatype CompletedKey = CompletedKey(tenantId: string, actorId: string, toolCallId: string)

  datatype Signature = Signature(
    tenantId: string, actorId: string, toolName: string, toolVersion: string, argumentDigest: string)

  function KeyOf(context: Context, invocation: Invocation): CompletedKey {
    CompletedKey(context.tenantId, context.actorId, invocation.toolCallId)
  }

  function SignatureOf(context: Context, invocation: Invocation): Signature {
    Signature(context.tenantId, context.actorId, invocation.toolName, invocation.toolVersion, invocation.argumentDigest)
  }

  function SummaryOf(invocation: Invocation, status: SummaryStatus, digest: Option<string>): Summary {
    Summary(invocation.toolCallId, invocation.toolName, invocation.toolVersion, invocation.argumentDigest, status,
            digest)
  }

  /** How a call ends: an outcome, the budget error, or any other error. */
  datatype CallEnd = Answered(outcome: Outcome) | BudgetError | ToolError

  /** What an answer has to do with the call it answers. */
  predicate Answers(outcome: Outcome, invocation: Invocation) {
    && outcome.summary.toolCallId == invocation.toolCallId
    && outcome.summary.argumentDigest == invocation.argumentDigest
  }

  class SecureToolExecutionService {
    var completed: map<CompletedKey, Outcome>
    var successful: map<Signature, Outcome>
    /** Handler invocations started so far, over all calls. */
    ghost var started: nat

    ghost predicate Valid()
      reads this
    {
      && (forall k :: k in completed ==>
          completed[k].summary.toolCallId == k.toolCallId && completed[k].status != NeedsApproval)
      && (forall s :: s in successful ==>
            && successful[s].status == Succeeded && successful[s].summary.status == Success
            && successful[s].summary.toolName == s.toolName && successful[s].summary.toolVersion == s.toolVersion
            && successful[s].summary.argumentDigest == s.argumentDigest && successful[s].summary.outputDigest.Some?)
    }

    constructor ()
      ensures Valid() && completed == map[] && successful == map[] && started == 0
    {
      completed, successful, started := map[], map[], 0;
    }

    /** The attempt loop of `execute`. */
    method Attempt(ledger: BudgetLedger, maxRetries: nat, replies: seq<Reply>) returns (ending: Ending)
      requires |replies| == maxRetries + 1
      modifies this`started, ledger
      ensures var run := RunAttempts(ledger.limits, old(ledger.usage), replies);
              ending == run.ending && ledger.usage == run.usage && started == old(started) + run.started
    {
      ending := GaveUp;
      var attempt := 0;
      ghost var total := RunAttempts(ledger.limits, ledger.usage, replies);
      while attempt <= maxRetries
        invariant 0 <= attempt <= maxRetries + 1
        invariant attempt <= maxRetries ==>
                    var rest := RunAttempts(ledger.limits, ledger.usage, replies[attempt..]);
                    rest.ending == total.ending && rest.usage == total.usage
                    && started + rest.started == old(started) + total.started
        invariant attempt == maxRetries + 1 ==>
                    ending == total.ending && ledger.usage == total.usage && started == old(started) + total.started
      {
        assert replies[attempt..][1..] == replies[attempt + 1..];
        var signal := ledger.ConsumeTool();
        if signal == Exceeded { return OverBudget; }
        started := started + 1;
        match replies[attempt] {
          case Refused => return RaisedByTool;
          case Returned(output, acceptable) => return GotOutput(output, acceptable);
          case _ =>
        }
        attempt := attempt + 1;
      }
    }

    /**
     * `execute`. `registration` is what the registry resolves, `wellFormed` whether the arguments pass the schema
     * and secret checks, `replies` what the handler does with each attempt, `digest` and `injects` what hashing
     * and scanning an output give.
     */
    method Execute(invocation: Invocation, context: Context, ledger: BudgetLedger, approved: bool,
                   registration: Option<Registration>, wellFormed: bool, replies: seq<Reply>,
                   digest: string -> string, injects: string -> bool) returns (end: CallEnd)
      requires Valid()
      requires registration.Some? ==> |replies| == registration.value.maxRetries + 1
      modifies this, ledger
      ensures Valid()
      // every handler invocation is charged to this run, and nothing else is
      ensures started >= old(started)
      ensures ledger.usage
              == old(ledger.usage).(toolAttempts := old(ledger.usage).toolAttempts + (started - old(started)))
      ensures old(ledger.usage).toolAttempts <= ledger.limits.maxToolAttempts ==>
                ledger.usage.toolAttempts <= ledger.limits.maxToolAttempts
      // nothing runs that the policy denies, or that needs an approval it does not have
      ensures started > old(started) ==>
                && registration.Some? && wellFormed && KeyOf(context, invocation) !in old(completed)
                && EvaluatePolicy(registration.value, context, invocation.businessScope) != Deny
                && (EvaluatePolicy(registration.value, context, invocation.businessScope) == RequireApproval ==>
                    approved)
      // an identifier answered once is answered the same way, and never runs again
      ensures KeyOf(context, invocation) in old(completed) && end.Answered? ==>
                end.outcome == old(completed)[KeyOf(context, invocation)]
      ensures forall k :: k in old(completed) ==> k in completed && completed[k] == old(completed)[k]
      ensures end.Answered? ==> Answers(end.outcome, invocation)
      ensures end.Answered? && end.outcome.status != NeedsApproval ==>
                KeyOf(context, invocation) in completed && completed[KeyOf(context, invocation)] == end.outcome
      ensures end.Answered? && end.outcome.status == NeedsApproval ==>
                !approved && started == old(started) && completed == old(completed)
      // an equal call that succeeded before is reused instead of repeated
      ensures SignatureOf(context, invocation) in old(successful) ==>
                started == old(started)
                && (end.Answered? && KeyOf(context, invocation) !in old(completed) ==>
                      end.outcome.output == old(successful)[SignatureOf(context, invocation)].output
                      && end.outcome.summary.status == Reused)
      ensures end.BudgetError? ==> ledger.usage.toolAttempts >= ledger.limits.maxToolAttempts
      ensures end.Answered? && end.outcome.status == Succeeded && started > old(started) ==>
                SignatureOf(context, invocation) in successful
                && successful[SignatureOf(context, invocation)] == end.outcome && end.outcome.summary.status == Success
    {
      if registration.None? || !wellFormed { return ToolError; }
      var action := EvaluatePolicy(registration.value, context, invocation.businessScope);
      if action == Deny { return ToolError; }
      var key, signature := KeyOf(context, invocation), SignatureOf(context, invocation);
      if key in completed {
        if completed[key].summary.argumentDigest != invocation.argumentDigest { return ToolError; }
        return Answered(completed[key]);
      }
      if signature in successful {
        var found := successful[signature];
        var reused := found.(summary := found.summary.(toolCallId := invocation.toolCallId, status := Reused));
        completed := completed[key := reused];
        return Answered(reused);
      }
      if action == RequireApproval && !approved {
        return Answered(Outcome(NeedsApproval, SummaryOf(invocation, ApprovalRequired, None), None, false));
      }
      AttemptsAreCharged(ledger.limits, ledger.usage, replies);
      var ending := Attempt(ledger, registration.value.maxRetries, replies);
      match ending {
        case OverBudget => return BudgetError;
        case RaisedByTool => return ToolError;
        case GaveUp =>
          var failed := Outcome(Broken, SummaryOf(invocation, Failed, None), None, false);
          completed := completed[key := failed];
          return Answered(failed);
        case GotOutput(output, acceptable) =>
          if !acceptable { return ToolError; }
          var outcome := Outcome(Succeeded, SummaryOf(invocation, Success, Some(digest(output))), Some(output),
                                 injects(output));
          completed := completed[key := outcome];
          successful := successful[signature := outcome];
          return Answered(outcome);
      }
    }
  }
}

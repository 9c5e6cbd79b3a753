/** The budget ledger of one agent run. Money and time are reals. */
module Budgets {
  import opened Prelude

  datatype CostStatus = Known | Unknown | Local

  datatype Limits = Limits(
    maxIterations: nat,
    maxModelCalls: nat,
    maxRetrievalRounds: nat,
    maxToolAttempts: nat,
    maxTotalTokens: nat,
    maxGeneratedTokens: nat,
    finalizationReserve: nat,
    maxRuntime: real,
    maxCost: real,
    rates: Option<(real, real)>)
  {
    predicate Valid() {
      && maxIterations >= 1 && maxModelCalls >= 1 && maxRetrievalRounds >= 1 && maxToolAttempts >= 1
      && maxTotalTokens >= 1 && maxGeneratedTokens >= 1 && finalizationReserve <= maxTotalTokens
      && maxRuntime > 0.0 && maxCost >= 0.0
      && (rates.Some? ==> rates.value.0 >= 0.0 && rates.value.1 >= 0.0)
    }
  }

  datatype Usage = Usage(
    iterations: nat,
    modelCalls: nat,
    retrievalRounds: nat,
    toolAttempts: nat,
    totalTokens: nat,
    generatedTokens: nat,
    runtime: real,
    knownCost: real,
    costStatus: CostStatus)

  const FRESH: Usage := Usage(0, 0, 0, 0, 0, 0, 0.0, 0.0, Unknown)

  /** What a ledger method does besides updating the usage. */
  datatype Signal = Fine | Exceeded | Invalid

  datatype Charge = Charge(usage: Usage, signal: Signal)

  // ---------------------------------------------------------------------------
  // The charges
  // ---------------------------------------------------------------------------

  function Iterate(limits: Limits, usage: Usage, count: int): Charge {
    if count < 1 then Charge(usage, Invalid)
    else if usage.iterations + count > limits.maxIterations then Charge(usage, Exceeded)
    else Charge(usage.(iterations := usage.iterations + count), Fine)
  }

  function BeginModelCall(limits: Limits, usage: Usage): Charge {
    if usage.modelCalls + 1 > limits.maxModelCalls then Charge(usage, Exceeded)
    else Charge(usage.(modelCalls := usage.modelCalls + 1), Fine)
  }

  function Retrieve(limits: Limits, usage: Usage): Charge {
    if usage.retrievalRounds + 1 > limits.maxRetrievalRounds then Charge(usage, Exceeded)
    else Charge(usage.(retrievalRounds := usage.retrievalRounds + 1), Fine)
  }

  function Attempt(limits: Limits, usage: Usage): Charge {
    if usage.toolAttempts + 1 > limits.maxToolAttempts then Charge(usage, Exceeded)
    else Charge(usage.(toolAttempts := usage.toolAttempts + 1), Fine)
  }

  function MergeCostStatus(current: CostStatus, incoming: CostStatus, previousCalls: int): CostStatus {
    if previousCalls == 0 then incoming
    else if Unknown in {current, incoming} then Unknown
    else if Known in {current, incoming} then Known
    else Local
  }

  predicate OverTokens(limits: Limits, usage: Usage) {
    usage.totalTokens > limits.maxTotalTokens || usage.generatedTokens > limits.maxGeneratedTokens
  }

  /** Recording adds first and checks afterwards; `cost` is what the caller knows about the price. */
  function RecordModelUsage(limits: Limits, usage: Usage, inputTokens: int, generatedTokens: int, cost: Option<real>,
                            costStatus: Option<CostStatus>): Charge
  {
    if inputTokens < 0 || generatedTokens < 0 || (cost.Some? && cost.value < 0.0) || usage.modelCalls < 1 then
      Charge(usage, Invalid)
    else
      var (resolved, status) :=
        if costStatus.Some? then (cost.GetOr(0.0), costStatus.value)
        else if limits.rates.Some? then
          ((inputTokens as real * limits.rates.value.0 + generatedTokens as real * limits.rates.value.1) / 1000000.0,
           Known)
        else (cost.GetOr(0.0), Unknown);
      var recorded := usage.(
        totalTokens := usage.totalTokens + inputTokens + generatedTokens,
        generatedTokens := usage.generatedTokens + generatedTokens,
        knownCost := if status == Known then usage.knownCost + resolved else usage.knownCost,
        costStatus := MergeCostStatus(usage.costStatus, status, usage.modelCalls - 1));
      Charge(recorded, if OverTokens(limits, recorded) || recorded.knownCost > limits.maxCost then Exceeded else Fine)
  }

  predicate CanFinalize(limits: Limits, usage: Usage) {
    && usage.totalTokens + limits.finalizationReserve <= limits.maxTotalTokens
    && usage.generatedTokens + limits.finalizationReserve <= limits.maxGeneratedTokens
  }

  // ---------------------------------------------------------------------------
  // What every charge keeps
  // ---------------------------------------------------------------------------

  predicate AtMost(a: Usage, b: Usage) {
    && a.iterations <= b.iterations && a.modelCalls <= b.modelCalls && a.retrievalRounds <= b.retrievalRounds
    && a.toolAttempts <= b.toolAttempts && a.totalTokens <= b.totalTokens && a.generatedTokens <= b.generatedTokens
    && a.runtime <= b.runtime && a.knownCost <= b.knownCost
  }

  /** The four counters that are checked before they grow. */
  predicate WithinCaps(limits: Limits, usage: Usage) {
    && usage.iterations <= limits.maxIterations && usage.modelCalls <= limits.maxModelCalls
    && usage.retrievalRounds <= limits.maxRetrievalRounds && usage.toolAttempts <= limits.maxToolAttempts
  }

  predicate Sound(limits: Limits, before: Usage, charge: Charge) {
    && AtMost(before, charge.usage)
    && (WithinCaps(limits, before) ==> WithinCaps(limits, charge.usage))
    && (charge.signal == Invalid ==> charge.usage == before)
  }

  lemma ChargesAreSound(limits: Limits, usage: Usage, count: int)
    ensures Sound(limits, usage, Iterate(limits, usage, count)) && Sound(limits, usage, BeginModelCall(limits, usage))
    ensures Sound(limits, usage, Retrieve(limits, usage)) && Sound(limits, usage, Attempt(limits, usage))
  {
  }

  lemma RecordingIsSound(limits: Limits, usage: Usage, input: int, generated: int, cost: Option<real>,
                         status: Option<CostStatus>)
    requires limits.Valid()
    ensures Sound(limits, usage, RecordModelUsage(limits, usage, input, generated, cost, status))
    ensures var charge := RecordModelUsage(limits, usage, input, generated, cost, status);
            charge.signal == Fine ==> !OverTokens(limits, charge.usage) && charge.usage.knownCost <= limits.maxCost
  {
    if input >= 0 && generated >= 0 && limits.rates.Some? {
      var (a, b) := limits.rates.value;
      ProductNonNegative(input as real, a);
      ProductNonNegative(generated as real, b);
    }
  }

  // ---------------------------------------------------------------------------
  // The ledger
  // ---------------------------------------------------------------------------

  /** The mutable helper around an immutable usage. */
  class BudgetLedger {
    const limits: Limits
    var usage: Usage

    constructor (limits: Limits, usage: Usage)
      ensures this.limits == limits && this.usage == usage
    {
      this.limits, this.usage := limits, usage;
    }

    method ConsumeIteration(count: int) returns (signal: Signal)
      modifies this
      ensures Charge(usage, signal) == Iterate(limits, old(usage), count)
    {
      if count < 1 { return Invalid; }
      var updated := usage.iterations + count;
      if updated > limits.maxIterations { return Exceeded; }
      usage := usage.(iterations := updated);
      signal := Fine;
    }

    method BeginModel() returns (signal: Signal)
      modifies this
      ensures Charge(usage, signal) == BeginModelCall(limits, old(usage))
    {
      var updated := usage.modelCalls + 1;
      if updated > limits.maxModelCalls { return Exceeded; }
      usage := usage.(modelCalls := updated);
      signal := Fine;
    }

    method RecordModel(inputTokens: int, generatedTokens: int, cost: Option<real>, costStatus: Option<CostStatus>)
      returns (signal: Signal)
      modifies this
      ensures Charge(usage, signal)
              == RecordModelUsage(limits, old(usage), inputTokens, generatedTokens, cost, costStatus)
    {
      if inputTokens < 0 || generatedTokens < 0 { return Invalid; }
      if cost.Some? && cost.value < 0.0 { return Invalid; }
      if usage.modelCalls < 1 { return Invalid; }
      var resolvedStatus, resolvedCost := Unknown, cost;
      if costStatus.Some? {
        resolvedStatus := costStatus.value;
      } else if limits.rates.Some? {
        resolvedCost := Some((inputTokens as real * limits.rates.value.0
                              + generatedTokens as real * limits.rates.value.1)
                             / 1000000.0);
        resolvedStatus := Known;
      }
      var aggregate := MergeCostStatus(usage.costStatus, resolvedStatus, usage.modelCalls - 1);
      usage := usage.(
        totalTokens := usage.totalTokens + inputTokens + generatedTokens,
        generatedTokens := usage.generatedTokens + generatedTokens,
        knownCost := if resolvedStatus == Known then usage.knownCost + resolvedCost.GetOr(0.0) else usage.knownCost,
        costStatus := aggregate);
      if usage.totalTokens > limits.maxTotalTokens { return Exceeded; }
      if usage.generatedTokens > limits.maxGeneratedTokens { return Exceeded; }
      if usage.knownCost > limits.maxCost { return Exceeded; }
      signal := Fine;
    }

    method ConsumeRetrieval() returns (signal: Signal)
      modifies this
      ensures Charge(usage, signal) == Retrieve(limits, old(usage))
    {
      var updated := usage.retrievalRounds + 1;
      if updated > limits.maxRetrievalRounds { return Exceeded; }
      usage := usage.(retrievalRounds := updated);
      signal := Fine;
    }

    method ConsumeTool() returns (signal: Signal)
      modifies this
      ensures Charge(usage, signal) == Attempt(limits, old(usage))
    {
      var updated := usage.toolAttempts + 1;
      if updated > limits.maxToolAttempts { return Exceeded; }
      usage := usage.(toolAttempts := updated);
      signal := Fine;
    }
  }
}

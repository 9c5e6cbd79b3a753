/** Plans, evidence and the server-side decision whether the evidence suffices. */
module Evidence {
  import opened Prelude
  import opened StringOrder

  datatype PlanStep = PlanStep(stepId: string, critical: bool, dependsOn: seq<string>, preferredTool: string,
                               toolVersion: string)

  datatype Plan = Plan(isSimple: bool, steps: seq<PlanStep>) {
    /** What constructing a plan validates. */
    predicate Valid() {
      && 1 <= |steps| <= 8 && (isSimple ==> |steps| == 1)
      && (forall i, j :: 0 <= i < j < |steps| ==> steps[i].stepId != steps[j].stepId)
      && (forall i, p :: 0 <= i < |steps| && p in steps[i].dependsOn ==> exists j :: 0 <= j < i && steps[j].stepId == p)
    }
  }

  datatype SourceKind = Knowledge | Sql | Api

  datatype Item = Item(
    evidenceId: string,
    stepId: string,
    sourceKind: SourceKind,
    tenantId: string,
    excerpt: string,
    score: real,
    citationId: Option<string>,
    authorized: bool,
    activeVersion: bool,
    injectionDetected: bool,
    factKey: Option<string>,
    stance: Option<string>)

  datatype EvidenceStatus = Sufficient | PartialEvidence | NoEvidence | ConflictingEvidence

  datatype EvidenceDecision = EvidenceDecision(
    status: EvidenceStatus,
    covered: seq<string>,
    missing: seq<string>,
    conflicts: seq<string>,
    eligibleIds: seq<string>)

  /** `injects` stands for the prompt-injection patterns, `normalize` for stripping and lower-casing a stance. */
  datatype Policy = Policy(minimumScore: real, injects: string -> bool, normalize: string -> string)

  // ---------------------------------------------------------------------------
  // What makes evidence count
  // ---------------------------------------------------------------------------

  predicate Eligible(policy: Policy, tenantId: string, item: Item) {
    && item.tenantId == tenantId && item.authorized && item.activeVersion
    && item.score >= policy.minimumScore
    && !item.injectionDetected && !policy.injects(item.excerpt)
    && (item.sourceKind == Knowledge ==> item.citationId.Some?)
  }

  /** An item takes a stance on a fact when both texts are present and non-empty. */
  predicate Takes(policy: Policy, item: Item, factKey: string, stance: string) {
    && item.factKey == Some(factKey) && factKey != ""
    && item.stance.Some? && item.stance.value != "" && policy.normalize(item.stance.value) == stance
  }

  predicate Covers(policy: Policy, tenantId: string, evidence: seq<Item>, stepId: string) {
    exists i :: 0 <= i < |evidence| && Eligible(policy, tenantId, evidence[i]) && evidence[i].stepId == stepId
  }

  /** Two eligible items disagree about the fact. */
  predicate Disputed(policy: Policy, tenantId: string, evidence: seq<Item>, factKey: string) {
    exists i, j :: 0 <= i < |evidence| && 0 <= j < |evidence|
        && Disagree(policy, tenantId, evidence[i], evidence[j], factKey)
  }

  predicate Disagree(policy: Policy, tenantId: string, a: Item, b: Item, factKey: string) {
    && Eligible(policy, tenantId, a) && Eligible(policy, tenantId, b)
    && a.factKey == b.factKey == Some(factKey) && factKey != ""
    && a.stance.Some? && b.stance.Some? && a.stance.value != "" && b.stance.value != ""
    && policy.normalize(a.stance.value) != policy.normalize(b.stance.value)
  }

  /** Enough, said without the policy's bookkeeping. */
  ghost predicate Suffices(policy: Policy, tenantId: string, plan: Plan, evidence: seq<Item>) {
    && (exists i :: 0 <= i < |evidence| && Eligible(policy, tenantId, evidence[i]))
    && (forall k :: 0 <= k < |plan.steps| && plan.steps[k].critical ==>
        Covers(policy, tenantId, evidence, plan.steps[k].stepId))
    && (forall key :: !Disputed(policy, tenantId, evidence, key))
  }

  ghost predicate HasDispute(policy: Policy, tenantId: string, evidence: seq<Item>) {
    exists key :: Disputed(policy, tenantId, evidence, key)
  }

  ghost predicate AnyEligible(policy: Policy, tenantId: string, evidence: seq<Item>) {
    exists i :: 0 <= i < |evidence| && Eligible(policy, tenantId, evidence[i])
  }

  /** The decision's status, by the order in which the source returns. */
  ghost function StatusOf(policy: Policy, tenantId: string, plan: Plan, evidence: seq<Item>): EvidenceStatus {
    if HasDispute(policy, tenantId, evidence) then ConflictingEvidence
    else if !AnyEligible(policy, tenantId, evidence) then NoEvidence
    else if forall k :: 0 <= k < |plan.steps| && plan.steps[k].critical ==>
        Covers(policy, tenantId, evidence, plan.steps[k].stepId)
    then Sufficient
    else PartialEvidence
  }

  lemma SufficientExactly(policy: Policy, tenantId: string, plan: Plan, evidence: seq<Item>)
    ensures StatusOf(policy, tenantId, plan, evidence) == Sufficient <==> Suffices(policy, tenantId, plan, evidence)
  {
    assert HasDispute(policy, tenantId, evidence) <==> !(forall key :: !Disputed(policy, tenantId, evidence, key));
  }

  /** Evidence for a critical step stays evidence when more is gathered; agreement need not survive. */
  lemma CoverageOnlyGrows(policy: Policy, tenantId: string, evidence: seq<Item>, more: seq<Item>, stepId: string)
    requires Covers(policy, tenantId, evidence, stepId)
    ensures Covers(policy, tenantId, evidence + more, stepId)
  {
    var i :| 0 <= i < |evidence| && Eligible(policy, tenantId, evidence[i]) && evidence[i].stepId == stepId;
    assert (evidence + more)[i] == evidence[i];
  }

  // ---------------------------------------------------------------------------
  // The evaluation
  // ---------------------------------------------------------------------------

  function EligibleItems(policy: Policy, tenantId: string, evidence: seq<Item>): (r: seq<Item>)
    ensures forall item :: item in r <==> item in evidence && Eligible(policy, tenantId, item)
  {
    if evidence == [] then []
    else
      var n := |evidence| - 1;
      assert evidence == evidence[..n] + [evidence[n]];
      EligibleItems(policy, tenantId, evidence[..n])
      + (if Eligible(policy, tenantId, evidence[n]) then [evidence[n]] else [])
  }

  method SelectEligible(policy: Policy, tenantId: string, evidence: seq<Item>) returns (r: seq<Item>)
    ensures r == EligibleItems(policy, tenantId, evidence)
  {
    r := [];
    for i := 0 to |evidence|
      invariant r == EligibleItems(policy, tenantId, evidence[..i])
    {
      assert evidence[..i + 1][..i] == evidence[..i];
      if Eligible(policy, tenantId, evidence[i]) { r := r + [evidence[i]]; }
    }
    assert evidence[..|evidence|] == evidence;
  }

  /** The steps that have an eligible item: the keys of `by_step`. */
  method StepsCovered(eligible: seq<Item>) returns (steps: set<string>)
    ensures forall s :: s in steps <==> exists i :: 0 <= i < |eligible| && eligible[i].stepId == s
  {
    steps := {};
    for i := 0 to |eligible|
      invariant forall s :: s in steps <==> exists j :: 0 <= j < i && eligible[j].stepId == s
    {
      steps := steps + {eligible[i].stepId};
    }
  }

  ghost predicate TakenBy(policy: Policy, eligible: seq<Item>, n: nat, key: string, stance: string)
    requires n <= |eligible|
  {
    exists i :: 0 <= i < n && Takes(policy, eligible[i], key, stance)
  }

  predicate Holds(stances: map<string, set<string>>, key: string, stance: string) {
    key in stances && stance in stances[key]
  }

  /** The stances taken on each fact. */
  method GatherStances(policy: Policy, eligible: seq<Item>) returns (stances: map<string, set<string>>)
    ensures forall key, stance :: Holds(stances, key, stance) <==> TakenBy(policy, eligible, |eligible|, key, stance)
  {
    stances := map[];
    for i := 0 to |eligible|
      invariant forall key, stance :: Holds(stances, key, stance) <==> TakenBy(policy, eligible, i, key, stance)
    {
      var item := eligible[i];
      ghost var before := stances;
      if item.factKey.Some? && item.factKey.value != "" && item.stance.Some? && item.stance.value != "" {
        var key, stance := item.factKey.value, policy.normalize(item.stance.value);
        stances := stances[key := (if key in stances then stances[key] else {}) + {stance}];
      }
      forall key, stance ensures Holds(stances, key, stance) <==> TakenBy(policy, eligible, i + 1, key, stance) {
        assert Holds(stances, key, stance) <==> Holds(before, key, stance) || Takes(policy, item, key, stance);
        TakenByNext(policy, eligible, i, key, stance);
      }
    }
  }

  lemma TakenByNext(policy: Policy, eligible: seq<Item>, n: nat, key: string, stance: string)
    requires n < |eligible|
    ensures TakenBy(policy, eligible, n + 1, key, stance) <==>
            TakenBy(policy, eligible, n, key, stance) || Takes(policy, eligible[n], key, stance)
  {
  }

  /** Two stances on one fact were taken by two eligible items that disagree. */
  lemma StancesDisagree(policy: Policy, tenantId: string, evidence: seq<Item>, key: string, a: string, b: string)
    requires var eligible := EligibleItems(policy, tenantId, evidence);
             TakenBy(policy, eligible, |eligible|, key, a) && TakenBy(policy, eligible, |eligible|, key, b) && a != b
    ensures Disputed(policy, tenantId, evidence, key)
  {
    var eligible := EligibleItems(policy, tenantId, evidence);
    var i :| 0 <= i < |eligible| && Takes(policy, eligible[i], key, a);
    var j :| 0 <= j < |eligible| && Takes(policy, eligible[j], key, b);
    var x, y := eligible[i], eligible[j];
    assert x in eligible && y in eligible;
    var k :| 0 <= k < |evidence| && evidence[k] == x;
    var l :| 0 <= l < |evidence| && evidence[l] == y;
    assert Disagree(policy, tenantId, evidence[k], evidence[l], key);
  }

  lemma DisputeShowsStances(policy: Policy, tenantId: string, evidence: seq<Item>, key: string)
    returns (a: string, b: string)
    requires Disputed(policy, tenantId, evidence, key)
    ensures a != b
    ensures var eligible := EligibleItems(policy, tenantId, evidence);
            TakenBy(policy, eligible, |eligible|, key, a) && TakenBy(policy, eligible, |eligible|, key, b)
  {
    var eligible := EligibleItems(policy, tenantId, evidence);
    var i, j :| 0 <= i < |evidence| && 0 <= j < |evidence| && Disagree(policy, tenantId, evidence[i], evidence[j], key);
    var x, y := evidence[i], evidence[j];
    assert x in eligible && y in eligible;
    a, b := policy.normalize(x.stance.value), policy.normalize(y.stance.value);
    var k :| 0 <= k < |eligible| && eligible[k] == x;
    var l :| 0 <= l < |eligible| && eligible[l] == y;
    assert Takes(policy, eligible[k], key, a) && Takes(policy, eligible[l], key, b);
  }

  /** Some fact has more than one stance exactly when two eligible items disagree about it. */
  lemma StancesShowDisputes(policy: Policy, tenantId: string, evidence: seq<Item>, stances: map<string, set<string>>,
                            key: string)
    requires var eligible := EligibleItems(policy, tenantId, evidence);
             forall k, s :: Holds(stances, k, s) <==> TakenBy(policy, eligible, |eligible|, k, s)
    ensures key in stances && |stances[key]| > 1 <==> Disputed(policy, tenantId, evidence, key)
  {
    if key in stances && |stances[key]| > 1 {
      var a, b := TwoElements(stances[key]);
      assert Holds(stances, key, a) && Holds(stances, key, b);
      StancesDisagree(policy, tenantId, evidence, key, a, b);
    }
    if Disputed(policy, tenantId, evidence, key) {
      var a, b := DisputeShowsStances(policy, tenantId, evidence, key);
      assert Holds(stances, key, a) && Holds(stances, key, b);
      MoreThanOne(stances[key], a, b);
    }
  }

  lemma TwoElements<T>(s: set<T>) returns (a: T, b: T)
    requires |s| > 1
    ensures a in s && b in s && a != b
  {
    a :| a in s;
    assert |s - {a}| == |s| - 1;
    b :| b in s - {a};
  }

  lemma MoreThanOne<T>(s: set<T>, a: T, b: T)
    requires a in s && b in s && a != b
    ensures |s| > 1
  {
    assert |s - {a}| == |s| - 1 && b in s - {a};
  }

  /** The steps of `critical` inside (or, with `inside` false, outside) `covered`, in plan order. */
  function Among(critical: seq<string>, covered: set<string>, inside: bool): (r: seq<string>)
    ensures forall s :: s in r <==> s in critical && (s in covered <==> inside)
    ensures |r| <= |critical|
  {
    if critical == [] then []
    else (if (critical[0] in covered) == inside then [critical[0]] else []) + Among(critical[1..], covered, inside)
  }

  lemma {:induction false} AmongPartitions(critical: seq<string>, covered: set<string>)
    ensures multiset(Among(critical, covered, true)) + multiset(Among(critical, covered, false)) == multiset(critical)
  {
    if critical != [] {
      AmongPartitions(critical[1..], covered);
      AmongFirst(critical, covered, true);
      AmongFirst(critical, covered, false);
      assert critical == [critical[0]] + critical[1..];
    }
  }

  lemma AmongFirst(critical: seq<string>, covered: set<string>, inside: bool)
    requires critical != []
    ensures multiset(Among(critical, covered, inside)) ==
            (if (critical[0] in covered) == inside then multiset{critical[0]} else multiset{})
            + multiset(Among(critical[1..], covered, inside))
  {
    var first := if (critical[0] in covered) == inside then [critical[0]] else [];
    assert Among(critical, covered, inside) == first + Among(critical[1..], covered, inside);
  }

  function CriticalSteps(steps: seq<PlanStep>): (r: seq<string>)
    ensures forall s :: s in r <==> exists k :: 0 <= k < |steps| && steps[k].critical && steps[k].stepId == s
  {
    if steps == [] then []
    else
      var rest := CriticalSteps(steps[1..]);
      assert forall k :: 1 <= k < |steps| ==> steps[k] == steps[1..][k - 1];
      assert forall k :: 0 <= k < |steps[1..]| ==> steps[1..][k] == steps[k + 1];
      (if steps[0].critical then [steps[0].stepId] else []) + rest
  }

  /** What the fields of a decision say about the evidence. */
  ghost predicate DecisionOk(policy: Policy, tenantId: string, plan: Plan, evidence: seq<Item>, d: EvidenceDecision) {
    && d.status == StatusOf(policy, tenantId, plan, evidence)
    && CoverageOk(policy, tenantId, plan, evidence, d.covered, d.missing)
    && Ascending(d.conflicts) && (forall key :: key in d.conflicts <==> Disputed(policy, tenantId, evidence, key))
    && d.eligibleIds == IdsOf(EligibleItems(policy, tenantId, evidence))
  }

  ghost predicate CoverageOk(policy: Policy, tenantId: string, plan: Plan, evidence: seq<Item>, covered: seq<string>,
                             missing: seq<string>)
  {
    var critical := CriticalSteps(plan.steps);
    && (forall s :: s in covered <==> s in critical && Covers(policy, tenantId, evidence, s))
    && (forall s :: s in missing <==> s in critical && !Covers(policy, tenantId, evidence, s))
    && multiset(covered) + multiset(missing) == multiset(critical)
  }

  function IdsOf(items: seq<Item>): seq<string> {
    seq(|items|, i requires 0 <= i < |items| => items[i].evidenceId)
  }

  lemma CoveredSteps(policy: Policy, tenantId: string, evidence: seq<Item>, steps: set<string>)
    requires var eligible := EligibleItems(policy, tenantId, evidence);
             forall s :: s in steps <==> exists i :: 0 <= i < |eligible| && eligible[i].stepId == s
    ensures forall s :: s in steps <==> Covers(policy, tenantId, evidence, s)
  {
    var eligible := EligibleItems(policy, tenantId, evidence);
    forall s ensures s in steps <==> Covers(policy, tenantId, evidence, s) {
      if s in steps {
        var i :| 0 <= i < |eligible| && eligible[i].stepId == s;
        var item := eligible[i];
        assert item in eligible;
        var j :| 0 <= j < |evidence| && evidence[j] == item;
      }
      if Covers(policy, tenantId, evidence, s) {
        var j :| 0 <= j < |evidence| && Eligible(policy, tenantId, evidence[j]) && evidence[j].stepId == s;
        var item := evidence[j];
        assert item in eligible;
        var i :| 0 <= i < |eligible| && eligible[i] == item;
      }
    }
  }

  lemma CoverageDecides(policy: Policy, tenantId: string, plan: Plan, evidence: seq<Item>, missing: seq<string>)
    requires exists covered :: CoverageOk(policy, tenantId, plan, evidence, covered, missing)
    ensures missing == [] <==> forall k :: 0 <= k < |plan.steps| && plan.steps[k].critical ==>
                                 Covers(policy, tenantId, evidence, plan.steps[k].stepId)
  {
    forall k | 0 <= k < |plan.steps| && plan.steps[k].critical
      ensures plan.steps[k].stepId in CriticalSteps(plan.steps) {}
    if missing != [] { assert missing[0] in missing; }
  }

  /** The keys with more than one stance, sorted. */
  method FindConflicts(policy: Policy, tenantId: string, evidence: seq<Item>, eligible: seq<Item>)
    returns (r: seq<string>)
    requires eligible == EligibleItems(policy, tenantId, evidence)
    ensures Ascending(r) && forall key :: key in r <==> Disputed(policy, tenantId, evidence, key)
  {
    var stances := GatherStances(policy, eligible);
    forall key ensures key in stances && |stances[key]| > 1 <==> Disputed(policy, tenantId, evidence, key) {
      StancesShowDisputes(policy, tenantId, evidence, stances, key);
    }
    r := Sorted(set key | key in stances && |stances[key]| > 1);
  }

  /** The critical steps with and without eligible evidence, in plan order. */
  method SplitSteps(policy: Policy, tenantId: string, plan: Plan, evidence: seq<Item>, eligible: seq<Item>)
    returns (covered: seq<string>, missing: seq<string>)
    requires eligible == EligibleItems(policy, tenantId, evidence)
    ensures CoverageOk(policy, tenantId, plan, evidence, covered, missing)
    ensures eligible == [] ==> covered == [] && missing == CriticalSteps(plan.steps)
  {
    var byStep := StepsCovered(eligible);
    CoveredSteps(policy, tenantId, evidence, byStep);
    var critical := CriticalSteps(plan.steps);
    covered, missing := Among(critical, byStep, true), Among(critical, byStep, false);
    AmongPartitions(critical, byStep);
    if eligible == [] { AmongNone(critical, byStep); }
  }

  lemma {:induction false} AmongNone(critical: seq<string>, covered: set<string>)
    requires covered == {}
    ensures Among(critical, covered, true) == [] && Among(critical, covered, false) == critical
  {
    if critical != [] { AmongNone(critical[1..], covered); }
  }

  /** `evaluate`. */
  method Evaluate(policy: Policy, tenantId: string, plan: Plan, evidence: seq<Item>) returns (d: EvidenceDecision)
    ensures DecisionOk(policy, tenantId, plan, evidence, d)
    ensures d.status == Sufficient <==> Suffices(policy, tenantId, plan, evidence)
  {
    SufficientExactly(policy, tenantId, plan, evidence);
    var eligible := SelectEligible(policy, tenantId, evidence);
    var covered, missing := SplitSteps(policy, tenantId, plan, evidence, eligible);
    CoverageDecides(policy, tenantId, plan, evidence, missing);
    EligibleEmpty(policy, tenantId, evidence);
    var conflicts := FindConflicts(policy, tenantId, evidence, eligible);
    NoKeysNoDispute(policy, tenantId, evidence, conflicts);
    var ids := IdsOf(eligible);
    if conflicts != [] { return EvidenceDecision(ConflictingEvidence, covered, missing, conflicts, ids); }
    if eligible == [] { return EvidenceDecision(NoEvidence, [], CriticalSteps(plan.steps), [], []); }
    if missing != [] { return EvidenceDecision(PartialEvidence, covered, missing, [], ids); }
    d := EvidenceDecision(Sufficient, covered, [], [], ids);
  }

  lemma NoKeysNoDispute(policy: Policy, tenantId: string, evidence: seq<Item>, conflicts: seq<string>)
    requires forall key :: key in conflicts <==> Disputed(policy, tenantId, evidence, key)
    ensures conflicts == [] <==> !HasDispute(policy, tenantId, evidence)
  {
    if conflicts != [] { assert conflicts[0] in conflicts; }
  }

  lemma EligibleEmpty(policy: Policy, tenantId: string, evidence: seq<Item>)
    ensures EligibleItems(policy, tenantId, evidence) == [] <==> !AnyEligible(policy, tenantId, evidence)
  {
    var eligible := EligibleItems(policy, tenantId, evidence);
    if eligible != [] {
      assert eligible[0] in eligible;
      var j :| 0 <= j < |evidence| && evidence[j] == eligible[0];
    }
    if AnyEligible(policy, tenantId, evidence) {
      var i :| 0 <= i < |evidence| && Eligible(policy, tenantId, evidence[i]);
      assert evidence[i] in eligible;
    }
  }
}

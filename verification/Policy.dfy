/**
 Approval policies (packages/approvals/src/policy.ts): the matching rule that
 comes first in a stable sort by order decides the approval steps.
 */
module Policy {
  import opened Prelude

  datatype Mode = Sequential | Parallel | Any

  /** An absent branch or department is the empty string: the source tests both for truth. */
  datatype Context = Context(
    amount: int, product: string, channel: string,
    branch: string, department: string, riskFlags: seq<string>)

  datatype Rule = Rule(
    minAmount: Option<int>, maxAmount: Option<int>,
    products: seq<string>, channels: seq<string>,
    branches: seq<string>, departments: seq<string>, riskFlags: seq<string>,
    mode: Mode, requiredRoles: seq<string>, minApprovers: int, order: int)

  datatype StepRequirement = StepRequirement(level: nat, mode: Mode, roles: seq<string>, minApprovers: int)

  predicate Within(choices: seq<string>, x: string) {
    |choices| > 0 ==> x in choices
  }

  predicate WithinKnown(choices: seq<string>, x: string) {
    |choices| > 0 ==> x != "" && x in choices
  }

  predicate RuleMatches(rule: Rule, ctx: Context) {
    && (rule.minAmount.Some? ==> ctx.amount >= rule.minAmount.value)
    && (rule.maxAmount.Some? && rule.maxAmount.value > 0 ==> ctx.amount <= rule.maxAmount.value)
    && Within(rule.products, ctx.product)
    && Within(rule.channels, ctx.channel)
    && WithinKnown(rule.branches, ctx.branch)
    && WithinKnown(rule.departments, ctx.department)
    && (|rule.riskFlags| > 0 ==> exists f :: f in rule.riskFlags && f in ctx.riskFlags)
  }

  /** The steps a rule demands: one level per role of a multi-role SEQUENTIAL rule, otherwise one level. */
  function StepsOf(rule: Rule): (steps: seq<StepRequirement>)
    ensures |steps| >= 1
    ensures forall i | 0 <= i < |steps| :: steps[i].level == i + 1
  {
    if rule.mode == Sequential && |rule.requiredRoles| > 1 then
      seq(|rule.requiredRoles|, i requires 0 <= i < |rule.requiredRoles| =>
        StepRequirement(i + 1, Sequential, [rule.requiredRoles[i]], 1))
    else
      [StepRequirement(1, rule.mode, rule.requiredRoles, rule.minApprovers)]
  }

  /** Rule i comes before rule j in the stable sort by order. */
  predicate Before(rules: seq<Rule>, i: nat, j: nat)
    requires i < |rules| && j < |rules|
  {
    rules[i].order < rules[j].order || (rules[i].order == rules[j].order && i < j)
  }

  /** The matching rule with the least (order, position). */
  function Selected(rules: seq<Rule>, ctx: Context): (r: Option<nat>)
    ensures r.None? <==> forall i | 0 <= i < |rules| :: !RuleMatches(rules[i], ctx)
    ensures r.Some? ==> r.value < |rules| && RuleMatches(rules[r.value], ctx)
    ensures r.Some? ==> forall j | 0 <= j < |rules| && j != r.value && RuleMatches(rules[j], ctx) ::
                          Before(rules, r.value, j)
  {
    if |rules| == 0 then None
    else
      var n := |rules| - 1;
      var best := Selected(rules[..n], ctx);
      if !RuleMatches(rules[n], ctx) then best
      else if best.Some? && rules[best.value].order <= rules[n].order then best
      else Some(n)
  }

  function Evaluate(rules: seq<Rule>, ctx: Context): seq<StepRequirement> {
    match Selected(rules, ctx)
    case None => []
    case Some(k) => StepsOf(rules[k])
  }

  // ------------------------------------------------------- when a rule demands steps

  /** A column of the rule rules the context out. */
  predicate Excluded(rule: Rule, ctx: Context) {
    || (rule.minAmount.Some? && ctx.amount < rule.minAmount.value)
    || (rule.maxAmount.Some? && 0 < rule.maxAmount.value < ctx.amount)
    || (rule.products != [] && ctx.product !in rule.products)
    || (rule.channels != [] && ctx.channel !in rule.channels)
    || (rule.branches != [] && (ctx.branch == "" || ctx.branch !in rule.branches))
    || (rule.departments != [] && (ctx.department == "" || ctx.department !in rule.departments))
    || (rule.riskFlags != [] && forall f | f in rule.riskFlags :: f !in ctx.riskFlags)
  }

  /** Rule k is not ruled out, and every other such rule has a higher order, or the same order and a later position. */
  predicate Decides(rules: seq<Rule>, ctx: Context, k: nat) {
    && k < |rules| && !Excluded(rules[k], ctx)
    && forall j | 0 <= j < |rules| && j != k && !Excluded(rules[j], ctx) ::
         rules[k].order < rules[j].order || (rules[k].order == rules[j].order && k < j)
  }

  /** What a rule that decides demands: SEQUENTIAL roles one after the other and one approver each, otherwise one level as the rule has it. */
  predicate Demand(rule: Rule, steps: seq<StepRequirement>) {
    if rule.mode == Sequential && |rule.requiredRoles| > 1 then
      && |steps| == |rule.requiredRoles|
      && forall i | 0 <= i < |steps| :: steps[i] == StepRequirement(i + 1, Sequential, [rule.requiredRoles[i]], 1)
    else
      steps == [StepRequirement(1, rule.mode, rule.requiredRoles, rule.minApprovers)]
  }

  lemma MatchesUnlessExcluded(rule: Rule, ctx: Context)
    ensures RuleMatches(rule, ctx) <==> !Excluded(rule, ctx)
  {
  }

  /** No steps are demanded exactly when every rule rules the context out. */
  lemma NothingDemandedIff(rules: seq<Rule>, ctx: Context)
    ensures Evaluate(rules, ctx) == [] <==> forall i | 0 <= i < |rules| :: Excluded(rules[i], ctx)
  {
    forall i | 0 <= i < |rules| ensures RuleMatches(rules[i], ctx) <==> !Excluded(rules[i], ctx) {
      MatchesUnlessExcluded(rules[i], ctx);
    }
  }

  /** Otherwise one rule decides: the first in order that does not rule it out, and its demand is the result. */
  lemma DecidedByFirst(rules: seq<Rule>, ctx: Context) returns (k: nat)
    requires Evaluate(rules, ctx) != []
    ensures Decides(rules, ctx, k) && Demand(rules[k], Evaluate(rules, ctx))
    ensures forall j: nat | Decides(rules, ctx, j) :: j == k
  {
    k := Selected(rules, ctx).value;
    MatchesUnlessExcluded(rules[k], ctx);
    forall j | 0 <= j < |rules| && !Excluded(rules[j], ctx) ensures j == k || Before(rules, k, j) {
      MatchesUnlessExcluded(rules[j], ctx);
    }
  }

  lemma DecisionIs(rules: seq<Rule>, ctx: Context)
    ensures forall j: nat | Decides(rules, ctx, j) :: Demand(rules[j], Evaluate(rules, ctx))
    ensures Evaluate(rules, ctx) == [] <==> forall i | 0 <= i < |rules| :: Excluded(rules[i], ctx)
  {
    NothingDemandedIff(rules, ctx);
    if Evaluate(rules, ctx) != [] {
      var k := DecidedByFirst(rules, ctx);
    }
  }

  /** The rule without its limits. */
  function Free(rule: Rule): Rule {
    rule.(minAmount := None, maxAmount := None, products := [], channels := [], branches := [], departments := [], riskFlags := [])
  }

  /** The rule on its own demands approval. */
  predicate Demands(rule: Rule, ctx: Context) {
    Evaluate([rule], ctx) != []
  }

  lemma DemandsUnlessExcluded(rule: Rule, ctx: Context)
    ensures Demands(rule, ctx) <==> !Excluded(rule, ctx)
  {
    NothingDemandedIff([rule], ctx);
    assert [rule][0] == rule;
  }

  /** A rule limited to a band of amounts demands approval inside the band and nowhere else; zero means that the band is open above. */
  lemma BandDemandsIff(rule: Rule, ctx: Context, lo: int, hi: int)
    ensures Demands(Free(rule).(minAmount := Some(lo), maxAmount := Some(hi)), ctx) <==> lo <= ctx.amount && (hi > 0 ==> ctx.amount <= hi)
    ensures Demands(Free(rule).(minAmount := Some(lo)), ctx) <==> lo <= ctx.amount
    ensures Demands(Free(rule).(maxAmount := Some(hi)), ctx) <==> (hi > 0 ==> ctx.amount <= hi)
    ensures Demands(Free(rule), ctx)
  {
    DemandsUnlessExcluded(Free(rule).(minAmount := Some(lo), maxAmount := Some(hi)), ctx);
    DemandsUnlessExcluded(Free(rule).(minAmount := Some(lo)), ctx);
    DemandsUnlessExcluded(Free(rule).(maxAmount := Some(hi)), ctx);
    DemandsUnlessExcluded(Free(rule), ctx);
  }

  /** What each list admits: the listed values, with a branch or department that is known, and any shared risk flag; an empty list admits everything. */
  lemma ListsDemandIff(rule: Rule, ctx: Context, xs: seq<string>)
    requires xs != []
    ensures Demands(Free(rule).(products := xs), ctx) <==> ctx.product in xs
    ensures Demands(Free(rule).(channels := xs), ctx) <==> ctx.channel in xs
    ensures Demands(Free(rule).(branches := xs), ctx) <==> ctx.branch != "" && ctx.branch in xs
    ensures Demands(Free(rule).(departments := xs), ctx) <==> ctx.department != "" && ctx.department in xs
    ensures Demands(Free(rule).(riskFlags := xs), ctx) <==> exists f :: f in xs && f in ctx.riskFlags
  {
    DemandsUnlessExcluded(Free(rule).(products := xs), ctx);
    DemandsUnlessExcluded(Free(rule).(channels := xs), ctx);
    DemandsUnlessExcluded(Free(rule).(branches := xs), ctx);
    DemandsUnlessExcluded(Free(rule).(departments := xs), ctx);
    DemandsUnlessExcluded(Free(rule).(riskFlags := xs), ctx);
  }

  /** A rule demands approval exactly when each of its limits alone would. */
  lemma LimitsConjoin(rule: Rule, ctx: Context)
    ensures Demands(rule, ctx) <==>
      && Demands(Free(rule).(minAmount := rule.minAmount), ctx) && Demands(Free(rule).(maxAmount := rule.maxAmount), ctx)
      && Demands(Free(rule).(products := rule.products), ctx) && Demands(Free(rule).(channels := rule.channels), ctx)
      && Demands(Free(rule).(branches := rule.branches), ctx) && Demands(Free(rule).(departments := rule.departments), ctx)
      && Demands(Free(rule).(riskFlags := rule.riskFlags), ctx)
  {
    DemandsUnlessExcluded(rule, ctx);
    DemandsUnlessExcluded(Free(rule).(minAmount := rule.minAmount), ctx);
    DemandsUnlessExcluded(Free(rule).(maxAmount := rule.maxAmount), ctx);
    DemandsUnlessExcluded(Free(rule).(products := rule.products), ctx);
    DemandsUnlessExcluded(Free(rule).(channels := rule.channels), ctx);
    DemandsUnlessExcluded(Free(rule).(branches := rule.branches), ctx);
    DemandsUnlessExcluded(Free(rule).(departments := rule.departments), ctx);
    DemandsUnlessExcluded(Free(rule).(riskFlags := rule.riskFlags), ctx);
  }

  /** Without maxima, asking for more money never drops a demand. */
  lemma LargerAmountStillDemands(rules: seq<Rule>, ctx: Context, amount: int)
    requires amount >= ctx.amount && Evaluate(rules, ctx) != []
    requires forall i | 0 <= i < |rules| :: rules[i].maxAmount.Some? ==> rules[i].maxAmount.value <= 0
    ensures Evaluate(rules, ctx.(amount := amount)) != []
  {
    NothingDemandedIff(rules, ctx);
    NothingDemandedIff(rules, ctx.(amount := amount));
    var i :| 0 <= i < |rules| && !Excluded(rules[i], ctx);
    assert !Excluded(rules[i], ctx.(amount := amount));
  }

  /** Sorts a copy stably by order, then takes the first rule that matches. */
  method EvaluatePolicy(rules: seq<Rule>, ctx: Context) returns (steps: seq<StepRequirement>)
    ensures steps == Evaluate(rules, ctx)
    ensures steps == [] <==> forall i | 0 <= i < |rules| :: Excluded(rules[i], ctx)
    ensures forall k: nat | Decides(rules, ctx, k) :: Demand(rules[k], steps)
  {
    var ordered := SortByOrder(rules);
    for i := 0 to |ordered|
      invariant forall k | 0 <= k < i :: !RuleMatches(rules[ordered[k]], ctx)
    {
      var rule := rules[ordered[i]];
      if RuleMatches(rule, ctx) {
        steps := [];
        if rule.mode == Sequential && |rule.requiredRoles| > 1 {
          for l := 0 to |rule.requiredRoles|
            invariant steps == StepsOf(rule)[..l]
          {
            steps := steps + [StepRequirement(l + 1, Sequential, [rule.requiredRoles[l]], 1)];
          }
        } else {
          steps := steps + [StepRequirement(1, rule.mode, rule.requiredRoles, rule.minApprovers)];
        }
        assert Selected(rules, ctx) == Some(ordered[i]) by {
          FirstIsSelected(rules, ctx, ordered, i);
        }
        DecisionIs(rules, ctx);
        return;
      }
    }
    steps := [];
    assert Selected(rules, ctx).None? by {
      forall j | 0 <= j < |rules| ensures !RuleMatches(rules[j], ctx) {
        assert j in ordered;
      }
    }
    DecisionIs(rules, ctx);
  }

  ghost predicate Ordered(rules: seq<Rule>, ps: seq<nat>) {
    && (forall k | 0 <= k < |ps| :: ps[k] < |rules|)
    && (forall a, b | 0 <= a < b < |ps| :: Before(rules, ps[a], ps[b]))
  }

  lemma FirstIsSelected(rules: seq<Rule>, ctx: Context, ps: seq<nat>, i: nat)
    requires Ordered(rules, ps) && i < |ps|
    requires forall j | 0 <= j < |rules| :: j in ps
    requires RuleMatches(rules[ps[i]], ctx)
    requires forall k | 0 <= k < i :: !RuleMatches(rules[ps[k]], ctx)
    ensures Selected(rules, ctx) == Some(ps[i])
  {
    var best := Selected(rules, ctx);
    assert best.Some? && best.value in ps;
    var k :| 0 <= k < |ps| && ps[k] == best.value;
    assert k <= i;
  }

  function InsertAt(ps: seq<nat>, at: nat, n: nat): (qs: seq<nat>)
    requires at <= |ps|
    ensures |qs| == |ps| + 1
    ensures forall k | 0 <= k < |qs| :: qs[k] == if k < at then ps[k] else if k == at then n else ps[k - 1]
  {
    ps[..at] + [n] + ps[at..]
  }

  lemma InsertKeepsOrder(rules: seq<Rule>, ps: seq<nat>, at: nat, n: nat)
    requires Ordered(rules, ps) && at <= |ps| && n < |rules|
    requires at > 0 ==> Before(rules, ps[at - 1], n)
    requires at < |ps| ==> Before(rules, n, ps[at])
    ensures Ordered(rules, InsertAt(ps, at, n))
  {
    var qs := InsertAt(ps, at, n);
    forall a, b | 0 <= a < b < |qs| ensures Before(rules, qs[a], qs[b]) {
      if b == at {
        assert a < at - 1 ==> Before(rules, ps[a], ps[at - 1]);
      } else if a == at {
        assert b > at + 1 ==> Before(rules, ps[at], ps[b - 1]);
      }
    }
  }

  lemma InsertKeepsMembers(ps: seq<nat>, at: nat, n: nat, j: nat)
    requires at <= |ps|
    ensures j in ps || j == n ==> j in InsertAt(ps, at, n)
  {
    var qs := InsertAt(ps, at, n);
    assert qs[at] == n;
    if j in ps {
      var k :| 0 <= k < |ps| && ps[k] == j;
      assert qs[if k < at then k else k + 1] == j;
    }
  }

  /** Insertion sort of the positions: stable, because equal orders keep their positions' order. */
  method SortByOrder(rules: seq<Rule>) returns (ps: seq<nat>)
    ensures Ordered(rules, ps)
    ensures forall j | 0 <= j < |rules| :: j in ps
  {
    ps := [];
    for n := 0 to |rules|
      invariant Ordered(rules, ps)
      invariant forall k | 0 <= k < |ps| :: ps[k] < n
      invariant forall j | 0 <= j < n :: j in ps
    {
      var at := |ps|;
      while at > 0 && rules[ps[at - 1]].order > rules[n].order
        invariant 0 <= at <= |ps|
        invariant at < |ps| ==> Before(rules, n, ps[at])
      {
        at := at - 1;
      }
      InsertKeepsOrder(rules, ps, at, n);
      forall j | 0 <= j <= n ensures j in InsertAt(ps, at, n) {
        InsertKeepsMembers(ps, at, n, j);
      }
      ps := InsertAt(ps, at, n);
    }
  }

  predicate ValidRule(rule: Rule) {
    && |rule.requiredRoles| > 0
    && rule.minApprovers >= 1
    && (rule.mode == Any ==> rule.minApprovers <= |rule.requiredRoles|)
  }

  predicate ValidRules(rules: seq<Rule>) {
    forall i | 0 <= i < |rules| :: ValidRule(rules[i])
  }

  method ValidateRules(rules: seq<Rule>) returns (ok: bool)
    ensures ok <==> ValidRules(rules)
    ensures ok <==> forall i | 0 <= i < |rules| ::
              && rules[i].requiredRoles != [] && 1 <= rules[i].minApprovers
              && (rules[i].mode == Any ==> rules[i].minApprovers <= |rules[i].requiredRoles|)
  {
    for i := 0 to |rules|
      invariant forall k | 0 <= k < i :: ValidRule(rules[k])
    {
      var rule := rules[i];
      if |rule.requiredRoles| == 0 {
        return false;
      }
      if rule.minApprovers < 1 {
        return false;
      }
      if rule.mode == Any && rule.minApprovers > |rule.requiredRoles| {
        return false;
      }
    }
    return true;
  }

  const AML_FLAG := "aml_watchlist_hit"

  const AML_RULE := Rule(None, None, [], [], [], [], [AML_FLAG], Parallel, ["APPROVER"], 1, 99)

  /** The rules a submission is decided by: a watchlist hit no rule covers falls back to a synthetic approver rule. */
  function SubmissionRules(rules: seq<Rule>, ctx: Context, amlHit: bool): seq<Rule> {
    if Evaluate(rules, ctx) == [] && amlHit then [AML_RULE] else rules
  }

  /** Whatever rules are supplied, a flagged submission always demands at least one approval step; what the rules demand themselves is kept. */
  lemma WatchlistHitNeedsApproval(rules: seq<Rule>, ctx: Context)
    requires AML_FLAG in ctx.riskFlags
    ensures |Evaluate(SubmissionRules(rules, ctx, true), ctx)| >= 1
    ensures Evaluate(rules, ctx) != [] ==> Evaluate(SubmissionRules(rules, ctx, true), ctx) == Evaluate(rules, ctx)
    ensures Evaluate(rules, ctx) == [] ==>
              Evaluate(SubmissionRules(rules, ctx, true), ctx) == [StepRequirement(1, Parallel, ["APPROVER"], 1)]
  {
    assert AML_FLAG in AML_RULE.riskFlags;
    assert RuleMatches(AML_RULE, ctx);
    assert Selected([AML_RULE], ctx) == Some(0);
  }

  /** Sorting is irrelevant beyond (order, position): appending a rule that is ordered after a match never changes the decision. */
  lemma LaterRuleIgnored(rules: seq<Rule>, rule: Rule, ctx: Context)
    requires Selected(rules, ctx).Some? && rules[Selected(rules, ctx).value].order <= rule.order
    ensures Evaluate(rules + [rule], ctx) == Evaluate(rules, ctx)
  {
    assert (rules + [rule])[..|rules|] == rules;
  }
}

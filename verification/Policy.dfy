/** The policy hook, and the rule-file policy that implements it. */
module Policy {
  import opened Protocol

  datatype PolicyDecision = Allow | Deny(reasonCode: string) | RequireApproval(risk: RiskLevel)

  datatype PolicyContext = PolicyContext(
    tool: ToolId, effectClass: EffectClass, taint: TaintLevel, targets: seq<ResourceRef>, reversible: bool)

  /** Any policy: a verdict, and the rules that led to it. */
  type PolicyHook = PolicyContext -> (PolicyDecision, seq<string>)

  datatype Rule = Rule(
    id: string, effectClass: Option<EffectClass>, tool: Option<ToolId>, reversible: Option<bool>,
    decision: string, risk: Option<RiskLevel>, reasonCode: Option<string>)
  {
    predicate Matches(ctx: PolicyContext)
    {
      && (effectClass.Some? ==> effectClass.value == ctx.effectClass)
      && (tool.Some? ==> tool.value == ctx.tool)
      && (reversible.Some? ==> reversible.value == ctx.reversible)
    }

    function Decision(): Result<PolicyDecision, string>
    {
      if decision == "allow" then Ok(Allow)
      else if decision == "deny" then Ok(Deny(if reasonCode.Some? then reasonCode.value else id))
      else if decision == "require_approval" then Ok(RequireApproval(if risk.Some? then risk.value else L2))
      else Err(decision)
    }

    function DecisionOrDeny(): PolicyDecision
    {
      if Decision().Ok? then Decision().value else Deny("malformed_rule")
    }
  }

  /** First match wins; no match means allow. */
  function Evaluate(rules: seq<Rule>, ctx: PolicyContext): (PolicyDecision, seq<string>)
  {
    if rules == [] then (Allow, [])
    else if rules[0].Matches(ctx) then (rules[0].DecisionOrDeny(), [rules[0].id])
    else Evaluate(rules[1..], ctx)
  }

  /** The verdict is that of the least matching rule, and `allow` exactly when none matches
      or that rule says so. */
  lemma {:induction false} FirstMatchWins(rules: seq<Rule>, ctx: PolicyContext, k: nat)
    requires k <= |rules| && forall i :: 0 <= i < k ==> !rules[i].Matches(ctx)
    requires k < |rules| ==> rules[k].Matches(ctx)
    ensures k < |rules| ==> Evaluate(rules, ctx) == (rules[k].DecisionOrDeny(), [rules[k].id])
    ensures k == |rules| ==> Evaluate(rules, ctx) == (Allow, [])
  {
    if k > 0 {
      FirstMatchWins(rules[1..], ctx, k - 1);
    }
  }

  /** A matching rule whose decision cannot be read denies; an approval rule without a risk asks for
      the middle one; a denial without a reason gives the rule's name. */
  lemma DefaultsAreStrict(rule: Rule)
    ensures rule.Decision().Err? ==> rule.DecisionOrDeny().Deny?
    ensures rule.decision == "require_approval" && rule.risk.None? ==> rule.DecisionOrDeny() == RequireApproval(L2)
    ensures rule.decision == "deny" && rule.reasonCode.None? ==> rule.DecisionOrDeny() == Deny(rule.id)
    ensures rule.decision == "allow" <==> rule.DecisionOrDeny().Allow?
    ensures rule.decision == "require_approval" <==> rule.DecisionOrDeny().RequireApproval?
  {
  }

  /** Rule `k` is the first that matches. */
  predicate IsFirstMatch(rules: seq<Rule>, ctx: PolicyContext, k: nat)
  {
    k < |rules| && rules[k].Matches(ctx) && forall i :: 0 <= i < k ==> !rules[i].Matches(ctx)
  }

  lemma FirstMatchExists(rules: seq<Rule>, ctx: PolicyContext) returns (k: nat)
    ensures if k < |rules| then IsFirstMatch(rules, ctx, k) else k == |rules|
    ensures k == |rules| ==> forall i :: 0 <= i < |rules| ==> !rules[i].Matches(ctx)
  {
    k := 0;
    while k < |rules| && !rules[k].Matches(ctx)
      invariant k <= |rules| && forall i :: 0 <= i < k ==> !rules[i].Matches(ctx)
    {
      k := k + 1;
    }
  }

  /** A call is allowed only where no rule speaks of it or the first that does says so; it is put to
      a human exactly where that rule says so; anything else that rule may say denies it. */
  lemma VerdictIsDeliberate(rules: seq<Rule>, ctx: PolicyContext)
    ensures Evaluate(rules, ctx).0.Allow? <==>
      forall k: nat :: IsFirstMatch(rules, ctx, k) ==> rules[k].decision == "allow"
    ensures Evaluate(rules, ctx).0.RequireApproval? <==>
      exists k: nat :: IsFirstMatch(rules, ctx, k) && rules[k].decision == "require_approval"
    ensures Evaluate(rules, ctx).0.Deny? ==> exists k: nat :: IsFirstMatch(rules, ctx, k)
  {
    hide Evaluate;
    var k := FirstMatchExists(rules, ctx);
    FirstMatchWins(rules, ctx, k);
    if k < |rules| {
      DefaultsAreStrict(rules[k]);
    }
  }

  /**
   * What a rule file says about a call, read off its lines: the first rule none of whose stated fields
   * differs from the call's gives the verdict, and its name is the trace. A field that is not stated
   * asks nothing. An approval without a risk asks for the middle one, a denial without a reason gives
   * the rule's name, and a decision that is none of the three denies.
   */
  lemma FirstFittingRuleDecides(rules: seq<Rule>, ctx: PolicyContext, k: nat)
    requires k <= |rules|
    requires forall i :: 0 <= i < k ==>
      || (rules[i].effectClass.Some? && rules[i].effectClass.value != ctx.effectClass)
      || (rules[i].tool.Some? && rules[i].tool.value != ctx.tool)
      || (rules[i].reversible.Some? && rules[i].reversible.value != ctx.reversible)
    requires k < |rules| ==>
      && (rules[k].effectClass.None? || rules[k].effectClass.value == ctx.effectClass)
      && (rules[k].tool.None? || rules[k].tool.value == ctx.tool)
      && (rules[k].reversible.None? || rules[k].reversible.value == ctx.reversible)
    ensures k == |rules| ==> Evaluate(rules, ctx) == (Allow, [])
    ensures k < |rules| ==> Evaluate(rules, ctx).1 == [rules[k].id]
    ensures k < |rules| && rules[k].decision == "allow" ==> Evaluate(rules, ctx).0 == Allow
    ensures k < |rules| && rules[k].decision == "deny" ==>
      Evaluate(rules, ctx).0 == Deny(if rules[k].reasonCode.Some? then rules[k].reasonCode.value else rules[k].id)
    ensures k < |rules| && rules[k].decision == "require_approval" ==>
      Evaluate(rules, ctx).0 == RequireApproval(if rules[k].risk.Some? then rules[k].risk.value else L2)
    ensures k < |rules| && rules[k].decision !in ["allow", "deny", "require_approval"] ==>
      Evaluate(rules, ctx).0 == Deny("malformed_rule")
  {
    hide Evaluate;
    FirstMatchWins(rules, ctx, k);
  }

  /** A call passes without a trace exactly when every rule differs from it in some stated field. */
  lemma UntracedExactly(rules: seq<Rule>, ctx: PolicyContext)
    ensures Evaluate(rules, ctx).1 == [] <==>
      forall i :: 0 <= i < |rules| ==>
        || (rules[i].effectClass.Some? && rules[i].effectClass.value != ctx.effectClass)
        || (rules[i].tool.Some? && rules[i].tool.value != ctx.tool)
        || (rules[i].reversible.Some? && rules[i].reversible.value != ctx.reversible)
    ensures Evaluate(rules, ctx).1 == [] ==> Evaluate(rules, ctx).0 == Allow
  {
    hide Evaluate;
    var k := FirstMatchExists(rules, ctx);
    FirstFittingRuleDecides(rules, ctx, k);
  }

  /** The rule policy never looks at taint: clearing or adding it cannot change a verdict. */
  lemma {:induction false} RulesIgnoreTaint(rules: seq<Rule>, ctx: PolicyContext, taint: TaintLevel)
    ensures Evaluate(rules, ctx) == Evaluate(rules, ctx.(taint := taint))
  {
    if rules != [] {
      RulesIgnoreTaint(rules[1..], ctx, taint);
    }
  }
}

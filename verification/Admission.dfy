/**
 * The admission pipeline: capability, taint and policy, impact estimate, budget, approval and
 * dry-run, in that order. A pure function of the request, the policy and the manifests.
 */
module Admission {
  import opened Protocol
  import opened KernelState
  import opened Events
  import opened Policy
  import K = Kernel

  datatype TargetSpec =
    | FromParam(pointer: string, kind: string, op: ResourceOp)
    | Literal(literal: string, kind: string, op: ResourceOp)
  {
    function Resolve(params: Params): Option<ImpactTarget>
    {
      match this
      case FromParam(p, k, o) =>
        if p in params then Some(ImpactTarget(ResourceRef(k, params[p]), o)) else None
      case Literal(l, k, o) => Some(ImpactTarget(ResourceRef(k, l), o))
    }
  }

  // The string-valued fields of a call's parameters, by JSON pointer.
  type Params = map<string, string>

  datatype ToolManifest = ToolManifest(
    name: ToolId, effectClass: EffectClass, reversible: bool, targets: seq<TargetSpec>,
    egress: seq<EgressRef>, preview: Option<string>)

  function StrictestDefault(tool: ToolId): ToolManifest
  {
    ToolManifest(tool, External, false, [], [], None)
  }

  datatype PreviewOutcome = PreviewOutcome(targets: seq<ImpactTarget>, estCostMicros: Option<nat>)

  function ResolveAll(specs: seq<TargetSpec>, params: Params): seq<ImpactTarget>
  {
    if specs == [] then []
    else
      (if specs[0].Resolve(params).Some? then [specs[0].Resolve(params).value] else [])
      + ResolveAll(specs[1..], params)
  }

  function Resources(targets: seq<ImpactTarget>): seq<ResourceRef>
  {
    seq(|targets|, i requires 0 <= i < |targets| => targets[i].resource)
  }

  /** Three levels of precision: a preview's own answer, declared targets, or nothing known. */
  function Estimate(e: EffectId, manifest: ToolManifest, params: Params, preview: Option<PreviewOutcome>): Impact
  {
    if preview.Some? then
      Impact(e, preview.value.targets, manifest.egress, preview.value.estCostMicros, Exact)
    else
      var targets := ResolveAll(manifest.targets, params);
      Impact(e, targets, manifest.egress, None, if targets == [] then Unknown else DeclaredOnly)
  }

  datatype AdmitRequest = AdmitRequest(
    effectId: EffectId, turn: nat, call: PlannedCall, params: Params, taint: TaintLevel,
    cites: set<CiteId>, capability: CapabilityToken, mode: ExecutionMode,
    budget: BudgetSpec, budgetUsed: BudgetUsage)

  datatype EffectRequest = EffectRequest(
    effectId: EffectId, turn: nat, tool: ToolId, paramsRef: BlobRef, effectClass: EffectClass,
    targets: seq<ResourceRef>, egress: seq<EgressRef>, reversible: bool, taint: TaintLevel,
    capability: CapabilityToken)

  datatype GatewayAction =
    | Dispatch(request: EffectRequest)
    | DryRunOnly(request: EffectRequest)
    | Reject(reasonCode: string)
    | AskApproval(risk: RiskLevel, request: EffectRequest, impact: Impact)
    | NeedPreview(pending: PendingAdmit)
    | BudgetExceeded(reasonCode: string, request: EffectRequest)

  datatype PendingAdmit = PendingAdmit(
    manifest: ToolManifest, params: Params, decision: PolicyDecision, request: EffectRequest,
    mode: ExecutionMode, budget: BudgetSpec, budgetUsed: BudgetUsage)

  datatype Verdict = Verdict(events: seq<EventBody>, action: GatewayAction)

  /** Raise a verdict to at least `floor`; a denial stays a denial. */
  function Tighten(d: PolicyDecision, floor: RiskLevel): PolicyDecision
  {
    match d
    case Deny(r) => Deny(r)
    case Allow => RequireApproval(floor)
    case RequireApproval(risk) => RequireApproval(risk.Max(floor))
  }

  /** Why the budget stops this call, if it does. */
  function BudgetGate(spec: BudgetSpec, used: BudgetUsage, estCostMicros: Option<nat>): Option<string>
  {
    if spec.maxTokens.Some? && used.tokens >= spec.maxTokens.value then Some("budget_tokens_exhausted")
    else if spec.maxWallSeconds.Some? && used.wallMs >= spec.maxWallSeconds.value * 1000 then
      Some("budget_wall_exhausted")
    else if spec.maxAmountMicros.Some? && used.amountMicros >= spec.maxAmountMicros.value then
      Some("budget_amount_exhausted")
    else if spec.maxAmountMicros.Some? && estCostMicros.Some?
            && used.amountMicros + estCostMicros.value > spec.maxAmountMicros.value then
      Some("budget_amount_would_exceed")
    else None
  }

  function KindOf(d: PolicyDecision): PolicyDecisionKind
  {
    match d
    case Allow => DecidedAllow
    case Deny(_) => DecidedDeny
    case RequireApproval(_) => DecidedRequireApproval
  }

  /** The tail shared by both admission paths: impact, budget, approval, dry-run. */
  function FinishAdmission(events: seq<EventBody>, decision: PolicyDecision, request: EffectRequest,
                  mode: ExecutionMode, impact: Impact, budget: BudgetSpec, used: BudgetUsage): Verdict
    requires !decision.Deny?
  {
    var events := events + [ImpactEstimated(impact)];
    var stop := BudgetGate(budget, used, impact.estCostMicros);
    if stop.Some? then Verdict(events, BudgetExceeded(stop.value, request))
    else if decision.RequireApproval? then Verdict(events, AskApproval(decision.risk, request, impact))
    else if mode.DryRun? && request.effectClass.SuppressedInDryRun() then
      Verdict(events + [ToolResult(request.effectId, ResultDryRun, None, Clean, [])], DryRunOnly(request))
    else Verdict(events, Dispatch(request))
  }

  datatype Gateway = GatewayOf(policy: PolicyHook, manifests: map<ToolId, ToolManifest>) {

    function ManifestFor(tool: ToolId): ToolManifest
    {
      if tool in manifests then manifests[tool] else StrictestDefault(tool)
    }

    function RequestFor(req: AdmitRequest): EffectRequest
    {
      var m := ManifestFor(req.call.tool);
      EffectRequest(req.effectId, req.turn, req.call.tool, req.call.paramsRef, m.effectClass,
                    Resources(ResolveAll(m.targets, req.params)), m.egress, m.reversible, req.taint,
                    req.capability)
    }

    function ContextFor(req: AdmitRequest): PolicyContext
    {
      var r := RequestFor(req);
      PolicyContext(r.tool, r.effectClass, req.taint, r.targets, r.reversible)
    }

    /** The policy verdict after the two structural gates, and the reason recorded with it. */
    function Gated(req: AdmitRequest): (PolicyDecision, string)
    {
      var verdict := policy(ContextFor(req)).0;
      if req.call.tool !in manifests then (Tighten(verdict, L3), "no_manifest")
      else if req.taint == Tainted && !RequestFor(req).effectClass.Read? then
        (Tighten(verdict, L2), "taint_gate")
      else (verdict, "policy")
    }

    function Admit(req: AdmitRequest): Verdict
    {
      var m := ManifestFor(req.call.tool);
      var r := RequestFor(req);
      var requested := ToolRequested(r.effectId, r.turn, r.tool, r.paramsRef, r.effectClass,
                                     r.targets, r.egress, r.reversible);
      if !req.capability.Allows(r.tool) then
        Verdict([requested, PolicyEvaluated(req.effectId, DecidedDeny, [], "capability_scope")],
                Reject("capability_scope"))
      else
        var rulesHit := policy(ContextFor(req)).1;
        var (decision, reason) := Gated(req);
        if decision.Deny? then
          Verdict([requested, PolicyEvaluated(req.effectId, DecidedDeny, rulesHit, decision.reasonCode)],
                  Reject(decision.reasonCode))
        else
          var events := [requested, PolicyEvaluated(req.effectId, KindOf(decision), rulesHit, reason)];
          if m.preview.Some? then
            Verdict(events, NeedPreview(PendingAdmit(m, req.params, decision, r, req.mode,
                                                     req.budget, req.budgetUsed)))
          else
            FinishAdmission(events, decision, r, req.mode, Estimate(req.effectId, m, req.params, None),
                   req.budget, req.budgetUsed)
    }

    /** Continue from `NeedPreview`, on the verdict frozen when the call was admitted. */
    function AdmitWithPreview(p: PendingAdmit, preview: Option<PreviewOutcome>): Verdict
      requires !p.decision.Deny?
    {
      FinishAdmission([], p.decision, p.request, p.mode, Estimate(p.request.effectId, p.manifest, p.params, preview),
             p.budget, p.budgetUsed)
    }

    /** Both halves of an admission run to its end: all events, and the final action. */
    function AdmitFully(req: AdmitRequest, preview: Option<PreviewOutcome>): Verdict
    {
      var first := Admit(req);
      if first.action.NeedPreview? then
        var second := AdmitWithPreview(first.action.pending, preview);
        Verdict(first.events + second.events, second.action)
      else first
    }

    function WithoutPreview(tool: ToolId): Gateway
      requires tool in manifests
    {
      this.(manifests := manifests[tool := manifests[tool].(preview := None)])
    }
  }

  /** How strongly an outcome holds a call back. */
  function Strength(a: GatewayAction): nat
  {
    match a
    case Dispatch(_) => 0
    case DryRunOnly(_) => 0
    case NeedPreview(_) => 0
    case AskApproval(risk, _, _) => risk.Rank()
    case BudgetExceeded(_, _) => 4
    case Reject(_) => 5
  }

  predicate LimitAtMost(a: Option<nat>, b: Option<nat>)
  {
    b.Some? ==> a.Some? && a.value <= b.value
  }

  predicate EstimateAtLeast(a: Option<PreviewOutcome>, b: Option<PreviewOutcome>)
  {
    b.Some? && b.value.estCostMicros.Some? ==>
      a.Some? && a.value.estCostMicros.Some? && b.value.estCostMicros.value <= a.value.estCostMicros.value
  }

  /** `b` asks for the same call as `a` with more taint, more usage or lower limits. */
  predicate Harsher(a: AdmitRequest, b: AdmitRequest)
  {
    && b == a.(taint := b.taint, budget := b.budget, budgetUsed := b.budgetUsed)
    && (a.taint == Tainted ==> b.taint == Tainted)
    && a.budgetUsed.tokens <= b.budgetUsed.tokens
    && a.budgetUsed.amountMicros <= b.budgetUsed.amountMicros
    && a.budgetUsed.wallMs <= b.budgetUsed.wallMs
    && LimitAtMost(b.budget.maxTokens, a.budget.maxTokens)
    && LimitAtMost(b.budget.maxAmountMicros, a.budget.maxAmountMicros)
    && LimitAtMost(b.budget.maxWallSeconds, a.budget.maxWallSeconds)
  }

  function RulePolicy(rules: seq<Rule>): PolicyHook
  {
    ctx => Evaluate(rules, ctx)
  }

  /** The cost estimate the budget gate gets to see: only a declared preview's answer has one. */
  function SeenCost(g: Gateway, req: AdmitRequest, preview: Option<PreviewOutcome>): Option<nat>
  {
    if g.ManifestFor(req.call.tool).preview.Some? && preview.Some? then preview.value.estCostMicros else None
  }

  /** The outcome of a whole admission, read off its gates. */
  lemma StrengthOfAdmission(g: Gateway, req: AdmitRequest, preview: Option<PreviewOutcome>)
    ensures Strength(g.AdmitFully(req, preview).action) ==
      if !req.capability.Allows(req.call.tool) || g.Gated(req).0.Deny? then 5
      else if BudgetGate(req.budget, req.budgetUsed, SeenCost(g, req, preview)).Some? then 4
      else if g.Gated(req).0.RequireApproval? then g.Gated(req).0.risk.Rank()
      else 0
  {
  }

  /** What the gate lets pass stays within every limit even after the estimate is paid, and nothing
      else passes; the reason it gives names the dimension, and whether money is gone or would go. */
  lemma BudgetGateIsExact(spec: BudgetSpec, used: BudgetUsage, est: Option<nat>)
    ensures BudgetGate(spec, used, est).None? <==>
      && (spec.maxTokens.Some? ==> used.tokens < spec.maxTokens.value)
      && (spec.maxWallSeconds.Some? ==> used.wallMs < spec.maxWallSeconds.value * 1000)
      && (spec.maxAmountMicros.Some? ==>
            && used.amountMicros < spec.maxAmountMicros.value
            && (est.Some? ==> used.amountMicros + est.value <= spec.maxAmountMicros.value))
    ensures BudgetGate(spec, used, est).Some? ==>
      BudgetGate(spec, used, est).value in {"budget_amount_exhausted", "budget_amount_would_exceed",
                                            "budget_tokens_exhausted", "budget_wall_exhausted"}
    ensures BudgetGate(spec, used, est) == Some("budget_amount_exhausted") ==>
      spec.maxAmountMicros.Some? && spec.maxAmountMicros.value <= used.amountMicros
    ensures BudgetGate(spec, used, est) == Some("budget_amount_would_exceed") ==>
      spec.maxAmountMicros.Some? && used.amountMicros < spec.maxAmountMicros.value
    ensures BudgetGate(spec, used, est) == Some("budget_tokens_exhausted") ==>
      spec.maxTokens.Some? && spec.maxTokens.value <= used.tokens
    ensures BudgetGate(spec, used, est) == Some("budget_wall_exhausted") ==>
      spec.maxWallSeconds.Some? && spec.maxWallSeconds.value * 1000 <= used.wallMs
  {
  }

  lemma {:induction false} ResolvedTargets(specs: seq<TargetSpec>, params: Params, t: ImpactTarget)
    ensures t in ResolveAll(specs, params) <==> exists i :: 0 <= i < |specs| && specs[i].Resolve(params) == Some(t)
  {
    if specs != [] {
      ResolvedTargets(specs[1..], params, t);
      assert specs == [specs[0]] + specs[1..];
      assert forall i :: 0 <= i < |specs| - 1 ==> specs[1..][i] == specs[i + 1];
      if i :| 0 <= i < |specs| && specs[i].Resolve(params) == Some(t) {
        assert i > 0 ==> specs[1..][i - 1] == specs[i];
      }
    }
  }

  /** An estimate says how much it knows: exact only with a preview's own answer, declared only with
      a target the call's parameters really name, unknown otherwise; a cost only from a preview. */
  lemma EstimateIsHonest(e: EffectId, m: ToolManifest, params: Params, preview: Option<PreviewOutcome>)
    ensures var impact := Estimate(e, m, params, preview);
      && impact.effectId == e
      && (impact.precision.Exact? <==> preview.Some?)
      && (impact.precision.Exact? ==>
            impact.targets == preview.value.targets && impact.estCostMicros == preview.value.estCostMicros)
      && (impact.precision.Unknown? <==>
            preview.None? && forall i :: 0 <= i < |m.targets| ==> m.targets[i].Resolve(params).None?)
      && (impact.precision.DeclaredOnly? ==>
            forall t :: t in impact.targets <==>
              exists i :: 0 <= i < |m.targets| && m.targets[i].Resolve(params) == Some(t))
      && (!impact.precision.Exact? ==> impact.estCostMicros.None?)
  {
    if preview.None? {
      var targets := ResolveAll(m.targets, params);
      forall t ensures t in targets <==> exists i :: 0 <= i < |m.targets| && m.targets[i].Resolve(params) == Some(t) {
        ResolvedTargets(m.targets, params, t);
      }
      if targets != [] {
        assert targets[0] in targets;
      }
      forall i | 0 <= i < |m.targets| && m.targets[i].Resolve(params).Some? ensures targets != [] {
        assert m.targets[i].Resolve(params).value in targets;
      }
    }
  }

  lemma BudgetGateMonotone(a: AdmitRequest, b: AdmitRequest, ea: Option<nat>, eb: Option<nat>)
    requires Harsher(a, b)
    requires ea.Some? ==> eb.Some? && ea.value <= eb.value
    ensures BudgetGate(a.budget, a.budgetUsed, ea).Some? ==> BudgetGate(b.budget, b.budgetUsed, eb).Some?
  {
  }

  /** Under a rule policy, harsher circumstances never free a call that was held back, nor
      lower the risk level it was held at. */
  lemma HarsherNeverLoosens(
      rules: seq<Rule>, manifests: map<ToolId, ToolManifest>, a: AdmitRequest, b: AdmitRequest,
      pa: Option<PreviewOutcome>, pb: Option<PreviewOutcome>)
    requires Harsher(a, b) && EstimateAtLeast(pb, pa)
    ensures var g := GatewayOf(RulePolicy(rules), manifests);
      Strength(g.AdmitFully(a, pa).action) <= Strength(g.AdmitFully(b, pb).action)
  {
    var g := GatewayOf(RulePolicy(rules), manifests);
    StrengthOfAdmission(g, a, pa);
    StrengthOfAdmission(g, b, pb);
    BudgetGateMonotone(a, b, SeenCost(g, a, pa), SeenCost(g, b, pb));
    assert g.ContextFor(b) == g.ContextFor(a).(taint := b.taint);
    RulesIgnoreTaint(rules, g.ContextFor(a), b.taint);
    assert g.policy(g.ContextFor(a)).0 == g.policy(g.ContextFor(b)).0;
  }

  /** Whatever the policy says: a tool outside the capability's scopes is refused, one without a
      manifest is refused, stopped for money or put to a human at the highest risk, and so, at the
      middle risk or above, is a tainted call of a tool whose manifest says it does more than read. */
  lemma StructuralGatesHold(g: Gateway, req: AdmitRequest, preview: Option<PreviewOutcome>)
    ensures var (tool, action) := (req.call.tool, g.AdmitFully(req, preview).action);
      && ("*" !in req.capability.scopes && tool !in req.capability.scopes ==> action.Reject?)
      && (tool !in g.manifests ==>
            action.Reject? || action.BudgetExceeded? || (action.AskApproval? && action.risk == L3))
      && (tool in g.manifests && req.taint == Tainted && g.manifests[tool].effectClass != Read ==>
            action.Reject? || action.BudgetExceeded? || (action.AskApproval? && action.risk != L1))
  {
  }

  /** Without its preview declaration a tool is still judged the same way. */
  lemma PreviewIsNotJudged(g: Gateway, req: AdmitRequest)
    requires req.call.tool in g.manifests
    ensures var h := g.WithoutPreview(req.call.tool);
      h.RequestFor(req) == g.RequestFor(req) && h.Gated(req) == g.Gated(req)
      && h.ContextFor(req) == g.ContextFor(req)
  {
  }

  /** Asking for a preview and getting none is the same as not declaring one: the same events
      in the same order, and the same action. */
  lemma AbandonedPreviewChangesNothing(g: Gateway, req: AdmitRequest)
    requires req.call.tool in g.manifests
    ensures g.AdmitFully(req, None) == g.WithoutPreview(req.call.tool).AdmitFully(req, None)
  {
    PreviewIsNotJudged(g, req);
    var h := g.WithoutPreview(req.call.tool);
    var m, bare := g.ManifestFor(req.call.tool), h.ManifestFor(req.call.tool);
    assert Estimate(req.effectId, m, req.params, None) == Estimate(req.effectId, bare, req.params, None);
    FinishAppends(g.Admit(req).events, g.Gated(req).0, g.RequestFor(req), req.mode,
                  Estimate(req.effectId, m, req.params, None), req.budget, req.budgetUsed);
  }

  /** The tail only adds to the events it is given. */
  lemma FinishAppends(events: seq<EventBody>, decision: PolicyDecision, request: EffectRequest,
                      mode: ExecutionMode, impact: Impact, budget: BudgetSpec, used: BudgetUsage)
    ensures !decision.Deny? ==>
      var whole := FinishAdmission(events, decision, request, mode, impact, budget, used);
      var tail := FinishAdmission([], decision, request, mode, impact, budget, used);
      whole == Verdict(events + tail.events, tail.action)
  {
    if !decision.Deny? {
      var tail := FinishAdmission([], decision, request, mode, impact, budget, used);
      var last := [ToolResult(request.effectId, ResultDryRun, None, Clean, [])];
      assert (events + [ImpactEstimated(impact)]) + last == events + ([ImpactEstimated(impact)] + last);
    }
  }

  /** What a live admission hands the runtime to write, and what it then asks for. */
  lemma AdmissionShape(g: Gateway, req: AdmitRequest)
    requires req.mode.Live?
    ensures var v := g.Admit(req);
      && 2 <= |v.events| <= 3
      && v.events[0].ToolRequested? && v.events[0].effectId == req.effectId && v.events[0].turn == req.turn
      && PlannedCall(v.events[0].tool, v.events[0].paramsRef) == req.call
      && v.events[1].PolicyEvaluated? && v.events[1].effectId == req.effectId
      && (v.events[1].decision.DecidedAllow? ==> v.events[0].effectClass.Read? || req.taint == Clean)
      && (|v.events| == 3 ==> v.events[2].ImpactEstimated? && v.events[2].impact.effectId == req.effectId)
      && ActionMatches(v.action, req.effectId, v.events[1].decision, v.events[0].effectClass)
  {
  }

  /** The second half of a live admission adds one impact estimate and settles the action. */
  lemma PreviewShape(g: Gateway, p: PendingAdmit, preview: Option<PreviewOutcome>)
    requires p.mode.Live? && !p.decision.Deny?
    ensures var v := g.AdmitWithPreview(p, preview);
      && |v.events| == 1 && v.events[0].ImpactEstimated? && v.events[0].impact.effectId == p.request.effectId
      && !v.action.NeedPreview?
      && ActionMatches(v.action, p.request.effectId, KindOf(p.decision), p.request.effectClass)
  {
  }

  /** A live action agrees with the recorded request and policy verdict. */
  predicate ActionMatches(action: GatewayAction, e: EffectId, said: PolicyDecisionKind, c: EffectClass)
  {
    match action
    case Dispatch(request) => said.DecidedAllow? && request.effectId == e && request.effectClass == c
    case DryRunOnly(_) => false
    case Reject(_) => true
    case AskApproval(_, _, _) => said.DecidedRequireApproval?
    case BudgetExceeded(_, _) => true
    case NeedPreview(p) =>
      && p.mode.Live? && !p.decision.Deny? && said == KindOf(p.decision)
      && p.request.effectId == e && p.request.effectClass == c
  }

  /** The gate that stops an effect is at least the gate that stops a turn. */
  lemma EffectGateCoversTurnGate(spec: BudgetSpec, used: BudgetUsage, est: Option<nat>)
    ensures K.BudgetExhaustedBy(spec, used) ==> BudgetGate(spec, used, est).Some?
    ensures BudgetGate(spec, used, None).Some? ==> K.BudgetExhaustedBy(spec, used)
  {
  }
}

/**
 * What the gateway records and decides, read off the tool's manifest, the policy's answer and the
 * limits alone.
 */
module GateMeaning {
  import opened Protocol
  import opened KernelState
  import opened Events
  import opened Policy
  import opened Admission

  // ---------------------------------------------------------------- the targets of a call

  /** The targets of a call are those of its declarations, one after the other. */
  lemma {:induction false} TargetsInOrder(a: seq<TargetSpec>, b: seq<TargetSpec>, params: Params)
    ensures ResolveAll(a + b, params) == ResolveAll(a, params) + ResolveAll(b, params)
  {
    hide ResolveAll;
    if a == [] {
      assert a + b == b;
      NoTargets(params);
    } else {
      TargetsInOrder(a[1..], b, params);
      FirstTarget(a, params);
      FirstTarget(a + b, params);
      assert (a + b)[1..] == a[1..] + b;
    }
  }

  lemma NoTargets(params: Params)
    ensures ResolveAll([], params) == []
  {
  }

  lemma FirstTarget(specs: seq<TargetSpec>, params: Params)
    requires specs != []
    ensures ResolveAll(specs, params)
         == (match specs[0].Resolve(params) case Some(t) => [t] case None => []) + ResolveAll(specs[1..], params)
  {
    hide TargetSpec.Resolve;
  }

  /** A declaration names what it says literally, or the parameter it points at if the call has it. */
  lemma OneTarget(spec: TargetSpec, params: Params)
    ensures spec.Literal? ==>
      ResolveAll([spec], params) == [ImpactTarget(ResourceRef(spec.kind, spec.literal), spec.op)]
    ensures spec.FromParam? && spec.pointer in params ==>
      ResolveAll([spec], params) == [ImpactTarget(ResourceRef(spec.kind, params[spec.pointer]), spec.op)]
    ensures spec.FromParam? && spec.pointer !in params ==> ResolveAll([spec], params) == []
  {
    assert [spec][1..] == [];
  }

  // ---------------------------------------------------------------- what is recorded

  /** The request says of the tool what its manifest says, and the strictest where it has none. */
  predicate AsDeclared(body: EventBody, manifests: map<ToolId, ToolManifest>)
  {
    body.ToolRequested? ==>
      if body.tool in manifests then
        var m := manifests[body.tool];
        && body.effectClass == m.effectClass && body.reversible == m.reversible && body.declaredEgress == m.egress
      else
        body.effectClass == External && !body.reversible && body.declaredEgress == [] && body.declaredTargets == []
  }

  /** The request an action carries. */
  function CarriedBy(action: GatewayAction): Option<EffectRequest>
  {
    match action
    case Dispatch(request) => Some(request)
    case DryRunOnly(request) => Some(request)
    case Reject(_) => None
    case AskApproval(_, request, _) => Some(request)
    case NeedPreview(pending) => Some(pending.request)
    case BudgetExceeded(_, request) => Some(request)
  }

  /** The first entry of an admission is the call itself, with the class, reversibility, egress and
      resolved targets of the tool's manifest. */
  lemma ToolIsRecorded(g: Gateway, req: AdmitRequest)
    ensures var body := g.Admit(req).events[0];
      && body.ToolRequested? && body.effectId == req.effectId && body.turn == req.turn
      && body.tool == req.call.tool && body.paramsRef == req.call.paramsRef
      && AsDeclared(body, g.manifests)
      && (body.tool in g.manifests ==>
            var targets := ResolveAll(g.manifests[body.tool].targets, req.params);
            && |body.declaredTargets| == |targets|
            && forall i :: 0 <= i < |targets| ==> body.declaredTargets[i] == targets[i].resource)
  {
    assert ResolveAll([], req.params) == [];
  }

  /** Whatever the gateway hands on, at once or after a preview, is the request it recorded. */
  lemma RequestIsTheRecord(g: Gateway, req: AdmitRequest, preview: Option<PreviewOutcome>, request: EffectRequest)
    requires
      CarriedBy(g.Admit(req).action) == Some(request) || CarriedBy(g.AdmitFully(req, preview).action) == Some(request)
    ensures var body := g.Admit(req).events[0];
      && g.AdmitFully(req, preview).events[0] == body && body.ToolRequested?
      && request == EffectRequest(req.effectId, req.turn, req.call.tool, req.call.paramsRef, body.effectClass,
                                  body.declaredTargets, body.declaredEgress, body.reversible, req.taint,
                                  req.capability)
  {
    hide ResolveAll, BudgetGate, Estimate, Resources;
  }

  // ---------------------------------------------------------------- what is decided

  /** The capability's scopes name the tool, or everything. */
  predicate InScope(req: AdmitRequest)
  {
    "*" in req.capability.scopes || req.call.tool in req.capability.scopes
  }

  /** What the policy says to a call as it was recorded. */
  function PolicyWord(g: Gateway, req: AdmitRequest): (PolicyDecision, seq<string>)
  {
    var body := g.Admit(req).events[0];
    g.policy(PolicyContext(req.call.tool, body.effectClass, req.taint, body.declaredTargets, body.reversible))
  }

  lemma OutOfScopeIsRefused(g: Gateway, req: AdmitRequest)
    requires !InScope(req)
    ensures g.Admit(req) == Verdict(
              [g.Admit(req).events[0], PolicyEvaluated(req.effectId, DecidedDeny, [], "capability_scope")],
              Reject("capability_scope"))
  {
  }

  /**
   * The judgement of a call within its scopes, by its cases: a policy's denial stands; without a
   * manifest, and tainted doing more than reading, it goes to a human; otherwise the policy's word
   * stands. Each time the record says which, with the policy's trace. A preview is asked for exactly
   * where the manifest declares one and the call is not denied.
   */
  lemma JudgementIsExact(g: Gateway, req: AdmitRequest)
    requires InScope(req)
    ensures var ((said, rules), v, tool) := (PolicyWord(g, req), g.Admit(req), req.call.tool);
      && (said.Deny? ==>
            v == Verdict([v.events[0], PolicyEvaluated(req.effectId, DecidedDeny, rules, said.reasonCode)],
                         Reject(said.reasonCode)))
      && (!said.Deny? ==> !v.action.Reject?)
      && (!said.Deny? && tool !in g.manifests ==>
            v.events[1] == PolicyEvaluated(req.effectId, DecidedRequireApproval, rules, "no_manifest"))
      && (!said.Deny? && tool in g.manifests ==>
            v.events[1] == if req.taint == Tainted && g.manifests[tool].effectClass != Read
              then PolicyEvaluated(req.effectId, DecidedRequireApproval, rules, "taint_gate")
              else PolicyEvaluated(req.effectId, if said.Allow? then DecidedAllow else DecidedRequireApproval, rules,
                                   "policy"))
      && (v.action.NeedPreview? <==> !said.Deny? && tool in g.manifests && g.manifests[tool].preview.Some?)
  {
  }

  /** The estimate of a call's impact: a preview's own answer if the tool declares one and there is an
      answer, and otherwise the declared targets, if there are any. */
  lemma ImpactIsExact(g: Gateway, req: AdmitRequest, preview: Option<PreviewOutcome>)
    requires !g.Admit(req).action.Reject?
    ensures var events := g.AdmitFully(req, preview).events;
      && |events| >= 3 && events[2].ImpactEstimated? && events[2].impact.effectId == req.effectId
      && var impact, tool := events[2].impact, req.call.tool;
         && impact.externals == (if tool in g.manifests then g.manifests[tool].egress else [])
         && if tool in g.manifests && g.manifests[tool].preview.Some? && preview.Some? then
              && impact.targets == preview.value.targets && impact.estCostMicros == preview.value.estCostMicros
              && impact.precision == Exact
            else
              var targets := if tool in g.manifests then ResolveAll(g.manifests[tool].targets, req.params) else [];
              && impact.targets == targets && impact.estCostMicros == None
              && impact.precision == (if targets == [] then Unknown else DeclaredOnly)
  {
    assert ResolveAll([], req.params) == [];
  }

  /** The outcome of a call that is not refused: a stop for money, else a question to a human if it is
      held, else in a dry run no more than a record if it would write or reach out, else its dispatch. */
  lemma OutcomeIsExact(g: Gateway, req: AdmitRequest, preview: Option<PreviewOutcome>)
    requires !g.Admit(req).action.Reject?
    ensures IsOutcome(g.AdmitFully(req, preview), g.Admit(req).events, req)
  {
    hide ResolveAll, BudgetGate, Estimate, Resources;
  }

  predicate IsOutcome(v: Verdict, recorded: seq<EventBody>, req: AdmitRequest)
  {
    && |recorded| >= 2 && recorded[0].ToolRequested? && recorded[1].PolicyEvaluated?
    && |v.events| >= 3 && v.events[..2] == recorded[..2] && v.events[2].ImpactEstimated?
    && var held, impact := recorded[1].decision == DecidedRequireApproval, v.events[2].impact;
       var stop := BudgetGate(req.budget, req.budgetUsed, impact.estCostMicros);
       var effectClass := recorded[0].effectClass;
       if stop.Some? then v.action.BudgetExceeded? && v.action.reasonCode == stop.value && |v.events| == 3
       else if held then v.action.AskApproval? && v.action.impact == impact && |v.events| == 3
       else if req.mode == DryRun && (effectClass == Write || effectClass == External) then
         v.action.DryRunOnly? && v.events[3..] == [ToolResult(req.effectId, ResultDryRun, None, Clean, [])]
       else v.action.Dispatch? && |v.events| == 3
  }

  /** And a held call is put to a human at the highest risk without a manifest, at the middle one when
      tainted and doing more than reading unless the policy asked for the highest, and otherwise at the
      risk the policy asked for. */
  lemma RiskIsExact(g: Gateway, req: AdmitRequest, preview: Option<PreviewOutcome>)
    requires g.AdmitFully(req, preview).action.AskApproval?
    ensures var (said, tool, risk) := (PolicyWord(g, req).0, req.call.tool, g.AdmitFully(req, preview).action.risk);
      && (tool !in g.manifests ==> risk == L3)
      && (tool in g.manifests && req.taint == Tainted && g.manifests[tool].effectClass != Read ==>
            risk == if said == RequireApproval(L3) then L3 else L2)
      && (tool in g.manifests && (req.taint == Clean || g.manifests[tool].effectClass == Read) ==>
            said == RequireApproval(risk))
  {
    hide ResolveAll, BudgetGate, Estimate, Resources;
  }
}

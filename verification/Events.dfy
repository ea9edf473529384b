/** What one entry of a run's log can say. */
module Events {
  import opened Protocol
  import opened KernelState

  datatype SuspendReason = AwaitingApproval | AwaitingHuman | BudgetExhausted | Paused
  datatype CompletionStatus = CompletedOk | CompletedPartial | CompletedFailed
  datatype ToolResultStatus = ResultOk | ResultError | ResultDryRun | ResultDenied
  datatype PolicyDecisionKind = DecidedAllow | DecidedDeny | DecidedRequireApproval
  datatype ImpactPrecision = Exact | DeclaredOnly | Unknown
  datatype CheckpointReason = Periodic | PreWrite | PreApproval

  datatype Usage = Usage(input: nat, output: nat)
  datatype ImpactTarget = ImpactTarget(resource: ResourceRef, op: ResourceOp)
  datatype Impact = Impact(
    effectId: EffectId, targets: seq<ImpactTarget>, externals: seq<EgressRef>,
    estCostMicros: Option<nat>, precision: ImpactPrecision)

  datatype TrustLevel = UserDirect | OrgTrusted | Untrusted
  datatype ContextBlock = ContextBlock(
    citeId: CiteId, source: BlockSource, trust: TrustLevel, content: BlobRef, span: Option<ToolId>,
    tokenEstimate: nat)

  datatype EventBody =
    | RunCreated(budget: BudgetSpec)
    | IntentDeclared(intentRef: BlobRef)
    | EnvSampled(turn: nat, wallClockMs: nat, rngSeed: string)
    | ContextAssembled(turn: nat, profile: string, blocks: seq<ContextBlock>, taintLevel: TaintLevel,
                       totalTokenEstimate: nat)
    | ModelRequested(turn: nat)
    | ModelResponded(turn: nat, usage: Usage)
    | PlanStep(plan: Plan)
    | ToolRequested(effectId: EffectId, turn: nat, tool: ToolId, paramsRef: BlobRef, effectClass: EffectClass,
                    declaredTargets: seq<ResourceRef>, declaredEgress: seq<EgressRef>, reversible: bool)
    | PolicyEvaluated(effectId: EffectId, decision: PolicyDecisionKind, rulesHit: seq<string>,
                      reasonCode: string)
    | ImpactEstimated(impact: Impact)
    | EffectDispatched(effectId: EffectId, mode: ExecutionMode)
    | ToolResult(effectId: EffectId, status: ToolResultStatus, outputRef: Option<BlobRef>,
                 taint: TaintLevel, citesProduced: seq<CiteId>)
    | CostCharged(amountMicros: nat)
    | BudgetAmended(budget: BudgetSpec)
    | Checkpoint(stateHash: StateHash, reason: CheckpointReason)
    | RunCompleted(completion: CompletionStatus)
    | RunSuspended(suspendReason: SuspendReason)
    | RunResumed(fromSeq: nat)
    | RunFailed(code: string)
    | ApprovalRequested(approvalId: ApprovalId, effectId: EffectId, risk: RiskLevel, expiresAtMs: nat)
    | ApprovalGranted(approvalId: ApprovalId)
    | ApprovalDenied(approvalId: ApprovalId)
    | ApprovalExpired(approvalId: ApprovalId)
    | ClarificationRequested(questionId: QuestionId, promptRef: BlobRef, options: seq<string>)
    | ClarificationAnswered(questionId: QuestionId, option: Option<string>, freeText: Option<BlobRef>)
    | ContextCompacted(summaryRef: BlobRef)
    | ArtifactEmitted(artifactId: ArtifactId, path: string, blob: BlobRef, supersedes: Option<ArtifactId>)

  datatype Event = Event(seqNo: nat, recordedAt: string, actor: Actor, body: EventBody)

  /** The events of a log carry its positions as their sequence numbers. */
  predicate Numbered(log: seq<Event>)
  {
    forall i :: 0 <= i < |log| ==> log[i].seqNo == i
  }

  /** The log records the request of `e`: an effect is named after the event before it. */
  predicate IsRequested(log: seq<Event>, e: EffectId)
  {
    e.at + 1 < |log| && log[e.at + 1].body.ToolRequested? && log[e.at + 1].body.effectId == e
  }

  /** The log records that question `q` was put to a human. */
  predicate Asked(log: seq<Event>, q: QuestionId)
  {
    q.at + 1 < |log| && log[q.at + 1].body.ClarificationRequested? && log[q.at + 1].body.questionId == q
  }

  /** The taint an event brings into the run. */
  function CarriedTaint(body: EventBody): TaintLevel
  {
    match body
    case ContextAssembled(_, _, _, t, _) => t
    case PlanStep(p) => p.taintInherited
    case ToolResult(_, _, _, t, _) => t
    case _ => Clean
  }

  /** The events that end a stretch of driving. */
  predicate EndsDriving(body: EventBody)
  {
    body.RunCompleted? || body.RunFailed? || body.RunSuspended?
  }
}

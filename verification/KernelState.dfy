/** The kernel's whole state, and the hash a checkpoint records of it. */
module KernelState {
  import opened Protocol

  datatype RunStatus = Running | Suspended | Completed | Failed

  datatype AwaitReason =
    | AwaitApproval(approvalId: ApprovalId, effectId: EffectId)
    | AwaitClarification(questionId: QuestionId)
    | AwaitBudget
    | AwaitExternalEvent(kind: string)

  datatype EffectState = Requested | Approved | Dispatched | Settled | Denied {
    predicate IsResolved() { Settled? || Denied? }
  }

  datatype ArtifactRecord = ArtifactRecord(artifactId: ArtifactId, path: string, contentHash: BlobRef)

  datatype ContextRecord = ContextRecord(
    turn: nat, profile: string, blockCount: nat, taintLevel: TaintLevel, totalTokenEstimate: nat)

  datatype RunState = RunState(
    status: RunStatus,
    turn: nat,
    clockMs: nat,
    clockStartMs: Option<nat>,
    rngSeed: string,
    intent: Option<BlobRef>,
    context: Option<ContextRecord>,
    taint: TaintLevel,
    lastPlan: Option<Plan>,
    pendingEffects: map<EffectId, EffectState>,
    awaiting: Option<AwaitReason>,
    pendingApprovals: map<ApprovalId, EffectId>,
    pendingQuestion: Option<QuestionId>,
    budget: BudgetSpec,
    budgetUsed: BudgetUsage,
    artifacts: seq<ArtifactRecord>,
    cites: set<CiteId>,
    envSampledTurn: Option<nat>,
    contextTurn: Option<nat>,
    planTurn: Option<nat>,
    lastSeq: nat,
    lastCheckpointSeq: Option<nat>)
  {
    /** How many events were written since the last checkpoint. */
    function EventsSinceCheckpoint(): nat
    {
      match lastCheckpointSeq
      case None => lastSeq + 1
      case Some(at) => if at <= lastSeq then lastSeq - at else 0
    }

    predicate AllResolved()
    {
      forall e :: e in pendingEffects ==> pendingEffects[e].IsResolved()
    }
  }

  function NewState(): RunState
  {
    RunState(Running, 0, 0, None, "", None, None, Clean, None, map[], None, map[], None,
             UNLIMITED, UNUSED, [], {}, None, None, None, 0, None)
  }

  // A collision-free digest: distinct states have distinct hashes because a constructor
  // is injective.
  datatype StateHash = StateHash(preimage: RunState)
}

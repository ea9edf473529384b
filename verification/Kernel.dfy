/** The pure kernel: `Reduce` folds the log into a state, `Decide` names the next commands. */
module Kernel {
  import opened Protocol
  import opened KernelState
  import opened Events

  const CHECKPOINT_EVERY: nat := 50

  datatype Command =
    | SampleEnv
    | AssembleContext(turn: nat, profile: string)
    | CallModel(turn: nat)
    | RequestEffect(call: PlannedCall)
    | AskClarification(clarification: PlannedClarification)
    | TakeCheckpoint(reason: CheckpointReason)
    | Suspend(awaitReason: AwaitReason)
    | Complete(completeStatus: RunStatus)

  function AdvanceTurnIfAllEffectsResolved(s: RunState): RunState
  {
    if s.AllResolved() then s.(turn := s.turn + 1) else s
  }

  /** The smallest pending approval, if any: the one a suspension points at. The source keeps them
      by the text of their ids; the order of the numbers in the ids agrees with it because a lawful
      log never has two pending at once. */
  function FirstPendingApproval(pending: map<ApprovalId, EffectId>): (r: Option<AwaitReason>)
    ensures r.None? <==> pending == map[]
    ensures r.Some? ==> r.value.AwaitApproval? && r.value.approvalId in pending
                        && pending[r.value.approvalId] == r.value.effectId
    ensures r.Some? ==> forall b :: b in pending ==> r.value.approvalId.at <= b.at
  {
    if pending == map[] then None
    else
      LeastApprovalExists(pending.Keys);
      var a :| a in pending.Keys && forall b :: b in pending.Keys ==> a.at <= b.at;
      Some(AwaitApproval(a, pending[a]))
  }

  lemma {:induction false} LeastApprovalExists(ids: set<ApprovalId>)
    requires ids != {}
    ensures exists a :: a in ids && forall b :: b in ids ==> a.at <= b.at
    decreases |ids|
  {
    var x :| x in ids;
    var rest := ids - {x};
    if rest != {} {
      LeastApprovalExists(rest);
      var a :| a in rest && forall b :: b in rest ==> a.at <= b.at;
      var m := if x.at <= a.at then x else a;
      assert forall b :: b in ids ==> b == x || b in rest;
      assert m in ids && forall b :: b in ids ==> m.at <= b.at;
    } else {
      assert forall b :: b in ids ==> b == x || b in rest;
    }
  }

  function DenyApproved(s: RunState, a: ApprovalId): RunState
  {
    if a in s.pendingApprovals then
      AdvanceTurnIfAllEffectsResolved(
        s.(pendingApprovals := s.pendingApprovals - {a},
           pendingEffects := s.pendingEffects[s.pendingApprovals[a] := Denied]))
    else s
  }

  function SatSub(a: nat, b: nat): nat { if b <= a then a - b else 0 }

  /** One event folded into the state. */
  function Reduce(state: RunState, event: Event): RunState
  {
    var s := state.(lastSeq := event.seqNo);
    match event.body
    case RunCreated(b) => s.(budget := b, status := Running)
    case IntentDeclared(i) => s.(intent := Some(i))
    case EnvSampled(t, clock, seed) =>
      var start := if s.clockStartMs.Some? then s.clockStartMs.value else clock;
      s.(turn := t, clockMs := clock, clockStartMs := Some(start),
         budgetUsed := s.budgetUsed.(wallMs := MaxNat(s.budgetUsed.wallMs, SatSub(clock, start))),
         rngSeed := seed, envSampledTurn := Some(t))
    case ContextAssembled(t, profile, blocks, taint, tokens) =>
      s.(context := Some(ContextRecord(t, profile, |blocks|, taint, tokens)),
         taint := s.taint.Join(taint),
         cites := s.cites + (set b | b in blocks :: b.citeId),
         contextTurn := Some(t))
    case ModelRequested(_) => s
    case ModelResponded(_, usage) =>
      s.(budgetUsed := s.budgetUsed.(tokens := s.budgetUsed.tokens + usage.input + usage.output))
    case PlanStep(p) =>
      s.(taint := s.taint.Join(p.taintInherited), lastPlan := Some(p), planTurn := Some(p.turn))
    case ToolRequested(e, _, _, _, _, _, _, _) =>
      s.(pendingEffects := s.pendingEffects[e := Requested])
    case PolicyEvaluated(_, _, _, _) => s
    case ImpactEstimated(_) => s
    case EffectDispatched(e, _) => s.(pendingEffects := s.pendingEffects[e := Dispatched])
    case ToolResult(e, status, _, taint, cites) =>
      AdvanceTurnIfAllEffectsResolved(
        s.(pendingEffects := s.pendingEffects[e := if status.ResultDenied? then Denied else Settled],
           taint := s.taint.Join(taint),
           cites := s.cites + (set c | c in cites)))
    case CostCharged(amount) =>
      s.(budgetUsed := s.budgetUsed.(amountMicros := s.budgetUsed.amountMicros + amount))
    case BudgetAmended(b) => s.(budget := b)
    case Checkpoint(_, _) => s.(lastCheckpointSeq := Some(event.seqNo))
    case RunCompleted(c) => s.(status := if c.CompletedFailed? then Failed else Completed)
    case RunSuspended(reason) =>
      s.(status := Suspended,
         awaiting := match reason
           case AwaitingApproval => FirstPendingApproval(s.pendingApprovals)
           // The source panics when no question is pending; a lawful log never gets there.
           case AwaitingHuman =>
             if s.pendingQuestion.Some? then Some(AwaitClarification(s.pendingQuestion.value)) else None
           case BudgetExhausted => Some(AwaitBudget)
           case Paused => Some(AwaitExternalEvent("manual_pause")))
    case RunResumed(_) => s.(status := Running, awaiting := None)
    case RunFailed(_) => s.(status := Failed)
    case ApprovalRequested(a, e, _, _) => s.(pendingApprovals := s.pendingApprovals[a := e])
    case ApprovalGranted(a) =>
      if a in s.pendingApprovals then
        var e := s.pendingApprovals[a];
        var t := s.(pendingApprovals := s.pendingApprovals - {a});
        if e in t.pendingEffects && t.pendingEffects[e] == Requested then
          t.(pendingEffects := t.pendingEffects[e := Approved])
        else t
      else s
    case ApprovalDenied(a) => DenyApproved(s, a)
    case ApprovalExpired(a) => DenyApproved(s, a)
    case ClarificationRequested(q, _, _) => s.(pendingQuestion := Some(q))
    case ClarificationAnswered(_, _, _) => s.(pendingQuestion := None, contextTurn := None, planTurn := None)
    case ContextCompacted(_) => s
    case ArtifactEmitted(id, path, blob, _) =>
      s.(artifacts := s.artifacts + [ArtifactRecord(id, path, blob)])
  }

  /** Events stacked on a given state, oldest first. */
  function FoldFrom(s: RunState, events: seq<Event>): RunState
    decreases |events|
  {
    if events == [] then s
    else Reduce(FoldFrom(s, events[..|events| - 1]), events[|events| - 1])
  }

  function Fold(events: seq<Event>): RunState
  {
    FoldFrom(NewState(), events)
  }

  predicate BudgetExhaustedBy(spec: BudgetSpec, used: BudgetUsage)
  {
    || (spec.maxTokens.Some? && used.tokens >= spec.maxTokens.value)
    || (spec.maxAmountMicros.Some? && used.amountMicros >= spec.maxAmountMicros.value)
    || (spec.maxWallSeconds.Some? && used.wallMs >= spec.maxWallSeconds.value * 1000)
  }

  predicate OutOfBudget(s: RunState)
  {
    BudgetExhaustedBy(s.budget, s.budgetUsed)
  }

  /** What the kernel wants done next, apart from a periodic checkpoint. */
  function NextCommand(s: RunState): (cmds: seq<Command>)
  {
    if OutOfBudget(s) then [Suspend(AwaitBudget)]
    else if !s.AllResolved() then []
    else if s.envSampledTurn != Some(s.turn) then [SampleEnv]
    else if s.contextTurn != Some(s.turn) then [AssembleContext(s.turn, "default")]
    else if s.planTurn != Some(s.turn) then [CallModel(s.turn)]
    else
      match s.lastPlan
      case None => [Complete(Completed)]
      case Some(plan) =>
        match plan.intent
        case ToolCall =>
          if plan.call.Some? then [RequestEffect(plan.call.value)] else [Complete(Failed)]
        case Clarify =>
          if plan.clarification.Some? then [AskClarification(plan.clarification.value)]
          else [Complete(Failed)]
        case Finish => [Complete(Completed)]
  }

  function Decide(s: RunState): (cmds: seq<Command>)
  {
    if s.status != Running || s.awaiting.Some? then []
    else
      (if s.EventsSinceCheckpoint() >= CHECKPOINT_EVERY then [TakeCheckpoint(Periodic)] else [])
      + NextCommand(s)
  }

  /** What the kernel's commands rest on: nothing is decided for a run that stands still; new work
      is started only within budget and with no effect open; over budget the only work is to
      suspend; an effect or a question is asked for only from the plan of this very turn. */
  lemma DecideGates(s: RunState, cmd: Command)
    requires cmd in Decide(s)
    ensures s.status == Running && s.awaiting.None? && |Decide(s)| <= 2
    ensures cmd.TakeCheckpoint? ==> s.EventsSinceCheckpoint() >= CHECKPOINT_EVERY && cmd == Decide(s)[0]
    ensures cmd.Suspend? <==> !cmd.TakeCheckpoint? && OutOfBudget(s)
    ensures !cmd.TakeCheckpoint? && !cmd.Suspend? ==> s.AllResolved()
    ensures cmd.RequestEffect? || cmd.AskClarification? || cmd.Complete? ==>
      s.envSampledTurn == s.contextTurn == s.planTurn == Some(s.turn)
    ensures cmd.RequestEffect? ==> s.lastPlan.Some? && s.lastPlan.value.call == Some(cmd.call)
    ensures cmd.AskClarification? ==> s.lastPlan.Some? && s.lastPlan.value.clarification == Some(cmd.clarification)
  {
  }

  /** The kernel falls silent exactly when the run stands still, or an affordable run with no
      checkpoint due waits for an effect to settle. */
  lemma DecideSilence(s: RunState)
    ensures Decide(s) == [] <==>
      || s.status != Running
      || s.awaiting.Some?
      || (s.EventsSinceCheckpoint() < CHECKPOINT_EVERY && !OutOfBudget(s) && !s.AllResolved())
  {
  }

  lemma FoldAppend(s: RunState, events: seq<Event>, e: Event)
    ensures FoldFrom(s, events + [e]) == Reduce(FoldFrom(s, events), e)
  {
    assert (events + [e])[..|events|] == events;
  }

  /** Folding a log in two stretches is folding it in one. */
  lemma {:induction false} FoldSplit(s: RunState, a: seq<Event>, b: seq<Event>)
    ensures FoldFrom(FoldFrom(s, a), b) == FoldFrom(s, a + b)
    decreases |b|
  {
    if b == [] {
      assert a + b == a;
    } else {
      var init := b[..|b| - 1];
      FoldSplit(s, a, init);
      assert (a + b)[..|a + b| - 1] == a + init;
    }
  }
}

/**
 * The write protocol of a run's log: which event may follow which log.
 *
 * `MayAppend` states, for each kind of event, what holds of the folded log at the moment the
 * runtime writes it. The runtime is proved to write only such events, also when a call stops
 * half way; every prefix of a lawful log is lawful, so a crash after any append is covered.
 * The invariant of the kernel's ledgers is proved here once, for all lawful logs.
 */
module WriteProtocol {
  import opened Protocol
  import opened KernelState
  import opened Events
  import opened Kernel
  import opened Context

  const MAX_TURNS: nat := 64
  const APPROVAL_TTL_MS: nat := 24 * 60 * 60 * 1000

  /** The effects that get a checkpoint of their own. */
  predicate ChangesTheWorld(c: EffectClass)
  {
    c.Write? || c.External?
  }

  /** Running, in budget, and not waiting for any effect: the kernel may start new work. */
  predicate Idle(s: RunState)
  {
    s.status == Running && !OutOfBudget(s) && s.AllResolved()
  }

  /** The turn has its plan. */
  predicate HasPlan(s: RunState)
  {
    s.planTurn == Some(s.turn) && s.lastPlan.Some?
  }

  /** A plan for a call or a question that does not say which. */
  predicate IsHollow(p: Plan)
  {
    (p.intent.ToolCall? && p.call.None?) || (p.intent.Clarify? && p.clarification.None?)
  }

  /** The class an effect was requested with. */
  function ClassOf(log: seq<Event>, e: EffectId): EffectClass
    requires IsRequested(log, e)
  {
    log[e.at + 1].body.effectClass
  }

  /** The last event is a checkpoint taken for this reason. */
  predicate MarkedFor(log: seq<Event>, reason: CheckpointReason)
  {
    log != [] && log[|log| - 1].body.Checkpoint? && log[|log| - 1].body.reason == reason
  }

  /** The policy verdict on `e` follows its request immediately. */
  predicate PolicySaid(log: seq<Event>, e: EffectId, d: PolicyDecisionKind)
  {
    && e.at + 2 < |log|
    && log[e.at + 2].body.PolicyEvaluated?
    && log[e.at + 2].body.effectId == e
    && log[e.at + 2].body.decision == d
  }

  /** The log records approval `a`, asked for effect `e`. */
  predicate AsksFor(log: seq<Event>, a: ApprovalId, e: EffectId)
  {
    && a.at + 1 < |log|
    && log[a.at + 1].body.ApprovalRequested?
    && log[a.at + 1].body.approvalId == a
    && log[a.at + 1].body.effectId == e
  }

  /** Event `g` grants an approval that was asked for effect `e`. */
  predicate GrantsAt(log: seq<Event>, g: nat, e: EffectId)
  {
    && g < |log|
    && log[g].body.ApprovalGranted?
    && AsksFor(log[..g], log[g].body.approvalId, e)
  }

  ghost predicate Granted(log: seq<Event>, e: EffectId)
  {
    exists g: nat :: GrantsAt(log, g, e)
  }

  /** The last event, looking past charges and artifacts, is a model reply or a tool result. */
  predicate SpendOpen(log: seq<Event>)
    decreases |log|
  {
    log != [] &&
    var last := log[|log| - 1].body;
    || last.ModelResponded?
    || last.ToolResult?
    || ((last.CostCharged? || last.ArtifactEmitted?) && SpendOpen(log[..|log| - 1]))
  }

  /** A human granted `e`, or the policy allowed it and it is still waiting. */
  predicate MayDispatch(s: RunState, log: seq<Event>, e: EffectId)
  {
    && e in s.pendingEffects && s.pendingApprovals == map[]
    && (s.pendingEffects[e] == Approved || (s.pendingEffects[e] == Requested && PolicySaid(log, e, DecidedAllow)))
  }

  /** What holds of the log, and of the state `s` folded from it, when an event is written. */
  predicate MayAppend(s: RunState, log: seq<Event>, actor: Actor, body: EventBody)
  {
    match body
    case RunCreated(_) => log == []
    case IntentDeclared(_) => |log| == 1 && log[0].body.RunCreated?
    case EnvSampled(t, _, _) => Idle(s) && t == s.turn
    case ContextAssembled(t, _, blocks, taint, _) =>
      && Idle(s) && t == s.turn && s.intent.Some? && s.envSampledTurn == Some(t)
      && ShowsAll(blocks, s.intent.value, log) && taint == TaintOf(blocks)
    case ModelRequested(t) => Idle(s) && t == s.turn && s.contextTurn == Some(t)
    case ModelResponded(t, _) => Idle(s) && t == s.turn && s.contextTurn == Some(t)
    case PlanStep(p) =>
      && s.status == Running && s.AllResolved()
      && p.turn == s.turn && s.contextTurn == Some(p.turn) && p.taintInherited == s.taint
    case ToolRequested(e, t, tool, params, _, _, _, _) =>
      && |log| > 0 && e.at == |log| - 1 && t == s.turn && Idle(s) && s.turn <= MAX_TURNS
      && HasPlan(s) && s.lastPlan.value.call == Some(PlannedCall(tool, params))
    case PolicyEvaluated(e, d, _, _) =>
      && |log| == e.at + 2
      && IsRequested(log, e)
      && (d.DecidedAllow? ==> log[e.at + 1].body.effectClass.Read? || s.taint == Clean)
    case ImpactEstimated(i) => IsRequested(log, i.effectId)
    case EffectDispatched(e, _) =>
      && MayDispatch(s, log, e)
      && IsRequested(log, e)
      && (ChangesTheWorld(ClassOf(log, e)) ==> MarkedFor(log, PreWrite))
    case ToolResult(e, status, _, taint, _) =>
      && e in s.pendingEffects
      && (|| (actor == Executor && s.pendingEffects[e] == Dispatched)
          || (actor == Gateway && status == ResultDenied && taint == Clean
              && s.pendingEffects[e] == Requested && s.pendingApprovals == map[]
              && MarkedFor(log, PreApproval)))
    case CostCharged(_) => s.AllResolved() && SpendOpen(log)
    case BudgetAmended(_) => true
    case Checkpoint(h, _) => h == StateHash(s)
    case RunCompleted(c) =>
      && s.status == Running && s.AllResolved() && HasPlan(s)
      && c == (if IsHollow(s.lastPlan.value) then CompletedFailed else CompletedOk)
      && (c.CompletedOk? ==> s.lastPlan.value.intent == PlanIntent.Finish)
    case RunSuspended(reason) =>
      && (reason == AwaitingHuman ==> s.pendingQuestion.Some?)
      && (reason == AwaitingApproval ==> s.pendingApprovals != map[])
    case RunResumed(from) => s.pendingApprovals == map[] && from == s.lastSeq + 1
    case RunFailed(_) => true
    case ApprovalRequested(a, e, _, deadline) =>
      && MarkedFor(log, PreApproval) && a.at == |log| - 1 && deadline == s.clockMs + APPROVAL_TTL_MS
      && s.pendingApprovals == map[]
      && e in s.pendingEffects && s.pendingEffects[e] == Requested
      && PolicySaid(log, e, DecidedRequireApproval)
    case ApprovalGranted(a) => a in s.pendingApprovals
    case ApprovalDenied(a) => a in s.pendingApprovals && MarkedFor(log, PreApproval)
    case ApprovalExpired(a) => a in s.pendingApprovals
    case ClarificationRequested(q, prompt, options) =>
      && |log| > 0 && q.at == |log| - 1
      && HasPlan(s) && s.lastPlan.value.clarification == Some(PlannedClarification(prompt, options))
    case ClarificationAnswered(q, _, _) => s.pendingQuestion == Some(q)
    case ContextCompacted(_) => false
    case ArtifactEmitted(_, _, _, _) => s.AllResolved() && SpendOpen(log)
  }

  predicate Lawful(log: seq<Event>)
    decreases |log|
  {
    log == [] ||
    var n := |log| - 1;
    Lawful(log[..n]) && log[n].seqNo == n && MayAppend(Fold(log[..n]), log[..n], log[n].actor, log[n].body)
  }

  lemma LawfulAppend(log: seq<Event>, e: Event)
    ensures Lawful(log + [e]) <==> Lawful(log) && e.seqNo == |log| && MayAppend(Fold(log), log, e.actor, e.body)
  {
    assert (log + [e])[..|log|] == log;
  }

  /** A log cut anywhere is still lawful, and its next event obeyed the protocol. */
  lemma {:induction false} LawfulPrefix(log: seq<Event>, k: nat)
    requires Lawful(log) && k <= |log|
    ensures Lawful(log[..k])
    ensures k < |log| ==> log[k].seqNo == k && MayAppend(Fold(log[..k]), log[..k], log[k].actor, log[k].body)
    decreases |log|
  {
    if k == |log| {
      assert log[..k] == log;
    } else {
      var init := log[..|log| - 1];
      LawfulPrefix(init, k);
      assert init[..k] == log[..k];
    }
  }

  lemma {:induction false} LawfulIsNumbered(log: seq<Event>)
    requires Lawful(log)
    ensures Numbered(log)
  {
    forall k | 0 <= k < |log| ensures log[k].seqNo == k {
      LawfulPrefix(log, k);
    }
  }

  // ---------------------------------------------------------------- the ledger invariant

  /** Sequence numbers and the checkpoint marker never run ahead of the log. */
  predicate SeqCounters(s: RunState, log: seq<Event>)
  {
    && s.lastSeq == (if log == [] then 0 else |log| - 1)
    && (s.lastCheckpointSeq.Some? ==> s.lastCheckpointSeq.value <= s.lastSeq)
  }

  predicate AtMost(marker: Option<nat>, turn: nat)
  {
    marker.Some? ==> marker.value <= turn
  }

  /** Stage markers never run ahead of the turn, a context needs an intent, and a planned turn has a
      plan and the context it was made from. */
  predicate StageLedger(s: RunState)
  {
    && AtMost(s.envSampledTurn, s.turn)
    && AtMost(s.contextTurn, s.turn)
    && AtMost(s.planTurn, s.turn)
    && (s.contextTurn.Some? ==> s.intent.Some?)
    && (s.planTurn.Some? ==> s.lastPlan.Some?)
    && (s.planTurn == Some(s.turn) ==> s.contextTurn == Some(s.turn))
  }

  predicate QuestionLedger(s: RunState, log: seq<Event>)
  {
    s.pendingQuestion.Some? ==> Asked(log, s.pendingQuestion.value)
  }

  /** Status and await reason agree; only a failed run may go either way. */
  predicate StatusLedger(s: RunState)
  {
    && (s.status == Running || s.status == Completed ==> s.awaiting.None?)
    && (s.status == Suspended ==> s.awaiting.Some?)
  }

  predicate Open(effects: map<EffectId, EffectState>, e: EffectId)
  {
    e in effects && !effects[e].IsResolved()
  }

  /** At most one effect is open, and none is open past the turn limit. */
  ghost predicate EffectLedger(effects: map<EffectId, EffectState>, turn: nat)
  {
    && (forall e, f :: Open(effects, e) && Open(effects, f) ==> e == f)
    && turn <= MAX_TURNS + 1
    && (forall e :: Open(effects, e) ==> turn <= MAX_TURNS)
  }

  /** At most one approval is pending, and its effect still waits in `Requested`. */
  ghost predicate ApprovalLedger(effects: map<EffectId, EffectState>, approvals: map<ApprovalId, EffectId>)
  {
    && (forall a :: a in approvals ==> approvals[a] in effects && effects[approvals[a]] == Requested)
    && (forall a, b :: a in approvals && b in approvals ==> a == b)
  }

  /** Every effect in the ledger was requested, every pending approval asked for, every
      approved effect granted. */
  ghost predicate PaperTrail(
    effects: map<EffectId, EffectState>, approvals: map<ApprovalId, EffectId>, log: seq<Event>)
  {
    && (forall e :: e in effects ==> IsRequested(log, e))
    && (forall a :: a in approvals ==> AsksFor(log, a, approvals[a]))
    && (forall e :: e in effects && effects[e] == Approved ==> Granted(log, e))
  }

  ghost predicate LedgerOf(s: RunState, log: seq<Event>)
  {
    && SeqCounters(s, log) && StageLedger(s) && StatusLedger(s) && QuestionLedger(s, log)
    && EffectLedger(s.pendingEffects, s.turn)
    && ApprovalLedger(s.pendingEffects, s.pendingApprovals)
    && PaperTrail(s.pendingEffects, s.pendingApprovals, log)
  }

  ghost predicate Ledger(log: seq<Event>)
  {
    LedgerOf(Fold(log), log)
  }

  /** The event kinds that write neither ledger. */
  predicate Quiet(body: EventBody)
  {
    && !body.ToolRequested? && !body.EffectDispatched? && !body.ToolResult?
    && !body.ApprovalRequested? && !body.ApprovalGranted? && !body.ApprovalDenied? && !body.ApprovalExpired?
  }

  lemma QuietFrame(s: RunState, ev: Event)
    requires Quiet(ev.body)
    ensures Reduce(s, ev).pendingEffects == s.pendingEffects
    ensures Reduce(s, ev).pendingApprovals == s.pendingApprovals
    ensures ev.body.EnvSampled? || Reduce(s, ev).turn == s.turn
  {
    hide Reduce;
    QuietForEffects(s, ev);
    QuietForApprovals(s, ev);
    QuietForTurn(s, ev);
  }

  lemma QuietForEffects(s: RunState, ev: Event)
    requires Quiet(ev.body)
    ensures Reduce(s, ev).pendingEffects == s.pendingEffects
  {
    hide AdvanceTurnIfAllEffectsResolved, DenyApproved, FirstPendingApproval;
    match ev.body
    case EnvSampled(_, _, _) =>
    case ContextAssembled(_, _, _, _, _) =>
    case PlanStep(_) =>
    case RunSuspended(_) =>
    case _ =>
  }

  lemma QuietForApprovals(s: RunState, ev: Event)
    requires Quiet(ev.body)
    ensures Reduce(s, ev).pendingApprovals == s.pendingApprovals
  {
    hide AdvanceTurnIfAllEffectsResolved, DenyApproved, FirstPendingApproval;
    match ev.body
    case EnvSampled(_, _, _) =>
    case ContextAssembled(_, _, _, _, _) =>
    case PlanStep(_) =>
    case RunSuspended(_) =>
    case _ =>
  }

  lemma QuietForTurn(s: RunState, ev: Event)
    requires Quiet(ev.body)
    ensures ev.body.EnvSampled? || Reduce(s, ev).turn == s.turn
  {
  }

  /** Facts about a log's past survive its growth. */
  lemma PastStays(log: seq<Event>, ev: Event)
    ensures forall e :: IsRequested(log, e) ==> IsRequested(log + [ev], e)
    ensures forall a, e :: AsksFor(log, a, e) ==> AsksFor(log + [ev], a, e)
    ensures forall q :: Asked(log, q) ==> Asked(log + [ev], q)
    ensures forall e :: Granted(log, e) ==> Granted(log + [ev], e)
  {
    forall e | Granted(log, e) ensures Granted(log + [ev], e) {
      var g: nat :| GrantsAt(log, g, e);
      assert (log + [ev])[..g] == log[..g];
      assert GrantsAt(log + [ev], g, e);
    }
  }

  lemma SeqStep(s: RunState, log: seq<Event>, ev: Event)
    requires SeqCounters(s, log) && ev.seqNo == |log|
    ensures SeqCounters(Reduce(s, ev), log + [ev])
  {
  }

  /** The event kinds that move the turn or a stage marker. */
  predicate Stages(body: EventBody)
  {
    || body.EnvSampled? || body.ContextAssembled? || body.PlanStep? || body.ClarificationAnswered?
    || body.IntentDeclared? || body.ToolResult? || body.ApprovalDenied? || body.ApprovalExpired?
  }

  lemma StageFrame(s: RunState, ev: Event)
    requires !Stages(ev.body)
    ensures var t := Reduce(s, ev);
      && t.turn == s.turn && t.intent == s.intent && t.envSampledTurn == s.envSampledTurn
      && t.contextTurn == s.contextTurn && t.planTurn == s.planTurn && t.lastPlan == s.lastPlan
  {
    hide Reduce;
    TurnFrame(s, ev);
    MarkerFrame(s, ev);
  }

  lemma TurnFrame(s: RunState, ev: Event)
    requires !Stages(ev.body)
    ensures var t := Reduce(s, ev); t.turn == s.turn && t.intent == s.intent && t.lastPlan == s.lastPlan
  {
  }

  lemma MarkerFrame(s: RunState, ev: Event)
    requires !Stages(ev.body)
    ensures var t := Reduce(s, ev);
      && t.envSampledTurn == s.envSampledTurn && t.contextTurn == s.contextTurn && t.planTurn == s.planTurn
  {
  }

  lemma StageStep(s: RunState, log: seq<Event>, ev: Event)
    requires StageLedger(s) && MayAppend(s, log, ev.actor, ev.body)
    ensures StageLedger(Reduce(s, ev))
  {
    match ev.body
    case EnvSampled(_, _, _) =>
    case ContextAssembled(_, _, _, _, _) =>
    case PlanStep(_) =>
    case ClarificationAnswered(_, _, _) =>
    case IntentDeclared(_) =>
    case ToolResult(_, _, _, _, _) =>
    case ApprovalDenied(_) =>
    case ApprovalExpired(_) =>
    case _ =>
      hide Reduce, MayAppend;
      StageFrame(s, ev);
  }

  predicate SetsStatus(body: EventBody)
  {
    || body.RunCreated? || body.RunSuspended? || body.RunResumed? || body.RunCompleted? || body.RunFailed?
  }

  lemma StatusFrame(s: RunState, ev: Event)
    requires !SetsStatus(ev.body)
    ensures Reduce(s, ev).status == s.status && Reduce(s, ev).awaiting == s.awaiting
  {
  }

  lemma StatusStep(s: RunState, log: seq<Event>, ev: Event)
    requires StatusLedger(s) && MayAppend(s, log, ev.actor, ev.body)
    requires log == [] ==> s == NewState()
    ensures StatusLedger(Reduce(s, ev))
  {
    match ev.body
    case RunCreated(_) =>
    case RunSuspended(_) =>
    case RunResumed(_) =>
    case RunCompleted(_) =>
    case RunFailed(_) =>
    case _ =>
      hide Reduce, MayAppend;
      StatusFrame(s, ev);
  }

  lemma QuestionStep(s: RunState, log: seq<Event>, ev: Event)
    requires QuestionLedger(s, log) && MayAppend(s, log, ev.actor, ev.body)
    ensures QuestionLedger(Reduce(s, ev), log + [ev])
  {
    PastStays(log, ev);
  }

  /** Moving one open effect, and dropping its approval with it, keeps both ledgers. */
  lemma MoveKeepsLedgers(
      s: RunState, e: EffectId, state: EffectState, approvals: map<ApprovalId, EffectId>, turn: nat)
    requires EffectLedger(s.pendingEffects, s.turn) && ApprovalLedger(s.pendingEffects, s.pendingApprovals)
    requires Open(s.pendingEffects, e) && approvals == map[]
    requires turn == s.turn || (turn == s.turn + 1 && state.IsResolved())
    ensures EffectLedger(s.pendingEffects[e := state], turn)
    ensures ApprovalLedger(s.pendingEffects[e := state], approvals)
  {
    var moved := s.pendingEffects[e := state];
    assert forall f :: Open(moved, f) ==> Open(s.pendingEffects, f);
  }

  lemma OnlyApproval(s: RunState, a: ApprovalId)
    requires ApprovalLedger(s.pendingEffects, s.pendingApprovals) && a in s.pendingApprovals
    ensures s.pendingApprovals - {a} == map[] && Open(s.pendingEffects, s.pendingApprovals[a])
  {
    assert forall b :: b in s.pendingApprovals ==> b == a;
    assert (s.pendingApprovals - {a}).Keys == {};
  }

  lemma EffectStep(s: RunState, log: seq<Event>, ev: Event)
    requires EffectLedger(s.pendingEffects, s.turn) && ApprovalLedger(s.pendingEffects, s.pendingApprovals)
    requires MayAppend(s, log, ev.actor, ev.body)
    ensures var t := Reduce(s, ev);
      EffectLedger(t.pendingEffects, t.turn) && ApprovalLedger(t.pendingEffects, t.pendingApprovals)
  {
    if Quiet(ev.body) {
      QuietFrame(s, ev);
    } else {
      LoudStep(s, log, ev);
    }
  }

  lemma LoudStep(s: RunState, log: seq<Event>, ev: Event)
    requires EffectLedger(s.pendingEffects, s.turn) && ApprovalLedger(s.pendingEffects, s.pendingApprovals)
    requires MayAppend(s, log, ev.actor, ev.body) && !Quiet(ev.body)
    ensures var t := Reduce(s, ev);
      EffectLedger(t.pendingEffects, t.turn) && ApprovalLedger(t.pendingEffects, t.pendingApprovals)
  {
    var t := Reduce(s, ev);
    match ev.body
    case ToolRequested(_, _, _, _, _, _, _, _) => OpenStep(s, log, ev);
    case EffectDispatched(e, _) => MoveKeepsLedgers(s, e, Dispatched, map[], s.turn);
    case ToolResult(e, status, _, _, _) => CloseStep(s, log, ev);
    case ApprovalGranted(_) => DecisionStep(s, log, ev);
    case ApprovalDenied(_) => DecisionStep(s, log, ev);
    case ApprovalExpired(_) => DecisionStep(s, log, ev);
    case ApprovalRequested(a, e, _, _) =>
  }

  lemma DecisionStep(s: RunState, log: seq<Event>, ev: Event)
    requires EffectLedger(s.pendingEffects, s.turn) && ApprovalLedger(s.pendingEffects, s.pendingApprovals)
    requires MayAppend(s, log, ev.actor, ev.body)
    requires ev.body.ApprovalGranted? || ev.body.ApprovalDenied? || ev.body.ApprovalExpired?
    ensures var t := Reduce(s, ev);
      EffectLedger(t.pendingEffects, t.turn) && ApprovalLedger(t.pendingEffects, t.pendingApprovals)
  {
    var a := ev.body.approvalId;
    OnlyApproval(s, a);
    MoveKeepsLedgers(s, s.pendingApprovals[a], if ev.body.ApprovalGranted? then Approved else Denied, map[],
                     Reduce(s, ev).turn);
  }

  lemma OpenStep(s: RunState, log: seq<Event>, ev: Event)
    requires EffectLedger(s.pendingEffects, s.turn) && ApprovalLedger(s.pendingEffects, s.pendingApprovals)
    requires MayAppend(s, log, ev.actor, ev.body) && ev.body.ToolRequested?
    ensures var t := Reduce(s, ev);
      EffectLedger(t.pendingEffects, t.turn) && ApprovalLedger(t.pendingEffects, t.pendingApprovals)
  {
    var t := Reduce(s, ev);
    assert forall f :: Open(t.pendingEffects, f) ==> f == ev.body.effectId;
    assert forall a :: a !in s.pendingApprovals;
  }

  lemma CloseStep(s: RunState, log: seq<Event>, ev: Event)
    requires EffectLedger(s.pendingEffects, s.turn) && ApprovalLedger(s.pendingEffects, s.pendingApprovals)
    requires MayAppend(s, log, ev.actor, ev.body) && ev.body.ToolResult?
    ensures var t := Reduce(s, ev);
      EffectLedger(t.pendingEffects, t.turn) && ApprovalLedger(t.pendingEffects, t.pendingApprovals)
  {
    var t := Reduce(s, ev);
    var e := ev.body.effectId;
    forall a | a in s.pendingApprovals ensures false {
      assert Open(s.pendingEffects, s.pendingApprovals[a]) && Open(s.pendingEffects, e);
    }
    assert s.pendingApprovals == map[];
    MoveKeepsLedgers(s, e, t.pendingEffects[e], map[], t.turn);
  }

  lemma GrantTrail(s: RunState, log: seq<Event>, ev: Event)
    requires PaperTrail(s.pendingEffects, s.pendingApprovals, log)
    requires ev.body.ApprovalGranted? && ev.body.approvalId in s.pendingApprovals
    ensures PaperTrail(Reduce(s, ev).pendingEffects, Reduce(s, ev).pendingApprovals, log + [ev])
  {
    var e := s.pendingApprovals[ev.body.approvalId];
    assert (log + [ev])[..|log|] == log;
    assert GrantsAt(log + [ev], |log|, e);
    PastStays(log, ev);
  }

  /** Moving a known effect anywhere but to `Approved` needs no new paper. */
  lemma MoveTrail(s: RunState, e: EffectId, state: EffectState, approvals: set<ApprovalId>,
                  log: seq<Event>, ev: Event)
    requires PaperTrail(s.pendingEffects, s.pendingApprovals, log)
    requires e in s.pendingEffects && state != Approved
    ensures PaperTrail(s.pendingEffects[e := state], s.pendingApprovals - approvals, log + [ev])
  {
    PastStays(log, ev);
  }

  lemma TrailStep(s: RunState, log: seq<Event>, ev: Event)
    requires PaperTrail(s.pendingEffects, s.pendingApprovals, log)
    requires ApprovalLedger(s.pendingEffects, s.pendingApprovals)
    requires MayAppend(s, log, ev.actor, ev.body)
    ensures PaperTrail(Reduce(s, ev).pendingEffects, Reduce(s, ev).pendingApprovals, log + [ev])
  {
    if Quiet(ev.body) {
      QuietFrame(s, ev);
      PastStays(log, ev);
    } else if ev.body.ApprovalGranted? {
      GrantTrail(s, log, ev);
    } else if ev.body.ApprovalRequested? || ev.body.ToolRequested? {
      PastStays(log, ev);
    } else {
      LoudTrail(s, log, ev);
    }
  }

  lemma LoudTrail(s: RunState, log: seq<Event>, ev: Event)
    requires PaperTrail(s.pendingEffects, s.pendingApprovals, log)
    requires ApprovalLedger(s.pendingEffects, s.pendingApprovals)
    requires MayAppend(s, log, ev.actor, ev.body)
    requires !Quiet(ev.body) && !ev.body.ApprovalGranted? && !ev.body.ApprovalRequested? && !ev.body.ToolRequested?
    ensures PaperTrail(Reduce(s, ev).pendingEffects, Reduce(s, ev).pendingApprovals, log + [ev])
  {
    assert s.pendingApprovals - {} == s.pendingApprovals;
    match ev.body
    case EffectDispatched(e, _) => MoveTrail(s, e, Dispatched, {}, log, ev);
    case ToolResult(e, status, _, _, _) =>
      MoveTrail(s, e, if status.ResultDenied? then Denied else Settled, {}, log, ev);
    case ApprovalDenied(a) => MoveTrail(s, s.pendingApprovals[a], Denied, {a}, log, ev);
    case ApprovalExpired(a) => MoveTrail(s, s.pendingApprovals[a], Denied, {a}, log, ev);
  }

  lemma {:induction false} LedgerHolds(log: seq<Event>)
    requires Lawful(log)
    ensures Ledger(log)
    decreases |log|
  {
    if log != [] {
      var init, ev := log[..|log| - 1], log[|log| - 1];
      LedgerHolds(init);
      assert init + [ev] == log;
      var s := Fold(init);
      SeqStep(s, init, ev);
      StageStep(s, init, ev);
      StatusStep(s, init, ev);
      QuestionStep(s, init, ev);
      EffectStep(s, init, ev);
      TrailStep(s, init, ev);
    }
  }
}

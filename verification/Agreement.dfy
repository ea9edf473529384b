/**
 * Where the client's picture of a run and the kernel's agree, on every log the runtime can write,
 * and the two places where they do not: the status of a run that completed as a failure, and what a
 * run waits for that failed while it waited.
 */
module Agreement {
  import opened Protocol
  import opened KernelState
  import opened Events
  import opened Kernel
  import opened WriteProtocol
  import opened Delivery
  import opened Projection
  import Accounting

  // ---------------------------------------------------------------- status

  /** The last event about the run's status says it completed, as a failure. */
  predicate CompletedAsFailure(log: seq<Event>)
    decreases |log|
  {
    log != [] &&
    var n := |log| - 1;
    if SetsStatus(log[n].body) then log[n].body == RunCompleted(CompletedFailed)
    else CompletedAsFailure(log[..n])
  }

  /** That is: its last word on the status is a completion as a failure. */
  lemma {:induction false} CompletedAsFailureIsLast(log: seq<Event>)
    ensures CompletedAsFailure(log) <==>
      exists i :: 0 <= i < |log| && log[i].body == RunCompleted(CompletedFailed)
                  && forall j :: i < j < |log| ==> !SetsStatus(log[j].body)
    decreases |log|
  {
    if log != [] {
      var n := |log| - 1;
      CompletedAsFailureIsLast(log[..n]);
      if !SetsStatus(log[n].body) {
        if i :| 0 <= i < n && log[..n][i].body == RunCompleted(CompletedFailed)
                && forall j :: i < j < n ==> !SetsStatus(log[..n][j].body) {
          assert log[i].body == RunCompleted(CompletedFailed);
          forall j | i < j < |log| ensures !SetsStatus(log[j].body) {
            assert j < n ==> log[..n][j] == log[j];
          }
        }
        if i :| 0 <= i < |log| && log[i].body == RunCompleted(CompletedFailed)
                && forall j :: i < j < |log| ==> !SetsStatus(log[j].body) {
          assert log[..n][i].body == RunCompleted(CompletedFailed);
          forall j | i < j < n ensures !SetsStatus(log[..n][j].body) {
            assert log[..n][j] == log[j];
          }
        }
      }
    }
  }

  predicate StatusAgrees(run: RunView, s: RunState, odd: bool)
  {
    run.status == if odd then Completed else s.status
  }

  lemma ClientStatusFrame(run: RunView, ev: Event)
    requires !SetsStatus(ev.body)
    ensures ApplyBody(run, ev).status == run.status && ApplyBody(run, ev).awaiting == run.awaiting
  {
    hide Without, Rejoin;
  }

  lemma StatusAgreesStep(run: RunView, s: RunState, log: seq<Event>, ev: Event)
    requires StatusAgrees(run, s, CompletedAsFailure(log)) && (CompletedAsFailure(log) ==> s.status == Failed)
    ensures
      var odd := CompletedAsFailure(log + [ev]);
      StatusAgrees(ApplyBody(run, ev), Reduce(s, ev), odd) && (odd ==> Reduce(s, ev).status == Failed)
  {
    hide Reduce, ApplyBody;
    assert (log + [ev])[..|log|] == log;
    if SetsStatus(ev.body) {
      StatusIsSet(run, s, ev);
    } else {
      StatusFrame(s, ev);
      ClientStatusFrame(run, ev);
    }
  }

  lemma StatusIsSet(run: RunView, s: RunState, ev: Event)
    requires SetsStatus(ev.body)
    ensures StatusAgrees(ApplyBody(run, ev), Reduce(s, ev), ev.body == RunCompleted(CompletedFailed))
    ensures ev.body == RunCompleted(CompletedFailed) ==> Reduce(s, ev).status == Failed
  {
  }

  // ---------------------------------------------------------------- what the run waits for

  /** The reason the client shows is the one the kernel acts on. */
  predicate SameReason(shown: Option<SuspendReason>, held: Option<AwaitReason>)
  {
    match held
    case None => shown.None?
    case Some(AwaitApproval(_, _)) => shown == Some(AwaitingApproval)
    case Some(AwaitClarification(_)) => shown == Some(AwaitingHuman)
    case Some(AwaitBudget) => shown == Some(BudgetExhausted)
    case Some(AwaitExternalEvent(_)) => shown == Some(Paused)
  }

  /** The client shows a reason exactly while it shows the run as suspended. */
  predicate ReasonWhileSuspended(run: RunView)
  {
    run.awaiting.Some? <==> run.status == Suspended
  }

  lemma ReasonShownStep(run: RunView, ev: Event)
    requires ReasonWhileSuspended(run)
    ensures ReasonWhileSuspended(ApplyBody(run, ev))
  {
    match ev.body
    case RunCreated(_) =>
    case RunSuspended(_) =>
    case RunResumed(_) =>
    case RunCompleted(_) =>
    case RunFailed(_) =>
    case _ =>
      hide ApplyBody;
      ClientStatusFrame(run, ev);
  }

  lemma ReasonStep(run: RunView, s: RunState, log: seq<Event>, ev: Event)
    requires s.status == Suspended ==> SameReason(run.awaiting, s.awaiting)
    requires MayAppend(s, log, ev.actor, ev.body)
    requires log == [] ==> s == NewState()
    ensures Reduce(s, ev).status == Suspended ==> SameReason(ApplyBody(run, ev).awaiting, Reduce(s, ev).awaiting)
  {
    match ev.body
    case RunCreated(_) =>
    case RunSuspended(_) =>
    case RunResumed(_) =>
    case RunCompleted(_) =>
    case RunFailed(_) =>
    case _ =>
      hide Reduce, ApplyBody, MayAppend;
      StatusFrame(s, ev);
      ClientStatusFrame(run, ev);
  }

  // ---------------------------------------------------------------- the question and the limits

  predicate QuestionAgrees(run: RunView, s: RunState)
  {
    match s.pendingQuestion
    case None => run.pendingClarification.None?
    case Some(q) => run.pendingClarification.Some? && run.pendingClarification.value.questionId == q
  }

  predicate BudgetAgrees(run: RunView, s: RunState)
  {
    s.budget == if run.budget.Some? then run.budget.value else UNLIMITED
  }

  predicate SetsQuestionOrBudget(body: EventBody)
  {
    body.RunCreated? || body.BudgetAmended? || body.ClarificationRequested? || body.ClarificationAnswered?
  }

  lemma KernelQuestionFrame(s: RunState, ev: Event)
    requires !SetsQuestionOrBudget(ev.body)
    ensures Reduce(s, ev).pendingQuestion == s.pendingQuestion && Reduce(s, ev).budget == s.budget
  {
  }

  lemma ClientQuestionFrame(run: RunView, ev: Event)
    requires !SetsQuestionOrBudget(ev.body)
    ensures ApplyBody(run, ev).pendingClarification == run.pendingClarification
    ensures ApplyBody(run, ev).budget == run.budget
  {
    hide Without, Rejoin;
  }

  lemma QuestionStep(run: RunView, s: RunState, log: seq<Event>, ev: Event)
    requires QuestionAgrees(run, s) && BudgetAgrees(run, s) && MayAppend(s, log, ev.actor, ev.body)
    ensures QuestionAgrees(ApplyBody(run, ev), Reduce(s, ev)) && BudgetAgrees(ApplyBody(run, ev), Reduce(s, ev))
  {
    match ev.body
    case RunCreated(_) =>
    case BudgetAmended(_) =>
    case ClarificationRequested(_, _, _) =>
    case ClarificationAnswered(_, _, _) =>
    case _ =>
      hide Reduce, ApplyBody, MayAppend;
      KernelQuestionFrame(s, ev);
      ClientQuestionFrame(run, ev);
  }

  // ---------------------------------------------------------------- intent and artifacts

  /** The same intent, and the same artifacts in the same order. */
  predicate OutputsAgree(run: RunView, s: RunState)
  {
    && run.intentRef == s.intent
    && |run.artifacts| == |s.artifacts|
    && forall i :: 0 <= i < |s.artifacts| ==>
         s.artifacts[i] == ArtifactRecord(run.artifacts[i].artifactId, run.artifacts[i].path, run.artifacts[i].blob)
  }

  lemma KernelOutputFrame(s: RunState, ev: Event)
    requires !ev.body.IntentDeclared? && !ev.body.ArtifactEmitted?
    ensures Reduce(s, ev).intent == s.intent && Reduce(s, ev).artifacts == s.artifacts
  {
  }

  lemma ClientOutputFrame(run: RunView, ev: Event)
    requires !ev.body.IntentDeclared? && !ev.body.ArtifactEmitted?
    ensures ApplyBody(run, ev).intentRef == run.intentRef && ApplyBody(run, ev).artifacts == run.artifacts
  {
    hide Without, Rejoin;
  }

  lemma OutputsStep(run: RunView, s: RunState, ev: Event)
    requires OutputsAgree(run, s)
    ensures OutputsAgree(ApplyBody(run, ev), Reduce(s, ev))
  {
    match ev.body
    case IntentDeclared(_) =>
    case ArtifactEmitted(_, _, _, _) =>
    case _ =>
      hide Reduce, ApplyBody;
      KernelOutputFrame(s, ev);
      ClientOutputFrame(run, ev);
  }

  // ---------------------------------------------------------------- the approval cards

  /** The last impact estimate the log has for an effect. */
  function LastImpact(log: seq<Event>, e: EffectId): Option<Impact>
  {
    if log == [] then None
    else
      var body := log[|log| - 1].body;
      if body.ImpactEstimated? && body.impact.effectId == e then Some(body.impact)
      else LastImpact(log[..|log| - 1], e)
  }

  /** It is an estimate for that effect after which there is none, and nothing if there is none at all. */
  lemma {:induction false} LastImpactIsNewest(log: seq<Event>, e: EffectId)
    ensures LastImpact(log, e).None? <==>
      forall i :: 0 <= i < |log| ==> !(log[i].body.ImpactEstimated? && log[i].body.impact.effectId == e)
    ensures LastImpact(log, e).Some? ==>
      exists i :: 0 <= i < |log| && log[i].body == ImpactEstimated(LastImpact(log, e).value)
                  && LastImpact(log, e).value.effectId == e
                  && forall j :: i < j < |log| ==> !(log[j].body.ImpactEstimated? && log[j].body.impact.effectId == e)
    decreases |log|
  {
    if log != [] {
      var n := |log| - 1;
      LastImpactIsNewest(log[..n], e);
      if LastImpact(log, e).Some? && !(log[n].body.ImpactEstimated? && log[n].body.impact.effectId == e) {
        var i :| 0 <= i < n && log[..n][i].body == ImpactEstimated(LastImpact(log, e).value)
                 && forall j :: i < j < n ==>
                      !(log[..n][j].body.ImpactEstimated? && log[..n][j].body.impact.effectId == e);
        forall j | i < j < |log| ensures !(log[j].body.ImpactEstimated? && log[j].body.impact.effectId == e) {
          assert j < n ==> log[..n][j] == log[j];
        }
        assert log[i].body == ImpactEstimated(LastImpact(log, e).value);
      }
      if LastImpact(log, e).None? {
        forall i | 0 <= i < |log| ensures !(log[i].body.ImpactEstimated? && log[i].body.impact.effectId == e) {
          assert i < n ==> log[..n][i] == log[i];
        }
      }
    }
  }

  lemma LastImpactSnoc(log: seq<Event>, ev: Event, e: EffectId)
    ensures LastImpact(log + [ev], e)
         == if ev.body.ImpactEstimated? && ev.body.impact.effectId == e then Some(ev.body.impact)
            else LastImpact(log, e)
  {
    assert (log + [ev])[..|log|] == log;
  }

  /** A card shows the approval that was asked for, the tool of the effect it would release, and the
      last estimate of what that effect would do. */
  predicate CardIsTrue(card: PendingApproval, log: seq<Event>)
  {
    && AsksFor(log, card.approvalId, card.effectId)
    && card.seqNo == card.approvalId.at + 1
    && log[card.seqNo].body == ApprovalRequested(card.approvalId, card.effectId, card.risk, card.expiresAtMs)
    && log[card.seqNo].recordedAt == card.recordedAt
    && IsRequested(log, card.effectId)
    && card.tool == Some(log[card.effectId.at + 1].body.tool)
    && card.impact == LastImpact(log, card.effectId)
  }

  /** On file for every effect are the tool that was requested and the last estimate. */
  ghost predicate ToolsAreTrue(run: RunView, log: seq<Event>)
  {
    && (forall e :: IsRequested(log, e) ==> EffectEntry(run, e).tool == Some(log[e.at + 1].body.tool))
    && (forall e :: EffectEntry(run, e).impact == LastImpact(log, e))
  }

  /** The cards are the kernel's pending approvals, and they are true. */
  predicate CardsAgree(run: RunView, s: RunState, log: seq<Event>)
  {
    && |run.pendingApprovals| == |s.pendingApprovals|
    && forall i :: 0 <= i < |run.pendingApprovals| ==>
         var card := run.pendingApprovals[i];
         && card.runId == run.runId
         && card.approvalId in s.pendingApprovals
         && s.pendingApprovals[card.approvalId] == card.effectId
         && CardIsTrue(card, log)
  }

  lemma EffectsFrame(run: RunView, ev: Event)
    requires !ev.body.ToolRequested? && !ev.body.ImpactEstimated?
    ensures ApplyBody(run, ev).effects == run.effects
  {
    hide Without, Rejoin;
  }

  lemma ToolsStep(run: RunView, s: RunState, log: seq<Event>, ev: Event)
    requires ToolsAreTrue(run, log) && MayAppend(s, log, ev.actor, ev.body)
    ensures ToolsAreTrue(ApplyBody(run, ev), log + [ev])
  {
    hide Without, LastImpact;
    PastStays(log, ev);
    var next := ApplyBody(run, ev);
    if !ev.body.ToolRequested? && !ev.body.ImpactEstimated? {
      hide ApplyBody, MayAppend;
      EffectsFrame(run, ev);
      OldRequests(log, ev);
      forall e ensures EffectEntry(next, e).impact == LastImpact(log + [ev], e) {
        LastImpactSnoc(log, ev, e);
      }
    } else {
      OldRequests(log, ev);
      forall e ensures EffectEntry(next, e).impact == LastImpact(log + [ev], e) {
        LastImpactSnoc(log, ev, e);
      }
    }
  }

  lemma OldRequests(log: seq<Event>, ev: Event)
    ensures forall e :: IsRequested(log + [ev], e) ==>
      if ev.body.ToolRequested? && ev.body.effectId == e && e.at + 1 == |log| then true
      else IsRequested(log, e) && (log + [ev])[e.at + 1] == log[e.at + 1]
  {
  }

  lemma IdStays(run: RunView, ev: Event)
    ensures ApplyBody(run, ev).runId == run.runId
  {
    ApplyBodyRecordsNothing(run, ev);
  }

  /** Events that touch neither the cards nor the pending approvals. */
  predicate LeavesCards(body: EventBody)
  {
    && !body.ToolRequested? && !body.ImpactEstimated? && !body.ApprovalRequested?
    && !body.ApprovalGranted? && !body.ApprovalDenied? && !body.ApprovalExpired?
  }

  lemma CardStays(card: PendingApproval, log: seq<Event>, ev: Event)
    requires CardIsTrue(card, log)
    ensures CardIsTrue(card.(impact := LastImpact(log + [ev], card.effectId)), log + [ev])
    ensures !ev.body.ImpactEstimated? ==> CardIsTrue(card, log + [ev])
  {
    LastImpactSnoc(log, ev, card.effectId);
  }

  lemma KernelCardsFrame(s: RunState, ev: Event)
    requires LeavesCards(ev.body)
    ensures Reduce(s, ev).pendingApprovals == s.pendingApprovals
  {
  }

  lemma ClientCardsFrame(run: RunView, ev: Event)
    requires LeavesCards(ev.body)
    ensures ApplyBody(run, ev).pendingApprovals == run.pendingApprovals
  {
    hide Without, Rejoin;
  }

  lemma QuietCards(run: RunView, s: RunState, log: seq<Event>, ev: Event)
    requires CardsAgree(run, s, log) && LeavesCards(ev.body)
    ensures CardsAgree(ApplyBody(run, ev), Reduce(s, ev), log + [ev])
  {
    hide Reduce, ApplyBody, CardIsTrue;
    KernelCardsFrame(s, ev);
    ClientCardsFrame(run, ev);
    IdStays(run, ev);
    forall i | 0 <= i < |run.pendingApprovals| ensures CardIsTrue(run.pendingApprovals[i], log + [ev]) {
      CardStays(run.pendingApprovals[i], log, ev);
    }
  }

  /** The effect whose tool or estimate an event brings. */
  function Informs(body: EventBody): EffectId
    requires body.ToolRequested? || body.ImpactEstimated?
  {
    if body.ToolRequested? then body.effectId else body.impact.effectId
  }

  function RejoinedCard(run: RunView, e: EffectId, card: PendingApproval): PendingApproval
  {
    if card.effectId == e then card.(tool := EffectEntry(run, e).tool, impact := EffectEntry(run, e).impact) else card
  }

  lemma CardsAreRejoined(run: RunView, ev: Event)
    requires ev.body.ToolRequested? || ev.body.ImpactEstimated?
    ensures var next := ApplyBody(run, ev);
      && |next.pendingApprovals| == |run.pendingApprovals|
      && forall i :: 0 <= i < |next.pendingApprovals| ==>
           next.pendingApprovals[i] == RejoinedCard(next, Informs(ev.body), run.pendingApprovals[i])
  {
    hide Without;
  }

  /** Joining a card again with what is on file for its effect leaves it true. */
  lemma RejoinedIsTrue(next: RunView, log: seq<Event>, ev: Event, card: PendingApproval)
    requires CardIsTrue(card, log) && ToolsAreTrue(next, log + [ev])
    requires ev.body.ToolRequested? || ev.body.ImpactEstimated?
    ensures CardIsTrue(RejoinedCard(next, Informs(ev.body), card), log + [ev])
  {
    hide LastImpact;
    CardStays(card, log, ev);
    LastImpactSnoc(log, ev, card.effectId);
    assert IsRequested(log + [ev], card.effectId);
  }

  lemma KernelRejoins(s: RunState, ev: Event)
    requires ev.body.ToolRequested? || ev.body.ImpactEstimated?
    ensures Reduce(s, ev).pendingApprovals == s.pendingApprovals
  {
  }

  lemma RejoinedCards(run: RunView, s: RunState, log: seq<Event>, ev: Event)
    requires CardsAgree(run, s, log) && ToolsAreTrue(run, log) && MayAppend(s, log, ev.actor, ev.body)
    requires ev.body.ToolRequested? || ev.body.ImpactEstimated?
    ensures CardsAgree(ApplyBody(run, ev), Reduce(s, ev), log + [ev])
  {
    hide ApplyBody, Reduce, MayAppend, CardIsTrue, ToolsAreTrue;
    KernelRejoins(s, ev);
    IdStays(run, ev);
    ToolsStep(run, s, log, ev);
    CardsAreRejoined(run, ev);
    forall i | 0 <= i < |run.pendingApprovals|
      ensures CardIsTrue(ApplyBody(run, ev).pendingApprovals[i], log + [ev])
    {
      RejoinedIsTrue(ApplyBody(run, ev), log, ev, run.pendingApprovals[i]);
    }
  }

  lemma NewCard(run: RunView, s: RunState, log: seq<Event>, ev: Event)
    requires CardsAgree(run, s, log) && ToolsAreTrue(run, log) && MayAppend(s, log, ev.actor, ev.body)
    requires ev.body.ApprovalRequested?
    requires PaperTrail(s.pendingEffects, s.pendingApprovals, log) && ev.seqNo == |log|
    ensures CardsAgree(ApplyBody(run, ev), Reduce(s, ev), log + [ev])
  {
    hide Without, Rejoin;
    var next := ApplyBody(run, ev);
    assert run.pendingApprovals == [];
    assert |next.pendingApprovals| == 1;
    assert IsRequested(log, ev.body.effectId);
    LastImpactSnoc(log, ev, ev.body.effectId);
    assert |Reduce(s, ev).pendingApprovals| == 1;
  }

  lemma DroppedCard(run: RunView, s: RunState, log: seq<Event>, ev: Event)
    requires CardsAgree(run, s, log) && MayAppend(s, log, ev.actor, ev.body)
    requires ev.body.ApprovalGranted? || ev.body.ApprovalDenied? || ev.body.ApprovalExpired?
    requires ApprovalLedger(s.pendingEffects, s.pendingApprovals)
    ensures CardsAgree(ApplyBody(run, ev), Reduce(s, ev), log + [ev])
  {
    hide Rejoin;
    var a := ev.body.approvalId;
    OnlyApproval(s, a);
    assert Reduce(s, ev).pendingApprovals == map[];
    forall p | p in run.pendingApprovals ensures p.approvalId == a {
      assert p.approvalId in s.pendingApprovals;
    }
    NothingLeft(run.pendingApprovals, a);
  }

  lemma {:induction false} NothingLeft(cards: seq<PendingApproval>, a: ApprovalId)
    requires forall p :: p in cards ==> p.approvalId == a
    ensures Without(cards, a) == []
  {
    if cards != [] {
      NothingLeft(cards[1..], a);
    }
  }

  lemma CardsStep(run: RunView, s: RunState, log: seq<Event>, ev: Event)
    requires CardsAgree(run, s, log) && ToolsAreTrue(run, log) && MayAppend(s, log, ev.actor, ev.body)
    requires ApprovalLedger(s.pendingEffects, s.pendingApprovals)
    requires PaperTrail(s.pendingEffects, s.pendingApprovals, log) && ev.seqNo == |log|
    ensures CardsAgree(ApplyBody(run, ev), Reduce(s, ev), log + [ev])
  {
    hide ApplyBody, Reduce, MayAppend;
    if LeavesCards(ev.body) {
      QuietCards(run, s, log, ev);
    } else if ev.body.ToolRequested? || ev.body.ImpactEstimated? {
      RejoinedCards(run, s, log, ev);
    } else if ev.body.ApprovalRequested? {
      NewCard(run, s, log, ev);
    } else {
      DroppedCard(run, s, log, ev);
    }
  }

  // ---------------------------------------------------------------- on every lawful log

  ghost predicate Agrees(run: RunView, s: RunState, log: seq<Event>)
  {
    && StatusAgrees(run, s, CompletedAsFailure(log))
    && (CompletedAsFailure(log) ==> s.status == Failed)
    && (s.status == Suspended ==> SameReason(run.awaiting, s.awaiting))
    && ReasonWhileSuspended(run)
    && QuestionAgrees(run, s) && BudgetAgrees(run, s) && OutputsAgree(run, s)
    && ToolsAreTrue(run, log) && CardsAgree(run, s, log)
  }

  lemma AgreesStep(run: RunView, s: RunState, log: seq<Event>, ev: Event)
    requires Agrees(run, s, log) && MayAppend(s, log, ev.actor, ev.body)
    requires log == [] ==> s == NewState()
    requires ApprovalLedger(s.pendingEffects, s.pendingApprovals)
    requires PaperTrail(s.pendingEffects, s.pendingApprovals, log) && ev.seqNo == |log|
    ensures Agrees(ApplyBody(run, ev), Reduce(s, ev), log + [ev])
  {
    hide ApplyBody, Reduce, MayAppend, CardsAgree, ToolsAreTrue;
    hide QuestionAgrees, BudgetAgrees, OutputsAgree, SameReason, ReasonWhileSuspended;
    StatusAgreesStep(run, s, log, ev);
    ReasonStep(run, s, log, ev);
    ReasonShownStep(run, ev);
    QuestionStep(run, s, log, ev);
    OutputsStep(run, s, ev);
    ToolsStep(run, s, log, ev);
    CardsStep(run, s, log, ev);
  }

  /** Recording the event first changes nothing the comparison looks at. */
  lemma RecordingIsInvisible(run: RunView, s: RunState, log: seq<Event>, events: seq<Event>, lastSeq: nat)
    requires Agrees(run, s, log)
    ensures Agrees(run.(events := events, lastSeq := lastSeq), s, log)
  {
    hide CompletedAsFailure;
    var recorded := run.(events := events, lastSeq := lastSeq);
    assert forall e :: EffectEntry(recorded, e) == EffectEntry(run, e);
  }

  /**
   * The client's fold of a run and the kernel's fold of the same log agree on its question, its
   * limits, its meters, its intent and artifacts and its approval cards, on what a suspended run
   * waits for, and on its status, except exactly when the run completed as a failure: the kernel
   * calls that failed, the client completed.
   */
  lemma ClientAgreesWithKernel(r: RunId, log: seq<Event>)
    requires Lawful(log)
    ensures Agrees(FoldRun(r, log), Fold(log), log)
    ensures var (run, s) := (FoldRun(r, log), Fold(log));
      && (run.status != s.status <==> CompletedAsFailure(log))
      && (CompletedAsFailure(log) ==> run.status == Completed && s.status == Failed)
      && (s.status == Suspended ==> SameReason(run.awaiting, s.awaiting))
      && s.budget == (if run.budget.Some? then run.budget.value else BudgetSpec(None, None, None))
      && run.budgetUsed == s.budgetUsed && run.intentRef == s.intent
      && |run.artifacts| == |s.artifacts|
      && (forall i :: 0 <= i < |s.artifacts| ==>
            s.artifacts[i]
            == ArtifactRecord(run.artifacts[i].artifactId, run.artifacts[i].path, run.artifacts[i].blob))
      && (run.pendingClarification.Some? <==> s.pendingQuestion.Some?)
      && (s.pendingQuestion.Some? ==> run.pendingClarification.value.questionId == s.pendingQuestion.value)
      && |run.pendingApprovals| == |s.pendingApprovals|
      && (forall i :: 0 <= i < |run.pendingApprovals| ==>
            var card := run.pendingApprovals[i];
            card.approvalId in s.pendingApprovals && s.pendingApprovals[card.approvalId] == card.effectId)
  {
    hide FoldRun, Fold, Lawful, CardIsTrue, ToolsAreTrue, CompletedAsFailure, SameReason;
    FoldsAgree(r, log);
  }

  lemma {:induction false} FoldsAgree(r: RunId, log: seq<Event>)
    requires Lawful(log)
    ensures Agrees(FoldRun(r, log), Fold(log), log)
    ensures FoldRun(r, log).status != Fold(log).status <==> CompletedAsFailure(log)
    ensures FoldRun(r, log).budgetUsed == Fold(log).budgetUsed
    decreases |log|
  {
    LawfulIsNumbered(log);
    Accounting.ClientMetersAreTheKernels(r, log);
    if log == [] {
      EmptyAgrees(r);
    } else {
      hide FoldRun, Agrees, Fold, MayAppend;
      FoldsAgree(r, log[..|log| - 1]);
      AgreesSnoc(r, log);
      OddStatus(FoldRun(r, log), Fold(log), log);
    }
  }

  /** On what the run waits for the two agree exactly while it is suspended or the kernel waits for
      nothing: a run that failed while it waited still waits for the kernel, and no more for the client. */
  lemma ReasonAgreesExactly(r: RunId, log: seq<Event>)
    requires Lawful(log)
    ensures SameReason(FoldRun(r, log).awaiting, Fold(log).awaiting) <==>
      Fold(log).status == Suspended || Fold(log).awaiting.None?
    ensures Fold(log).awaiting.Some? ==> Fold(log).status == Suspended || Fold(log).status == Failed
  {
    hide Fold, FoldRun, CardsAgree, ToolsAreTrue, MayAppend, PaperTrail, ApprovalLedger, EffectLedger, Lawful;
    ClientAgreesWithKernel(r, log);
    LedgerHolds(log);
  }

  lemma AgreesSnoc(r: RunId, log: seq<Event>)
    requires Lawful(log) && log != []
    requires Agrees(FoldRun(r, log[..|log| - 1]), Fold(log[..|log| - 1]), log[..|log| - 1])
    ensures Agrees(FoldRun(r, log), Fold(log), log)
  {
    hide FoldRun, Agrees, MayAppend, Reduce, ApplyBody, PaperTrail, ApprovalLedger;
    var n := |log| - 1;
    var init, ev := log[..n], log[n];
    var run, s := FoldRun(r, init), Fold(init);
    LawfulPrefix(log, n);
    LawfulIsNumbered(log);
    LedgerHolds(init);
    Accounting.FoldRunSnoc(r, log);
    assert init + [ev] == log;
    FoldAppend(NewState(), init, ev);
    var recorded := run.(events := log, lastSeq := MaxNat(run.lastSeq, n));
    RecordingIsInvisible(run, s, init, log, recorded.lastSeq);
    AgreesStep(recorded, s, init, ev);
  }

  lemma OddStatus(run: RunView, s: RunState, log: seq<Event>)
    requires Agrees(run, s, log)
    ensures run.status != s.status <==> CompletedAsFailure(log)
  {
  }

  lemma EmptyAgrees(r: RunId)
    ensures Agrees(FoldRun(r, []), Fold([]), [])
  {
  }

  lemma {:induction false} SuspendedHasItsEvent(log: seq<Event>)
    requires Fold(log).status == Suspended
    ensures LastSuspension(log).Some?
    decreases |log|
  {
    if log != [] {
      hide Reduce;
      var init, ev := log[..|log| - 1], log[|log| - 1];
      assert init + [ev] == log;
      FoldAppend(NewState(), init, ev);
      if !SetsStatus(ev.body) {
        StatusFrame(Fold(init), ev);
        SuspendedHasItsEvent(init);
      } else {
        OnlySuspensionSuspends(Fold(init), ev);
      }
    }
  }

  lemma OnlySuspensionSuspends(s: RunState, ev: Event)
    requires SetsStatus(ev.body) && Reduce(s, ev).status == Suspended
    ensures ev.body.RunSuspended?
  {
  }

  // ---------------------------------------------------------------- the inbox

  /** A question shown is one the log put to a human, with its text, its options and its place. */
  predicate QuestionIsTrue(c: PendingClarification, r: RunId, log: seq<Event>)
  {
    && c.runId == r && c.seqNo == c.questionId.at + 1 < |log|
    && log[c.seqNo].body == ClarificationRequested(c.questionId, c.promptRef, c.options)
    && log[c.seqNo].recordedAt == c.recordedAt
  }

  lemma QuestionTrueStep(run: RunView, s: RunState, log: seq<Event>, ev: Event)
    requires run.pendingClarification.Some? ==> QuestionIsTrue(run.pendingClarification.value, run.runId, log)
    requires MayAppend(s, log, ev.actor, ev.body) && ev.seqNo == |log|
    ensures var next := ApplyBody(run, ev);
      next.pendingClarification.Some? ==> QuestionIsTrue(next.pendingClarification.value, run.runId, log + [ev])
  {
    if ev.body.ClarificationRequested? || ev.body.ClarificationAnswered? {
    } else {
      hide ApplyBody, MayAppend;
      ClientQuestionStays(run, ev);
    }
  }

  lemma ClientQuestionStays(run: RunView, ev: Event)
    requires !ev.body.ClarificationRequested? && !ev.body.ClarificationAnswered?
    ensures ApplyBody(run, ev).pendingClarification == run.pendingClarification
  {
    hide Without, Rejoin;
  }

  lemma {:induction false} QuestionShownIsTrue(r: RunId, log: seq<Event>)
    requires Lawful(log)
    ensures FoldRun(r, log).pendingClarification.Some? ==>
      QuestionIsTrue(FoldRun(r, log).pendingClarification.value, r, log)
    decreases |log|
  {
    hide FoldRun, Fold, MayAppend, ApplyBody, QuestionIsTrue, Lawful;
    if log == [] {
      NothingShown(r);
    } else {
      var n := |log| - 1;
      LawfulPrefix(log, n);
      LawfulIsNumbered(log);
      QuestionShownIsTrue(r, log[..n]);
      Accounting.FoldRunSnoc(r, log);
      var before := FoldRun(r, log[..n]);
      QuestionTrueStep(before.(events := log, lastSeq := MaxNat(before.lastSeq, n)), Fold(log[..n]), log[..n], log[n]);
      assert log[..n] + [log[n]] == log;
    }
  }

  lemma NothingShown(r: RunId)
    ensures FoldRun(r, []).pendingClarification.None?
  {
  }

  /** What the inbox should hold of a run: the pending question as it was put, a true card for each
      pending approval, and the stop for money while that is what the run waits for. */
  predicate BelongsInInbox(item: InboxItem, r: RunId, s: RunState, log: seq<Event>)
  {
    match item
    case ClarificationItem(run, c) =>
      run == r && s.pendingQuestion == Some(c.questionId) && QuestionIsTrue(c, r, log)
    case ApprovalItem(run, card) =>
      && run == r && card.runId == r && card.approvalId in s.pendingApprovals
      && s.pendingApprovals[card.approvalId] == card.effectId && CardIsTrue(card, log)
    case BudgetItem(run, seqNo, recordedAt) =>
      && run == r && s.status == Suspended && s.awaiting == Some(AwaitBudget)
      && seqNo < |log| && log[seqNo].body.RunSuspended? && log[seqNo].recordedAt == recordedAt
      && forall k :: seqNo < k < |log| ==> !log[k].body.RunSuspended?
  }

  lemma {:induction false} LastSuspensionIsLast(log: seq<Event>)
    requires Numbered(log)
    ensures LastSuspension(log).None? <==> forall k :: 0 <= k < |log| ==> !log[k].body.RunSuspended?
    ensures LastSuspension(log).Some? ==>
      var k := LastSuspension(log).value.seqNo;
      && k < |log| && log[k] == LastSuspension(log).value && log[k].body.RunSuspended?
      && forall j :: k < j < |log| ==> !log[j].body.RunSuspended?
    decreases |log|
  {
    if log != [] {
      LastSuspensionIsLast(log[..|log| - 1]);
    }
  }

  /** The items the client rebuilds its inbox from are exactly those that belong there. */
  lemma InboxIsExact(r: RunId, log: seq<Event>, item: InboxItem)
    requires Lawful(log)
    ensures item in RunItems(FoldRun(r, log)) <==> BelongsInInbox(item, r, Fold(log), log)
  {
    hide Fold, FoldRun, Lawful, RunItems, CardsAgree, CardIsTrue;
    hide ToolsAreTrue, PaperTrail, ApprovalLedger, EffectLedger;
    ItemsByKind(FoldRun(r, log), item);
    match item
    case ClarificationItem(_, _) => QuestionsInInbox(r, log, item);
    case ApprovalItem(_, _) => CardsInInbox(r, log, item);
    case BudgetItem(_, _, _) => StopsInInbox(r, log, item);
  }

  lemma ItemsByKind(run: RunView, item: InboxItem)
    ensures item in RunItems(run) <==>
      match item
      case ClarificationItem(r, c) => r == run.runId && run.pendingClarification == Some(c)
      case ApprovalItem(r, card) => r == run.runId && card in run.pendingApprovals
      case BudgetItem(_, _, _) => item in BudgetItems(run)
  {
    hide BudgetItems;
    BudgetItemsAre(run);
    match item
    case ApprovalItem(r, card) =>
      if r == run.runId && card in run.pendingApprovals {
        var i :| 0 <= i < |run.pendingApprovals| && run.pendingApprovals[i] == card;
        assert ApprovalItems(run)[i] == item;
      }
    case _ =>
  }

  lemma BudgetItemsAre(run: RunView)
    ensures forall item :: item in BudgetItems(run) ==> item.BudgetItem?
  {
  }

  lemma QuestionsInInbox(r: RunId, log: seq<Event>, item: InboxItem)
    requires Lawful(log) && item.ClarificationItem?
    ensures BelongsInInbox(item, r, Fold(log), log) <==>
      item.runId == r && FoldRun(r, log).pendingClarification == Some(item.clarification)
  {
    hide Fold, FoldRun, Lawful, CardsAgree, ToolsAreTrue, StatusAgrees, BudgetAgrees, OutputsAgree;
    ClientAgreesWithKernel(r, log);
    QuestionShownIsTrue(r, log);
  }

  /** A card is fixed by its approval. */
  lemma CardsAreDetermined(a: PendingApproval, b: PendingApproval, log: seq<Event>)
    requires CardIsTrue(a, log) && CardIsTrue(b, log) && a.approvalId == b.approvalId && a.runId == b.runId
    ensures a == b
  {
  }

  lemma CardsInInbox(r: RunId, log: seq<Event>, item: InboxItem)
    requires Lawful(log) && item.ApprovalItem?
    ensures BelongsInInbox(item, r, Fold(log), log) <==>
      item.runId == r && item.approval in FoldRun(r, log).pendingApprovals
  {
    hide Fold, FoldRun, Lawful, CardIsTrue, ToolsAreTrue, StatusAgrees;
    hide BudgetAgrees, OutputsAgree, PaperTrail, EffectLedger;
    ClientAgreesWithKernel(r, log);
    LedgerHolds(log);
    var (run, s) := (FoldRun(r, log), Fold(log));
    if BelongsInInbox(item, r, s, log) {
      assert s.pendingApprovals != map[];
      assert run.pendingApprovals != [];
      var card := run.pendingApprovals[0];
      assert card.approvalId in s.pendingApprovals && card.approvalId == item.approval.approvalId;
      CardsAreDetermined(card, item.approval, log);
    }
  }

  lemma StopsInInbox(r: RunId, log: seq<Event>, item: InboxItem)
    requires Lawful(log) && item.BudgetItem?
    ensures BelongsInInbox(item, r, Fold(log), log) <==> item in BudgetItems(FoldRun(r, log))
  {
    hide Fold, FoldRun, Lawful, BudgetItems, LastSuspension;
    BudgetItemMeansBudget(r, log);
    LawfulIsNumbered(log);
    LastSuspensionIsLast(log);
  }

  /** Once the stream is quiet, the client's inbox holds exactly what the kernels of all runs wait for from
      a human. */
  lemma WorkspaceInboxIsExact(rank: string -> real, start: System, actions: seq<Action>, item: InboxItem)
    requires Initial(start) && start.client.only.None? && Delivery.Quiet(Exec(start, actions))
    requires forall r :: Lawful(LogOf(Exec(start, actions).logs, r))
    ensures
      var logs := Exec(start, actions).logs;
      item in ApplyEvents(rank, EMPTY_WORKSPACE, Exec(start, actions).client.seen).inbox <==>
        exists r :: BelongsInInbox(item, r, Fold(LogOf(logs, r)), LogOf(logs, r))
  {
    hide Lawful, Fold, FoldRun, RunItems, BelongsInInbox, ApplyEvents, Delivery.Quiet, RunOf, InboxOf, Exec;
    var logs := Exec(start, actions).logs;
    var view := ApplyEvents(rank, EMPTY_WORKSPACE, Exec(start, actions).client.seen);
    InboxIsOfTheRuns(rank, start, actions);
    InboxItemsAreRunItems(rank, view.runs, item);
    forall r
      ensures BelongsInInbox(item, r, Fold(LogOf(logs, r)), LogOf(logs, r)) <==>
        exists i :: 0 <= i < |view.runs| && view.runs[i].runId == r && item in RunItems(view.runs[i])
    {
      InboxIsExact(r, LogOf(logs, r), item);
      SubscriberViewIsComplete(rank, start, actions, r);
      RunAtItsIndex(view.runs, r);
      if LogOf(logs, r) == [] {
        NothingInInbox(r, item);
      }
    }
    if i :| 0 <= i < |view.runs| && item in RunItems(view.runs[i]) {
      var r := view.runs[i].runId;
      assert BelongsInInbox(item, r, Fold(LogOf(logs, r)), LogOf(logs, r));
    }
  }

  lemma InboxIsOfTheRuns(rank: string -> real, start: System, actions: seq<Action>)
    requires Initial(start) && start.client.only.None?
    ensures
      var view := ApplyEvents(rank, EMPTY_WORKSPACE, Exec(start, actions).client.seen);
      view.inbox == InboxOf(rank, view.runs)
  {
    hide GapFree, Holds, FoldRun, RunOf, ApplyEvents, InboxOf;
    InvariantHolds(start, actions);
    DeliveredGapFree(start, actions);
    ViewIsTheFold(rank, Exec(start, actions).logs, Exec(start, actions).client.seen, RunId(""));
  }

  lemma RunAtItsIndex(runs: seq<RunView>, r: RunId)
    requires DistinctRuns(runs)
    ensures forall i :: 0 <= i < |runs| && runs[i].runId == r ==> i == IndexOf(runs, r) && runs[i] == RunOf(runs, r)
    ensures IndexOf(runs, r) < |runs| ==> runs[IndexOf(runs, r)].runId == r && runs[IndexOf(runs, r)] == RunOf(runs, r)
  {
  }

  lemma NothingInInbox(r: RunId, item: InboxItem)
    ensures item !in RunItems(FoldRun(r, []))
  {
  }

  /** A budget item stands in the inbox exactly when the kernel holds the run for money, and it
      points at the last suspension in the log. */
  lemma BudgetItemMeansBudget(r: RunId, log: seq<Event>)
    requires Lawful(log)
    ensures
      BudgetItems(FoldRun(r, log))
      == if Fold(log).status == Suspended && Fold(log).awaiting == Some(AwaitBudget) && LastSuspension(log).Some?
         then [BudgetItem(r, LastSuspension(log).value.seqNo, LastSuspension(log).value.recordedAt)]
         else []
    ensures Fold(log).status == Suspended ==> LastSuspension(log).Some?
  {
    hide Fold, FoldRun, CardsAgree, ToolsAreTrue, MayAppend, PaperTrail, ApprovalLedger, EffectLedger;
    ClientAgreesWithKernel(r, log);
    LawfulIsNumbered(log);
    FoldRunEvents(r, log);
    LedgerHolds(log);
    if Fold(log).status == Suspended {
      SuspendedHasItsEvent(log);
    }
  }
}

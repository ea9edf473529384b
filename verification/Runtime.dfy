/**
 * The runtime: the only writer of the log. It executes the kernel's commands by appending
 * events. The model, the executor, the clock, the price table and the storage are arbitrary.
 */
module Runtime {
  import opened Protocol
  import opened KernelState
  import opened Events
  import opened Kernel
  import opened Context
  import opened WriteProtocol
  import opened Admission
  import opened RunLog
  import opened Replay
  import opened EffectSafety
  import opened Traces
  import opened GateMeaning
  import opened Provenance

  const MAX_LOOP_ITERATIONS: nat := 10_000

  datatype RunOutcome =
    | Finished(state: RunState)
    | Waiting(state: RunState, reason: AwaitReason)
    | Broken(state: RunState, error: Explanation)

  // Why a failed run failed: the code of its failure, a plan that could not be carried out, or
  // nothing its last event would tell.
  datatype Explanation = FailedWith(code: string) | HollowPlan | Unexplained(last: Option<EventBody>)

  function Explained(last: Option<EventBody>): Explanation
  {
    if last.Some? && last.value.RunFailed? then FailedWith(last.value.code)
    else if last == Some(RunCompleted(CompletedFailed)) then HollowPlan
    else Unexplained(last)
  }

  /** What a log's last event says about a failure. */
  function WhyFailed(log: seq<Event>): Explanation
  {
    Explained(if log == [] then None else Some(log[|log| - 1].body))
  }

  /** `now` is `was` and one more event. */
  predicate Grew(was: seq<Event>, now: seq<Event>, actor: Actor, body: EventBody)
  {
    && |now| == |was| + 1
    && now[..|was|] == was
    && now[|was|].seqNo == |was| && now[|was|].actor == actor && now[|was|].body == body
  }

  /** One effect ran to its end: the turn moved on and nothing else did. */
  predicate EffectDone(s: RunState, t: RunState)
  {
    && t.AllResolved() && t.turn == s.turn + 1
    && t.status == s.status && t.awaiting == s.awaiting && t.intent == s.intent
    && t.pendingApprovals == s.pendingApprovals
    && t.envSampledTurn == s.envSampledTurn && t.contextTurn == s.contextTurn && t.planTurn == s.planTurn
  }

  /** Only accounting changed. */
  predicate OnlyCharged(s: RunState, t: RunState)
  {
    t == s.(budgetUsed := t.budgetUsed, lastSeq := t.lastSeq)
  }

  /** Driving stops here: the run left `Running` with an event that says why. */
  predicate Stopped(s: RunState, log: seq<Event>)
  {
    s.status != Running && log != [] && EndsDriving(log[|log| - 1].body)
  }

  /** An effect just requested, with the policy's verdict on it already in the log. */
  predicate JustJudged(s: RunState, log: seq<Event>, e: EffectId, said: PolicyDecisionKind)
  {
    && s.status == Running && s.awaiting.None? && s.pendingApprovals == map[]
    && e in s.pendingEffects && s.pendingEffects[e] == Requested
    && IsRequested(log, e) && PolicySaid(log, e, said)
  }

  /** The errors that only tell a caller its request did not apply. */
  predicate CallerError(e: DaemonError)
  {
    e.UnknownApproval? || e.UnknownClarification? || e.UnknownClarificationOption?
  }

  /** A model call came back with a plan for the turn. */
  predicate Planned(s: RunState, t: RunState)
  {
    && t.status == Running && t.AllResolved() && t.turn == s.turn && t.planTurn == Some(s.turn)
    && t.envSampledTurn == s.envSampledTurn && t.contextTurn == s.contextTurn
  }

  /** Within a turn: sample, assemble, call the model, act. */
  function Phase(s: RunState): nat
  {
    if s.envSampledTurn != Some(s.turn) then 3
    else if s.contextTurn != Some(s.turn) then 2
    else if s.planTurn != Some(s.turn) then 1
    else 0
  }

  /** Turns left, then phases left in the turn. */
  function StepsLeft(s: RunState): nat
  {
    if s.turn <= MAX_TURNS then (MAX_TURNS + 1 - s.turn) * 4 + Phase(s) else Phase(s)
  }

  predicate Nearer(s: RunState, t: RunState)
  {
    s.AllResolved() && t.status == Running && t.AllResolved() && StepsLeft(t) < StepsLeft(s)
  }

  /** How many more decisions the driving loop can carry out. */
  function Fuel(s: RunState): nat
  {
    if s.status != Running then 0
    else if s.AllResolved() then 1 + StepsLeft(s)
    else if Decide(s) != [] then 1
    else 0
  }

  const FUEL_LIMIT: nat := 4 * (MAX_TURNS + 1) + 4

  /** What an expiry sweep at `now` does: the one pending approval expires if its deadline has
      passed, and otherwise nothing happens. */
  ghost predicate Expired(s: RunState, was: seq<Event>, now: nat, t: RunState, log: seq<Event>)
  {
    && was <= log
    && (forall a :: a in s.pendingApprovals && IsOverdue(was, a, now) ==>
          t.pendingApprovals == map[] && Written(was, log) == [Entry(Actor.Runtime, ApprovalExpired(a))])
    && ((forall a :: a in s.pendingApprovals ==> !IsOverdue(was, a, now)) ==> t == s && log == was)
  }

  /** A human approved `e` and it has not been executed. */
  predicate Unrun(s: RunState, e: EffectId)
  {
    e in s.pendingEffects && s.pendingEffects[e] == Approved
  }

  /** Effect `e` was dispatched at or after index `from`. */
  ghost predicate Ran(from: nat, log: seq<Event>, e: EffectId)
  {
    exists i: nat :: from <= i && DispatchesAt(log, i, e)
  }

  lemma RanStays(from: nat, was: seq<Event>, now: seq<Event>, e: EffectId)
    requires was <= now
    ensures forall later: nat :: from <= later && Ran(later, was, e) ==> Ran(from, now, e)
  {
    forall later: nat | from <= later && Ran(later, was, e) ensures Ran(from, now, e) {
      var i: nat :| later <= i && DispatchesAt(was, i, e);
      assert DispatchesAt(now, i, e);
    }
  }

  /** The approved effect, if there is one, was executed as requested; otherwise nothing was. */
  ghost predicate ApprovedRan(s: RunState, was: seq<Event>, now: seq<Event>, principal: string)
  {
    && was <= now
    && (forall e :: Unrun(s, e) ==>
          && IsRequested(was, e)
          && IsExecution(s, RequestOnFile(was, e, s.taint, principal), Written(was, now))
          && Ran(|was|, now, e))
    && ((forall e :: !Unrun(s, e)) ==> now == was)
  }

  /** From index `i` the run was resumed: the resumption, the approved effect, then driving. */
  ghost predicate AtResumption(g: Gateway, principal: string, i: nat, j: nat, s: RunState, log: seq<Event>)
  {
    && i < j <= |log|
    && log[i].actor == Actor.Runtime && log[i].body == RunResumed(s.lastSeq + 1)
    && ApprovedRan(s.(status := Running, awaiting := None, lastSeq := i), log[..i + 1], log[..j], principal)
    && DrivenToEnd(g, principal, log[..j], log)
  }

  ghost predicate ResumedAt(g: Gateway, principal: string, i: nat, s: RunState, log: seq<Event>)
  {
    exists j :: AtResumption(g, principal, i, j, s, log)
  }

  /** A human still has time to decide about the run. */
  ghost predicate AwaitsDecision(log: seq<Event>, now: nat)
  {
    exists a :: a in Fold(log).pendingApprovals && !IsOverdue(log, a, now)
  }

  /** What was still to be decided expired at `now` or was not there, and then the run was resumed. */
  ghost predicate Continued(g: Gateway, principal: string, was: seq<Event>, log: seq<Event>, now: nat)
  {
    exists i: nat :: |was| <= i <= |log| && was <= log[..i]
      && Expired(Fold(was), was, now, Fold(log[..i]), log[..i])
      && Fold(log[..i]).pendingApprovals == map[]
      && ResumedAt(g, principal, i, Fold(log[..i]), log)
  }

  lemma ContinuedAfterExpiry(
      g: Gateway, principal: string, was: seq<Event>, expired: seq<Event>, log: seq<Event>, now: nat)
    requires was <= expired <= log && Expired(Fold(was), was, now, Fold(expired), expired)
    requires Fold(expired).pendingApprovals == map[]
    requires ResumedAt(g, principal, |expired|, Fold(expired), log)
    ensures Continued(g, principal, was, log, now)
  {
    hide Fold, FoldFrom, ResumedAt, Expired;
    assert log[..|expired|] == expired;
  }

  /** The run still waits for a human's decision, and nothing was written. */
  predicate StillWaiting(was: seq<Event>, log: seq<Event>, outcome: RunOutcome)
  {
    && log == was && outcome.Waiting? && outcome.state.pendingApprovals != map[]
    && outcome.reason == if outcome.state.awaiting.Some? then outcome.state.awaiting.value
                         else FirstPendingApproval(outcome.state.pendingApprovals).value
  }

  /** These entries were written, and then the run was taken up again as `Resume` does, unless it
      still waits for a decision. */
  ghost predicate Recorded(g: Gateway, principal: string, was: seq<Event>, log: seq<Event>, entries: seq<Entry>)
  {
    && was <= log && |entries| <= |Written(was, log)| && Written(was, log)[..|entries|] == entries
    && var mid := log[..|was| + |entries|];
       (log == mid && Fold(log).pendingApprovals != map[]) || exists now :: Continued(g, principal, mid, log, now)
  }

  /** What a decision at `now` leaves: past the deadline the expiry, before it the decision; and then
      the run went on. */
  ghost predicate Decided(
      g: Gateway, principal: string, was: seq<Event>, log: seq<Event>, a: ApprovalId, granted: bool, who: Actor,
      now: nat)
  {
    var s := Fold(was);
    && a in s.pendingApprovals
    && Recorded(g, principal, was, log,
                if IsOverdue(was, a, now) then [Entry(Actor.Runtime, ApprovalExpired(a))]
                else if granted then [Entry(who, ApprovalGranted(a))]
                else [CheckpointEntry(s, PreApproval), Entry(who, ApprovalDenied(a))])
  }

  /** What follows an amendment depends on what the run was doing. */
  ghost predicate Amended(g: Gateway, principal: string, was: seq<Event>, log: seq<Event>, amendment: Entry)
  {
    && was < log
    && var s, mid := Fold(was), log[..|was| + 1];
       && Written(was, mid) == [amendment]
       && if s.awaiting == Some(AwaitBudget) then Recorded(g, principal, was, log, [amendment])
          else if s.status == Running then DrivenToEnd(g, principal, mid, log)
          else log == mid
  }

  lemma AmendedBy(
      g: Gateway, principal: string, was: seq<Event>, mid: seq<Event>, log: seq<Event>, amendment: Entry)
    requires was < mid <= log && Written(was, mid) == [amendment]
    requires if Fold(was).awaiting == Some(AwaitBudget) then Recorded(g, principal, was, log, [amendment])
             else if Fold(was).status == Running then DrivenToEnd(g, principal, mid, log)
             else log == mid
    ensures Amended(g, principal, was, log, amendment)
  {
    hide Fold, FoldFrom, Recorded, DrivenToEnd;
    assert log[..|was| + 1] == mid;
  }

  /** A run's first two entries, and then it was driven. */
  ghost predicate Started(g: Gateway, principal: string, log: seq<Event>, entries: seq<Entry>)
  {
    && |entries| <= |log| && Written([], log[..|entries|]) == entries
    && DrivenToEnd(g, principal, log[..|entries|], log)
  }

  /** A checkpoint in between takes nothing from what may be dispatched. */
  lemma StillDispatchable(s: RunState, t: RunState, was: seq<Event>, now: seq<Event>, e: EffectId)
    requires was <= now && MayDispatch(s, was, e) && IsRequested(was, e)
    requires t.pendingEffects == s.pendingEffects && t.pendingApprovals == s.pendingApprovals
    ensures MayDispatch(t, now, e) && IsRequested(now, e) && ClassOf(now, e) == ClassOf(was, e)
  {
  }

  /** A request on file stays the same request. */
  lemma StillOnFile(log: seq<Event>, now: seq<Event>)
    requires log <= now
    ensures forall e :: IsRequested(log, e) ==> IsRequested(now, e)
  {
  }

  lemma SomePending(approvals: map<ApprovalId, EffectId>)
    ensures approvals != map[] ==> exists a :: a in approvals
  {
    if approvals.Keys != {} {
      var a :| a in approvals.Keys;
    } else {
      assert approvals == map[];
    }
  }

  lemma NothingToDecide(log: seq<Event>, now: nat)
    requires Fold(log).pendingApprovals == map[]
    ensures !AwaitsDecision(log, now)
  {
    hide Fold, FoldFrom;
  }

  /** Writing the entries and resuming is what `Recorded` says. */
  lemma RecordedAndResumed(
      g: Gateway, principal: string, was: seq<Event>, mid: seq<Event>, log: seq<Event>, entries: seq<Entry>, now: nat,
      outcome: RunOutcome)
    requires was <= mid <= log && Written(was, mid) == entries && outcome.state == Fold(log)
    requires if AwaitsDecision(mid, now) then StillWaiting(mid, log, outcome)
             else Continued(g, principal, mid, log, now)
    ensures Recorded(g, principal, was, log, entries)
  {
    hide Fold, FoldFrom, Continued, AwaitsDecision;
    WrittenTwice(was, mid, log);
    assert log[..|was| + |entries|] == mid;
  }

  lemma OnlyOneIsPending(log: seq<Event>, s: RunState, a: ApprovalId)
    requires Lawful(log) && s == Fold(log) && a in s.pendingApprovals
    ensures forall b :: b in s.pendingApprovals ==> b == a
  {
    PendingIsSingle(log, s);
  }

  lemma PendingIsRequested(log: seq<Event>, s: RunState, a: ApprovalId)
    requires Lawful(log) && s == Fold(log) && a in s.pendingApprovals
    ensures s.pendingApprovals[a] in s.pendingEffects && s.pendingEffects[s.pendingApprovals[a]] == Requested
    ensures s.pendingApprovals - {a} == map[]
  {
    LedgerHolds(log);
    OnlyApproval(s, a);
  }

  /** An effect, an approval or a question is named after the place of its request. */
  lemma IdsAreWhereTheySay(log: seq<Event>, i: nat)
    requires Lawful(log) && i < |log|
    ensures log[i].body.ToolRequested? ==> log[i].body.effectId.at + 1 == i
    ensures log[i].body.ApprovalRequested? ==> log[i].body.approvalId.at + 1 == i
    ensures log[i].body.ClarificationRequested? ==> log[i].body.questionId.at + 1 == i
  {
    LawfulPrefix(log, i);
  }

  lemma RequestedOnFile(log: seq<Event>, e: EffectId)
    requires Lawful(log) && e in Fold(log).pendingEffects
    ensures IsRequested(log, e)
  {
    LedgerHolds(log);
  }

  lemma LastSeqOfLog(log: seq<Event>)
    requires Lawful(log)
    ensures log != [] ==> Fold(log).lastSeq == |log| - 1
  {
    LedgerHolds(log);
  }

  lemma StatusOfLog(log: seq<Event>)
    requires Lawful(log)
    ensures StatusLedger(Fold(log))
  {
    LedgerHolds(log);
  }

  lemma FewTurns(log: seq<Event>)
    requires Lawful(log)
    ensures Fold(log).turn <= MAX_TURNS + 1
  {
    LedgerHolds(log);
  }

  /** A decision is a due checkpoint, if there is one, and what the kernel wants next; taking the
      checkpoint does not change the latter. */
  lemma DecidesAtMostTwo(s: RunState)
    requires Decide(s) != []
    ensures var next := NextCommand(s);
      && s.status == Running && s.awaiting.None? && |next| <= 1
      && (if next == [] then !s.AllResolved() else !next[0].TakeCheckpoint?)
      && Decide(s) == (if s.EventsSinceCheckpoint() >= CHECKPOINT_EVERY then [TakeCheckpoint(Periodic)] else []) + next
      && forall last: nat, mark :: NextCommand(s.(lastSeq := last, lastCheckpointSeq := mark)) == next
  {
  }

  lemma EmptyFold()
    ensures Fold([]) == NewState()
  {
  }

  lemma {:induction false} IntentStays(log: seq<Event>, k: nat)
    requires k <= |log| && Fold(log[..k]).intent.Some?
    ensures Fold(log).intent.Some?
    decreases |log|
  {
    if k == |log| {
      assert log[..k] == log;
    } else {
      var init, last := log[..|log| - 1], log[|log| - 1];
      assert init[..k] == log[..k];
      IntentStays(init, k);
      assert init + [last] == log;
      FoldAppendEvent(init, last);
      IntentStep(Fold(init), last);
    }
  }

  lemma IntentStep(s: RunState, ev: Event)
    ensures s.intent.Some? ==> Reduce(s, ev).intent.Some?
  {
  }

  lemma PendingIsSingle(log: seq<Event>, s: RunState)
    requires Lawful(log) && s == Fold(log)
    ensures forall a, b :: a in s.pendingApprovals && b in s.pendingApprovals ==> a == b
    ensures forall a, e :: a in s.pendingApprovals && e in s.pendingEffects && s.pendingEffects[e] == Approved ==> false
  {
    LedgerHolds(log);
    forall a, e | a in s.pendingApprovals && e in s.pendingEffects && s.pendingEffects[e] == Approved ensures false {
      assert Open(s.pendingEffects, e) && Open(s.pendingEffects, s.pendingApprovals[a]);
    }
  }

  /** The outcome a call reports is the status the log folds to, and why as its last event has it. */
  predicate Reports(outcome: RunOutcome, log: seq<Event>)
  {
    match outcome
    case Finished(s) => s.status == Completed
    case Waiting(s, reason) => s.status == Suspended && s.awaiting == Some(reason)
    case Broken(s, error) => s.status == Failed && error == WhyFailed(log)
  }

  /** The call ended with the run stopped, and reports it as it is. */
  ghost predicate EndedAs(outcome: RunOutcome, log: seq<Event>)
  {
    outcome.state == Fold(log) && Stopped(outcome.state, log) && Reports(outcome, log)
  }

  /** A run that failed while it was driven says why: with the code of its last event, a failure, or
      because its plan could not be carried out and it completed as a failure. */
  lemma DrivenFailuresAreExplained(log: seq<Event>)
    requires Stopped(Fold(log), log) && Fold(log).status == Failed
    ensures !WhyFailed(log).Unexplained?
    ensures log != []
    ensures var last := log[|log| - 1].body;
      || (last.RunFailed? && WhyFailed(log) == FailedWith(last.code))
      || (last == RunCompleted(CompletedFailed) && WhyFailed(log) == HollowPlan)
  {
    var init, ev := log[..|log| - 1], log[|log| - 1];
    assert init + [ev] == log;
    FoldAppendEvent(init, ev);
  }

  lemma EndIsExplained(outcome: RunOutcome, log: seq<Event>)
    requires EndedAs(outcome, log)
    ensures outcome.Broken? ==> !outcome.error.Unexplained?
  {
    hide Fold, FoldFrom, WhyFailed;
    if outcome.Broken? {
      DrivenFailuresAreExplained(log);
    }
  }

  /** So does a run that was resumed, if it failed; one that still waits did not. */
  lemma ResumedIsExplained(was: seq<Event>, log: seq<Event>, now: nat, outcome: RunOutcome)
    requires if AwaitsDecision(was, now) then StillWaiting(was, log, outcome) else EndedAs(outcome, log)
    ensures outcome.Broken? ==> !outcome.error.Unexplained?
  {
    hide Fold, FoldFrom, EndedAs, AwaitsDecision;
    if !AwaitsDecision(was, now) {
      EndIsExplained(outcome, log);
    }
  }

  /** The events of an admission: request, verdict, and perhaps an impact estimate, for effect `e`. */
  predicate IsVerdict(s: RunState, e: EffectId, bodies: seq<EventBody>)
  {
    && 2 <= |bodies| <= 3
    && bodies[0].ToolRequested? && bodies[0].effectId == e && bodies[0].turn == s.turn
    && HasPlan(s) && s.lastPlan.value.call == Some(PlannedCall(bodies[0].tool, bodies[0].paramsRef))
    && bodies[1].PolicyEvaluated? && bodies[1].effectId == e
    && (bodies[1].decision.DecidedAllow? ==> bodies[0].effectClass.Read? || s.taint == Clean)
    && (|bodies| == 3 ==> bodies[2].ImpactEstimated? && bodies[2].impact.effectId == e)
  }

  /** The state with the first `i` events of an admission folded in. */
  function Judging(s: RunState, e: EffectId, i: nat): RunState
  {
    if i == 0 then s else s.(pendingEffects := s.pendingEffects[e := Requested], lastSeq := s.lastSeq + i)
  }

  lemma VerdictMayBeWritten(
      was: seq<Event>, now: seq<Event>, s: RunState, e: EffectId, bodies: seq<EventBody>, i: nat)
    requires IsVerdict(s, e, bodies) && Idle(s) && s.turn <= MAX_TURNS
    requires was != [] && s.lastSeq == |was| - 1 && e.at == s.lastSeq
    requires was <= now && |now| == |was| + i && i < |bodies|
    requires forall k :: 0 <= k < i ==> now[|was| + k].body == bodies[k]
    ensures MayAppend(Judging(s, e, i), now, Actor.Gateway, bodies[i])
  {
  }

  lemma VerdictIsOwn(
      log: seq<Event>, s: RunState, e: EffectId, bodies: seq<EventBody>, i: nat, g: Gateway, contents: Contents)
    requires IsVerdict(s, e, bodies) && i < |bodies| && AsDeclared(bodies[0], g.manifests)
    ensures OwnBody(bodies[i], log, g, contents)
  {
  }

  lemma IdleHasNothingPending(log: seq<Event>, s: RunState)
    requires Lawful(log) && s == Fold(log) && Idle(s)
    ensures s.pendingApprovals == map[] && s.status == Running
  {
    NothingPending(log, s);
  }

  lemma JudgingBegins(s: RunState, e: EffectId)
    ensures Judging(s, e, 0) == s
  {
  }

  lemma VerdictIsOnFile(was: seq<Event>, now: seq<Event>, s: RunState, e: EffectId, bodies: seq<EventBody>)
    requires IsVerdict(s, e, bodies) && s.status == Running && s.awaiting.None? && s.pendingApprovals == map[]
    requires was <= now && |now| == |was| + |bodies| && was != [] && e.at == |was| - 1
    requires forall k :: 0 <= k < |bodies| ==> now[|was| + k].body == bodies[k]
    ensures JustJudged(Judging(s, e, |bodies|), now, e, bodies[1].decision)
    ensures ClassOf(now, e) == bodies[0].effectClass
    ensures Judging(s, e, |bodies|)
         == s.(pendingEffects := s.pendingEffects[e := Requested], lastSeq := s.lastSeq + |bodies|)
  {
    assert now[e.at + 1].body == bodies[0] && now[e.at + 2].body == bodies[1];
  }

  lemma VerdictReduces(s: RunState, e: EffectId, bodies: seq<EventBody>, i: nat, ev: Event)
    requires IsVerdict(s, e, bodies) && i < |bodies| && ev.body == bodies[i] && ev.seqNo == s.lastSeq + i + 1
    ensures Reduce(Judging(s, e, i), ev) == Judging(s, e, i + 1)
  {
  }

  /** The gateway was told there is no preview, and `entries` is what it then added. */
  ghost predicate Previewed(g: Gateway, asked: GatewayAction, action: GatewayAction, entries: seq<Entry>)
  {
    && asked.NeedPreview? && !asked.pending.decision.Deny?
    && var verdict := g.AdmitWithPreview(asked.pending, None);
       entries == By(Actor.Gateway, verdict.events) && action == verdict.action
  }

  /** How the outcome of an admission ends up in the log, with a round of preview if it asks for one. */
  ghost predicate Concludes(s: RunState, g: Gateway, e: EffectId, action: GatewayAction, entries: seq<Entry>)
  {
    if action.NeedPreview? then
      && entries != [] && !action.pending.decision.Deny?
      && Previewed(g, action, g.AdmitWithPreview(action.pending, None).action, entries[..1])
      && Follows(s.(lastSeq := s.lastSeq + 1), e, g.AdmitWithPreview(action.pending, None).action, entries[1..])
    else Follows(s, e, action, entries)
  }

  lemma AdmissionAssembled(s: RunState, judged: RunState, g: Gateway, req: AdmitRequest, tail: seq<Entry>)
    requires judged == s.(pendingEffects := s.pendingEffects[req.effectId := Requested],
                          lastSeq := s.lastSeq + |g.Admit(req).events|)
    requires Concludes(judged, g, req.effectId, g.Admit(req).action, tail)
    ensures IsAdmission(s, g, req, By(Actor.Gateway, g.Admit(req).events) + tail)
  {
    hide Follows;
    var first := g.Admit(req);
    var entries := By(Actor.Gateway, first.events) + tail;
    if first.action.NeedPreview? {
      var second := g.AdmitWithPreview(first.action.pending, None);
      var n := |first.events + second.events|;
      assert |second.events| == 1;
      assert entries[..n] == By(Actor.Gateway, first.events + second.events);
      assert entries[n..] == tail[1..];
      assert s.lastSeq + n == judged.lastSeq + 1;
    } else {
      assert entries[..|first.events|] == By(Actor.Gateway, first.events);
      assert entries[|first.events|..] == tail;
    }
  }

  lemma ResultOpensSpending(log: seq<Event>)
    ensures log != [] && log[|log| - 1].body.ToolResult? ==> SpendOpen(log)
    ensures log != [] && log[|log| - 1].body.ModelResponded? ==> SpendOpen(log)
  {
  }

  lemma PlannedTurnHasPlan(log: seq<Event>)
    requires Lawful(log)
    ensures Fold(log).planTurn.Some? ==> log != [] && Fold(log).lastPlan.Some?
  {
    LedgerHolds(log);
  }

  class Runtime {
    const store: RunLog
    const gateway: Gateway
    const budget: BudgetSpec
    const principal: string
    const contents: Contents
    const profile: string

    ghost predicate Valid()
      reads store
    {
      && store.Valid()
      && Lawful(store.events)
      && Own(store.events, gateway, contents)
      && (forall q :: q in store.snapshots ==> HonestSnapshot(store.events, store.snapshots[q]))
    }

    constructor (gateway: Gateway, budget: BudgetSpec, principal: string, contents: Contents, profile: string)
      ensures Valid() && fresh(store) && store.events == []
      ensures this.gateway == gateway && this.budget == budget && this.principal == principal
      ensures this.contents == contents && this.profile == profile
    {
      this.gateway, this.budget, this.principal := gateway, budget, principal;
      this.contents, this.profile := contents, profile;
      store := new RunLog();
    }

    /** The one place that writes the log; the state stays the fold of the log. */
    method Emit(state: RunState, actor: Actor, body: EventBody) returns (r: Result<RunState, DaemonError>)
      requires Valid() && state == Fold(store.events)
      requires MayAppend(state, store.events, actor, body)
      requires OwnBody(body, store.events, gateway, contents)
      modifies store
      ensures Valid() && store.snapshots == old(store.snapshots)
      ensures r.Ok? ==> Grew(old(store.events), store.events, actor, body)
      ensures r.Ok? ==> Written(old(store.events), store.events) == [Entry(actor, body)]
      ensures r.Ok? ==> r.value == Reduce(state, store.events[|old(store.events)|]) && r.value == Fold(store.events)
      ensures r.Err? ==> r.error == StoreFailure && store.events == old(store.events)
    {
      hide Fold, FoldFrom, MayAppend, Reduce, Own, OwnBody;
      var recordedAt: string := *;
      ghost var was := store.events;
      var event :- store.Append(actor, recordedAt, body);
      OwnSnoc(was, event, gateway, contents);
      FoldAppendEvent(was, event);
      LawfulAppend(was, event);
      forall q | q in store.snapshots ensures HonestSnapshot(store.events, store.snapshots[q]) {
        assert store.events[..store.snapshots[q].seqNo] == was[..store.snapshots[q].seqNo];
      }
      return Ok(Reduce(state, event));
    }

    /** Record the hash of the state, then store that state as a snapshot. */
    method Checkpoint(state: RunState, reason: CheckpointReason) returns (r: Result<RunState, DaemonError>)
      requires Valid() && state == Fold(store.events)
      modifies store
      ensures Valid() && old(store.events) <= store.events
      ensures r.Ok? ==> Written(old(store.events), store.events) == [CheckpointEntry(state, reason)]
      ensures r.Ok? ==> MarkedFor(store.events, reason)
      ensures r.Ok? ==> r.value == Fold(store.events)
      ensures r.Ok? ==>
        r.value == state.(lastSeq := |old(store.events)|, lastCheckpointSeq := Some(|old(store.events)|))
      ensures r.Ok? ==>
        store.snapshots
        == old(store.snapshots)[|old(store.events)| := Snapshot(|old(store.events)|, Encoded(state), StateHash(state))]
      ensures r.Err? ==> r.error == StoreFailure
    {
      hide Fold, FoldFrom, Lawful, Own;
      var hash := StateHash(state);
      ghost var was := store.events;
      var newState :- Emit(state, Actor.Kernel, Events.Checkpoint(hash, reason));
      assert HonestSnapshot(store.events, Snapshot(newState.lastSeq, Encoded(state), hash));
      var _ :- store.PutSnapshot(newState.lastSeq, Encoded(state), hash);
      return Ok(newState);
    }

    /** Write the charges of one model call or one effect. */
    method EmitCharges(state0: RunState, charges: seq<nat>) returns (r: Result<RunState, DaemonError>)
      requires Valid() && state0 == Fold(store.events)
      requires state0.AllResolved() && SpendOpen(store.events)
      modifies store
      ensures Valid() && old(store.events) <= store.events
      ensures r.Ok? ==> r.value == Fold(store.events) && OnlyCharged(state0, r.value)
      ensures r.Ok? ==> Written(old(store.events), store.events) == Charges(charges)
      ensures r.Err? ==> r.error == StoreFailure
    {
      hide Fold, FoldFrom, Lawful, Own, HonestSnapshot, KeysAgree, PaperTrail, ApprovalLedger;
      var state := state0;
      var i := 0;
      while i < |charges|
        invariant Valid() && state == Fold(store.events) && old(store.events) <= store.events
        invariant i <= |charges| && OnlyCharged(state0, state) && SpendOpen(store.events)
        invariant Written(old(store.events), store.events) == Charges(charges[..i])
      {
        ghost var was := store.events;
        state :- Emit(state, Actor.Runtime, CostCharged(charges[i]));
        assert store.events[..|store.events| - 1] == was;
        WrittenTwice(old(store.events), was, store.events);
        i := i + 1;
      }
      assert charges[..i] == charges;
      return Ok(state);
    }

    /** The last artifact written at a path, looking from the newest back. */
    method FindReplaced(artifacts: seq<ArtifactRecord>, path: string) returns (found: Option<ArtifactId>)
      ensures found == LastAt(artifacts, path)
    {
      var i := |artifacts|;
      assert artifacts[..i] == artifacts;
      while i > 0
        invariant 0 <= i <= |artifacts| && LastAt(artifacts, path) == LastAt(artifacts[..i], path)
      {
        i := i - 1;
        assert artifacts[..i + 1][..i] == artifacts[..i];
        if artifacts[i].path == path {
          return Some(artifacts[i].artifactId);
        }
      }
      return None;
    }

    /** A successful file write becomes an artifact, replacing the last one at its path. */
    method EmitArtifact(state: RunState, path: string, blob: BlobRef) returns (r: Result<RunState, DaemonError>)
      requires Valid() && state == Fold(store.events)
      requires state.AllResolved() && SpendOpen(store.events)
      modifies store
      ensures Valid() && old(store.events) <= store.events
      ensures r.Ok? ==> r.value == Fold(store.events) && SpendOpen(store.events)
      ensures r.Ok? ==> r.value == state.(artifacts := r.value.artifacts, lastSeq := r.value.lastSeq)
      ensures r.Ok? ==>
        Written(old(store.events), store.events)
        == [Entry(Actor.Executor,
                  ArtifactEmitted(ArtifactId(state.lastSeq), path, blob, LastAt(state.artifacts, path)))]
      ensures r.Err? ==> r.error == StoreFailure
    {
      hide Fold, FoldFrom, Lawful, Own, HonestSnapshot, KeysAgree, PaperTrail, ApprovalLedger;
      var supersedes := FindReplaced(state.artifacts, path);
      ghost var was := store.events;
      var next :- Emit(state, Actor.Executor, ArtifactEmitted(ArtifactId(state.lastSeq), path, blob, supersedes));
      assert store.events[..|store.events| - 1] == was;
      return Ok(next);
    }

    /** Run one admitted effect: checkpoint, dispatch, execute, settle, charge. */
    method DispatchEffect(state0: RunState, e: EffectId, request: EffectRequest)
      returns (r: Result<RunState, DaemonError>)
      requires Valid() && state0 == Fold(store.events)
      requires MayDispatch(state0, store.events, e) && request.effectId == e
      requires IsRequested(store.events, e) && request.effectClass == ClassOf(store.events, e)
      modifies store
      ensures Valid() && old(store.events) <= store.events
      ensures r.Ok? ==> r.value == Fold(store.events) && EffectDone(state0, r.value)
      ensures r.Ok? ==> Ran(|old(store.events)|, store.events, e)
      ensures r.Ok? ==> IsExecution(state0, request, Written(old(store.events), store.events))
      ensures r.Err? ==> r.error != MissingIntent && !CallerError(r.error)
    {
      hide Fold, FoldFrom, Lawful, Own, HonestSnapshot, KeysAgree, PaperTrail, ApprovalLedger, Ran, Settlement;
      ghost var was := store.events;
      LastSeqOfLog(was);
      RequestedOnFile(was, e);
      var state :- AnnounceDispatch(state0, e, request);
      ghost var dispatched := store.events;
      var outcome: EffectOutcome := *;
      var listed: seq<nat> := *;
      r := SettleEffect(state, request, outcome, listed);
      if r.Ok? {
        RanStays(|was|, dispatched, store.events, e);
        WrittenTwice(was, dispatched, store.events);
        assert Written(was, store.events) == Execution(state0, request, outcome, listed);
        ExecutionBy(state0, request, outcome, listed);
      }
    }

    /** The checkpoint and the dispatch event that precede an execution. */
    method AnnounceDispatch(state0: RunState, e: EffectId, request: EffectRequest)
      returns (r: Result<RunState, DaemonError>)
      requires Valid() && state0 == Fold(store.events)
      requires MayDispatch(state0, store.events, e)
      requires IsRequested(store.events, e) && request.effectClass == ClassOf(store.events, e)
      modifies store
      ensures Valid() && old(store.events) <= store.events
      ensures r.Ok? ==> r.value == Fold(store.events) && Ran(|old(store.events)|, store.events, e)
      ensures r.Ok? ==> Written(old(store.events), store.events) == Announcement(state0, e, request.effectClass)
      ensures r.Ok? ==>
        r.value == state0.(pendingEffects := state0.pendingEffects[e := Dispatched],
                           lastSeq := |store.events| - 1, lastCheckpointSeq := r.value.lastCheckpointSeq)
      ensures r.Err? ==> r.error != MissingIntent && !CallerError(r.error)
    {
      hide Fold, FoldFrom, Lawful, Own, HonestSnapshot, KeysAgree, PaperTrail, ApprovalLedger;
      hide Reduce, MayAppend, MayDispatch, Ran;
      ghost var was := store.events;
      var state := state0;
      var loaded: bool := *;
      if !loaded {
        return Err(StoreFailure);
      }
      if ChangesTheWorld(request.effectClass) {
        state :- Checkpoint(state, PreWrite);
      }
      var prepared: bool := *;
      if !prepared {
        return Err(ExecFailure);
      }
      ghost var announced := store.events;
      StillDispatchable(state0, state, was, announced, e);
      r := WriteDispatch(state, e);
      if r.Ok? {
        RanStays(|was|, store.events, store.events, e);
        WrittenTwice(was, announced, store.events);
      }
    }

    method WriteDispatch(state: RunState, e: EffectId) returns (r: Result<RunState, DaemonError>)
      requires Valid() && state == Fold(store.events)
      requires MayDispatch(state, store.events, e) && IsRequested(store.events, e)
      requires ChangesTheWorld(ClassOf(store.events, e)) ==> MarkedFor(store.events, PreWrite)
      modifies store
      ensures Valid() && old(store.events) <= store.events
      ensures r.Ok? ==> r.value == Fold(store.events) && Ran(|old(store.events)|, store.events, e)
      ensures r.Ok? ==> Written(old(store.events), store.events) == [Entry(Actor.Gateway, EffectDispatched(e, Live))]
      ensures r.Ok? ==>
        r.value == state.(pendingEffects := state.pendingEffects[e := Dispatched], lastSeq := |store.events| - 1)
      ensures r.Err? ==> r.error == StoreFailure
    {
      hide Fold, FoldFrom, Lawful, Own, HonestSnapshot, KeysAgree, PaperTrail, ApprovalLedger;
      r := Emit(state, Actor.Gateway, EffectDispatched(e, Live));
      assert r.Ok? ==> DispatchesAt(store.events, |store.events| - 1, e);
    }

    /** Write what came of a dispatched effect: its result, its artifact and its charges. `outcome`
        is the executor's answer, `listed` the price table's. */
    method SettleEffect(state0: RunState, request: EffectRequest, outcome: EffectOutcome, listed: seq<nat>)
      returns (r: Result<RunState, DaemonError>)
      requires Valid() && state0 == Fold(store.events) && state0.lastSeq + 1 == |store.events|
      requires request.effectId in state0.pendingEffects && state0.pendingEffects[request.effectId] == Dispatched
      modifies store
      ensures Valid() && old(store.events) <= store.events
      ensures r.Ok? ==> r.value == Fold(store.events) && EffectDone(state0, r.value)
      ensures r.Ok? ==>
        Written(old(store.events), store.events)
        == Settlement(state0.artifacts, state0.lastSeq + 1, request.effectId, request.tool, outcome, listed)
      ensures r.Err? ==> r.error != MissingIntent && !CallerError(r.error)
    {
      hide Fold, FoldFrom, Lawful, Own, HonestSnapshot, KeysAgree, PaperTrail, ApprovalLedger, SpendOpen;
      LedgerHolds(store.events);
      ghost var was := store.events;
      var e := request.effectId;
      var saved: bool := *;
      if !saved {
        return Err(StoreFailure);
      }
      var state :- RecordResult(state0, e, outcome);
      ghost var settled := store.events;
      if outcome.status == ResultOk && request.tool == "fs.write" && outcome.written.Some? {
        state :- EmitArtifact(state, outcome.written.value.0, outcome.written.value.1);
      }
      ghost var filed := store.events;
      WrittenTwice(was, settled, filed);
      if outcome.status == ResultOk || outcome.status == ResultError {
        state :- ChargeEffect(state, outcome.costMicros, listed);
      }
      WrittenTwice(was, filed, store.events);
      return Ok(state);
    }

    /** The result closes the only open effect, which moves the turn on. */
    method RecordResult(state0: RunState, e: EffectId, outcome: EffectOutcome)
      returns (r: Result<RunState, DaemonError>)
      requires Valid() && state0 == Fold(store.events)
      requires e in state0.pendingEffects && state0.pendingEffects[e] == Dispatched
      modifies store
      ensures Valid() && old(store.events) <= store.events
      ensures r.Ok? ==> r.value == Fold(store.events) && EffectDone(state0, r.value) && SpendOpen(store.events)
      ensures r.Ok? ==> r.value.lastSeq == |old(store.events)| && r.value.artifacts == state0.artifacts
      ensures r.Ok? ==>
        Written(old(store.events), store.events)
        == [Entry(Actor.Executor, ToolResult(e, outcome.status, outcome.outputRef, outcome.taint, []))]
      ensures r.Err? ==> r.error == StoreFailure
    {
      hide Fold, FoldFrom, Lawful, Own, HonestSnapshot, KeysAgree, PaperTrail, ApprovalLedger, SpendOpen;
      LedgerHolds(store.events);
      OnlyOpenResolves(state0, e, if outcome.status.ResultDenied? then Denied else Settled);
      r := Emit(state0, Actor.Executor, ToolResult(e, outcome.status, outcome.outputRef, outcome.taint, []));
      ResultOpensSpending(store.events);
    }

    /** An effect that really ran is charged what the executor reported, else what the price
        table lists for it; a reported zero is free. The table may fail to answer. */
    method ChargeEffect(state: RunState, reported: Option<nat>, listed: seq<nat>)
      returns (r: Result<RunState, DaemonError>)
      requires Valid() && state == Fold(store.events)
      requires state.AllResolved() && SpendOpen(store.events)
      modifies store
      ensures Valid() && old(store.events) <= store.events
      ensures r.Ok? ==> r.value == Fold(store.events) && OnlyCharged(state, r.value)
      ensures r.Ok? ==> Written(old(store.events), store.events) == Charges(Costs(reported, listed))
      ensures r.Err? ==> r.error != MissingIntent && !CallerError(r.error)
    {
      var charges: seq<nat>;
      match reported {
        case Some(amount) =>
          charges := if amount == 0 then [] else [amount];
        case None =>
          var priced: bool := *;
          if !priced {
            return Err(PricingFailure);
          }
          charges := listed;
      }
      r := EmitCharges(state, charges);
    }

    /** Record a real fault as the run's last event. */
    method FailRun(state: RunState, actor: Actor, code: string) returns (r: Result<RunState, DaemonError>)
      requires Valid() && state == Fold(store.events)
      modifies store
      ensures Valid() && old(store.events) <= store.events
      ensures r.Ok? ==> r.value == Fold(store.events) && Stopped(r.value, store.events)
      ensures r.Ok? ==> r.value.status == Failed && store.events[|store.events| - 1].body == RunFailed(code)
      ensures r.Ok? ==> Written(old(store.events), store.events) == [Entry(actor, RunFailed(code))]
      ensures r.Err? ==> r.error == StoreFailure
    {
      hide Fold, FoldFrom, Lawful, Own, HonestSnapshot, KeysAgree;
      var saved: bool := *;
      if !saved {
        return Err(StoreFailure);
      }
      r := Emit(state, actor, RunFailed(code));
    }

    /** Ask the gateway about a planned call, write what it decided, and act on it. */
    method RequestEffect(state0: RunState, call: PlannedCall) returns (r: Result<RunState, DaemonError>)
      requires Valid() && state0 == Fold(store.events)
      requires Idle(state0) && state0.awaiting.None? && state0.turn <= MAX_TURNS && store.events != []
      requires HasPlan(state0) && state0.lastPlan.value.call == Some(call)
      modifies store
      ensures Valid() && old(store.events) <= store.events
      ensures r.Ok? ==> r.value == Fold(store.events)
      ensures r.Ok? ==> Stopped(r.value, store.events)
                        || (r.value.status == Running && r.value.AllResolved() && r.value.turn == state0.turn + 1)
      ensures r.Ok? ==> IsEffectRequest(state0, gateway, principal, call, Written(old(store.events), store.events))
      ensures r.Err? ==> r.error != MissingIntent && !CallerError(r.error)
    {
      var params: Params := *;
      var loaded: bool := *;
      if !loaded {
        return Err(StoreFailure);
      }
      r := SubmitEffect(state0, AdmissionOf(state0, principal, call, params));
    }

    /** The same, for the call's parameters as they were read. */
    method SubmitEffect(state0: RunState, request: AdmitRequest) returns (r: Result<RunState, DaemonError>)
      requires Valid() && state0 == Fold(store.events)
      requires Idle(state0) && state0.awaiting.None? && state0.turn <= MAX_TURNS && store.events != []
      requires request.effectId.at == state0.lastSeq && request.turn == state0.turn && request.mode.Live?
      requires request.taint == state0.taint
      requires HasPlan(state0) && state0.lastPlan.value.call == Some(request.call)
      modifies store
      ensures Valid() && old(store.events) <= store.events
      ensures r.Ok? ==> r.value == Fold(store.events)
      ensures r.Ok? ==> Stopped(r.value, store.events)
                        || (r.value.status == Running && r.value.AllResolved() && r.value.turn == state0.turn + 1)
      ensures r.Ok? ==> IsAdmission(state0, gateway, request, Written(old(store.events), store.events))
      ensures r.Err? ==> r.error != MissingIntent && !CallerError(r.error)
    {
      hide Fold, FoldFrom, Lawful, Own, HonestSnapshot, KeysAgree, PaperTrail, MayAppend, Reduce, Decide, NextCommand;
      hide IsAdmission, Follows, Idle;
      ghost var was := store.events;
      LastSeqOfLog(was);
      var verdict := gateway.Admit(request);
      AdmissionShape(gateway, request);
      ToolIsRecorded(gateway, request);
      var state :- EmitVerdict(state0, request.effectId, verdict.events);
      ghost var judged := store.events;
      r := HandleGatewayAction(state, request.effectId, verdict.action, verdict.events[1].decision);
      if r.Ok? {
        WrittenTwice(was, judged, store.events);
        AdmissionAssembled(state0, state, gateway, request, Written(judged, store.events));
      }
    }

    /** Write the events of an admission, in the order the gateway gave them. */
    method EmitVerdict(state0: RunState, e: EffectId, bodies: seq<EventBody>)
      returns (r: Result<RunState, DaemonError>)
      requires Valid() && state0 == Fold(store.events)
      requires Idle(state0) && state0.awaiting.None? && state0.turn <= MAX_TURNS && store.events != []
      requires e.at == state0.lastSeq
      requires IsVerdict(state0, e, bodies) && |bodies| >= 2 && bodies[1].PolicyEvaluated?
      requires AsDeclared(bodies[0], gateway.manifests)
      modifies store
      ensures Valid() && old(store.events) <= store.events
      ensures r.Ok? ==> r.value == Fold(store.events) && JustJudged(r.value, store.events, e, bodies[1].decision)
      ensures r.Ok? ==> ClassOf(store.events, e) == bodies[0].effectClass
      ensures r.Ok? ==> r.value == state0.(pendingEffects := state0.pendingEffects[e := Requested],
                                           lastSeq := state0.lastSeq + |bodies|)
      ensures r.Ok? ==> Written(old(store.events), store.events) == By(Actor.Gateway, bodies)
      ensures r.Err? ==> r.error == StoreFailure
    {
      hide Fold, FoldFrom, Lawful, Own, HonestSnapshot, KeysAgree, PaperTrail;
      hide Reduce, MayAppend, JustJudged, Judging, IsVerdict, Idle, ApprovalLedger;
      ghost var was := store.events;
      LastSeqOfLog(was);
      IdleHasNothingPending(was, state0);
      JudgingBegins(state0, e);
      var state := state0;
      var i := 0;
      while i < |bodies|
        invariant Valid() && state == Fold(store.events) && was <= store.events
        invariant i <= |bodies| && |store.events| == |was| + i
        invariant Written(was, store.events) == By(Actor.Gateway, bodies[..i])
        invariant forall k :: 0 <= k < i ==> store.events[|was| + k].body == bodies[k]
        invariant state == Judging(state0, e, i)
      {
        ghost var before := store.events;
        VerdictMayBeWritten(was, before, state0, e, bodies, i);
        VerdictIsOwn(before, state0, e, bodies, i, gateway, contents);
        state :- Emit(state, Actor.Gateway, bodies[i]);
        VerdictReduces(state0, e, bodies, i, store.events[|before|]);
        WrittenTwice(was, before, store.events);
        i := i + 1;
      }
      assert bodies[..i] == bodies;
      VerdictIsOnFile(was, store.events, state0, e, bodies);
      return Ok(state);
    }

    /** Bring a judged effect to its outcome, after telling a gateway that wants one that there is
        no preview. */
    method HandleGatewayAction(state0: RunState, e: EffectId, action0: GatewayAction, ghost said: PolicyDecisionKind)
      returns (r: Result<RunState, DaemonError>)
      requires Valid() && state0 == Fold(store.events)
      requires JustJudged(state0, store.events, e, said)
      requires ActionMatches(action0, e, said, ClassOf(store.events, e))
      modifies store
      ensures Valid() && old(store.events) <= store.events
      ensures r.Ok? ==> r.value == Fold(store.events)
      ensures r.Ok? ==> Stopped(r.value, store.events)
                        || (r.value.status == Running && r.value.AllResolved() && r.value.turn == state0.turn + 1)
      ensures r.Ok? ==> Concludes(state0, gateway, e, action0, Written(old(store.events), store.events))
      ensures r.Err? ==> r.error != MissingIntent && !CallerError(r.error)
    {
      hide Fold, FoldFrom, Lawful, Own, HonestSnapshot, KeysAgree, PaperTrail, ApprovalLedger, Follows;
      ghost var was := store.events;
      LastSeqOfLog(was);
      var state, action := state0, action0;
      while action.NeedPreview?
        invariant Valid() && state == Fold(store.events) && was <= store.events
        invariant JustJudged(state, store.events, e, said)
        invariant ActionMatches(action, e, said, ClassOf(store.events, e))
        invariant if action.NeedPreview? then store.events == was && action == action0 && state == state0
                  else if action0.NeedPreview? then
                    && Previewed(gateway, action0, action, Written(was, store.events))
                    && state == state0.(lastSeq := state0.lastSeq + 1)
                  else store.events == was && action == action0 && state == state0
        decreases action.NeedPreview?
      {
        var told :- TellNoPreview(state, e, action, said);
        state, action := told.0, told.1;
      }
      ghost var before := store.events;
      r := ActOn(state, e, action, said);
      WrittenTwice(was, before, store.events);
      assert Written(was, before) == [] ==> Written(was, store.events) == Written(before, store.events);
      if action0.NeedPreview? {
        assert Written(was, store.events)[..1] == Written(was, before);
        assert Written(was, store.events)[1..] == Written(before, store.events);
      }
    }

    /** Tell a gateway that wants one that there is no preview, and write what it adds. */
    method TellNoPreview(state: RunState, e: EffectId, asked: GatewayAction, ghost said: PolicyDecisionKind)
      returns (r: Result<(RunState, GatewayAction), DaemonError>)
      requires Valid() && state == Fold(store.events) && asked.NeedPreview?
      requires JustJudged(state, store.events, e, said) && ActionMatches(asked, e, said, ClassOf(store.events, e))
      modifies store
      ensures Valid() && old(store.events) <= store.events
      ensures r.Ok? ==> r.value.0 == Fold(store.events) && r.value.0 == state.(lastSeq := |store.events| - 1)
      ensures r.Ok? ==> JustJudged(r.value.0, store.events, e, said)
      ensures r.Ok? ==> !r.value.1.NeedPreview? && ActionMatches(r.value.1, e, said, ClassOf(store.events, e))
      ensures r.Ok? ==> |store.events| == |old(store.events)| + 1
      ensures r.Ok? ==> Previewed(gateway, asked, r.value.1, Written(old(store.events), store.events))
      ensures r.Err? ==> r.error == StoreFailure
    {
      hide Fold, FoldFrom, Lawful, Own, HonestSnapshot, KeysAgree, PaperTrail, ApprovalLedger;
      var verdict := gateway.AdmitWithPreview(asked.pending, None);
      PreviewShape(gateway, asked.pending, None);
      var next :- Emit(state, Actor.Gateway, verdict.events[0]);
      return Ok((next, verdict.action));
    }

    /** Run the effect, refuse it, ask a human, or stop for money. */
    method ActOn(state: RunState, e: EffectId, action: GatewayAction, ghost said: PolicyDecisionKind)
      returns (r: Result<RunState, DaemonError>)
      requires Valid() && state == Fold(store.events)
      requires JustJudged(state, store.events, e, said)
      requires ActionMatches(action, e, said, ClassOf(store.events, e)) && !action.NeedPreview?
      modifies store
      ensures Valid() && old(store.events) <= store.events
      ensures r.Ok? ==> r.value == Fold(store.events)
      ensures r.Ok? ==> Stopped(r.value, store.events)
                        || (r.value.status == Running && r.value.AllResolved() && r.value.turn == state.turn + 1)
      ensures r.Ok? ==> Follows(state, e, action, Written(old(store.events), store.events))
      ensures r.Err? ==> r.error != MissingIntent && !CallerError(r.error)
    {
      hide Fold, FoldFrom, Lawful, Own, HonestSnapshot, KeysAgree, PaperTrail;
      hide ApprovalLedger, IsExecution, Refusal, Asking;
      match action
      case Dispatch(request) => r := DispatchEffect(state, e, request);
      case Reject(reasonCode) => r := RefuseEffect(state, e, RunFailed(reasonCode));
      case AskApproval(risk, _, _) => r := AskForApproval(state, e, risk);
      case BudgetExceeded(_, _) => r := RefuseEffect(state, e, RunSuspended(BudgetExhausted));
    }

    /** Write a suspension for a reason the state bears out. */
    method SuspendRun(state: RunState, actor: Actor, reason: SuspendReason) returns (r: Result<RunState, DaemonError>)
      requires Valid() && state == Fold(store.events)
      requires reason == AwaitingHuman ==> state.pendingQuestion.Some?
      requires reason == AwaitingApproval ==> state.pendingApprovals != map[]
      modifies store
      ensures Valid() && old(store.events) <= store.events
      ensures r.Ok? ==> r.value == Fold(store.events) && Stopped(r.value, store.events)
      ensures r.Ok? ==> r.value.status == Suspended && r.value.pendingApprovals == state.pendingApprovals
      ensures r.Ok? && reason == AwaitingApproval ==>
        r.value.awaiting == FirstPendingApproval(state.pendingApprovals)
      ensures r.Ok? && reason == AwaitingHuman ==>
        r.value.awaiting == Some(AwaitClarification(state.pendingQuestion.value))
      ensures r.Ok? ==> Written(old(store.events), store.events) == [Entry(actor, RunSuspended(reason))]
      ensures r.Err? ==> r.error == StoreFailure
    {
      hide Fold, FoldFrom, Lawful, Own, HonestSnapshot, KeysAgree, PaperTrail, ApprovalLedger;
      r := Emit(state, actor, RunSuspended(reason));
    }

    /** Settle an effect that may not run: a checkpoint, its denial, and the event that stops the run. */
    method RefuseEffect(state0: RunState, e: EffectId, last: EventBody) returns (r: Result<RunState, DaemonError>)
      requires Valid() && state0 == Fold(store.events)
      requires e in state0.pendingEffects && state0.pendingEffects[e] == Requested
      requires state0.pendingApprovals == map[]
      requires last.RunFailed? || last == RunSuspended(BudgetExhausted)
      modifies store
      ensures Valid() && old(store.events) <= store.events
      ensures r.Ok? ==> r.value == Fold(store.events) && Stopped(r.value, store.events)
      ensures r.Ok? ==> Written(old(store.events), store.events) == Refusal(state0, e, last)
      ensures r.Err? ==> r.error == StoreFailure
    {
      hide Fold, FoldFrom, Lawful, Own, HonestSnapshot, KeysAgree, PaperTrail, ApprovalLedger;
      ghost var was := store.events;
      var state :- SettleDenied(state0, e);
      ghost var denied := store.events;
      var saved: bool := *;
      if !saved {
        return Err(StoreFailure);
      }
      r := Emit(state, Actor.Gateway, last);
      WrittenTwice(was, denied, store.events);
    }

    method SettleDenied(state0: RunState, e: EffectId) returns (r: Result<RunState, DaemonError>)
      requires Valid() && state0 == Fold(store.events)
      requires e in state0.pendingEffects && state0.pendingEffects[e] == Requested
      requires state0.pendingApprovals == map[]
      modifies store
      ensures Valid() && old(store.events) <= store.events
      ensures r.Ok? ==> r.value == Fold(store.events)
      ensures r.Ok? ==> Written(old(store.events), store.events)
                        == [CheckpointEntry(state0, PreApproval),
                            Entry(Actor.Gateway, ToolResult(e, ResultDenied, None, Clean, []))]
      ensures r.Err? ==> r.error == StoreFailure
    {
      hide Fold, FoldFrom, Lawful, Own, HonestSnapshot, KeysAgree, PaperTrail, ApprovalLedger;
      ghost var was := store.events;
      var state :- Checkpoint(state0, PreApproval);
      ghost var marked := store.events;
      r := Emit(state, Actor.Gateway, ToolResult(e, ResultDenied, None, Clean, []));
      WrittenTwice(was, marked, store.events);
    }

    /** Suspend the run on a human's decision about one effect, after a checkpoint. */
    method AskForApproval(state0: RunState, e: EffectId, risk: RiskLevel) returns (r: Result<RunState, DaemonError>)
      requires Valid() && state0 == Fold(store.events)
      requires JustJudged(state0, store.events, e, DecidedRequireApproval)
      modifies store
      ensures Valid() && old(store.events) <= store.events
      ensures r.Ok? ==> r.value == Fold(store.events) && Stopped(r.value, store.events)
      ensures r.Ok? ==>
        exists a :: r.value.awaiting == Some(AwaitApproval(a, e)) && r.value.pendingApprovals == map[a := e]
      ensures r.Ok? ==> Written(old(store.events), store.events) == Asking(state0, e, risk)
      ensures r.Err? ==> r.error == StoreFailure
    {
      hide Fold, FoldFrom, Lawful, Own, HonestSnapshot, KeysAgree, PaperTrail, ApprovalLedger;
      ghost var was := store.events;
      LastSeqOfLog(was);
      var state :- Checkpoint(state0, PreApproval);
      ghost var marked := store.events;
      r := PutToHuman(state, e, risk);
      WrittenTwice(was, marked, store.events);
    }

    /** The approval is named after the checkpoint before it. */
    method PutToHuman(state0: RunState, e: EffectId, risk: RiskLevel) returns (r: Result<RunState, DaemonError>)
      requires Valid() && state0 == Fold(store.events) && state0.lastSeq + 1 == |store.events|
      requires JustJudged(state0, store.events, e, DecidedRequireApproval) && MarkedFor(store.events, PreApproval)
      modifies store
      ensures Valid() && old(store.events) <= store.events
      ensures r.Ok? ==> r.value == Fold(store.events) && Stopped(r.value, store.events)
      ensures r.Ok? ==>
        && r.value.awaiting == Some(AwaitApproval(ApprovalId(state0.lastSeq), e))
        && r.value.pendingApprovals == map[ApprovalId(state0.lastSeq) := e]
      ensures r.Ok? ==>
        Written(old(store.events), store.events)
        == By(Actor.Gateway, [ApprovalRequested(ApprovalId(state0.lastSeq), e, risk, state0.clockMs + APPROVAL_TTL_MS),
                              RunSuspended(AwaitingApproval)])
      ensures r.Err? ==> r.error == StoreFailure
    {
      hide Fold, FoldFrom, Lawful, Own, HonestSnapshot, KeysAgree, PaperTrail, ApprovalLedger;
      ghost var was := store.events;
      var a := ApprovalId(state0.lastSeq);
      var saved: bool := *;
      if !saved {
        return Err(StoreFailure);
      }
      var state :- Emit(state0, Actor.Gateway, ApprovalRequested(a, e, risk, state0.clockMs + APPROVAL_TTL_MS));
      ghost var asked := store.events;
      assert a in state.pendingApprovals && state.pendingApprovals == map[a := e];
      r := SuspendRun(state, Actor.Gateway, AwaitingApproval);
      WrittenTwice(was, asked, store.events);
    }

    /** One round trip to the model: request, reply, charges, plan. */
    method CallModel(state0: RunState, turn: nat) returns (r: Result<RunState, DaemonError>)
      requires Valid() && state0 == Fold(store.events)
      requires Idle(state0) && turn == state0.turn && state0.contextTurn == Some(turn)
      modifies store
      ensures Valid() && old(store.events) <= store.events
      ensures r.Ok? ==> r.value == Fold(store.events)
      ensures r.Ok? ==> Stopped(r.value, store.events) || Planned(state0, r.value)
      ensures r.Ok? ==> IsModelCall(turn, state0.taint, Written(old(store.events), store.events))
      ensures r.Err? ==> r.error != MissingIntent && !CallerError(r.error)
    {
      hide Fold, FoldFrom, Lawful, Own, HonestSnapshot, KeysAgree, PaperTrail, ApprovalLedger, Reply;
      ghost var was := store.events;
      var state :- Emit(state0, Actor.Runtime, ModelRequested(turn));
      ghost var asked := store.events;
      var answered: bool := *;
      if !answered {
        return Err(ModelFailure);
      }
      var reply: ModelReply := *;
      r := RecordReply(state, turn, reply);
      if r.Ok? {
        WrittenTwice(was, asked, store.events);
        assert Written(was, store.events)
            == [Entry(Actor.Runtime, ModelRequested(turn))] + Reply(turn, state0.taint, reply);
        ModelCallBy(turn, state0.taint, reply);
      }
    }

    /** Write the model's answer. A model without a price, or an answer that is no plan, fails the run. */
    method RecordReply(state0: RunState, turn: nat, reply: ModelReply) returns (r: Result<RunState, DaemonError>)
      requires Valid() && state0 == Fold(store.events)
      requires Idle(state0) && turn == state0.turn && state0.contextTurn == Some(turn)
      modifies store
      ensures Valid() && old(store.events) <= store.events
      ensures r.Ok? ==> r.value == Fold(store.events)
      ensures r.Ok? ==> Stopped(r.value, store.events) || Planned(state0, r.value)
      ensures r.Ok? ==> Written(old(store.events), store.events) == Reply(turn, state0.taint, reply)
      ensures r.Err? ==> r.error != MissingIntent && !CallerError(r.error)
    {
      hide Fold, FoldFrom, Lawful, Own, HonestSnapshot, KeysAgree, PaperTrail;
      hide ApprovalLedger, SpendOpen, Reduce, MayAppend;
      ghost var was := store.events;
      var state :- RecordUsage(state0, turn, reply.usage);
      ghost var responded := store.events;
      if !reply.priced {
        r := FailRun(state, Actor.Runtime, "model_not_priced");
        WrittenTwice(was, responded, store.events);
        return;
      }
      var tableAnswers: bool := *;
      if !tableAnswers {
        return Err(PricingFailure);
      }
      state :- EmitCharges(state, reply.charges);
      ghost var charged := store.events;
      WrittenTwice(was, responded, charged);
      match reply.plan {
        case None => r := FailRun(state, Actor.Runtime, "unparseable_plan");
        case Some(parsed) => r := EmitPlan(state, turn, parsed);
      }
      WrittenTwice(was, charged, store.events);
    }

    /** The reply's usage moves the meters only. */
    method RecordUsage(state: RunState, turn: nat, usage: Usage) returns (r: Result<RunState, DaemonError>)
      requires Valid() && state == Fold(store.events)
      requires Idle(state) && turn == state.turn && state.contextTurn == Some(turn)
      modifies store
      ensures Valid() && old(store.events) <= store.events
      ensures r.Ok? ==> r.value == Fold(store.events) && OnlyCharged(state, r.value) && SpendOpen(store.events)
      ensures r.Ok? ==>
        Written(old(store.events), store.events) == [Entry(Actor.Runtime, ModelResponded(turn, usage))]
      ensures r.Err? ==> r.error == StoreFailure
    {
      hide Fold, FoldFrom, Lawful, Own, HonestSnapshot, KeysAgree, PaperTrail, ApprovalLedger, SpendOpen;
      r := Emit(state, Actor.Runtime, ModelResponded(turn, usage));
      ResultOpensSpending(store.events);
    }

    /** Record the parsed plan under the taint the run has now. */
    method EmitPlan(state: RunState, turn: nat, parsed: ParsedPlan) returns (r: Result<RunState, DaemonError>)
      requires Valid() && state == Fold(store.events)
      requires state.status == Running && state.AllResolved() && turn == state.turn && state.contextTurn == Some(turn)
      modifies store
      ensures Valid() && old(store.events) <= store.events
      ensures r.Ok? ==> r.value == Fold(store.events) && Planned(state, r.value)
      ensures r.Ok? ==>
        Written(old(store.events), store.events) == [Entry(Actor.Runtime, PlanStep(PlanOf(turn, state.taint, parsed)))]
      ensures r.Err? ==> r.error == StoreFailure
    {
      hide Fold, FoldFrom, Lawful, Own, HonestSnapshot, KeysAgree, PaperTrail, ApprovalLedger;
      var saved: bool := *;
      if !saved {
        return Err(StoreFailure);
      }
      r := Emit(state, Actor.Runtime, PlanStep(PlanOf(turn, state.taint, parsed)));
    }

    method SampleEnvironment(state: RunState) returns (r: Result<RunState, DaemonError>)
      requires Valid() && state == Fold(store.events) && Idle(state)
      modifies store
      ensures Valid() && old(store.events) <= store.events
      ensures r.Ok? ==> r.value == Fold(store.events) && r.value.status == Running && r.value.AllResolved()
      ensures r.Ok? ==> r.value.turn == state.turn && r.value.envSampledTurn == Some(state.turn)
                        && r.value.contextTurn == state.contextTurn && r.value.planTurn == state.planTurn
      ensures r.Ok? ==> CarriesOut(state, gateway, principal, SampleEnv, Written(old(store.events), store.events))
      ensures r.Err? ==> r.error == StoreFailure
    {
      hide Fold, FoldFrom, Lawful, Own, HonestSnapshot, KeysAgree, PaperTrail, ApprovalLedger;
      var now: nat := *;
      var seed: string := *;
      r := Emit(state, Actor.Runtime, EnvSampled(state.turn, now, seed));
    }

    /** Every answer so far, with the question it answers. */
    method AnswersSoFar() returns (answers: seq<AnsweredQuestion>)
      requires Valid()
      ensures answers == AnswersIn(store.events)
    {
      hide Lawful, HonestSnapshot, KeysAgree, AnswersIn, Asked, IsRequested;
      NothingYet();
      var events := store.events;
      var requested: map<QuestionId, BlobRef> := map[];
      answers := [];
      assert events[..0] == [];
      for i := 0 to |events|
        invariant answers == AnswersIn(events[..i])
        invariant forall q :: q in requested <==> Asked(events[..i], q)
        invariant forall q :: q in requested ==>
          && q.at + 1 < i && events[q.at + 1].body.ClarificationRequested?
          && requested[q] == events[q.at + 1].body.promptRef
      {
        IdsAreWhereTheySay(events, i);
        AnswersSnoc(events[..i], events[i]);
        AskedSnoc(events[..i], events[i]);
        assert events[..i + 1] == events[..i] + [events[i]];
        var body := events[i].body;
        if body.ClarificationRequested? {
          requested := requested[body.questionId := body.promptRef];
        } else if body.ClarificationAnswered? && body.questionId in requested {
          answers := answers + [AnsweredQuestion(requested[body.questionId], body.option, body.freeText)];
        }
      }
      assert events[..|events|] == events;
    }

    /** Everything a tool has handed back so far, with the tool's name from the request. */
    method OutputsSoFar() returns (outputs: seq<ReturnedOutput>)
      requires Valid()
      ensures outputs == OutputsIn(store.events)
    {
      hide Lawful, HonestSnapshot, KeysAgree, OutputsIn, Asked, IsRequested;
      NothingYet();
      var events := store.events;
      var toolOf: map<EffectId, ToolId> := map[];
      outputs := [];
      assert events[..0] == [];
      for i := 0 to |events|
        invariant outputs == OutputsIn(events[..i])
        invariant forall e :: e in toolOf <==> IsRequested(events[..i], e)
        invariant forall e :: e in toolOf ==>
          && e.at + 1 < i && events[e.at + 1].body.ToolRequested?
          && toolOf[e] == events[e.at + 1].body.tool
      {
        IdsAreWhereTheySay(events, i);
        OutputsSnoc(events[..i], events[i]);
        RequestedSnoc(events[..i], events[i]);
        assert events[..i + 1] == events[..i] + [events[i]];
        var body := events[i].body;
        if body.ToolRequested? {
          toolOf := toolOf[body.effectId := body.tool];
        } else if body.ToolResult? && body.outputRef.Some? && body.effectId in toolOf {
          outputs := outputs + [ReturnedOutput(toolOf[body.effectId], body.outputRef.value)];
        }
      }
      assert events[..|events|] == events;
    }

    /** Assemble the turn's context from the intent and all that has come back so far, under the
        assembler's own profile. The source panics without an intent. */
    method AssembleTurnContext(state: RunState, turn: nat, ghost asked: string)
      returns (r: Result<RunState, DaemonError>)
      requires Valid() && state == Fold(store.events) && Idle(state)
      requires turn == state.turn && state.envSampledTurn == Some(turn)
      modifies store
      ensures Valid() && old(store.events) <= store.events
      ensures r.Ok? ==> r.value == Fold(store.events) && r.value.status == Running && r.value.AllResolved()
      ensures r.Ok? ==> r.value.turn == state.turn && r.value.contextTurn == Some(state.turn)
                        && r.value.envSampledTurn == state.envSampledTurn && r.value.planTurn == state.planTurn
      ensures r.Ok? ==>
        CarriesOut(state, gateway, principal, AssembleContext(turn, asked), Written(old(store.events), store.events))
      ensures r.Ok? ==>
        && state.intent.Some?
        && Written(old(store.events), store.events)
           == [Entry(Actor.Runtime, Assemble(contents, profile, turn, state.intent.value,
                                             AnswersIn(old(store.events)), OutputsIn(old(store.events))))]
      ensures r.Err? ==> r.error == if state.intent.None? then MissingIntent else StoreFailure
      ensures r.Err? ==> store.events == old(store.events)
    {
      hide Fold, FoldFrom, Lawful, Own, HonestSnapshot, KeysAgree, PaperTrail, ApprovalLedger;
      hide Assemble, AnswersIn, OutputsIn, ShowsAll, AnswersShown, Labelled, TaintOf, TotalTokens;
      if state.intent.None? {
        return Err(MissingIntent);
      }
      var loaded: bool := *;
      if !loaded {
        return Err(StoreFailure);
      }
      var answers := AnswersSoFar();
      var outputs := OutputsSoFar();
      var body := Assemble(contents, profile, turn, state.intent.value, answers, outputs);
      AssembledShowsAll(contents, profile, turn, state.intent.value, store.events);
      r := Emit(state, Actor.Runtime, body);
    }

    /** Put the planned question to a human and suspend. */
    method AskHuman(state0: RunState, clarification: PlannedClarification) returns (r: Result<RunState, DaemonError>)
      requires Valid() && state0 == Fold(store.events) && store.events != []
      requires HasPlan(state0) && state0.lastPlan.value.clarification == Some(clarification)
      modifies store
      ensures Valid() && old(store.events) <= store.events
      ensures r.Ok? ==> r.value == Fold(store.events) && Stopped(r.value, store.events)
      ensures r.Ok? ==> r.value.awaiting == Some(AwaitClarification(QuestionId(state0.lastSeq)))
      ensures r.Ok? ==>
        CarriesOut(state0, gateway, principal, AskClarification(clarification),
                   Written(old(store.events), store.events))
      ensures r.Err? ==> r.error == StoreFailure
    {
      hide Fold, FoldFrom, Lawful, Own, HonestSnapshot, KeysAgree, PaperTrail, ApprovalLedger;
      ghost var was := store.events;
      LastSeqOfLog(was);
      var q := QuestionId(state0.lastSeq);
      var state :- Emit(state0, Actor.Runtime,
                        ClarificationRequested(q, clarification.promptRef, clarification.options));
      ghost var asked := store.events;
      r := SuspendRun(state, Actor.Runtime, AwaitingHuman);
      WrittenTwice(was, asked, store.events);
    }

    method CompleteRun(state: RunState, status: RunStatus) returns (r: Result<RunState, DaemonError>)
      requires Valid() && state == Fold(store.events)
      requires state.status == Running && state.AllResolved() && HasPlan(state)
      requires status == if IsHollow(state.lastPlan.value) then Failed else Completed
      requires !IsHollow(state.lastPlan.value) ==> state.lastPlan.value.intent == PlanIntent.Finish
      modifies store
      ensures Valid() && old(store.events) <= store.events
      ensures r.Ok? ==> r.value == Fold(store.events) && Stopped(r.value, store.events)
      ensures r.Ok? ==> r.value.status == if status == Failed then Failed else Completed
      ensures r.Ok? ==>
        CarriesOut(state, gateway, principal, Complete(status), Written(old(store.events), store.events))
      ensures r.Err? ==> r.error == StoreFailure
    {
      hide Fold, FoldFrom, Lawful, Own, HonestSnapshot, KeysAgree, PaperTrail, ApprovalLedger;
      r := Emit(state, Actor.Kernel, RunCompleted(if status == Failed then CompletedFailed else CompletedOk));
    }

    /** Carry out one command of the kernel. */
    method ExecuteCommand(state: RunState, cmd: Command) returns (r: Result<RunState, DaemonError>)
      requires Valid() && state == Fold(store.events)
      requires state.status == Running && state.awaiting.None? && state.turn <= MAX_TURNS
      requires cmd.TakeCheckpoint? || NextCommand(state) == [cmd]
      modifies store
      ensures Valid() && old(store.events) <= store.events
      ensures r.Ok? ==> r.value == Fold(store.events)
      ensures r.Ok? ==> CarriesOut(state, gateway, principal, cmd, Written(old(store.events), store.events))
      ensures r.Ok? && cmd.TakeCheckpoint? ==>
        r.value == state.(lastSeq := |old(store.events)|, lastCheckpointSeq := Some(|old(store.events)|))
      ensures r.Ok? && !cmd.TakeCheckpoint? ==> Stopped(r.value, store.events) || Nearer(state, r.value)
      ensures r.Err? ==> !CallerError(r.error) && (r.error == MissingIntent ==> Fold(store.events).intent.None?)
    {
      hide Fold, FoldFrom, Lawful, Own, HonestSnapshot, KeysAgree, PaperTrail, ApprovalLedger;
      hide IsModelCall, IsEffectRequest, Reduce, MayAppend;
      PlannedTurnHasPlan(store.events);
      match cmd
      case SampleEnv => r := SampleEnvironment(state);
      case AssembleContext(turn, profile) => r := AssembleTurnContext(state, turn, profile);
      case CallModel(turn) => r := CallModel(state, turn);
      case RequestEffect(call) => r := RequestEffect(state, call);
      case TakeCheckpoint(reason) => r := Checkpoint(state, reason);
      case Complete(status) => r := CompleteRun(state, status);
      case AskClarification(clarification) => r := AskHuman(state, clarification);
      case Suspend(_) => r := SuspendRun(state, Actor.Kernel, BudgetExhausted);
    }

    /** Why a failed run failed, read off its last event. */
    method FailureMessage(state: RunState) returns (r: Result<Explanation, DaemonError>)
      requires Valid() && state == Fold(store.events)
      ensures r == Ok(WhyFailed(store.events)) || r == Err(StoreFailure)
    {
      hide Fold, FoldFrom, Lawful, Own, HonestSnapshot, KeysAgree;
      LastSeqOfLog(store.events);
      var readable: bool := *;
      if !readable {
        return Err(StoreFailure);
      }
      var last := store.Read(state.lastSeq, Some(state.lastSeq));
      return Ok(Explained(if last == [] then None else Some(last[0].body)));
    }

    /** The one driving loop. It always ends well before its iteration guard; what it writes is what
        the kernel decides, step by step; and when it returns from a running state the log says how
        the run stopped. */
    method Drive(state0: RunState) returns (r: Result<RunOutcome, DaemonError>)
      requires Valid() && state0 == Fold(store.events)
      modifies store
      ensures Valid() && old(store.events) <= store.events
      ensures r.Ok? ==> r.value.state == Fold(store.events) && Reports(r.value, store.events)
      ensures r.Ok? && state0.status == Running ==> Stopped(r.value.state, store.events)
      ensures r.Ok? ==> DrivenToEnd(gateway, principal, old(store.events), store.events)
      ensures r.Err? ==> !CallerError(r.error) && (r.error == MissingIntent ==> Fold(store.events).intent.None?)
    {
      hide Fold, FoldFrom, Lawful, Own, HonestSnapshot, KeysAgree, PaperTrail, ApprovalLedger, Reduce, MayAppend;
      hide Driven, DrivenToEnd, WhyFailed, Decide, NextCommand;
      ghost var was := store.events;
      DriveNothing(gateway, principal, was);
      var state, iterations := state0, 0;
      while true
        invariant Valid() && state == Fold(store.events) && was <= store.events
        invariant state0.status == Running ==> state.status == Running || Stopped(state, store.events)
        invariant Driven(gateway, principal, was, store.events)
        invariant iterations + Fuel(state) <= FUEL_LIMIT
        decreases Fuel(state)
      {
        FewTurns(store.events);
        iterations := iterations + 1;
        if iterations > MAX_LOOP_ITERATIONS {
          assert false;
        }
        if state.turn > MAX_TURNS {
          ghost var driven := store.events;
          state :- FailRun(state, Actor.Runtime, "turn_limit");
          var error :- FailureMessage(state);
          DriveStops(gateway, principal, was, driven, store.events);
          return Ok(Broken(state, error));
        }
        var commands := Decide(state);
        if commands == [] {
          break;
        }
        ghost var before := store.events;
        state :- ExecuteAll(state, commands);
        DriveFurther(gateway, principal, was, before, store.events);
      }
      ghost var driven := store.events;
      r := Conclude(state);
      if r.Ok? {
        DriveStops(gateway, principal, was, driven, store.events);
      }
    }

    /** With nothing left to decide, report how the run stands; one that still runs is stalled. */
    method Conclude(state: RunState) returns (r: Result<RunOutcome, DaemonError>)
      requires Valid() && state == Fold(store.events) && state.turn <= MAX_TURNS && Decide(state) == []
      modifies store
      ensures Valid() && old(store.events) <= store.events
      ensures r.Ok? ==> r.value.state == Fold(store.events) && Reports(r.value, store.events)
      ensures r.Ok? ==> DriveEnds(state, Written(old(store.events), store.events))
      ensures r.Ok? && state.status == Running ==> Stopped(r.value.state, store.events)
      ensures r.Ok? && state.status != Running ==> r.value.state == state && store.events == old(store.events)
      ensures r.Err? ==> r.error == StoreFailure
    {
      hide Fold, FoldFrom, Lawful, Own, HonestSnapshot, KeysAgree, Reduce, MayAppend, WhyFailed, Decide, NextCommand;
      StatusOfLog(store.events);
      match state.status
      case Suspended =>
        var reason := if state.awaiting.Some? then state.awaiting.value
                      else AwaitExternalEvent("suspended_without_await_reason");
        return Ok(Waiting(state, reason));
      case Failed =>
        var error :- FailureMessage(state);
        return Ok(Broken(state, error));
      case Completed =>
        return Ok(Finished(state));
      case Running =>
        var failed :- FailRun(state, Actor.Runtime, "stalled_unresolved_effects");
        var error :- FailureMessage(failed);
        return Ok(Broken(failed, error));
    }

    /** Execute the commands of one decision, in order. */
    method ExecuteAll(state0: RunState, commands: seq<Command>) returns (r: Result<RunState, DaemonError>)
      requires Valid() && state0 == Fold(store.events)
      requires commands == Decide(state0) && commands != [] && state0.turn <= MAX_TURNS
      modifies store
      ensures Valid() && old(store.events) <= store.events
      ensures r.Ok? ==> r.value == Fold(store.events)
      ensures r.Ok? ==> r.value.status == Running || Stopped(r.value, store.events)
      ensures r.Ok? ==> Fuel(r.value) < Fuel(state0)
      ensures r.Ok? ==> Driven(gateway, principal, old(store.events), store.events)
      ensures r.Err? ==> !CallerError(r.error) && (r.error == MissingIntent ==> Fold(store.events).intent.None?)
    {
      hide Fold, FoldFrom, Lawful, Own, HonestSnapshot, KeysAgree, PaperTrail, ApprovalLedger, Reduce, MayAppend;
      hide Driven, CarriesOut, NextCommand;
      FewTurns(store.events);
      DecidesAtMostTwo(state0);
      DriveNothing(gateway, principal, store.events);
      var state := state0;
      var i := 0;
      while i < |commands|
        invariant Valid() && state == Fold(store.events) && old(store.events) <= store.events
        invariant i <= |commands|
        invariant Driven(gateway, principal, old(store.events), store.events)
        invariant i < |commands| ==>
          && state == state0.(lastSeq := state.lastSeq, lastCheckpointSeq := state.lastCheckpointSeq)
          && (commands[i].TakeCheckpoint? || NextCommand(state) == [commands[i]])
          && Decide(state) != [] && Decide(state)[0] == commands[i]
          && (i == 0 ==> state == state0) && (i > 0 ==> !commands[i].TakeCheckpoint?)
        invariant i == |commands| ==>
          (state.status == Running || Stopped(state, store.events)) && Fuel(state) < Fuel(state0)
      {
        var cmd := commands[i];
        ghost var before := store.events;
        state :- ExecuteCommand(state, cmd);
        CommandDrives(gateway, principal, old(store.events), before, store.events, cmd);
        i := i + 1;
      }
      return Ok(state);
    }

    method FindToolRequested(e: EffectId) returns (found: Option<EventBody>)
      requires Valid()
      ensures found == if IsRequested(store.events, e) then Some(store.events[e.at + 1].body) else None
    {
      var i := 0;
      while i < |store.events|
        invariant i <= |store.events|
        invariant forall k :: 0 <= k < i ==>
          !(store.events[k].body.ToolRequested? && store.events[k].body.effectId == e)
      {
        if store.events[i].body.ToolRequested? && store.events[i].body.effectId == e {
          IdsAreWhereTheySay(store.events, i);
          return Some(store.events[i].body);
        }
        i := i + 1;
      }
      return None;
    }

    method FindApprovalRequested(a: ApprovalId) returns (found: Option<EventBody>)
      requires Valid()
      ensures found == if ApprovalAsked(store.events, a) then Some(store.events[a.at + 1].body) else None
    {
      var i := 0;
      while i < |store.events|
        invariant i <= |store.events|
        invariant forall k :: 0 <= k < i ==>
          !(store.events[k].body.ApprovalRequested? && store.events[k].body.approvalId == a)
      {
        if store.events[i].body.ApprovalRequested? && store.events[i].body.approvalId == a {
          IdsAreWhereTheySay(store.events, i);
          return Some(store.events[i].body);
        }
        i := i + 1;
      }
      return None;
    }

    method FindClarificationRequested(q: QuestionId) returns (found: Option<EventBody>)
      requires Valid()
      ensures found == if Asked(store.events, q) then Some(store.events[q.at + 1].body) else None
    {
      var i := 0;
      while i < |store.events|
        invariant i <= |store.events|
        invariant forall k :: 0 <= k < i ==>
          !(store.events[k].body.ClarificationRequested? && store.events[k].body.questionId == q)
      {
        if store.events[i].body.ClarificationRequested? && store.events[i].body.questionId == q {
          IdsAreWhereTheySay(store.events, i);
          return Some(store.events[i].body);
        }
        i := i + 1;
      }
      return None;
    }

    /** The request of an approved effect, put back together from the log. */
    method RebuildEffectRequest(state: RunState, e: EffectId) returns (request: EffectRequest)
      requires Valid() && IsRequested(store.events, e)
      ensures request == RequestOnFile(store.events, e, state.taint, principal)
    {
      var found := FindToolRequested(e);
      var tr := found.value;
      request := EffectRequest(e, tr.turn, tr.tool, tr.paramsRef, tr.effectClass, tr.declaredTargets,
                               tr.declaredEgress, tr.reversible, state.taint,
                               CapabilityToken(principal, ["*"]));
    }

    /** Read the log back, through whatever snapshots there are. */
    method Restore() returns (r: Result<RunState, DaemonError>)
      requires Valid()
      ensures r.Ok? ==> r.value == Fold(store.events)
      ensures r.Err? ==> r.error == StoreFailure
    {
      var readable: bool := *;
      if !readable {
        return Err(StoreFailure);
      }
      RuntimeSnapshotsReplay(store.events, store.snapshots, Target(store.events, None), true);
      assert Stretch(store.events, 0, Some(Target(store.events, None))) == store.events;
      var replayed := ReplayToChecked(store, None, true);
      match replayed
      case Ok(v) => return Ok(v.state);
      case Err(e) => return Err(e);
    }

    /** Turn approvals past their deadline into `approval.expired`. At most one can be pending, so
        either nothing changes or nothing is left pending. */
    method ExpireOverdueApprovals(state0: RunState, now: nat) returns (r: Result<RunState, DaemonError>)
      requires Valid() && state0 == Fold(store.events)
      modifies store
      ensures Valid() && old(store.events) <= store.events
      ensures r.Ok? ==> r.value == Fold(store.events)
      ensures r.Ok? ==> Expired(state0, old(store.events), now, r.value, store.events)
      ensures r.Err? ==> r.error == StoreFailure
    {
      hide Fold, FoldFrom, Lawful, Own, HonestSnapshot, KeysAgree, Ledger;
      ghost var was := store.events;
      var waiting, overdue: set<ApprovalId> := state0.pendingApprovals.Keys, {};
      while waiting != {}
        invariant Valid() && store.events == was
        invariant waiting <= state0.pendingApprovals.Keys
        invariant forall a :: a in overdue <==> a in state0.pendingApprovals.Keys - waiting && IsOverdue(was, a, now)
        decreases waiting
      {
        var a :| a in waiting;
        waiting := waiting - {a};
        var found := FindApprovalRequested(a);
        if found.Some? && now >= found.value.expiresAtMs {
          overdue := overdue + {a};
        }
      }
      PendingIsSingle(was, state0);
      var state := state0;
      while overdue != {}
        invariant Valid() && state == Fold(store.events) && was <= store.events
        invariant overdue <= state.pendingApprovals.Keys
        invariant if overdue == {} then Expired(state0, was, now, state, store.events)
                  else store.events == was && state == state0 && forall a :: a in overdue ==> IsOverdue(was, a, now)
        decreases overdue
      {
        var a :| a in overdue;
        state :- Expire(state, a);
        overdue := overdue - {a};
      }
      return Ok(state);
    }

    method Expire(state: RunState, a: ApprovalId) returns (r: Result<RunState, DaemonError>)
      requires Valid() && state == Fold(store.events) && a in state.pendingApprovals
      modifies store
      ensures Valid() && old(store.events) <= store.events
      ensures r.Ok? ==> r.value == Fold(store.events) && r.value.pendingApprovals == map[]
      ensures r.Ok? ==> Written(old(store.events), store.events) == [Entry(Actor.Runtime, ApprovalExpired(a))]
      ensures r.Err? ==> r.error == StoreFailure
    {
      hide Fold, FoldFrom, Lawful, Own, HonestSnapshot, KeysAgree, PaperTrail, ApprovalLedger;
      PendingIsRequested(store.events, state, a);
      r := Emit(state, Actor.Runtime, ApprovalExpired(a));
    }

    /** Continue a run from its log at the clock's `now`. While an approval is pending and not overdue
        nothing is written; otherwise the run is resumed, the approved effect is executed, and the run
        is driven until it stops. */
    method Resume(now: nat) returns (r: Result<RunOutcome, DaemonError>)
      requires Valid()
      modifies store
      ensures Valid() && old(store.events) <= store.events
      ensures r.Ok? ==> r.value.state == Fold(store.events)
      ensures r.Ok? ==>
        if AwaitsDecision(old(store.events), now) then StillWaiting(old(store.events), store.events, r.value)
        else Stopped(r.value.state, store.events) && Reports(r.value, store.events)
             && Continued(gateway, principal, old(store.events), store.events, now)
      ensures r.Ok? && r.value.Broken? ==> r.value.error == WhyFailed(store.events)
      ensures r.Err? ==> !CallerError(r.error) && (r.error == MissingIntent ==> Fold(store.events).intent.None?)
    {
      hide Fold, FoldFrom, Lawful, Own, HonestSnapshot, KeysAgree, PaperTrail, ApprovalLedger, DrivenToEnd, IsExecution;
      hide ResumedAt;
      ghost var was := store.events;
      var restored :- Restore();
      PendingIsSingle(was, restored);
      var state :- ExpireOverdueApprovals(restored, now);
      ghost var expired := store.events;
      if state.pendingApprovals != map[] {
        var reason := if state.awaiting.Some? then state.awaiting.value
                      else FirstPendingApproval(state.pendingApprovals).value;
        SomePending(state.pendingApprovals);
        return Ok(Waiting(state, reason));
      }
      r := Carry(state);
      if r.Ok? {
        ContinuedAfterExpiry(gateway, principal, was, expired, store.events, now);
      }
    }

    /** Resume a run no human is deciding about. */
    method Carry(state0: RunState) returns (r: Result<RunOutcome, DaemonError>)
      requires Valid() && state0 == Fold(store.events) && state0.pendingApprovals == map[]
      modifies store
      ensures Valid() && old(store.events) <= store.events
      ensures r.Ok? ==> EndedAs(r.value, store.events)
      ensures r.Ok? ==> ResumedAt(gateway, principal, |old(store.events)|, state0, store.events)
      ensures r.Err? ==> !CallerError(r.error) && (r.error == MissingIntent ==> Fold(store.events).intent.None?)
    {
      hide Fold, FoldFrom, Lawful, Own, HonestSnapshot, KeysAgree, PaperTrail, ApprovalLedger, DrivenToEnd, IsExecution;
      hide Reduce, MayAppend, Stopped, Reports, WhyFailed, Decide, ApprovedRan;
      ghost var was := store.events;
      var state :- MarkResumed(state0);
      ghost var resumed := store.events;
      StillOnFile(was, resumed);
      state :- DispatchApproved(state);
      ghost var dispatched := store.events;
      r := Drive(state);
      if r.Ok? {
        assert store.events[..|resumed|] == resumed && store.events[..|dispatched|] == dispatched;
        assert store.events[|was|] == resumed[|was|];
        assert AtResumption(gateway, principal, |was|, |dispatched|, state0, store.events);
      }
    }

    method MarkResumed(state: RunState) returns (r: Result<RunState, DaemonError>)
      requires Valid() && state == Fold(store.events) && state.pendingApprovals == map[]
      modifies store
      ensures Valid() && old(store.events) <= store.events
      ensures r.Ok? ==> r.value == Fold(store.events)
      ensures r.Ok? ==> r.value == state.(status := Running, awaiting := None, lastSeq := |old(store.events)|)
      ensures r.Ok? ==> Grew(old(store.events), store.events, Actor.Runtime, RunResumed(state.lastSeq + 1))
      ensures r.Err? ==> r.error == StoreFailure
    {
      hide Fold, FoldFrom, Lawful, Own, HonestSnapshot, KeysAgree, PaperTrail, ApprovalLedger;
      r := Emit(state, Actor.Runtime, RunResumed(state.lastSeq + 1));
    }

    /** Execute every effect a human approved and nobody has executed yet: there is at most one. */
    method DispatchApproved(state0: RunState) returns (r: Result<RunState, DaemonError>)
      requires Valid() && state0 == Fold(store.events)
      requires state0.pendingApprovals == map[]
      modifies store
      ensures Valid() && old(store.events) <= store.events
      ensures r.Ok? ==> r.value == Fold(store.events) && r.value.status == state0.status
      ensures r.Ok? ==> ApprovedRan(state0, old(store.events), store.events, principal)
      ensures r.Err? ==> r.error != MissingIntent && !CallerError(r.error)
    {
      hide Fold, FoldFrom, Lawful, Own, HonestSnapshot, KeysAgree, PaperTrail, ApprovalLedger, IsExecution;
      LedgerHolds(store.events);
      ghost var was := store.events;
      var state := state0;
      var waiting := set e | e in state.pendingEffects && state.pendingEffects[e] == Approved;
      assert forall e :: Unrun(state0, e) ==> e in waiting;
      while waiting != {}
        invariant Valid() && state == Fold(store.events) && was <= store.events
        invariant state.status == state0.status
        invariant if waiting == {} then ApprovedRan(state0, was, store.events, principal)
                  else state == state0 && store.events == was && forall e :: e in waiting <==> Unrun(state0, e)
        decreases waiting
      {
        var e :| e in waiting;
        waiting := waiting - {e};
        RequestedOnFile(store.events, e);
        var request := RebuildEffectRequest(state, e);
        state :- DispatchEffect(state, e, request);
        forall f | Unrun(state0, f) ensures f == e {
          assert Open(state0.pendingEffects, f) && Open(state0.pendingEffects, e);
        }
      }
      return Ok(state);
    }

    /** A human decides one pending approval. An unknown approval changes nothing; a decision that
        comes after the deadline is not recorded, the expiry is. */
    method DecideApproval(a: ApprovalId, granted: bool, who: Actor, now: nat)
      returns (r: Result<RunOutcome, DaemonError>)
      requires Valid()
      modifies store
      ensures Valid() && old(store.events) <= store.events
      ensures r.Err? && CallerError(r.error) ==> r.error == UnknownApproval(a) && store.events == old(store.events)
      ensures a !in Fold(old(store.events)).pendingApprovals ==> r.Err? && store.events == old(store.events)
      ensures r.Ok? ==> EndedAs(r.value, store.events)
      ensures r.Ok? ==> Decided(gateway, principal, old(store.events), store.events, a, granted, who, now)
      ensures r.Err? && r.error == MissingIntent ==> Fold(store.events).intent.None?
    {
      hide Fold, FoldFrom, Lawful, Own, HonestSnapshot, KeysAgree;
      hide PaperTrail, ApprovalLedger, Continued, Recorded, StillWaiting, AwaitsDecision;
      ghost var was := store.events;
      var restored :- Restore();
      if a !in restored.pendingApprovals {
        return Err(UnknownApproval(a));
      }
      OnlyOneIsPending(was, restored, a);
      var state :- ExpireOverdueApprovals(restored, now);
      ghost var expired := store.events;
      if a !in state.pendingApprovals {
        var later: nat := *;
        NothingToDecide(expired, later);
        r := Resume(later);
        if r.Ok? {
          RecordedAndResumed(gateway, principal, was, expired, store.events,
                             [Entry(Actor.Runtime, ApprovalExpired(a))], later, r.value);
        }
        return;
      }
      assert store.events == was;
      var saved: bool := *;
      if !saved {
        return Err(StoreFailure);
      }
      if granted {
        r := RecordGrant(state, a, who);
      } else {
        r := RecordRefusal(state, a, who);
      }
    }

    /** Write the grant and resume, which executes the effect. */
    method RecordGrant(state0: RunState, a: ApprovalId, who: Actor) returns (r: Result<RunOutcome, DaemonError>)
      requires Valid() && state0 == Fold(store.events) && a in state0.pendingApprovals
      modifies store
      ensures Valid() && old(store.events) <= store.events
      ensures r.Ok? ==> EndedAs(r.value, store.events)
      ensures r.Ok? ==> Recorded(gateway, principal, old(store.events), store.events, [Entry(who, ApprovalGranted(a))])
      ensures r.Err? ==> !CallerError(r.error) && (r.error == MissingIntent ==> Fold(store.events).intent.None?)
    {
      hide Fold, FoldFrom, Lawful, Own, HonestSnapshot, KeysAgree;
      hide PaperTrail, ApprovalLedger, Continued, Recorded, StillWaiting, AwaitsDecision;
      ghost var was := store.events;
      PendingIsRequested(was, state0, a);
      var state :- Emit(state0, who, ApprovalGranted(a));
      assert state.pendingApprovals == map[];
      ghost var granted := store.events;
      var now: nat := *;
      NothingToDecide(granted, now);
      r := Resume(now);
      if r.Ok? {
        RecordedAndResumed(gateway, principal, was, granted, store.events, [Entry(who, ApprovalGranted(a))], now,
                           r.value);
      }
    }

    /** Write a checkpoint and the refusal, and resume. */
    method RecordRefusal(state0: RunState, a: ApprovalId, who: Actor) returns (r: Result<RunOutcome, DaemonError>)
      requires Valid() && state0 == Fold(store.events) && a in state0.pendingApprovals
      modifies store
      ensures Valid() && old(store.events) <= store.events
      ensures r.Ok? ==> EndedAs(r.value, store.events)
      ensures r.Ok? ==> Recorded(gateway, principal, old(store.events), store.events,
                                 [CheckpointEntry(state0, PreApproval), Entry(who, ApprovalDenied(a))])
      ensures r.Err? ==> !CallerError(r.error) && (r.error == MissingIntent ==> Fold(store.events).intent.None?)
    {
      hide Fold, FoldFrom, Lawful, Own, HonestSnapshot, KeysAgree;
      hide PaperTrail, ApprovalLedger, Continued, Recorded, StillWaiting, AwaitsDecision;
      ghost var was := store.events;
      var state :- WriteRefusal(state0, a, who);
      ghost var denied := store.events;
      var now: nat := *;
      NothingToDecide(denied, now);
      r := Resume(now);
      if r.Ok? {
        RecordedAndResumed(gateway, principal, was, denied, store.events,
                           [CheckpointEntry(state0, PreApproval), Entry(who, ApprovalDenied(a))], now, r.value);
      }
    }

    method WriteRefusal(state0: RunState, a: ApprovalId, who: Actor) returns (r: Result<RunState, DaemonError>)
      requires Valid() && state0 == Fold(store.events) && a in state0.pendingApprovals
      modifies store
      ensures Valid() && old(store.events) <= store.events
      ensures r.Ok? ==> r.value == Fold(store.events) && r.value.pendingApprovals == map[]
      ensures r.Ok? ==> Written(old(store.events), store.events)
                        == [CheckpointEntry(state0, PreApproval), Entry(who, ApprovalDenied(a))]
      ensures r.Err? ==> r.error == StoreFailure
    {
      hide Fold, FoldFrom, Lawful, Own, HonestSnapshot, KeysAgree, PaperTrail, ApprovalLedger;
      ghost var was := store.events;
      PendingIsRequested(was, state0, a);
      var state :- Checkpoint(state0, PreApproval);
      ghost var marked := store.events;
      r := Emit(state, who, ApprovalDenied(a));
      WrittenTwice(was, marked, store.events);
    }

    /** A human answers the pending question, with one of its options or free text. */
    method AnswerClarification(q: QuestionId, option: Option<string>, freeText: Option<BlobRef>, who: Actor)
      returns (r: Result<RunOutcome, DaemonError>)
      requires Valid()
      modifies store
      ensures Valid() && old(store.events) <= store.events
      ensures Fold(old(store.events)).pendingQuestion != Some(q) ==> r.Err? && store.events == old(store.events)
      ensures r.Ok? && option.Some? ==>
        Asked(old(store.events), q) && option.value in old(store.events)[q.at + 1].body.options
      ensures r.Ok? ==> r.value.state == Fold(store.events)
      ensures r.Ok? ==>
        Recorded(gateway, principal, old(store.events), store.events,
                 [Entry(who, ClarificationAnswered(q, option, freeText))])
      ensures r.Err? && (r.error.UnknownClarification? || r.error.UnknownClarificationOption?) ==>
        store.events == old(store.events)
    {
      hide Fold, FoldFrom, Lawful, Own, HonestSnapshot, KeysAgree, PaperTrail;
      hide ApprovalLedger, Reduce, Continued, Recorded, StillWaiting, AwaitsDecision;
      ghost var was := store.events;
      var state :- Restore();
      if state.pendingQuestion != Some(q) {
        return Err(UnknownClarification(q));
      }
      if option.Some? {
        var requested := FindClarificationRequested(q);
        if requested.None? {
          return Err(UnknownClarification(q));
        }
        if option.value !in requested.value.options {
          return Err(UnknownClarificationOption(q, option.value));
        }
      }
      var saved: bool := *;
      if !saved {
        return Err(StoreFailure);
      }
      state :- Emit(state, who, ClarificationAnswered(q, option, freeText));
      ghost var answered := store.events;
      var now: nat := *;
      r := Resume(now);
      if r.Ok? {
        RecordedAndResumed(gateway, principal, was, answered, store.events,
                           [Entry(who, ClarificationAnswered(q, option, freeText))], now, r.value);
      }
    }

    /** A human changes the run's limits; a run waiting for money is resumed, one still running is
        driven on, any other is left as it is. */
    method AmendBudget(budget: BudgetSpec, who: Actor) returns (r: Result<RunOutcome, DaemonError>)
      requires Valid()
      modifies store
      ensures Valid() && old(store.events) <= store.events
      ensures r.Ok? ==> r.value.state == Fold(store.events)
      ensures r.Ok? ==> Amended(gateway, principal, old(store.events), store.events, Entry(who, BudgetAmended(budget)))
      ensures r.Ok? && Fold(old(store.events)).status == Running ==> Stopped(r.value.state, store.events)
      ensures r.Ok? && r.value.Broken? ==> r.value.error == WhyFailed(store.events)
      ensures r.Ok? ==>
        (r.value.Broken? && r.value.error.Unexplained? <==>
          Fold(old(store.events)).status == Failed && Fold(old(store.events)).awaiting != Some(AwaitBudget))
      ensures r.Ok? && r.value.Broken? && r.value.error.Unexplained? ==>
        r.value.error == Unexplained(Some(BudgetAmended(budget)))
    {
      hide Fold, FoldFrom, Lawful, Own, HonestSnapshot, KeysAgree, PaperTrail;
      hide ApprovalLedger, Continued, Recorded, StillWaiting, AwaitsDecision, DrivenToEnd, Amended;
      hide Reduce, MayAppend, Decide;
      ghost var was := store.events;
      var restored :- Restore();
      StatusOfLog(was);
      var saved: bool := *;
      if !saved {
        return Err(StoreFailure);
      }
      var state :- WriteAmendment(restored, budget, who);
      ghost var amended := store.events;
      if state.awaiting == Some(AwaitBudget) {
        var now: nat := *;
        r := Resume(now);
        if r.Ok? {
          RecordedAndResumed(gateway, principal, was, amended, store.events, [Entry(who, BudgetAmended(budget))], now,
                             r.value);
          AmendedBy(gateway, principal, was, amended, store.events, Entry(who, BudgetAmended(budget)));
          ResumedIsExplained(amended, store.events, now, r.value);
        }
        return;
      }
      var standing :- Standing(state);
      if standing.Some? {
        AmendedBy(gateway, principal, was, amended, amended, Entry(who, BudgetAmended(budget)));
        return Ok(standing.value);
      }
      r := Drive(state);
      if r.Ok? {
        AmendedBy(gateway, principal, was, amended, store.events, Entry(who, BudgetAmended(budget)));
        EndIsExplained(r.value, store.events);
      }
    }

    /** How a run that is not running stands. */
    method Standing(state: RunState) returns (r: Result<Option<RunOutcome>, DaemonError>)
      requires Valid() && state == Fold(store.events)
      ensures r.Ok? ==> (r.value.None? <==> state.status == Running)
      ensures r.Ok? && r.value.Some? ==> r.value.value.state == state && Reports(r.value.value, store.events)
      ensures r.Err? ==> r.error == StoreFailure
    {
      hide Fold, FoldFrom, Lawful, Own, HonestSnapshot, KeysAgree, WhyFailed;
      StatusOfLog(store.events);
      if state.status == Suspended && state.awaiting.Some? {
        return Ok(Some(Waiting(state, state.awaiting.value)));
      } else if state.status == Completed {
        return Ok(Some(Finished(state)));
      } else if state.status == Failed {
        var error :- FailureMessage(state);
        return Ok(Some(Broken(state, error)));
      }
      return Ok(None);
    }

    method WriteAmendment(state: RunState, budget: BudgetSpec, who: Actor) returns (r: Result<RunState, DaemonError>)
      requires Valid() && state == Fold(store.events)
      modifies store
      ensures Valid() && old(store.events) <= store.events
      ensures r.Ok? ==> r.value == Fold(store.events)
      ensures r.Ok? ==> r.value == state.(budget := budget, lastSeq := |old(store.events)|)
      ensures r.Ok? ==> Grew(old(store.events), store.events, who, BudgetAmended(budget))
      ensures r.Ok? ==> Written(old(store.events), store.events) == [Entry(who, BudgetAmended(budget))]
      ensures r.Err? ==> r.error == StoreFailure
    {
      hide Fold, FoldFrom, Lawful, Own, HonestSnapshot, KeysAgree, PaperTrail, ApprovalLedger;
      r := Emit(state, who, BudgetAmended(budget));
    }

    /** Start a run on an empty log and drive it until it stops. The intent is never missing. */
    method Start(intent: BlobRef, starter: Actor) returns (r: Result<RunOutcome, DaemonError>)
      requires Valid() && store.events == []
      modifies store
      ensures Valid()
      ensures r.Ok? ==> EndedAs(r.value, store.events)
      ensures r.Ok? ==>
        Started(gateway, principal, store.events, By(starter, [RunCreated(budget), IntentDeclared(intent)]))
      ensures r.Err? ==> r.error != MissingIntent && !CallerError(r.error)
      ensures store.events != [] ==> store.events[0].body == RunCreated(budget)
    {
      hide Fold, FoldFrom, Lawful, Own, HonestSnapshot, KeysAgree, PaperTrail, ApprovalLedger, DrivenToEnd;
      EmptyFold();
      var state :- Emit(NewState(), starter, RunCreated(budget));
      ghost var created := store.events;
      var saved: bool := *;
      if !saved {
        return Err(StoreFailure);
      }
      state :- Emit(state, starter, IntentDeclared(intent));
      ghost var declared := store.events;
      WrittenTwice([], created, declared);
      r := Drive(state);
      assert store.events[..|declared|] == declared;
      IntentStays(store.events, |declared|);
    }
  }

  /** A call from outside on a run that exists. */
  datatype Call =
    | ResumeRun(now: nat)
    | Decision(approval: ApprovalId, granted: bool, who: Actor, at: nat)
    | Answer(question: QuestionId, option: Option<string>, freeText: Option<BlobRef>, who: Actor)
    | Amend(budget: BudgetSpec, who: Actor)

  /** A whole life of a run: its start, then any calls in any order, each of which may fail or be
      cut off after any append. The log stays safe throughout. */
  method History(rt: Runtime, intent: BlobRef, starter: Actor, calls: seq<Call>)
    requires rt.Valid() && rt.store.events == []
    modifies rt.store
    ensures rt.Valid() && SafeRun(rt.store.events) && MismatchesIn(rt.store.events) == []
    ensures Own(rt.store.events, rt.gateway, rt.contents)
    ensures Fold(rt.store.events).turn <= MAX_TURNS + 1
  {
    var outcome := rt.Start(intent, starter);
    var i := 0;
    while i < |calls|
      invariant rt.Valid()
    {
      match calls[i] {
        case ResumeRun(now) => outcome := rt.Resume(now);
        case Decision(a, granted, who, at) => outcome := rt.DecideApproval(a, granted, who, at);
        case Answer(q, option, freeText, who) => outcome := rt.AnswerClarification(q, option, freeText, who);
        case Amend(budget, who) => outcome := rt.AmendBudget(budget, who);
      }
      i := i + 1;
    }
    LawfulRunsAreSafe(rt.store.events);
    LawfulLogsVerify(rt.store.events);
    LedgerHolds(rt.store.events);
  }

  /** Closing the only open effect leaves none. */
  lemma OnlyOpenResolves(s: RunState, e: EffectId, state: EffectState)
    requires EffectLedger(s.pendingEffects, s.turn) && Open(s.pendingEffects, e) && state.IsResolved()
    ensures var moved := s.pendingEffects[e := state]; forall f :: f in moved ==> moved[f].IsResolved()
  {
    forall f | f in s.pendingEffects && f != e ensures s.pendingEffects[f].IsResolved() {
      assert Open(s.pendingEffects, e) && !Open(s.pendingEffects, f);
    }
  }

  /** With no open effect there is no approval to wait for. */
  lemma NothingPending(log: seq<Event>, s: RunState)
    requires Lawful(log) && s == Fold(log) && s.AllResolved()
    ensures s.pendingApprovals == map[]
  {
    LedgerHolds(log);
    assert s.pendingApprovals.Keys == {};
  }

  lemma FoldAppendEvent(log: seq<Event>, e: Event)
    ensures Fold(log + [e]) == Reduce(Fold(log), e)
  {
    FoldAppend(NewState(), log, e);
  }
}

/**
 * What each operation of the runtime leaves in the log: exactly which entries, by whom, in which
 * order. The oracles' answers (model, executor, price table, clock) are parameters here.
 */
module Traces {
  import opened Protocol
  import opened KernelState
  import opened Events
  import opened Kernel
  import opened Admission
  import opened WriteProtocol

  datatype Entry = Entry(actor: Actor, body: EventBody)

  datatype ParsedPlan = ParsedPlan(
    intent: PlanIntent, tool: Option<ToolId>, paramsRef: BlobRef, promptRef: BlobRef, options: seq<string>)

  // A model's answer: its usage, its price if the table has one, and its plan if it parses.
  datatype ModelReply = ModelReply(
    usage: Usage, priced: bool, charges: seq<nat>, plan: Option<ParsedPlan>)

  datatype EffectOutcome = EffectOutcome(
    status: ToolResultStatus, outputRef: Option<BlobRef>, taint: TaintLevel, costMicros: Option<nat>,
    written: Option<(string, BlobRef)>)

  /** What was written between two points of a log. */
  function Written(was: seq<Event>, now: seq<Event>): (entries: seq<Entry>)
    requires was <= now
    ensures |entries| == |now| - |was|
    ensures forall i :: 0 <= i < |entries| ==> entries[i] == Entry(now[|was| + i].actor, now[|was| + i].body)
  {
    seq(|now| - |was|, i requires 0 <= i < |now| - |was| => Entry(now[|was| + i].actor, now[|was| + i].body))
  }

  lemma WrittenTwice(a: seq<Event>, b: seq<Event>, c: seq<Event>)
    requires a <= b <= c
    ensures Written(a, c) == Written(a, b) + Written(b, c)
  {
  }

  function By(actor: Actor, bodies: seq<EventBody>): (entries: seq<Entry>)
    ensures |entries| == |bodies| && forall i :: 0 <= i < |bodies| ==> entries[i] == Entry(actor, bodies[i])
  {
    seq(|bodies|, i requires 0 <= i < |bodies| => Entry(actor, bodies[i]))
  }

  function CheckpointEntry(s: RunState, reason: CheckpointReason): Entry
  {
    Entry(Actor.Kernel, Events.Checkpoint(StateHash(s), reason))
  }

  function Charges(amounts: seq<nat>): (entries: seq<Entry>)
    ensures |entries| == |amounts|
    ensures forall i :: 0 <= i < |amounts| ==> entries[i] == Entry(Actor.Runtime, CostCharged(amounts[i]))
  {
    seq(|amounts|, i requires 0 <= i < |amounts| => Entry(Actor.Runtime, CostCharged(amounts[i])))
  }

  // ---------------------------------------------------------------- one effect

  /** A checkpoint only before an effect that changes something, then the dispatch. */
  function Announcement(s: RunState, e: EffectId, c: EffectClass): seq<Entry>
  {
    (if ChangesTheWorld(c) then [CheckpointEntry(s, PreWrite)] else [])
    + [Entry(Actor.Gateway, EffectDispatched(e, Live))]
  }

  /** The newest artifact at a path: what the next one there replaces. */
  function LastAt(artifacts: seq<ArtifactRecord>, path: string): Option<ArtifactId>
  {
    if artifacts == [] then None
    else if artifacts[|artifacts| - 1].path == path then Some(artifacts[|artifacts| - 1].artifactId)
    else LastAt(artifacts[..|artifacts| - 1], path)
  }

  /** It stands at that path and no later one does; there is none exactly when the path is new. */
  lemma {:induction false} LastAtIsNewest(artifacts: seq<ArtifactRecord>, path: string)
    ensures LastAt(artifacts, path).None? <==> forall i :: 0 <= i < |artifacts| ==> artifacts[i].path != path
    ensures LastAt(artifacts, path).Some? ==>
      exists i :: 0 <= i < |artifacts| && artifacts[i].path == path
                  && artifacts[i].artifactId == LastAt(artifacts, path).value
                  && forall j :: i < j < |artifacts| ==> artifacts[j].path != path
    decreases |artifacts|
  {
    if artifacts != [] && artifacts[|artifacts| - 1].path != path {
      LastAtIsNewest(artifacts[..|artifacts| - 1], path);
    }
  }

  /** What an effect that ran costs: what the executor reported, else what the table lists; a
      reported zero is free. */
  function Costs(reported: Option<nat>, listed: seq<nat>): seq<nat>
  {
    if reported.None? then listed else if reported.value == 0 then [] else [reported.value]
  }

  /** The result, the artifact of a successful file write, the charges of an effect that ran. */
  function Settlement(artifacts: seq<ArtifactRecord>, resultSeq: nat, e: EffectId, tool: ToolId,
                      outcome: EffectOutcome, listed: seq<nat>): seq<Entry>
  {
    [Entry(Actor.Executor, ToolResult(e, outcome.status, outcome.outputRef, outcome.taint, []))]
    + (if outcome.status == ResultOk && tool == "fs.write" && outcome.written.Some? then
         var (path, blob) := outcome.written.value;
         [Entry(Actor.Executor,
                ArtifactEmitted(ArtifactId(resultSeq), path, blob, LastAt(artifacts, path)))]
       else [])
    + (if outcome.status == ResultOk || outcome.status == ResultError
       then Charges(Costs(outcome.costMicros, listed)) else [])
  }

  function Execution(s: RunState, request: EffectRequest, outcome: EffectOutcome, listed: seq<nat>): seq<Entry>
  {
    var e := request.effectId;
    var announcement := Announcement(s, e, request.effectClass);
    announcement + Settlement(s.artifacts, s.lastSeq + |announcement| + 1, e, request.tool, outcome, listed)
  }

  ghost predicate IsExecution(s: RunState, request: EffectRequest, entries: seq<Entry>)
  {
    exists outcome, listed :: entries == Execution(s, request, outcome, listed)
  }

  lemma ExecutionBy(s: RunState, request: EffectRequest, outcome: EffectOutcome, listed: seq<nat>)
    ensures IsExecution(s, request, Execution(s, request, outcome, listed))
  {
  }

  /** An effect that may not run: a checkpoint, its denial, and the event that stops the run. */
  function Refusal(s: RunState, e: EffectId, last: EventBody): seq<Entry>
  {
    [CheckpointEntry(s, PreApproval), Entry(Actor.Gateway, ToolResult(e, ResultDenied, None, Clean, [])),
     Entry(Actor.Gateway, last)]
  }

  /** A human is asked: a checkpoint, the request with its deadline, the suspension. */
  function Asking(s: RunState, e: EffectId, risk: RiskLevel): seq<Entry>
  {
    [CheckpointEntry(s, PreApproval),
     Entry(Actor.Gateway, ApprovalRequested(ApprovalId(s.lastSeq + 1), e, risk, s.clockMs + APPROVAL_TTL_MS)),
     Entry(Actor.Gateway, RunSuspended(AwaitingApproval))]
  }

  /** What the runtime does with each outcome of an admission. */
  ghost predicate Follows(s: RunState, e: EffectId, action: GatewayAction, entries: seq<Entry>)
  {
    match action
    case Dispatch(request) => request.effectId == e && IsExecution(s, request, entries)
    case DryRunOnly(_) => entries == []
    case Reject(code) => entries == Refusal(s, e, RunFailed(code))
    case AskApproval(risk, _, _) => entries == Asking(s, e, risk)
    case BudgetExceeded(_, _) => entries == Refusal(s, e, RunSuspended(BudgetExhausted))
    case NeedPreview(_) => false
  }

  /** The whole of one effect request: what the gateway said, then what followed from it. A gateway
      that wants a preview is told there is none. */
  ghost predicate IsAdmission(s: RunState, g: Gateway, req: AdmitRequest, entries: seq<Entry>)
  {
    var verdict := g.AdmitFully(req, None);
    var n := |verdict.events|;
    && n <= |entries|
    && entries[..n] == By(Actor.Gateway, verdict.events)
    && Follows(s.(pendingEffects := s.pendingEffects[req.effectId := Requested], lastSeq := s.lastSeq + n),
               req.effectId, verdict.action, entries[n..])
  }

  // ---------------------------------------------------------------- one model call

  function PlanOf(turn: nat, taint: TaintLevel, parsed: ParsedPlan): Plan
  {
    var call := if parsed.intent.ToolCall? && parsed.tool.Some?
      then Some(PlannedCall(parsed.tool.value, parsed.paramsRef)) else None;
    var clarification := if parsed.intent.Clarify?
      then Some(PlannedClarification(parsed.promptRef, parsed.options)) else None;
    Plan(turn, parsed.intent, taint, call, clarification)
  }

  /** Usage first; a model without a price fails the run before anything is charged; a reply that
      is no plan fails it after. */
  function Reply(turn: nat, taint: TaintLevel, reply: ModelReply): seq<Entry>
  {
    [Entry(Actor.Runtime, ModelResponded(turn, reply.usage))]
    + if !reply.priced then [Entry(Actor.Runtime, RunFailed("model_not_priced"))]
      else Charges(reply.charges)
           + [Entry(Actor.Runtime,
                    if reply.plan.None? then RunFailed("unparseable_plan")
                    else PlanStep(PlanOf(turn, taint, reply.plan.value)))]
  }

  ghost predicate IsModelCall(turn: nat, taint: TaintLevel, entries: seq<Entry>)
  {
    exists reply ::
      entries == [Entry(Actor.Runtime, ModelRequested(turn))] + Reply(turn, taint, reply)
  }

  lemma ModelCallBy(turn: nat, taint: TaintLevel, reply: ModelReply)
    ensures IsModelCall(turn, taint, [Entry(Actor.Runtime, ModelRequested(turn))] + Reply(turn, taint, reply))
  {
  }

  // ---------------------------------------------------------------- one command

  /** The admission request the runtime makes of a planned call. */
  function AdmissionOf(s: RunState, principal: string, call: PlannedCall, params: Params): AdmitRequest
  {
    AdmitRequest(EffectId(s.lastSeq), s.turn, call, params, s.taint, s.cites,
                 CapabilityToken(principal, ["*"]), Live, s.budget, s.budgetUsed)
  }

  ghost predicate IsEffectRequest(
    s: RunState, g: Gateway, principal: string, call: PlannedCall, entries: seq<Entry>)
  {
    exists params :: IsAdmission(s, g, AdmissionOf(s, principal, call, params), entries)
  }

  /** It is made under the run's own taint, citations, limits and meters, for real, and with a
      capability for everything. */
  lemma AdmissionIsTheRuns(s: RunState, principal: string, call: PlannedCall, params: Params)
    ensures var req := AdmissionOf(s, principal, call, params);
      && req.effectId.at == s.lastSeq && req.turn == s.turn && req.call == call && req.params == params
      && req.taint == s.taint && req.cites == s.cites && req.mode.Live?
      && req.budget == s.budget && req.budgetUsed == s.budgetUsed
      && req.capability.subject == principal && req.capability.scopes == ["*"]
  {
  }

  /** What carrying out a command of the kernel leaves in the log. */
  ghost predicate CarriesOut(s: RunState, g: Gateway, principal: string, cmd: Command, entries: seq<Entry>)
  {
    match cmd
    case SampleEnv =>
      && |entries| == 1 && entries[0].actor == Actor.Runtime && entries[0].body.EnvSampled?
      && entries[0].body.turn == s.turn
    case AssembleContext(turn, _) =>
      && |entries| == 1 && entries[0].actor == Actor.Runtime && entries[0].body.ContextAssembled?
      && entries[0].body.turn == turn
    case CallModel(turn) => IsModelCall(turn, s.taint, entries)
    case RequestEffect(call) => IsEffectRequest(s, g, principal, call, entries)
    case AskClarification(c) =>
      entries == By(Actor.Runtime, [ClarificationRequested(QuestionId(s.lastSeq), c.promptRef, c.options),
                                    RunSuspended(AwaitingHuman)])
    case TakeCheckpoint(reason) => entries == [CheckpointEntry(s, reason)]
    case Suspend(_) => entries == [Entry(Actor.Kernel, RunSuspended(BudgetExhausted))]
    case Complete(status) =>
      entries == [Entry(Actor.Kernel, RunCompleted(if status == Failed then CompletedFailed else CompletedOk))]
  }

  // ---------------------------------------------------------------- driving

  /** One step: the kernel's first command, carried out. */
  ghost predicate StepsTo(g: Gateway, principal: string, was: seq<Event>, now: seq<Event>)
  {
    && was <= now
    && var s := Fold(was);
       s.turn <= MAX_TURNS && Decide(s) != [] && CarriesOut(s, g, principal, Decide(s)[0], Written(was, now))
  }

  /** What the kernel decides is warranted by the log as it then was: a periodic checkpoint is due,
      a stop for money has no money left, and new work starts only for a running run within budget
      with no effect open, from the plan of this very turn. */
  lemma StepsAreWarranted(g: Gateway, principal: string, was: seq<Event>, now: seq<Event>)
    requires StepsTo(g, principal, was, now)
    ensures |was| < |now|
    ensures var s, first := Fold(was), now[|was|].body;
      && s.status == Running && s.awaiting.None?
      && (first.Checkpoint? ==> s.EventsSinceCheckpoint() >= CHECKPOINT_EVERY)
      && (first.RunSuspended? <==> !first.Checkpoint? && OutOfBudget(s))
      && (!first.Checkpoint? && !first.RunSuspended? ==> Idle(s))
      && (first.ToolRequested? || first.ClarificationRequested? || first.RunCompleted? ==>
            s.envSampledTurn == s.contextTurn == s.planTurn == Some(s.turn))
      && (first.ToolRequested? ==>
            s.lastPlan.Some? && s.lastPlan.value.call == Some(PlannedCall(first.tool, first.paramsRef)))
  {
    hide Fold, Decide;
    var s := Fold(was);
    var cmd := Decide(s)[0];
    DecideGates(s, cmd);
    CommandsWrite(was, now, g, principal, s, cmd);
    FirstEntry(g, principal, s, cmd, Written(was, now));
  }

  /** The first entry a command leaves tells which command it was. */
  lemma FirstEntry(g: Gateway, principal: string, s: RunState, cmd: Command, entries: seq<Entry>)
    requires CarriesOut(s, g, principal, cmd, entries) && entries != []
    ensures var first := entries[0].body;
      && (first.Checkpoint? <==> cmd.TakeCheckpoint?)
      && (first.RunSuspended? <==> cmd.Suspend?)
      && (first.ToolRequested? <==> cmd.RequestEffect?)
      && (first.ClarificationRequested? <==> cmd.AskClarification?)
      && (first.RunCompleted? <==> cmd.Complete?)
      && (first.ToolRequested? ==> cmd.call == PlannedCall(first.tool, first.paramsRef))
  {
    hide IsEffectRequest;
    if cmd.RequestEffect? {
      FirstOfRequest(g, principal, s, cmd.call, entries);
    }
  }

  lemma FirstOfRequest(g: Gateway, principal: string, s: RunState, call: PlannedCall, entries: seq<Entry>)
    requires IsEffectRequest(s, g, principal, call, entries)
    ensures entries != [] && entries[0].body.ToolRequested?
    ensures call == PlannedCall(entries[0].body.tool, entries[0].body.paramsRef)
  {
    hide Follows;
    var params :| IsAdmission(s, g, AdmissionOf(s, principal, call, params), entries);
    var req := AdmissionOf(s, principal, call, params);
    AdmissionShape(g, req);
    assert entries[0] == Entry(Actor.Gateway, g.Admit(req).events[0]);
  }

  /** Effect `e` alone is open although there is money for it. */
  ghost predicate StalledOn(s: RunState, log: seq<Event>, e: EffectId)
  {
    && !OutOfBudget(s)
    && (forall f :: Open(s.pendingEffects, f) <==> f == e)
    && e in s.pendingEffects
    && (s.pendingApprovals != map[] ==>
          s.pendingEffects[e] == Requested && exists a :: s.pendingApprovals == map[a := e])
    && (s.pendingEffects[e] == Approved ==> Granted(log, e))
  }

  /** Where driving gives a running run up as stalled, exactly one effect is open: it was requested and
      there is money for it. If a human is still to decide on an approval it is that effect's, and a
      decision may yet move it; if the effect is approved a resumption will run it. */
  lemma StallMeansOpenEffect(log: seq<Event>) returns (e: EffectId)
    requires Lawful(log) && Fold(log).status == Running && Decide(Fold(log)) == []
    ensures IsRequested(log, e) && StalledOn(Fold(log), log, e)
  {
    hide Fold, Decide, PaperTrail, ApprovalLedger, Lawful;
    var s := Fold(log);
    LedgerHolds(log);
    DecideSilence(s);
    e :| e in s.pendingEffects && !s.pendingEffects[e].IsResolved();
    TrailOf(log, e);
    assert Open(s.pendingEffects, e);
    if s.pendingApprovals != map[] {
      var a := OneApproval(s);
      assert Open(s.pendingEffects, s.pendingApprovals[a]);
      assert s.pendingApprovals == map[a := e];
    }
  }

  lemma OneApproval(s: RunState) returns (a: ApprovalId)
    requires ApprovalLedger(s.pendingEffects, s.pendingApprovals) && s.pendingApprovals != map[]
    ensures a in s.pendingApprovals && s.pendingApprovals == map[a := s.pendingApprovals[a]]
    ensures s.pendingApprovals[a] in s.pendingEffects && s.pendingEffects[s.pendingApprovals[a]] == Requested
  {
    a :| a in s.pendingApprovals;
    OnlyApproval(s, a);
    assert s.pendingApprovals.Keys == {a};
  }

  lemma TrailOf(log: seq<Event>, e: EffectId)
    requires Lawful(log) && e in Fold(log).pendingEffects
    ensures IsRequested(log, e)
    ensures Fold(log).pendingEffects[e] == Approved ==> Granted(log, e)
  {
    LedgerHolds(log);
  }

  /** Any number of steps, each decided from the log as it then was. */
  ghost predicate Driven(g: Gateway, principal: string, was: seq<Event>, now: seq<Event>)
    decreases |now|
  {
    was == now ||
    exists k :: 0 <= k < |now| && Driven(g, principal, was, now[..k]) && StepsTo(g, principal, now[..k], now)
  }

  /** Every command writes something. */
  lemma CommandsWrite(was: seq<Event>, now: seq<Event>, g: Gateway, principal: string, s: RunState, cmd: Command)
    requires was <= now && CarriesOut(s, g, principal, cmd, Written(was, now))
    ensures |was| < |now|
  {
    match cmd
    case RequestEffect(call) =>
      var params :| IsAdmission(s, g, AdmissionOf(s, principal, call, params), Written(was, now));
      AdmissionShape(g, AdmissionOf(s, principal, call, params));
      assert |Written(was, now)| >= 2;
    case _ =>
      assert |Written(was, now)| >= 1;
  }

  lemma DriveNothing(g: Gateway, principal: string, log: seq<Event>)
    ensures Driven(g, principal, log, log)
  {
  }

  lemma DriveOn(g: Gateway, principal: string, was: seq<Event>, mid: seq<Event>, now: seq<Event>)
    requires Driven(g, principal, was, mid) && StepsTo(g, principal, mid, now) && |mid| < |now|
    ensures Driven(g, principal, was, now)
  {
    assert now[..|mid|] == mid;
  }

  /** Carrying out the kernel's first command is driving on. */
  lemma CommandDrives(
      g: Gateway, principal: string, was: seq<Event>, mid: seq<Event>, now: seq<Event>, cmd: Command)
    requires Driven(g, principal, was, mid) && mid <= now && Fold(mid).turn <= MAX_TURNS
    requires Decide(Fold(mid)) != [] && Decide(Fold(mid))[0] == cmd
    requires CarriesOut(Fold(mid), g, principal, cmd, Written(mid, now))
    ensures Driven(g, principal, was, now)
  {
    hide Fold, Driven, CarriesOut, Decide;
    CommandsWrite(mid, now, g, principal, Fold(mid), cmd);
    DriveOn(g, principal, was, mid, now);
  }

  lemma {:induction false} DriveFurther(
      g: Gateway, principal: string, was: seq<Event>, mid: seq<Event>, now: seq<Event>)
    requires Driven(g, principal, was, mid) && Driven(g, principal, mid, now)
    ensures Driven(g, principal, was, now)
    decreases |now|
  {
    if mid != now {
      var k :| 0 <= k < |now| && Driven(g, principal, mid, now[..k]) && StepsTo(g, principal, now[..k], now);
      DriveFurther(g, principal, was, mid, now[..k]);
    }
  }

  /** Why driving stops: too many turns, nothing left to decide, or an effect driving does not move. */
  predicate DriveEnds(s: RunState, entries: seq<Entry>)
  {
    if s.turn > MAX_TURNS then entries == [Entry(Actor.Runtime, RunFailed("turn_limit"))]
    else
      && Decide(s) == []
      && entries == if s.status == Running then [Entry(Actor.Runtime, RunFailed("stalled_unresolved_effects"))] else []
  }

  /** From `was`, the run was driven as the kernel decides until there was a reason to stop. */
  ghost predicate DrivenToEnd(g: Gateway, principal: string, was: seq<Event>, now: seq<Event>)
  {
    exists mid :: mid <= now && Driven(g, principal, was, mid) && DriveEnds(Fold(mid), Written(mid, now))
  }

  lemma DriveStops(g: Gateway, principal: string, was: seq<Event>, mid: seq<Event>, now: seq<Event>)
    requires mid <= now && Driven(g, principal, was, mid) && DriveEnds(Fold(mid), Written(mid, now))
    ensures DrivenToEnd(g, principal, was, now)
  {
  }

  /**
   * A driven run, taken apart: cut after each step, every stretch of it is the kernel's first command
   * for the state just before, carried out at a turn within the limit; and the rest says why driving
   * stopped. That is the turn limit alone, or that the kernel decides nothing, and then a run still
   * running has failed as stalled.
   */
  lemma DrivingIsStepByStep(g: Gateway, principal: string, was: seq<Event>, now: seq<Event>)
    returns (cuts: seq<nat>)
    requires DrivenToEnd(g, principal, was, now)
    ensures was <= now && cuts != [] && cuts[0] == |was|
    ensures forall i :: 0 <= i < |cuts| ==> cuts[i] <= |now|
    ensures forall i {:trigger cuts[i]} :: 0 < i < |cuts| ==>
              && cuts[i - 1] < cuts[i]
              && var (a, b) := (now[..cuts[i - 1]], now[..cuts[i]]);
                 var s := Fold(a);
                 s.turn <= 64 && Decide(s) != [] && CarriesOut(s, g, principal, Decide(s)[0], Written(a, b))
    ensures var last := cuts[|cuts| - 1];
      var (s, rest) := (Fold(now[..last]), Written(now[..last], now));
      if s.turn > 64 then rest == [Entry(Actor.Runtime, RunFailed("turn_limit"))]
      else
        && Decide(s) == []
        && rest == if s.status == Running then [Entry(Actor.Runtime, RunFailed("stalled_unresolved_effects"))]
                   else []
  {
    hide Fold, Decide, CarriesOut, StepsTo, Driven, Written;
    var mid :| mid <= now && Driven(g, principal, was, mid) && DriveEnds(Fold(mid), Written(mid, now));
    cuts := StepsDriven(g, principal, was, mid);
    assert now[..|mid|] == mid;
    forall i {:trigger cuts[i]} | 0 < i < |cuts|
      ensures var (a, b) := (now[..cuts[i - 1]], now[..cuts[i]]);
              var s := Fold(a);
              a <= b && s.turn <= 64 && Decide(s) != [] && CarriesOut(s, g, principal, Decide(s)[0], Written(a, b))
    {
      assert now[..cuts[i - 1]] == mid[..cuts[i - 1]] && now[..cuts[i]] == mid[..cuts[i]];
      StepIsTheFirstCommand(g, principal, now[..cuts[i - 1]], now[..cuts[i]]);
    }
  }

  lemma StepIsTheFirstCommand(g: Gateway, principal: string, a: seq<Event>, b: seq<Event>)
    requires StepsTo(g, principal, a, b)
    ensures var s := Fold(a);
            a <= b && s.turn <= 64 && Decide(s) != [] && CarriesOut(s, g, principal, Decide(s)[0], Written(a, b))
  {
    hide Fold, Decide, CarriesOut, Written;
  }

  lemma {:induction false} StepsDriven(g: Gateway, principal: string, was: seq<Event>, now: seq<Event>)
    returns (cuts: seq<nat>)
    requires Driven(g, principal, was, now)
    ensures was <= now && cuts != [] && cuts[0] == |was| && cuts[|cuts| - 1] == |now|
    ensures forall i :: 0 <= i < |cuts| ==> cuts[i] <= |now|
    ensures forall i {:trigger cuts[i]} :: 0 < i < |cuts| ==>
              cuts[i - 1] < cuts[i] && StepsTo(g, principal, now[..cuts[i - 1]], now[..cuts[i]])
    decreases |now|
  {
    hide StepsTo;
    if was == now {
      cuts := [|now|];
    } else {
      var k :| 0 <= k < |now| && Driven(g, principal, was, now[..k]) && StepsTo(g, principal, now[..k], now);
      hide Driven;
      cuts := StepsDriven(g, principal, was, now[..k]);
      OneMoreStep(g, principal, now, k, cuts);
      cuts := cuts + [|now|];
    }
  }

  lemma OneMoreStep(g: Gateway, principal: string, now: seq<Event>, k: nat, before: seq<nat>)
    requires k < |now| && StepsTo(g, principal, now[..k], now) && before != [] && before[|before| - 1] == k
    requires forall i :: 0 <= i < |before| ==> before[i] <= k
    requires forall i {:trigger before[i]} :: 0 < i < |before| ==>
               before[i - 1] < before[i] && StepsTo(g, principal, now[..k][..before[i - 1]], now[..k][..before[i]])
    ensures var cuts := before + [|now|];
            forall i {:trigger cuts[i]} :: 0 < i < |cuts| ==>
              cuts[i - 1] < cuts[i] && StepsTo(g, principal, now[..cuts[i - 1]], now[..cuts[i]])
  {
    hide StepsTo;
    var cuts := before + [|now|];
    forall i {:trigger cuts[i]} | 0 < i < |cuts|
      ensures cuts[i - 1] < cuts[i] && StepsTo(g, principal, now[..cuts[i - 1]], now[..cuts[i]])
    {
      if i < |before| {
        assert cuts[i] == before[i] && cuts[i - 1] == before[i - 1];
        assert now[..k][..before[i - 1]] == now[..before[i - 1]] && now[..k][..before[i]] == now[..before[i]];
      } else {
        assert now[..|now|] == now;
      }
    }
  }

  // ---------------------------------------------------------------- picking a run up again

  /** The request of an effect as the log has it, for the taint the run has now. */
  function RequestOnFile(log: seq<Event>, e: EffectId, taint: TaintLevel, principal: string): EffectRequest
    requires IsRequested(log, e)
  {
    var tr := log[e.at + 1].body;
    EffectRequest(e, tr.turn, tr.tool, tr.paramsRef, tr.effectClass, tr.declaredTargets, tr.declaredEgress,
                  tr.reversible, taint, CapabilityToken(principal, ["*"]))
  }

  predicate ApprovalAsked(log: seq<Event>, a: ApprovalId)
  {
    a.at + 1 < |log| && log[a.at + 1].body.ApprovalRequested? && log[a.at + 1].body.approvalId == a
  }

  /** The deadline written with the approval has passed. */
  predicate IsOverdue(log: seq<Event>, a: ApprovalId, now: nat)
  {
    ApprovalAsked(log, a) && log[a.at + 1].body.expiresAtMs <= now
  }
}

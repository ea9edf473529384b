/**
 * What the entries of an operation do to the run: the state a log folds to after them, read off the
 * executor's, the model's and the gateway's answers.
 */
module Outcomes {
  import opened Protocol
  import opened KernelState
  import opened Events
  import opened Kernel
  import opened WriteProtocol
  import opened Admission
  import opened GateMeaning
  import opened Traces

  /** The state after these entries, numbered on from the last one. */
  function Play(s: RunState, entries: seq<Entry>): RunState
    decreases |entries|
  {
    if entries == [] then s
    else
      var (n, t) := (|entries| - 1, Play(s, entries[..|entries| - 1]));
      Reduce(t, Event(t.lastSeq + 1, "", entries[n].actor, entries[n].body))
  }

  lemma SeqFrame(s: RunState, ev: Event)
    ensures Reduce(s, ev).lastSeq == ev.seqNo
  {
  }

  /** A fold looks at an event's number and body only. */
  lemma OnlyBodies(s: RunState, a: Event, b: Event)
    requires a.seqNo == b.seqNo && a.body == b.body
    ensures Reduce(s, a) == Reduce(s, b)
  {
  }

  /** What was written since is played on the state of then. */
  lemma {:induction false} PlayIsFold(was: seq<Event>, now: seq<Event>)
    requires Lawful(now) && was != [] && was <= now
    ensures Fold(now) == Play(Fold(was), Written(was, now))
    decreases |now|
  {
    hide Reduce, Fold, FoldFrom, Lawful;
    if was == now {
      assert Written(was, now) == [];
    } else {
      var n := |now| - 1;
      var init, ev := now[..n], now[n];
      LawfulPrefix(now, n);
      PlayIsFold(was, init);
      var entries := Written(was, now);
      assert entries[..|entries| - 1] == Written(was, init);
      StateGrows(now);
      LedgerHolds(init);
      OnlyBodies(Fold(init), ev, Event(n, "", ev.actor, ev.body));
    }
  }

  lemma StateGrows(log: seq<Event>)
    requires log != []
    ensures Fold(log) == Reduce(Fold(log[..|log| - 1]), log[|log| - 1])
  {
    var n := |log| - 1;
    assert log == log[..n] + [log[n]];
    FoldAppend(NewState(), log[..n], log[n]);
  }

  lemma {:induction false} PlayConcat(s: RunState, a: seq<Entry>, b: seq<Entry>)
    ensures Play(s, a + b) == Play(Play(s, a), b)
    decreases |b|
  {
    hide Reduce;
    if b == [] {
      assert a + b == a;
    } else {
      var n := |b| - 1;
      PlayConcat(s, a, b[..n]);
      assert (a + b)[..|a + b| - 1] == a + b[..n];
    }
  }

  lemma PlayOne(s: RunState, entry: Entry)
    ensures Play(s, [entry]) == Reduce(s, Event(s.lastSeq + 1, "", entry.actor, entry.body))
  {
    hide Reduce;
    assert [entry][..0] == [];
  }

  lemma {:induction false} ChargesPlayed(s: RunState, amounts: seq<nat>)
    ensures Play(s, Charges(amounts))
         == s.(budgetUsed := s.budgetUsed.(amountMicros := s.budgetUsed.amountMicros + Sum(amounts)),
               lastSeq := s.lastSeq + |amounts|)
    decreases |amounts|
  {
    hide Reduce, Play, Charges;
    if amounts == [] {
      assert Charges(amounts) == [];
      PlayNothing(s);
    } else {
      var n := |amounts| - 1;
      var last := Entry(Actor.Runtime, CostCharged(amounts[n]));
      ChargesPlayed(s, amounts[..n]);
      assert Charges(amounts) == Charges(amounts[..n]) + [last];
      PlayConcat(s, Charges(amounts[..n]), [last]);
      PlayOne(Play(s, Charges(amounts[..n])), last);
      ChargeReduces(Play(s, Charges(amounts[..n])), amounts[n]);
    }
  }

  lemma ChargeReduces(s: RunState, amount: nat)
    ensures Reduce(s, Event(s.lastSeq + 1, "", Actor.Runtime, CostCharged(amount)))
         == s.(budgetUsed := s.budgetUsed.(amountMicros := s.budgetUsed.amountMicros + amount),
               lastSeq := s.lastSeq + 1)
  {
  }

  lemma MarkReduces(s: RunState, reason: CheckpointReason)
    ensures Play(s, [CheckpointEntry(s, reason)]) ==
            s.(lastSeq := s.lastSeq + 1, lastCheckpointSeq := Some(s.lastSeq + 1))
  {
    hide Reduce;
    PlayOne(s, CheckpointEntry(s, reason));
    CheckpointReduces(s, StateHash(s), reason);
  }

  lemma CheckpointReduces(s: RunState, hash: StateHash, reason: CheckpointReason)
    ensures Reduce(s, Event(s.lastSeq + 1, "", Actor.Kernel, Events.Checkpoint(hash, reason)))
         == s.(lastSeq := s.lastSeq + 1, lastCheckpointSeq := Some(s.lastSeq + 1))
  {
  }

  // ---------------------------------------------------------------- one effect

  /** Announced, a write or an external effect has left a checkpoint, and every effect is dispatched. */
  lemma AnnouncementMeans(s: RunState, e: EffectId, c: EffectClass)
    ensures var t := Play(s, Announcement(s, e, c));
      t == s.(pendingEffects := s.pendingEffects[e := Dispatched], lastSeq := t.lastSeq,
              lastCheckpointSeq := if c == Write || c == External then Some(s.lastSeq + 1) else s.lastCheckpointSeq)
    ensures Play(s, Announcement(s, e, c)).lastSeq == s.lastSeq + |Announcement(s, e, c)|
  {
    hide Reduce;
    var dispatch := [Entry(Actor.Gateway, EffectDispatched(e, Live))];
    var mark := if ChangesTheWorld(c) then [CheckpointEntry(s, PreWrite)] else [];
    PlayConcat(s, mark, dispatch);
    assert mark + dispatch == Announcement(s, e, c);
    MarkReduces(s, PreWrite);
    PlayOne(Play(s, mark), dispatch[0]);
    DispatchReduces(Play(s, mark), e);
  }

  lemma DispatchReduces(s: RunState, e: EffectId)
    ensures Reduce(s, Event(s.lastSeq + 1, "", Actor.Gateway, EffectDispatched(e, Live)))
         == s.(pendingEffects := s.pendingEffects[e := Dispatched], lastSeq := s.lastSeq + 1)
  {
  }

  /** How an effect that ran stands: refused by the executor, or settled. */
  function ClosedAs(status: ToolResultStatus): EffectState
  {
    if status.ResultDenied? then Denied else Settled
  }

  lemma ResultReduces(s: RunState, e: EffectId, outcome: EffectOutcome)
    ensures var t := Reduce(s, Event(s.lastSeq + 1, "", Actor.Executor,
                                     ToolResult(e, outcome.status, outcome.outputRef, outcome.taint, [])));
      && t == s.(pendingEffects := s.pendingEffects[e := ClosedAs(outcome.status)], taint := t.taint, turn := t.turn,
                 lastSeq := s.lastSeq + 1)
      && (t.taint == Tainted <==> s.taint == Tainted || outcome.taint == Tainted)
      && t.turn == if t.AllResolved() then s.turn + 1 else s.turn
  {
    assert s.cites + (set c | c in []) == s.cites;
  }

  lemma ArtifactReduces(s: RunState, id: ArtifactId, path: string, blob: BlobRef, older: Option<ArtifactId>)
    ensures Reduce(s, Event(s.lastSeq + 1, "", Actor.Executor, ArtifactEmitted(id, path, blob, older)))
         == s.(artifacts := s.artifacts + [ArtifactRecord(id, path, blob)], lastSeq := s.lastSeq + 1)
  {
  }

  /** What an effect that ran cost: what the executor reported, and failing that what the table lists;
      one that did not run costs nothing. */
  function Price(outcome: EffectOutcome, listed: seq<nat>): nat
  {
    if outcome.status == ResultDenied || outcome.status == ResultDryRun then 0
    else if outcome.costMicros.Some? then outcome.costMicros.value else Sum(listed)
  }

  lemma CostsAddUp(outcome: EffectOutcome, listed: seq<nat>)
    requires outcome.status == ResultOk || outcome.status == ResultError
    ensures Sum(Costs(outcome.costMicros, listed)) == Price(outcome, listed)
    ensures outcome.costMicros.Some? ==> 0 !in Costs(outcome.costMicros, listed)
  {
    if outcome.costMicros.Some? {
      assert [outcome.costMicros.value][..0] == [];
    }
  }

  /** A settled effect is closed, has cost its price, has brought its taint, and has left an artifact
      exactly for a file written successfully. */
  lemma SettlementMeans(s: RunState, e: EffectId, tool: ToolId, outcome: EffectOutcome, listed: seq<nat>)
    ensures var t := Play(s, Settlement(s.artifacts, s.lastSeq + 1, e, tool, outcome, listed));
      && t.pendingEffects == s.pendingEffects[e := ClosedAs(outcome.status)]
      && (t.taint == Tainted <==> s.taint == Tainted || outcome.taint == Tainted)
      && t.turn == (if t.AllResolved() then s.turn + 1 else s.turn)
      && t.budgetUsed == s.budgetUsed.(amountMicros := s.budgetUsed.amountMicros + Price(outcome, listed))
      && t.artifacts == s.artifacts + (if outcome.status == ResultOk && tool == "fs.write" && outcome.written.Some?
                                       then [ArtifactRecord(ArtifactId(s.lastSeq + 1), outcome.written.value.0,
                                                            outcome.written.value.1)] else [])
      && t == s.(pendingEffects := t.pendingEffects, taint := t.taint, turn := t.turn, budgetUsed := t.budgetUsed,
                 artifacts := t.artifacts, lastSeq := t.lastSeq)
  {
    hide Reduce, Costs, Charges;
    var result := [Entry(Actor.Executor, ToolResult(e, outcome.status, outcome.outputRef, outcome.taint, []))];
    var isFile := outcome.status == ResultOk && tool == "fs.write" && outcome.written.Some?;
    var file := if isFile then
      [Entry(Actor.Executor, ArtifactEmitted(ArtifactId(s.lastSeq + 1), outcome.written.value.0,
                                             outcome.written.value.1,
                                             LastAt(s.artifacts, outcome.written.value.0)))] else [];
    var ran := outcome.status == ResultOk || outcome.status == ResultError;
    var charges := if ran then Charges(Costs(outcome.costMicros, listed)) else [];
    assert Settlement(s.artifacts, s.lastSeq + 1, e, tool, outcome, listed) == result + file + charges;
    PlayConcat(s, result + file, charges);
    PlayConcat(s, result, file);
    PlayOne(s, result[0]);
    ResultReduces(s, e, outcome);
    var closed := Play(s, result);
    if isFile {
      PlayOne(closed, file[0]);
      ArtifactReduces(closed, ArtifactId(s.lastSeq + 1), outcome.written.value.0, outcome.written.value.1,
                      LastAt(s.artifacts, outcome.written.value.0));
    }
    if ran {
      CostsAddUp(outcome, listed);
      ChargesPlayed(Play(s, result + file), Costs(outcome.costMicros, listed));
    }
  }

  /** An executed effect: announced, then settled; nothing else of the run changes. */
  lemma ExecutionMeans(s: RunState, request: EffectRequest, outcome: EffectOutcome, listed: seq<nat>)
    ensures var (e, t) := (request.effectId, Play(s, Execution(s, request, outcome, listed)));
      && t.pendingEffects == s.pendingEffects[e := ClosedAs(outcome.status)]
      && (t.taint == Tainted <==> s.taint == Tainted || outcome.taint == Tainted)
      && t.turn == (if t.AllResolved() then s.turn + 1 else s.turn)
      && t.budgetUsed == s.budgetUsed.(amountMicros := s.budgetUsed.amountMicros + Price(outcome, listed))
      && |t.artifacts| == |s.artifacts| + (if outcome.status == ResultOk && request.tool == "fs.write"
                                              && outcome.written.Some? then 1 else 0)
      && t.lastCheckpointSeq == (if request.effectClass == Write || request.effectClass == External
                                 then Some(s.lastSeq + 1) else s.lastCheckpointSeq)
      && t == s.(pendingEffects := t.pendingEffects, taint := t.taint, turn := t.turn, budgetUsed := t.budgetUsed,
                 artifacts := t.artifacts, lastSeq := t.lastSeq, lastCheckpointSeq := t.lastCheckpointSeq)
  {
    hide Play, Announcement, Settlement, Execution, Price;
    var announced := ExecutionPlays(s, request, outcome, listed);
    SettlementMeans(announced, request.effectId, request.tool, outcome, listed);
    assert s.pendingEffects[request.effectId := Dispatched][request.effectId := ClosedAs(outcome.status)]
        == s.pendingEffects[request.effectId := ClosedAs(outcome.status)];
  }

  lemma ExecutionPlays(s: RunState, request: EffectRequest, outcome: EffectOutcome, listed: seq<nat>)
    returns (announced: RunState)
    ensures var c := request.effectClass;
      announced == s.(pendingEffects := s.pendingEffects[request.effectId := Dispatched], lastSeq := announced.lastSeq,
                      lastCheckpointSeq := if c == Write || c == External then Some(s.lastSeq + 1)
                                           else s.lastCheckpointSeq)
    ensures Play(s, Execution(s, request, outcome, listed))
         == Play(announced, Settlement(announced.artifacts, announced.lastSeq + 1, request.effectId, request.tool,
                                       outcome, listed))
  {
    hide Play, Announcement, Settlement;
    var e := request.effectId;
    var announcement := Announcement(s, e, request.effectClass);
    announced := Play(s, announcement);
    AnnouncementMeans(s, e, request.effectClass);
    PlayConcat(s, announcement,
               Settlement(s.artifacts, s.lastSeq + |announcement| + 1, e, request.tool, outcome, listed));
  }

  // ---------------------------------------------------------------- refusals and questions

  /** A refused effect is denied, costs nothing, and the run has failed with that code, or is suspended
      for money. */
  lemma RefusalMeans(s: RunState, e: EffectId, last: EventBody)
    requires last.RunFailed? || last == RunSuspended(BudgetExhausted)
    ensures var t := Play(s, Refusal(s, e, last));
      && t.pendingEffects == s.pendingEffects[e := Denied] && t.budgetUsed == s.budgetUsed && t.taint == s.taint
      && t.lastCheckpointSeq == Some(s.lastSeq + 1)
      && (last.RunFailed? ==> t.status == Failed && t.awaiting == s.awaiting)
      && (last.RunSuspended? ==> t.status == Suspended && t.awaiting == Some(AwaitBudget))
  {
    hide Reduce;
    var mark := [CheckpointEntry(s, PreApproval)];
    var denial := Entry(Actor.Gateway, ToolResult(e, ResultDenied, None, Clean, []));
    PlayConcat(s, mark, [denial]);
    PlayConcat(s, mark + [denial], [Entry(Actor.Gateway, last)]);
    assert Refusal(s, e, last) == mark + [denial] + [Entry(Actor.Gateway, last)];
    MarkReduces(s, PreApproval);
    var marked := Play(s, mark);
    PlayOne(marked, denial);
    DenialReduces(marked, e);
    var denied := Play(s, mark + [denial]);
    PlayOne(denied, Entry(Actor.Gateway, last));
    StopReduces(denied, last);
  }

  lemma DenialReduces(s: RunState, e: EffectId)
    ensures var t := Reduce(s, Event(s.lastSeq + 1, "", Actor.Gateway, ToolResult(e, ResultDenied, None, Clean, [])));
      t == s.(pendingEffects := s.pendingEffects[e := Denied], turn := t.turn, lastSeq := s.lastSeq + 1)
  {
    assert s.cites + (set c | c in []) == s.cites;
  }

  lemma StopReduces(s: RunState, last: EventBody)
    requires last.RunFailed? || last == RunSuspended(BudgetExhausted)
    ensures var t := Reduce(s, Event(s.lastSeq + 1, "", Actor.Gateway, last));
      && t == s.(status := t.status, awaiting := t.awaiting, lastSeq := s.lastSeq + 1)
      && (last.RunFailed? ==> t.status == Failed && t.awaiting == s.awaiting)
      && (last.RunSuspended? ==> t.status == Suspended && t.awaiting == Some(AwaitBudget))
  {
  }

  /** A human who is asked has an approval of that effect to decide on, and the run waits for it. */
  lemma AskingMeans(s: RunState, e: EffectId, risk: RiskLevel)
    requires s.pendingApprovals == map[]
    ensures var (a, t) := (ApprovalId(s.lastSeq + 1), Play(s, Asking(s, e, risk)));
      && t.pendingApprovals == map[a := e] && t.status == Suspended && t.awaiting == Some(AwaitApproval(a, e))
      && t.pendingEffects == s.pendingEffects && t.budgetUsed == s.budgetUsed && t.taint == s.taint
      && t.turn == s.turn && t.lastCheckpointSeq == Some(s.lastSeq + 1)
    ensures Asking(s, e, risk)[1].body
         == ApprovalRequested(ApprovalId(s.lastSeq + 1), e, risk, s.clockMs + 86_400_000)
  {
    hide Reduce;
    var mark := [CheckpointEntry(s, PreApproval)];
    var asks := Entry(Actor.Gateway, ApprovalRequested(ApprovalId(s.lastSeq + 1), e, risk, s.clockMs + 86_400_000));
    var stop := Entry(Actor.Gateway, RunSuspended(AwaitingApproval));
    PlayConcat(s, mark, [asks]);
    PlayConcat(s, mark + [asks], [stop]);
    assert Asking(s, e, risk) == mark + [asks] + [stop];
    MarkReduces(s, PreApproval);
    PlayOne(Play(s, mark), asks);
    AskReduces(Play(s, mark), asks.body);
    PlayOne(Play(s, mark + [asks]), stop);
    WaitReduces(Play(s, mark + [asks]), ApprovalId(s.lastSeq + 1), e);
  }

  lemma AskReduces(s: RunState, asks: EventBody)
    requires asks.ApprovalRequested?
    ensures Reduce(s, Event(s.lastSeq + 1, "", Actor.Gateway, asks))
         == s.(pendingApprovals := s.pendingApprovals[asks.approvalId := asks.effectId], lastSeq := s.lastSeq + 1)
  {
  }

  lemma WaitReduces(s: RunState, a: ApprovalId, e: EffectId)
    requires s.pendingApprovals == map[a := e]
    ensures Reduce(s, Event(s.lastSeq + 1, "", Actor.Gateway, RunSuspended(AwaitingApproval)))
         == s.(status := Suspended, awaiting := Some(AwaitApproval(a, e)), lastSeq := s.lastSeq + 1)
  {
    assert a in s.pendingApprovals;
  }

  // ---------------------------------------------------------------- one model call

  /** The plan recorded for a parsed reply: of this turn and under this taint; with a call exactly if
      the model wants a tool and names it, with a question exactly if it wants to ask. */
  lemma PlanMeans(turn: nat, taint: TaintLevel, parsed: ParsedPlan)
    ensures var plan := PlanOf(turn, taint, parsed);
      && plan.turn == turn && plan.taintInherited == taint && plan.intent == parsed.intent
      && (plan.call.Some? <==> parsed.intent == ToolCall && parsed.tool.Some?)
      && (plan.call.Some? ==>
            Some(plan.call.value.tool) == parsed.tool && plan.call.value.paramsRef == parsed.paramsRef)
      && (plan.clarification.Some? <==> parsed.intent == Clarify)
      && (plan.clarification.Some? ==>
            plan.clarification.value.promptRef == parsed.promptRef
            && plan.clarification.value.options == parsed.options)
      && (IsHollow(plan) <==> parsed.intent == ToolCall && parsed.tool.None?)
  {
  }

  /** After a model call the reply's tokens are counted; an unpriced model has failed the run before it
      cost anything, a reply that is no plan after; and otherwise the run has its plan. */
  lemma ModelCallMeans(s: RunState, turn: nat, reply: ModelReply)
    ensures var t := Play(s, [Entry(Actor.Runtime, ModelRequested(turn))] + Reply(turn, s.taint, reply));
      && t.budgetUsed == s.budgetUsed.(
           tokens := s.budgetUsed.tokens + reply.usage.input + reply.usage.output,
           amountMicros := s.budgetUsed.amountMicros + if reply.priced then Sum(reply.charges) else 0)
      && (!reply.priced || reply.plan.None? ==> t.status == Failed && t.planTurn == s.planTurn)
      && (reply.priced && reply.plan.Some? ==>
            t.status == s.status && t.planTurn == Some(turn) && t.taint == s.taint
            && t.lastPlan == Some(PlanOf(turn, s.taint, reply.plan.value)))
      && t.pendingEffects == s.pendingEffects && t.turn == s.turn
  {
    hide Reduce, Charges, PlanOf, Play, Reply, PaidReply;
    var last := LastOfReply(turn, s.taint, reply);
    var before := Play(s, PaidReply(turn, reply));
    ReplyPlays(s, turn, reply);
    PaidReplyMeans(s, turn, reply);
    PlayOne(before, last);
    LastOfReplyReduces(before, last.body);
    TaintOfPlan(turn, s.taint, reply);
  }

  /** The entries of a model call but for the last, and the last. */
  function PaidReply(turn: nat, reply: ModelReply): seq<Entry>
  {
    [Entry(Actor.Runtime, ModelRequested(turn))] + [Entry(Actor.Runtime, ModelResponded(turn, reply.usage))]
    + if reply.priced then Charges(reply.charges) else []
  }

  function LastOfReply(turn: nat, taint: TaintLevel, reply: ModelReply): Entry
  {
    Entry(Actor.Runtime,
          if !reply.priced then RunFailed("model_not_priced")
          else if reply.plan.None? then RunFailed("unparseable_plan")
          else PlanStep(PlanOf(turn, taint, reply.plan.value)))
  }

  lemma ReplyPlays(s: RunState, turn: nat, reply: ModelReply)
    ensures Play(s, [Entry(Actor.Runtime, ModelRequested(turn))] + Reply(turn, s.taint, reply))
         == Play(Play(s, PaidReply(turn, reply)), [LastOfReply(turn, s.taint, reply)])
  {
    hide Play, Charges, PlanOf;
    PlayConcat(s, PaidReply(turn, reply), [LastOfReply(turn, s.taint, reply)]);
    assert [Entry(Actor.Runtime, ModelRequested(turn))] + Reply(turn, s.taint, reply)
        == PaidReply(turn, reply) + [LastOfReply(turn, s.taint, reply)];
  }

  lemma PaidReplyMeans(s: RunState, turn: nat, reply: ModelReply)
    ensures var t := Play(s, PaidReply(turn, reply));
      t == s.(budgetUsed := s.budgetUsed.(
                tokens := s.budgetUsed.tokens + reply.usage.input + reply.usage.output,
                amountMicros := s.budgetUsed.amountMicros + if reply.priced then Sum(reply.charges) else 0),
              lastSeq := t.lastSeq)
  {
    hide Reduce, Charges, Play;
    var asked := [Entry(Actor.Runtime, ModelRequested(turn))];
    var used := [Entry(Actor.Runtime, ModelResponded(turn, reply.usage))];
    var charged := if reply.priced then Charges(reply.charges) else [];
    PlayConcat(s, asked, used);
    PlayConcat(s, asked + used, charged);
    PlayOne(s, asked[0]);
    PlayOne(Play(s, asked), used[0]);
    UsageReduces(s, turn, reply.usage);
    if reply.priced {
      ChargesPlayed(Play(s, asked + used), reply.charges);
    } else {
      PlayNothing(Play(s, asked + used));
    }
  }

  lemma PlayNothing(s: RunState)
    ensures Play(s, []) == s
  {
  }

  lemma TaintOfPlan(turn: nat, taint: TaintLevel, reply: ModelReply)
    ensures reply.plan.Some? ==>
      PlanOf(turn, taint, reply.plan.value).taintInherited == taint
      && PlanOf(turn, taint, reply.plan.value).turn == turn
  {
  }

  lemma UsageReduces(s: RunState, turn: nat, usage: Usage)
    ensures var asked := Reduce(s, Event(s.lastSeq + 1, "", Actor.Runtime, ModelRequested(turn)));
      && asked == s.(lastSeq := s.lastSeq + 1)
      && Reduce(asked, Event(asked.lastSeq + 1, "", Actor.Runtime, ModelResponded(turn, usage)))
         == s.(budgetUsed := s.budgetUsed.(tokens := s.budgetUsed.tokens + usage.input + usage.output),
               lastSeq := s.lastSeq + 2)
  {
  }

  lemma LastOfReplyReduces(s: RunState, last: EventBody)
    requires last.RunFailed? || last.PlanStep?
    ensures var t := Reduce(s, Event(s.lastSeq + 1, "", Actor.Runtime, last));
      && t.budgetUsed == s.budgetUsed && t.pendingEffects == s.pendingEffects && t.turn == s.turn
      && (last.RunFailed? ==> t.status == Failed && t.planTurn == s.planTurn)
      && (last.PlanStep? ==> t.status == s.status && t.planTurn == Some(last.plan.turn)
                             && t.lastPlan == Some(last.plan) && t.taint == s.taint.Join(last.plan.taintInherited))
  {
  }

  // ---------------------------------------------------------------- one admission

  /** What the gateway writes of a call only opens the effect. */
  lemma VerdictMeans(s: RunState, g: Gateway, req: AdmitRequest)
    requires req.mode.Live?
    ensures var events := g.AdmitFully(req, None).events;
      Play(s, By(Actor.Gateway, events))
      == s.(pendingEffects := s.pendingEffects[req.effectId := Requested], lastSeq := s.lastSeq + |events|)
  {
    hide Reduce, Play, Gateway.Admit, Gateway.AdmitFully;
    var events := g.AdmitFully(req, None).events;
    AdmissionEvents(g, req);
    var opening, rest := [Entry(Actor.Gateway, events[0])], By(Actor.Gateway, events[1..]);
    assert By(Actor.Gateway, events) == opening + rest;
    PlayConcat(s, opening, rest);
    PlayOne(s, opening[0]);
    RequestReduces(s, events[0]);
    JudgingMeans(Play(s, opening), events[1..]);
  }

  lemma RequestReduces(s: RunState, body: EventBody)
    requires body.ToolRequested?
    ensures Reduce(s, Event(s.lastSeq + 1, "", Actor.Gateway, body))
         == s.(pendingEffects := s.pendingEffects[body.effectId := Requested], lastSeq := s.lastSeq + 1)
  {
  }

  lemma {:induction false} JudgingMeans(s: RunState, bodies: seq<EventBody>)
    requires forall i :: 0 <= i < |bodies| ==> bodies[i].PolicyEvaluated? || bodies[i].ImpactEstimated?
    ensures Play(s, By(Actor.Gateway, bodies)) == s.(lastSeq := s.lastSeq + |bodies|)
    decreases |bodies|
  {
    hide Reduce;
    if bodies != [] {
      var n := |bodies| - 1;
      JudgingMeans(s, bodies[..n]);
      assert By(Actor.Gateway, bodies)[..n] == By(Actor.Gateway, bodies[..n]);
      JudgementReduces(Play(s, By(Actor.Gateway, bodies[..n])), bodies[n]);
    }
  }

  lemma JudgementReduces(s: RunState, body: EventBody)
    requires body.PolicyEvaluated? || body.ImpactEstimated?
    ensures Reduce(s, Event(s.lastSeq + 1, "", Actor.Gateway, body)) == s.(lastSeq := s.lastSeq + 1)
  {
  }

  lemma AdmissionEvents(g: Gateway, req: AdmitRequest)
    requires req.mode.Live?
    ensures var events := g.AdmitFully(req, None).events;
      && |events| >= 2 && events[0].ToolRequested? && events[0].effectId == req.effectId
      && forall i :: 1 <= i < |events| ==> events[i].PolicyEvaluated? || events[i].ImpactEstimated?
  {
    hide ResolveAll, BudgetGate, Estimate, Resources;
    AdmissionShape(g, req);
  }

  /**
   * How a run stands once an effect was asked for: a dispatched effect is closed; a rejected one is
   * denied and the run has failed with the gateway's reason; one over budget is denied and the run
   * waits for money; one put to a human is open, and the run waits for that decision. Only an effect
   * that ran costs anything.
   */
  lemma AdmissionMeans(s: RunState, g: Gateway, req: AdmitRequest, entries: seq<Entry>)
    requires req.mode.Live? && s.pendingApprovals == map[] && IsAdmission(s, g, req, entries)
    ensures entries != []
    ensures var (e, t, last) := (req.effectId, Play(s, entries), entries[|entries| - 1].body);
      match g.AdmitFully(req, None).action
      case Dispatch(_) =>
        t.status == s.status && e in t.pendingEffects && t.pendingEffects[e] in {Settled, Denied}
      case Reject(code) =>
        && t.status == Failed && last == RunFailed(code)
        && t.pendingEffects == s.pendingEffects[e := Denied] && t.budgetUsed == s.budgetUsed
      case BudgetExceeded(_, _) =>
        && t.status == Suspended && t.awaiting == Some(AwaitBudget) && last == RunSuspended(BudgetExhausted)
        && t.pendingEffects == s.pendingEffects[e := Denied] && t.budgetUsed == s.budgetUsed
      case AskApproval(_, _, _) =>
        && t.status == Suspended && last == RunSuspended(AwaitingApproval)
        && (exists a :: t.pendingApprovals == map[a := e] && t.awaiting == Some(AwaitApproval(a, e)))
        && t.pendingEffects == s.pendingEffects[e := Requested] && t.budgetUsed == s.budgetUsed
      case _ => false
  {
    hide Play, Gateway.Admit, Gateway.AdmitFully, Follows, IsAdmission;
    var judged, rest := AdmissionPlays(s, g, req, entries);
    ActionIsFinal(g, req);
    FollowingMeans(s, judged, req.effectId, g.AdmitFully(req, None).action, rest);
  }

  /** An admission is the gateway's verdict and what follows from it. */
  lemma AdmissionPlays(s: RunState, g: Gateway, req: AdmitRequest, entries: seq<Entry>)
    returns (judged: RunState, rest: seq<Entry>)
    requires req.mode.Live? && IsAdmission(s, g, req, entries)
    ensures judged == s.(pendingEffects := s.pendingEffects[req.effectId := Requested], lastSeq := judged.lastSeq)
    ensures Follows(judged, req.effectId, g.AdmitFully(req, None).action, rest)
    ensures Play(s, entries) == Play(judged, rest)
    ensures rest != [] ==> entries != [] && entries[|entries| - 1] == rest[|rest| - 1]
  {
    hide Play, Gateway.Admit, Gateway.AdmitFully, Follows;
    var n := |g.AdmitFully(req, None).events|;
    judged := s.(pendingEffects := s.pendingEffects[req.effectId := Requested], lastSeq := s.lastSeq + n);
    rest := entries[n..];
    VerdictMeans(s, g, req);
    PlayConcat(s, entries[..n], rest);
    assert entries == entries[..n] + rest;
  }

  lemma FollowingMeans(s: RunState, judged: RunState, e: EffectId, action: GatewayAction, entries: seq<Entry>)
    requires judged == s.(pendingEffects := s.pendingEffects[e := Requested], lastSeq := judged.lastSeq)
    requires s.pendingApprovals == map[] && Follows(judged, e, action, entries)
    requires !action.NeedPreview? && !action.DryRunOnly?
    ensures entries != []
    ensures var (t, last) := (Play(judged, entries), entries[|entries| - 1].body);
      match action
      case Dispatch(_) =>
        t.status == s.status && e in t.pendingEffects && t.pendingEffects[e] in {Settled, Denied}
      case Reject(code) =>
        && t.status == Failed && last == RunFailed(code)
        && t.pendingEffects == s.pendingEffects[e := Denied] && t.budgetUsed == s.budgetUsed
      case BudgetExceeded(_, _) =>
        && t.status == Suspended && t.awaiting == Some(AwaitBudget) && last == RunSuspended(BudgetExhausted)
        && t.pendingEffects == s.pendingEffects[e := Denied] && t.budgetUsed == s.budgetUsed
      case AskApproval(_, _, _) =>
        && t.status == Suspended && last == RunSuspended(AwaitingApproval)
        && (exists a :: t.pendingApprovals == map[a := e] && t.awaiting == Some(AwaitApproval(a, e)))
        && t.pendingEffects == s.pendingEffects[e := Requested] && t.budgetUsed == s.budgetUsed
      case _ => false
  {
    hide Play, Execution, Refusal, Asking, Price;
    assert judged.pendingEffects[e := Denied] == s.pendingEffects[e := Denied];
    match action
    case Dispatch(request) =>
      var outcome, listed :| entries == Execution(judged, request, outcome, listed);
      ExecutionMeans(judged, request, outcome, listed);
      ExecutionIsSome(judged, request, outcome, listed);
    case Reject(code) =>
      RefusalMeans(judged, e, RunFailed(code));
      RefusalEnds(judged, e, RunFailed(code));
    case BudgetExceeded(_, _) =>
      RefusalMeans(judged, e, RunSuspended(BudgetExhausted));
      RefusalEnds(judged, e, RunSuspended(BudgetExhausted));
    case AskApproval(risk, _, _) =>
      AskingMeans(judged, e, risk);
      AskingEnds(judged, e, risk);
    case DryRunOnly(_) => assert false;
  }

  lemma ExecutionIsSome(s: RunState, request: EffectRequest, outcome: EffectOutcome, listed: seq<nat>)
    ensures Execution(s, request, outcome, listed) != []
  {
    hide Settlement;
  }

  lemma RefusalEnds(s: RunState, e: EffectId, last: EventBody)
    ensures |Refusal(s, e, last)| == 3 && Refusal(s, e, last)[2].body == last
  {
  }

  lemma AskingEnds(s: RunState, e: EffectId, risk: RiskLevel)
    ensures |Asking(s, e, risk)| == 3 && Asking(s, e, risk)[2].body == RunSuspended(AwaitingApproval)
  {
  }

  lemma ActionIsFinal(g: Gateway, req: AdmitRequest)
    requires req.mode.Live?
    ensures var action := g.AdmitFully(req, None).action; !action.NeedPreview? && !action.DryRunOnly?
  {
    hide ResolveAll, BudgetGate, Estimate, Resources;
    AdmissionShape(g, req);
  }

  // ---------------------------------------------------------------- the request put back together

  /** A request rebuilt from the log is the one the gateway handed on when it judged the call, but for
      the taint and the capability of the moment. */
  lemma RebuiltIsAdmitted(
      g: Gateway, req: AdmitRequest, preview: Option<PreviewOutcome>, request: EffectRequest, log: seq<Event>,
      taint: TaintLevel, principal: string)
    requires
      CarriedBy(g.Admit(req).action) == Some(request) || CarriedBy(g.AdmitFully(req, preview).action) == Some(request)
    requires IsRequested(log, req.effectId) && log[req.effectId.at + 1].body == g.Admit(req).events[0]
    ensures RequestOnFile(log, req.effectId, taint, principal)
         == request.(taint := taint, capability := CapabilityToken(principal, ["*"]))
  {
    hide CarriedBy, ResolveAll;
    RequestIsTheRecord(g, req, preview, request);
  }
}

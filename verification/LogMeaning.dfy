/**
 * What the kernel's state says of the log, field by field: each is fixed by the events that are on
 * record, and an effect, an approval or a question stands as its own events left it.
 */
module LogMeaning {
  import opened Protocol
  import opened KernelState
  import opened Events
  import opened Kernel
  import opened WriteProtocol
  import opened EffectSafety
  import opened TurnOrder

  // ---------------------------------------------------------------- the last word

  predicate SetsBudget(body: EventBody) { body.RunCreated? || body.BudgetAmended? }
  predicate Declares(body: EventBody) { body.IntentDeclared? }

  lemma WordFrame(s: RunState, ev: Event)
    ensures !ev.body.EnvSampled? ==> Reduce(s, ev).rngSeed == s.rngSeed
    ensures !ev.body.ContextAssembled? ==> Reduce(s, ev).context == s.context
    ensures !SetsBudget(ev.body) ==> Reduce(s, ev).budget == s.budget
    ensures !Declares(ev.body) ==> Reduce(s, ev).intent == s.intent
  {
    match ev.body
    case EnvSampled(_, _, _) =>
    case ContextAssembled(_, _, _, _, _) =>
    case RunCreated(_) =>
    case BudgetAmended(_) =>
    case IntentDeclared(_) =>
    case _ =>
  }

  /** The seed and the clock are the last sampling's, the context record the last context's, the limits
      the last ones set, the intent the last one declared. */
  lemma {:induction false} LastWordCounts(log: seq<Event>, p: nat)
    requires p < |log|
    ensures LastMark(log, p, Samples, Never) ==>
      Fold(log).rngSeed == log[p].body.rngSeed && Fold(log).clockMs == log[p].body.wallClockMs
    ensures LastMark(log, p, Assembles, Never) ==>
      var b := log[p].body;
      Fold(log).context == Some(ContextRecord(b.turn, b.profile, |b.blocks|, b.taintLevel, b.totalTokenEstimate))
    ensures LastMark(log, p, SetsBudget, Never) ==> Fold(log).budget == log[p].body.budget
    ensures LastMark(log, p, Declares, Never) ==> Fold(log).intent == Some(log[p].body.intentRef)
    decreases |log|
  {
    hide Reduce, Fold;
    var n := |log| - 1;
    StateAfter(log, n);
    assert log[..n + 1] == log;
    WordFrame(Fold(log[..n]), log[n]);
    SampleFrame(Fold(log[..n]), log[n]);
    if p == n {
      WordSet(Fold(log[..n]), log[n]);
    } else {
      LastWordCounts(log[..n], p);
    }
  }

  lemma WordSet(s: RunState, ev: Event)
    ensures ev.body.EnvSampled? ==> Reduce(s, ev).rngSeed == ev.body.rngSeed
    ensures ev.body.ContextAssembled? ==>
      var b := ev.body;
      Reduce(s, ev).context == Some(ContextRecord(b.turn, b.profile, |b.blocks|, b.taintLevel, b.totalTokenEstimate))
    ensures SetsBudget(ev.body) ==> Reduce(s, ev).budget == ev.body.budget
    ensures Declares(ev.body) ==> Reduce(s, ev).intent == Some(ev.body.intentRef)
  {
  }

  /** How a run stands is what its last word on that says. */
  lemma {:induction false} StatusIsExact(log: seq<Event>, p: nat)
    requires p < |log|
    ensures LastMark(log, p, SetsStatus, Never) ==>
      Fold(log).status == match log[p].body
                          case RunCompleted(completion) => if completion == CompletedFailed then Failed else Completed
                          case RunSuspended(_) => Suspended
                          case RunFailed(_) => Failed
                          case _ => Running
    decreases |log|
  {
    hide Reduce, Fold;
    var n := |log| - 1;
    StateAfter(log, n);
    assert log[..n + 1] == log;
    if p == n && SetsStatus(log[n].body) {
      StatusSet(Fold(log[..n]), log[n]);
    } else if p < n {
      if !SetsStatus(log[n].body) {
        StatusFrame(Fold(log[..n]), log[n]);
      }
      StatusIsExact(log[..n], p);
    }
  }

  lemma StatusSet(s: RunState, ev: Event)
    requires SetsStatus(ev.body)
    ensures Reduce(s, ev).status == match ev.body
                                    case RunCompleted(completion) =>
                                      if completion == CompletedFailed then Failed else Completed
                                    case RunSuspended(_) => Suspended
                                    case RunFailed(_) => Failed
                                    case _ => Running
  {
  }

  /** What a run waits for is what its last suspension, not resumed since, found: the one approval pending
      then, the question put to a human, money, or a pause. */
  lemma {:induction false} WaitIsExact(log: seq<Event>, p: nat)
    requires Lawful(log) && p < |log| && LastMark(log, p, Suspends, Resumes)
    ensures var (now, was) := (Fold(log).awaiting, Fold(log[..p]));
      match log[p].body
      case RunSuspended(AwaitingApproval) =>
        exists a, e :: was.pendingApprovals == map[a := e] && now == Some(AwaitApproval(a, e))
      case RunSuspended(AwaitingHuman) =>
        was.pendingQuestion.Some? && now == Some(AwaitClarification(was.pendingQuestion.value))
      case RunSuspended(BudgetExhausted) => now == Some(AwaitBudget)
      case RunSuspended(Paused) => now == Some(AwaitExternalEvent("manual_pause"))
      case _ => false
    decreases |log|
  {
    hide Reduce, Fold, FoldFrom, Lawful, MayAppend;
    var n := |log| - 1;
    LawfulPrefix(log, n);
    StateAfter(log, n);
    assert log[..n + 1] == log;
    if p == n {
      LedgerHolds(log[..n]);
      WaitBegins(Fold(log[..n]), log[..n], log[n]);
    } else {
      assert log[..n][..p] == log[..p];
      AwaitingStays(Fold(log[..n]), log[n]);
      WaitIsExact(log[..n], p);
    }
  }

  lemma AwaitingStays(s: RunState, ev: Event)
    requires !ev.body.RunSuspended? && !ev.body.RunResumed?
    ensures Reduce(s, ev).awaiting == s.awaiting
  {
  }

  lemma WaitBegins(s: RunState, log: seq<Event>, ev: Event)
    requires MayAppend(s, log, ev.actor, ev.body) && ev.body.RunSuspended?
    requires ApprovalLedger(s.pendingEffects, s.pendingApprovals)
    ensures var now := Reduce(s, ev).awaiting;
      match ev.body
      case RunSuspended(AwaitingApproval) =>
        exists a, e :: s.pendingApprovals == map[a := e] && now == Some(AwaitApproval(a, e))
      case RunSuspended(AwaitingHuman) =>
        s.pendingQuestion.Some? && now == Some(AwaitClarification(s.pendingQuestion.value))
      case RunSuspended(BudgetExhausted) => now == Some(AwaitBudget)
      case RunSuspended(Paused) => now == Some(AwaitExternalEvent("manual_pause"))
      case _ => false
  {
    if ev.body == RunSuspended(AwaitingApproval) {
      var a :| a in s.pendingApprovals;
      OnlyApproval(s, a);
      assert s.pendingApprovals.Keys == {a};
      assert s.pendingApprovals == map[a := s.pendingApprovals[a]];
    }
  }

  /** An effect comes to its end here: with a result, or a human or the clock refusing it. */
  predicate EndsAnEffect(body: EventBody)
  {
    body.ToolResult? || body.ApprovalDenied? || body.ApprovalExpired?
  }

  /** Where in a log an effect came to its end. */
  function EndsIn(log: seq<Event>): set<int>
  {
    set i | 0 <= i < |log| && EndsAnEffect(log[i].body)
  }

  lemma EndsGrow(log: seq<Event>)
    requires log != []
    ensures var n := |log| - 1;
            |EndsIn(log)| == |EndsIn(log[..n])| + if EndsAnEffect(log[n].body) then 1 else 0
  {
    var n := |log| - 1;
    assert forall i :: 0 <= i < n ==> log[..n][i] == log[i];
    assert EndsIn(log) == EndsIn(log[..n]) + if EndsAnEffect(log[n].body) then {n} else {};
  }

  /** The turn is the number of effects that have come to their end. */
  lemma TurnIsCounted(log: seq<Event>)
    requires Lawful(log)
    ensures Fold(log).turn
         == |set i | 0 <= i < |log| && (log[i].body.ToolResult? || log[i].body.ApprovalDenied?
                                        || log[i].body.ApprovalExpired?)|
  {
    hide Fold, Lawful;
    TurnIsEnds(log);
    assert EndsIn(log) == set i | 0 <= i < |log| && (log[i].body.ToolResult? || log[i].body.ApprovalDenied?
                                                     || log[i].body.ApprovalExpired?);
  }

  lemma {:induction false} TurnIsEnds(log: seq<Event>)
    requires Lawful(log)
    ensures Fold(log).turn == |EndsIn(log)|
    decreases |log|
  {
    hide Fold, FoldFrom, Reduce, MayAppend, Lawful, EndsAnEffect;
    if log == [] {
      EmptyLog();
    } else {
      var n := |log| - 1;
      LawfulPrefix(log, n);
      TurnIsEnds(log[..n]);
      StateAfter(log, n);
      assert log[..n + 1] == log;
      LedgerHolds(log[..n]);
      TurnMoves(Fold(log[..n]), log[..n], log[n]);
      EndsGrow(log);
    }
  }

  lemma TurnMoves(s: RunState, log: seq<Event>, ev: Event)
    requires MayAppend(s, log, ev.actor, ev.body) && ev.seqNo == |log|
    requires EffectLedger(s.pendingEffects, s.turn) && ApprovalLedger(s.pendingEffects, s.pendingApprovals)
    ensures Reduce(s, ev).turn == s.turn + if EndsAnEffect(ev.body) then 1 else 0
  {
    if EndsAnEffect(ev.body) {
      OthersAreResolved(s, if ev.body.ToolResult? then ev.body.effectId else s.pendingApprovals[ev.body.approvalId]);
    } else {
      hide MayAppend;
      TurnStays(s, ev);
    }
  }

  lemma TurnStays(s: RunState, ev: Event)
    requires !EndsAnEffect(ev.body) && (ev.body.EnvSampled? ==> ev.body.turn == s.turn)
    ensures Reduce(s, ev).turn == s.turn
  {
  }

  lemma OthersAreResolved(s: RunState, e: EffectId)
    requires EffectLedger(s.pendingEffects, s.turn) && Open(s.pendingEffects, e)
    ensures forall f :: f in s.pendingEffects && f != e ==> s.pendingEffects[f].IsResolved()
  {
    forall f | f in s.pendingEffects && f != e ensures s.pendingEffects[f].IsResolved() {
      assert !Open(s.pendingEffects, f);
    }
  }

  // ---------------------------------------------------------------- effects

  predicate ResultAt(log: seq<Event>, i: nat, e: EffectId)
  {
    i < |log| && log[i].body.ToolResult? && log[i].body.effectId == e
  }

  /** A human refuses, or the deadline passes. */
  predicate RefusedAt(log: seq<Event>, i: nat, e: EffectId)
  {
    && i < |log| && (log[i].body.ApprovalDenied? || log[i].body.ApprovalExpired?)
    && AsksFor(log[..i], log[i].body.approvalId, e)
  }

  predicate ClosedAt(log: seq<Event>, i: nat, e: EffectId)
  {
    ResultAt(log, i, e) || RefusedAt(log, i, e)
  }

  ghost predicate Closed(log: seq<Event>, e: EffectId) { exists i: nat :: ClosedAt(log, i, e) }
  ghost predicate WasDispatched(log: seq<Event>, e: EffectId) { exists i: nat :: DispatchesAt(log, i, e) }
  ghost predicate Returned(log: seq<Event>, e: EffectId)
  {
    exists i: nat :: ResultAt(log, i, e) && log[i].body.status != ResultDenied
  }

  /** Event `i` is about effect `e`. */
  predicate Concerns(log: seq<Event>, i: nat, e: EffectId)
  {
    ClosedAt(log, i, e) || DispatchesAt(log, i, e) || GrantsAt(log, i, e)
  }

  lemma OnePrefix(log: seq<Event>, i: nat, e: EffectId)
    requires log != []
    ensures var n := |log| - 1;
      && (i < n ==> (ResultAt(log, i, e) <==> ResultAt(log[..n], i, e)))
      && (i < n ==> (RefusedAt(log, i, e) <==> RefusedAt(log[..n], i, e)))
      && (i < n ==> (DispatchesAt(log, i, e) <==> DispatchesAt(log[..n], i, e)))
      && (i < n ==> (GrantsAt(log, i, e) <==> GrantsAt(log[..n], i, e)))
  {
    var n := |log| - 1;
    if i < n {
      assert log[..n][..i] == log[..i];
    }
  }

  /** How an effect stands by its own events: closed with a result or a refusal, dispatched, granted,
      or merely requested. */
  ghost predicate StandsAs(log: seq<Event>, e: EffectId, state: EffectState)
  {
    match state
    case Settled => Closed(log, e) && Returned(log, e)
    case Denied => Closed(log, e) && !Returned(log, e)
    case Dispatched => !Closed(log, e) && WasDispatched(log, e)
    case Approved => !Closed(log, e) && !WasDispatched(log, e) && Granted(log, e)
    case Requested => !Closed(log, e) && !WasDispatched(log, e) && !Granted(log, e)
  }

  lemma NewlyConcerned(log: seq<Event>, e: EffectId)
    requires log != []
    ensures var (n, init) := (|log| - 1, log[..|log| - 1]);
      && (Closed(log, e) <==> Closed(init, e) || ClosedAt(log, n, e))
      && (WasDispatched(log, e) <==> WasDispatched(init, e) || DispatchesAt(log, n, e))
      && (Granted(log, e) <==> Granted(init, e) || GrantsAt(log, n, e))
      && (Returned(log, e) <==> Returned(init, e) || (ResultAt(log, n, e) && log[n].body.status != ResultDenied))
  {
    hide Closed, WasDispatched, Granted, Returned;
    NewlyClosed(log, e);
    NewlyDispatched(log, e);
    NewlyGranted(log, e);
    NewlyReturned(log, e);
  }

  lemma NewlyClosed(log: seq<Event>, e: EffectId)
    requires log != []
    ensures Closed(log, e) <==> Closed(log[..|log| - 1], e) || ClosedAt(log, |log| - 1, e)
  {
    hide ResultAt, RefusedAt;
    var (n, init) := (|log| - 1, log[..|log| - 1]);
    if i: nat :| ClosedAt(log, i, e) {
      Within(log, i, e);
      OnePrefix(log, i, e);
      assert i < n ==> ClosedAt(init, i, e);
    }
    if i: nat :| ClosedAt(init, i, e) {
      Within(init, i, e);
      OnePrefix(log, i, e);
      assert ClosedAt(log, i, e);
    }
  }

  lemma Within(log: seq<Event>, i: nat, e: EffectId)
    ensures Concerns(log, i, e) ==> i < |log|
  {
  }

  lemma NewlyDispatched(log: seq<Event>, e: EffectId)
    requires log != []
    ensures WasDispatched(log, e) <==> WasDispatched(log[..|log| - 1], e) || DispatchesAt(log, |log| - 1, e)
  {
    var (n, init) := (|log| - 1, log[..|log| - 1]);
    if i: nat :| DispatchesAt(log, i, e) {
      assert i < n ==> DispatchesAt(init, i, e);
    }
    if i: nat :| DispatchesAt(init, i, e) {
      assert DispatchesAt(log, i, e);
    }
  }

  lemma NewlyGranted(log: seq<Event>, e: EffectId)
    requires log != []
    ensures Granted(log, e) <==> Granted(log[..|log| - 1], e) || GrantsAt(log, |log| - 1, e)
  {
    var (n, init) := (|log| - 1, log[..|log| - 1]);
    if i: nat :| GrantsAt(log, i, e) {
      OnePrefix(log, i, e);
      assert i < n ==> GrantsAt(init, i, e);
    }
    if i: nat :| GrantsAt(init, i, e) {
      OnePrefix(log, i, e);
      assert GrantsAt(log, i, e);
    }
  }

  lemma NewlyReturned(log: seq<Event>, e: EffectId)
    requires log != []
    ensures Returned(log, e) <==>
      Returned(log[..|log| - 1], e) || (ResultAt(log, |log| - 1, e) && log[|log| - 1].body.status != ResultDenied)
  {
    var (n, init) := (|log| - 1, log[..|log| - 1]);
    if i: nat :| ResultAt(log, i, e) && log[i].body.status != ResultDenied {
      assert i < n ==> ResultAt(init, i, e);
    }
    if i: nat :| ResultAt(init, i, e) && init[i].body.status != ResultDenied {
      assert ResultAt(log, i, e);
    }
  }

  ghost predicate Untouched(log: seq<Event>, e: EffectId)
  {
    forall i: nat :: !Concerns(log, i, e)
  }

  /** In every run the effects on file are those requested, each in the state its own events left it in. */
  lemma {:induction false} EffectsAreExact(log: seq<Event>, e: EffectId)
    requires Lawful(log)
    ensures e in Fold(log).pendingEffects <==> IsRequested(log, e)
    ensures e in Fold(log).pendingEffects ==> StandsAs(log, e, Fold(log).pendingEffects[e])
    ensures e !in Fold(log).pendingEffects ==> Untouched(log, e)
    decreases |log|
  {
    hide Fold, FoldFrom, Reduce, MayAppend, Lawful, StandsAs, Untouched;
    if log == [] {
      NothingOnFile(e);
    } else {
      var n := |log| - 1;
      var init := log[..n];
      LawfulPrefix(log, n);
      LedgerHolds(init);
      EffectsAreExact(init, e);
      StateAfter(log, n);
      assert log[..n + 1] == log;
      EffectStandsStep(Fold(init), log, e);
    }
  }

  lemma NothingOnFile(e: EffectId)
    ensures e !in Fold([]).pendingEffects && !IsRequested([], e) && Untouched([], e)
  {
  }

  /** What one event may do to the standing of one effect. */
  lemma EffectStandsStep(s: RunState, log: seq<Event>, e: EffectId)
    requires log != [] && MayAppend(s, log[..|log| - 1], log[|log| - 1].actor, log[|log| - 1].body)
    requires PaperTrail(s.pendingEffects, s.pendingApprovals, log[..|log| - 1])
    requires ApprovalLedger(s.pendingEffects, s.pendingApprovals)
    requires e in s.pendingEffects <==> IsRequested(log[..|log| - 1], e)
    requires e in s.pendingEffects ==> StandsAs(log[..|log| - 1], e, s.pendingEffects[e])
    requires e !in s.pendingEffects ==> Untouched(log[..|log| - 1], e)
    ensures var t := Reduce(s, log[|log| - 1]);
      && (e in t.pendingEffects <==> IsRequested(log, e))
      && (e in t.pendingEffects ==> StandsAs(log, e, t.pendingEffects[e]))
      && (e !in t.pendingEffects ==> Untouched(log, e))
  {
    hide Reduce, MayAppend, StandsAs;
    var (n, init) := (|log| - 1, log[..|log| - 1]);
    var t := Reduce(s, log[n]);
    RequestsGrow(s, log, e);
    if e in s.pendingEffects {
      KnownStands(s, log, e);
    } else {
      assert init + [log[n]] == log;
      UnknownIsUntouched(s, init, log[n], e);
      forall i: nat ensures !Concerns(log, i, e) {
        OnePrefix(log, i, e);
        Within(log, i, e);
        assert !Concerns(init, i, e);
      }
      if e in t.pendingEffects {
        NewStands(log, e);
        NewIsRequested(s, init, log[n], e);
      }
    }
  }

  lemma RequestsGrow(s: RunState, log: seq<Event>, e: EffectId)
    requires log != [] && MayAppend(s, log[..|log| - 1], log[|log| - 1].actor, log[|log| - 1].body)
    requires e in s.pendingEffects <==> IsRequested(log[..|log| - 1], e)
    requires PaperTrail(s.pendingEffects, s.pendingApprovals, log[..|log| - 1])
    requires ApprovalLedger(s.pendingEffects, s.pendingApprovals)
    ensures e in Reduce(s, log[|log| - 1]).pendingEffects <==> IsRequested(log, e)
    ensures e in s.pendingEffects ==> e in Reduce(s, log[|log| - 1]).pendingEffects
  {
    var ev := log[|log| - 1];
    if Quiet(ev.body) {
      QuietFrame(s, ev);
    }
  }

  /** Nothing is on record about an effect that was not requested. */
  lemma UnknownIsUntouched(s: RunState, init: seq<Event>, ev: Event, e: EffectId)
    requires MayAppend(s, init, ev.actor, ev.body) && e !in s.pendingEffects
    requires PaperTrail(s.pendingEffects, s.pendingApprovals, init)
    requires ApprovalLedger(s.pendingEffects, s.pendingApprovals)
    ensures !Concerns(init + [ev], |init|, e)
  {
    assert (init + [ev])[..|init|] == init;
  }

  lemma NewStands(log: seq<Event>, e: EffectId)
    requires Untouched(log, e)
    ensures StandsAs(log, e, Requested)
  {
    forall i: nat ensures !ClosedAt(log, i, e) && !DispatchesAt(log, i, e) && !GrantsAt(log, i, e) {
      assert !Concerns(log, i, e);
    }
  }

  lemma NewIsRequested(s: RunState, init: seq<Event>, ev: Event, e: EffectId)
    requires MayAppend(s, init, ev.actor, ev.body)
    requires ApprovalLedger(s.pendingEffects, s.pendingApprovals)
    requires e !in s.pendingEffects && e in Reduce(s, ev).pendingEffects
    ensures Reduce(s, ev).pendingEffects[e] == Requested
  {
    if Quiet(ev.body) {
      QuietFrame(s, ev);
    }
  }

  /** Which state an event leaves an effect in that it is about. */
  function StateLeft(body: EventBody): EffectState
  {
    match body
    case EffectDispatched(_, _) => Dispatched
    case ToolResult(_, status, _, _, _) => if status == ResultDenied then Denied else Settled
    case ApprovalGranted(_) => Approved
    case _ => Denied
  }

  lemma KnownStands(s: RunState, log: seq<Event>, e: EffectId)
    requires log != [] && MayAppend(s, log[..|log| - 1], log[|log| - 1].actor, log[|log| - 1].body)
    requires PaperTrail(s.pendingEffects, s.pendingApprovals, log[..|log| - 1])
    requires ApprovalLedger(s.pendingEffects, s.pendingApprovals)
    requires e in s.pendingEffects && StandsAs(log[..|log| - 1], e, s.pendingEffects[e])
    requires e in Reduce(s, log[|log| - 1]).pendingEffects
    ensures StandsAs(log, e, Reduce(s, log[|log| - 1]).pendingEffects[e])
  {
    hide Reduce, MayAppend, PaperTrail, ApprovalLedger, StandsAs;
    var (n, init) := (|log| - 1, log[..|log| - 1]);
    assert init + [log[n]] == log;
    if Concerns(log, n, e) {
      ConcernedMoves(s, init, log[n], e);
      ConcernedStands(log, e, s.pendingEffects[e]);
    } else {
      UnconcernedStays(s, init, log[n], e);
      UnconcernedStands(log, e, s.pendingEffects[e]);
    }
  }

  lemma ConcernedStands(log: seq<Event>, e: EffectId, was: EffectState)
    requires log != [] && StandsAs(log[..|log| - 1], e, was) && Concerns(log, |log| - 1, e)
    requires
      var (n, ev) := (|log| - 1, log[|log| - 1]);
      && (ev.body.ApprovalGranted? || RefusedAt(log, n, e) ==> was == Requested)
      && (ev.body.EffectDispatched? ==> was == Requested || was == Approved)
      && (ev.body.ToolResult? ==> was == Requested || was == Dispatched)
    ensures StandsAs(log, e, StateLeft(log[|log| - 1].body))
  {
    hide Closed, WasDispatched, Granted, Returned;
    NewlyConcerned(log, e);
    ReturnsClose(log[..|log| - 1], e);
  }

  lemma UnconcernedStands(log: seq<Event>, e: EffectId, was: EffectState)
    requires log != [] && StandsAs(log[..|log| - 1], e, was) && !Concerns(log, |log| - 1, e)
    ensures StandsAs(log, e, was)
  {
    hide Closed, WasDispatched, Granted, Returned;
    NewlyConcerned(log, e);
  }

  lemma ReturnsClose(log: seq<Event>, e: EffectId)
    ensures Returned(log, e) ==> Closed(log, e)
  {
    if i: nat :| ResultAt(log, i, e) && log[i].body.status != ResultDenied {
      assert ClosedAt(log, i, e);
    }
  }

  lemma ConcernedMoves(s: RunState, init: seq<Event>, ev: Event, e: EffectId)
    requires MayAppend(s, init, ev.actor, ev.body) && e in s.pendingEffects && Concerns(init + [ev], |init|, e)
    requires PaperTrail(s.pendingEffects, s.pendingApprovals, init)
    requires ApprovalLedger(s.pendingEffects, s.pendingApprovals)
    ensures e in Reduce(s, ev).pendingEffects && Reduce(s, ev).pendingEffects[e] == StateLeft(ev.body)
    ensures ev.body.ApprovalGranted? || RefusedAt(init + [ev], |init|, e) ==> s.pendingEffects[e] == Requested
    ensures ev.body.EffectDispatched? ==> s.pendingEffects[e] == Requested || s.pendingEffects[e] == Approved
    ensures ev.body.ToolResult? ==> s.pendingEffects[e] == Requested || s.pendingEffects[e] == Dispatched
  {
    assert (init + [ev])[..|init|] == init;
    if ev.body.ApprovalGranted? || ev.body.ApprovalDenied? || ev.body.ApprovalExpired? {
      assert AsksFor(init, ev.body.approvalId, s.pendingApprovals[ev.body.approvalId]);
    } else {
      hide PaperTrail, ApprovalLedger, AsksFor;
    }
  }

  lemma UnconcernedStays(s: RunState, init: seq<Event>, ev: Event, e: EffectId)
    requires MayAppend(s, init, ev.actor, ev.body) && e in s.pendingEffects && !Concerns(init + [ev], |init|, e)
    requires PaperTrail(s.pendingEffects, s.pendingApprovals, init)
    requires ApprovalLedger(s.pendingEffects, s.pendingApprovals)
    ensures e in Reduce(s, ev).pendingEffects && Reduce(s, ev).pendingEffects[e] == s.pendingEffects[e]
  {
    assert (init + [ev])[..|init|] == init;
    if Quiet(ev.body) {
      QuietFrame(s, ev);
    } else if ev.body.ToolRequested? {
      assert IsRequested(init, e);
    } else if ev.body.ApprovalGranted? || ev.body.ApprovalDenied? || ev.body.ApprovalExpired? {
      assert AsksFor(init, ev.body.approvalId, s.pendingApprovals[ev.body.approvalId]);
    }
  }

  // ---------------------------------------------------------------- waiting for what was begun

  /** New work starts only once every effect requested before has come to its end: a result, a refusal by
      a human, or the passing of its deadline. */
  lemma WorkWaitsForEffects(log: seq<Event>, j: nat, i: nat)
    requires Lawful(log) && j < i < |log| && log[j].body.ToolRequested?
    requires
      || log[i].body.EnvSampled? || log[i].body.ContextAssembled? || log[i].body.ModelRequested?
      || log[i].body.ToolRequested? || log[i].body.RunCompleted?
    ensures exists k: nat :: j < k < i && ClosedAt(log, k, log[j].body.effectId)
  {
    hide Fold, FoldFrom, Lawful, StandsAs;
    var e := log[j].body.effectId;
    LawfulPrefix(log, j);
    LawfulPrefix(log, i);
    var s := Fold(log[..i]);
    EffectsAreExact(log[..i], e);
    assert IsRequested(log[..i], e);
    ClosedIfEnded(log[..i], e, s.pendingEffects[e]);
    var k: nat :| ClosedAt(log[..i], k, e);
    assert log[..i][..k] == log[..k];
    assert ClosedAt(log, k, e);
    ClosedLater(log, j, k);
  }

  lemma ClosedIfEnded(log: seq<Event>, e: EffectId, state: EffectState)
    requires StandsAs(log, e, state) && (state == Settled || state == Denied)
    ensures Closed(log, e)
  {
  }

  /** An effect comes to its end after its request. */
  lemma ClosedLater(log: seq<Event>, j: nat, k: nat)
    requires Lawful(log) && j < |log| && log[j].body.ToolRequested? && ClosedAt(log, k, log[j].body.effectId)
    ensures j < k
  {
    hide Fold, FoldFrom, Lawful;
    LawfulPrefix(log, j);
    LawfulPrefix(log, k);
    LedgerHolds(log[..k]);
    var e := log[j].body.effectId;
    ClosedIsOnFile(Fold(log[..k]), log[..k], log[k], e);
    assert log[..k] + [log[k]] == log[..k + 1];
  }

  lemma ClosedIsOnFile(s: RunState, init: seq<Event>, ev: Event, e: EffectId)
    requires MayAppend(s, init, ev.actor, ev.body)
    requires PaperTrail(s.pendingEffects, s.pendingApprovals, init)
    requires ApprovalLedger(s.pendingEffects, s.pendingApprovals)
    requires (ev.body.ToolResult? && ev.body.effectId == e)
             || ((ev.body.ApprovalDenied? || ev.body.ApprovalExpired?) && AsksFor(init, ev.body.approvalId, e))
    ensures IsRequested(init, e)
  {
    if !ev.body.ToolResult? {
      assert AsksFor(init, ev.body.approvalId, s.pendingApprovals[ev.body.approvalId]);
    }
  }

  // ---------------------------------------------------------------- approvals and the question

  predicate DecidesAt(log: seq<Event>, i: nat, a: ApprovalId)
  {
    && i < |log|
    && (log[i].body.ApprovalGranted? || log[i].body.ApprovalDenied? || log[i].body.ApprovalExpired?)
    && log[i].body.approvalId == a
  }

  ghost predicate Decided(log: seq<Event>, a: ApprovalId) { exists i: nat :: DecidesAt(log, i, a) }

  lemma NewlyDecided(log: seq<Event>, a: ApprovalId)
    requires log != []
    ensures Decided(log, a) <==> Decided(log[..|log| - 1], a) || DecidesAt(log, |log| - 1, a)
  {
    var (n, init) := (|log| - 1, log[..|log| - 1]);
    if i: nat :| DecidesAt(log, i, a) && i < n { assert DecidesAt(init, i, a); }
    if i: nat :| DecidesAt(init, i, a) { assert DecidesAt(log, i, a); }
  }

  predicate WasAsked(log: seq<Event>, a: ApprovalId)
  {
    a.at + 1 < |log| && log[a.at + 1].body.ApprovalRequested? && log[a.at + 1].body.approvalId == a
  }

  /** Pending are exactly the approvals asked for and not decided since, each for the effect it was asked
      for. */
  lemma {:induction false} ApprovalsAreExact(log: seq<Event>, a: ApprovalId, e: EffectId)
    requires Lawful(log)
    ensures a in Fold(log).pendingApprovals && Fold(log).pendingApprovals[a] == e <==>
      AsksFor(log, a, e) && !Decided(log, a)
    ensures a !in Fold(log).pendingApprovals && !WasAsked(log, a) ==> !Decided(log, a)
    decreases |log|
  {
    hide Fold, FoldFrom, Reduce, MayAppend, Lawful, Decided;
    if log == [] {
      NothingPendingYet(a);
    } else {
      var n := |log| - 1;
      LawfulPrefix(log, n);
      LedgerHolds(log[..n]);
      ApprovalsAreExact(log[..n], a, e);
      StateAfter(log, n);
      assert log[..n + 1] == log;
      NewlyDecided(log, a);
      ApprovalStep(Fold(log[..n]), log, a, e);
    }
  }

  lemma NothingPendingYet(a: ApprovalId)
    ensures a !in Fold([]).pendingApprovals && !Decided([], a)
  {
  }

  lemma ApprovalStep(s: RunState, log: seq<Event>, a: ApprovalId, e: EffectId)
    requires log != [] && MayAppend(s, log[..|log| - 1], log[|log| - 1].actor, log[|log| - 1].body)
    requires PaperTrail(s.pendingEffects, s.pendingApprovals, log[..|log| - 1])
    requires Decided(log, a) <==> Decided(log[..|log| - 1], a) || DecidesAt(log, |log| - 1, a)
    requires a in s.pendingApprovals && s.pendingApprovals[a] == e <==>
      AsksFor(log[..|log| - 1], a, e) && !Decided(log[..|log| - 1], a)
    requires a !in s.pendingApprovals && !WasAsked(log[..|log| - 1], a) ==>
      !Decided(log[..|log| - 1], a)
    ensures var t := Reduce(s, log[|log| - 1]);
      && (a in t.pendingApprovals && t.pendingApprovals[a] == e <==> AsksFor(log, a, e) && !Decided(log, a))
      && (a !in t.pendingApprovals && !WasAsked(log, a) ==> !Decided(log, a))
  {
    hide Decided;
    var (n, init) := (|log| - 1, log[..|log| - 1]);
    var ev := log[n];
    if Quiet(ev.body) {
      hide Reduce, MayAppend;
      QuietFrame(s, ev);
    } else if DecidesAt(log, n, a) {
      assert AsksFor(init, a, s.pendingApprovals[a]);
    }
    forall f ensures AsksFor(log, a, f) <==>
      AsksFor(init, a, f)
      || (ev.body.ApprovalRequested? && ev.body.approvalId == a && ev.body.effectId == f && a.at + 1 == n) {
    }
  }

  predicate Asks(body: EventBody) { body.ClarificationRequested? }
  predicate Answers(body: EventBody) { body.ClarificationAnswered? }

  lemma QuestionFrame(s: RunState, ev: Event)
    ensures
      Reduce(s, ev).pendingQuestion
      == if ev.body.ClarificationRequested? then Some(ev.body.questionId)
         else if ev.body.ClarificationAnswered? then None else s.pendingQuestion
  {
    match ev.body
    case ClarificationRequested(_, _, _) =>
    case ClarificationAnswered(_, _, _) =>
    case _ =>
  }

  /** The question at `p` is the last one put to a human, with no answer since. */
  predicate QuestionAt(log: seq<Event>, p: nat, q: QuestionId)
  {
    LastMark(log, p, Asks, Answers) && log[p].body.questionId == q
  }

  /** Pending is exactly the last question put to a human, as long as none was answered since. */
  lemma {:induction false} QuestionIsExact(log: seq<Event>, q: QuestionId)
    ensures Fold(log).pendingQuestion == Some(q) <==> exists p: nat :: QuestionAt(log, p, q)
    decreases |log|
  {
    if log != [] {
      hide Reduce, LastMark, Fold;
      var n := |log| - 1;
      var (init, body) := (log[..n], log[n].body);
      QuestionIsExact(init, q);
      StateAfter(log, n);
      assert log[..n + 1] == log;
      QuestionFrame(Fold(init), log[n]);
      forall p: nat
        ensures QuestionAt(log, p, q) <==>
          if body.ClarificationRequested? then p == n && body.questionId == q
          else !body.ClarificationAnswered? && QuestionAt(init, p, q)
      {
        LastMarkSnoc(log, p, Asks, Answers);
        TurnOrder.Within(init, p, Asks, Answers);
      }
      assert body.ClarificationRequested? && body.questionId == q ==> QuestionAt(log, n, q);
    }
  }

  // ---------------------------------------------------------------- what the kernel decides

  /** No money, no tokens or no time left. */
  predicate Spent(budget: BudgetSpec, used: BudgetUsage)
  {
    || (budget.maxTokens.Some? && budget.maxTokens.value <= used.tokens)
    || (budget.maxAmountMicros.Some? && budget.maxAmountMicros.value <= used.amountMicros)
    || (budget.maxWallSeconds.Some? && budget.maxWallSeconds.value * 1000 <= used.wallMs)
  }

  /** An effect is neither settled nor denied. */
  ghost predicate Awaited(s: RunState)
  {
    exists e :: e in s.pendingEffects && s.pendingEffects[e] != Settled && s.pendingEffects[e] != Denied
  }

  /** What the kernel wants next, apart from checkpoints. */
  predicate Wants(s: RunState, cmd: Command)
  {
    cmd in Decide(s) && !cmd.TakeCheckpoint?
  }

  /** The kernel wants one thing at most; it wants to stop for money exactly when there is none, and else
      nothing while an effect is awaited. */
  lemma KernelStops(s: RunState, cmd: Command)
    requires s.status == Running && s.awaiting.None? && Wants(s, cmd)
    ensures cmd == Suspend(AwaitBudget) <==> Spent(s.budget, s.budgetUsed)
    ensures Spent(s.budget, s.budgetUsed) || !Awaited(s)
    ensures forall other :: Wants(s, other) ==> other == cmd
  {
  }

  /** The plan of this turn at `p`, made from all answers so far. */
  predicate CurrentPlan(log: seq<Event>, p: nat)
  {
    PlannedAt(log, p, Fold(log).turn)
  }

  /**
   * With money left and no effect awaited the kernel's wish is read off the log. Where this turn was not
   * sampled last it wants a sample; where it has no context since the last answer, a context; where it
   * has no plan since, a model's; and where it has one, what that plan says.
   */
  lemma KernelFollowsTheLog(log: seq<Event>, p: nat)
    requires Lawful(log) && Fold(log).status == Running
    requires !Spent(Fold(log).budget, Fold(log).budgetUsed) && !Awaited(Fold(log))
    ensures var (s, t) := (Fold(log), Fold(log).turn);
      var sampled := exists q: nat :: SampledAt(log, q, t);
      var assembled := exists q: nat :: ContextAt(log, q, t);
      && (!sampled ==> Wants(s, SampleEnv))
      && (sampled && !assembled ==> Wants(s, AssembleContext(t, "default")))
      && (sampled && assembled && !(exists q: nat :: PlannedAt(log, q, t)) ==> Wants(s, CallModel(t)))
      && (sampled && assembled && PlannedAt(log, p, t) ==>
            var plan := log[p].body.plan;
            match plan.intent
            case ToolCall => Wants(s, if plan.call.Some? then RequestEffect(plan.call.value) else Complete(Failed))
            case Clarify =>
              Wants(s, if plan.clarification.Some? then AskClarification(plan.clarification.value)
                       else Complete(Failed))
            case Finish => Wants(s, Complete(Completed)))
  {
    hide Fold, FoldFrom, Lawful, LastMark;
    var t := Fold(log).turn;
    SampleMarkerIsExact(log, t);
    ContextMarkerIsExact(log, t);
    PlanMarkerIsExact(log, t);
    RunningWaitsForNothing(log);
    if PlannedAt(log, p, t) {
      PlanOnFile(log, p, t);
      TurnOrder.Within(log, p, Plans, TurnOrder.Answered);
      IsPlan(log, p, t);
    }
    KernelWishes(Fold(log));
  }

  lemma IsPlan(log: seq<Event>, p: nat, t: nat)
    requires PlannedAt(log, p, t)
    ensures p < |log| && log[p].body.PlanStep?
  {
  }

  lemma RunningWaitsForNothing(log: seq<Event>)
    requires Lawful(log) && Fold(log).status == Running
    ensures Fold(log).awaiting.None?
  {
    LedgerHolds(log);
  }

  lemma KernelWishes(s: RunState)
    requires s.status == Running && s.awaiting.None? && !Spent(s.budget, s.budgetUsed) && !Awaited(s)
    ensures NextCommand(s) != [] && Wants(s, NextCommand(s)[0])
    ensures s.envSampledTurn != Some(s.turn) ==> NextCommand(s)[0] == SampleEnv
    ensures s.envSampledTurn == Some(s.turn) && s.contextTurn != Some(s.turn) ==>
      NextCommand(s)[0] == AssembleContext(s.turn, "default")
    ensures s.envSampledTurn == s.contextTurn == Some(s.turn) && s.planTurn != Some(s.turn) ==>
      NextCommand(s)[0] == CallModel(s.turn)
    ensures s.envSampledTurn == s.contextTurn == s.planTurn == Some(s.turn) && s.lastPlan.Some? ==>
      var plan := s.lastPlan.value;
      NextCommand(s)[0]
      == match plan.intent
         case ToolCall => if plan.call.Some? then RequestEffect(plan.call.value) else Complete(Failed)
         case Clarify =>
           if plan.clarification.Some? then AskClarification(plan.clarification.value) else Complete(Failed)
         case Finish => Complete(Completed)
    ensures s.envSampledTurn == s.contextTurn == s.planTurn == Some(s.turn) && s.lastPlan.None? ==>
      NextCommand(s)[0] == Complete(Completed)
  {
    assert s.AllResolved();
  }
}

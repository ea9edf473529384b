/**
 * What the kernel's markers mean in terms of the log, and what follows for every run: within a turn
 * the stages come in order, and the runtime acts only on a plan made after every answer so far.
 */
module TurnOrder {
  import opened Protocol
  import opened KernelState
  import opened Events
  import opened Kernel
  import opened WriteProtocol

  lemma SampleFrame(s: RunState, ev: Event)
    ensures Reduce(s, ev).envSampledTurn == if ev.body.EnvSampled? then Some(ev.body.turn) else s.envSampledTurn
    ensures Reduce(s, ev).clockMs == if ev.body.EnvSampled? then ev.body.wallClockMs else s.clockMs
  {
    match ev.body
    case EnvSampled(_, _, _) =>
    case _ =>
  }

  lemma ContextFrame(s: RunState, ev: Event)
    ensures
      Reduce(s, ev).contextTurn
      == if ev.body.ContextAssembled? then Some(ev.body.turn)
         else if ev.body.ClarificationAnswered? then None else s.contextTurn
  {
    match ev.body
    case ContextAssembled(_, _, _, _, _) =>
    case ClarificationAnswered(_, _, _) =>
    case _ =>
  }

  lemma PlanFrame(s: RunState, ev: Event)
    ensures
      Reduce(s, ev).planTurn
      == if ev.body.PlanStep? then Some(ev.body.plan.turn)
         else if ev.body.ClarificationAnswered? then None else s.planTurn
    ensures Reduce(s, ev).lastPlan == if ev.body.PlanStep? then Some(ev.body.plan) else s.lastPlan
  {
    match ev.body
    case PlanStep(_) =>
    case ClarificationAnswered(_, _, _) =>
    case _ =>
  }

  lemma CheckpointFrame(s: RunState, ev: Event)
    ensures Reduce(s, ev).lastCheckpointSeq == if ev.body.Checkpoint? then Some(ev.seqNo) else s.lastCheckpointSeq
  {
    match ev.body
    case Checkpoint(_, _) =>
    case _ =>
  }

  /** The last marking event of a log, with nothing since that wipes the mark. */
  predicate LastMark(log: seq<Event>, p: nat, marks: EventBody -> bool, wipes: EventBody -> bool)
  {
    && p < |log| && marks(log[p].body)
    && forall k :: p < k < |log| ==> !marks(log[k].body) && !wipes(log[k].body)
  }

  lemma LastMarkSnoc(log: seq<Event>, p: nat, marks: EventBody -> bool, wipes: EventBody -> bool)
    requires log != []
    ensures var n := |log| - 1;
      LastMark(log, p, marks, wipes) <==>
        || (p == n && marks(log[n].body))
        || (p < n && LastMark(log[..n], p, marks, wipes) && !marks(log[n].body) && !wipes(log[n].body))
  {
    var n := |log| - 1;
    assert forall k :: 0 <= k < n ==> log[..n][k] == log[k];
  }

  predicate Samples(body: EventBody) { body.EnvSampled? }
  predicate Assembles(body: EventBody) { body.ContextAssembled? }
  predicate Plans(body: EventBody) { body.PlanStep? }
  predicate Answered(body: EventBody) { body.ClarificationAnswered? }
  predicate Suspends(body: EventBody) { body.RunSuspended? }
  predicate Resumes(body: EventBody) { body.RunResumed? }
  predicate Never(body: EventBody) { false }

  /** The last sampling of the run, at turn `t`. */
  predicate SampledAt(log: seq<Event>, p: nat, t: nat)
  {
    LastMark(log, p, Samples, Never) && log[p].body.turn == t
  }

  /** The last context of the run, at turn `t`, with no answer since. */
  predicate ContextAt(log: seq<Event>, p: nat, t: nat)
  {
    LastMark(log, p, Assembles, Answered) && log[p].body.turn == t
  }

  /** The last plan of the run, at turn `t`, with no answer since. */
  predicate PlannedAt(log: seq<Event>, p: nat, t: nat)
  {
    LastMark(log, p, Plans, Answered) && log[p].body.plan.turn == t
  }

  lemma {:induction false} SampleMarkerIsExact(log: seq<Event>, t: nat)
    ensures Fold(log).envSampledTurn == Some(t) <==> exists p: nat :: SampledAt(log, p, t)
    decreases |log|
  {
    if log != [] {
      hide Reduce, LastMark;
      var n := |log| - 1;
      var init := log[..n];
      SampleMarkerIsExact(init, t);
      assert init + [log[n]] == log;
      FoldAppend(NewState(), init, log[n]);
      SampleFrame(Fold(init), log[n]);
      forall p: nat
        ensures SampledAt(log, p, t) <==>
          if log[n].body.EnvSampled? then p == n && log[n].body.turn == t else SampledAt(init, p, t)
      {
        LastMarkSnoc(log, p, Samples, Never);
        Within(init, p, Samples, Never);
      }
      assert log[n].body.EnvSampled? && log[n].body.turn == t ==> SampledAt(log, n, t);
    }
  }

  lemma Within(log: seq<Event>, p: nat, marks: EventBody -> bool, wipes: EventBody -> bool)
    ensures LastMark(log, p, marks, wipes) ==> p < |log|
  {
  }

  lemma {:induction false} ContextMarkerIsExact(log: seq<Event>, t: nat)
    ensures Fold(log).contextTurn == Some(t) <==> exists p: nat :: ContextAt(log, p, t)
    decreases |log|
  {
    if log != [] {
      hide Reduce, LastMark;
      var n := |log| - 1;
      var init, body := log[..n], log[n].body;
      ContextMarkerIsExact(init, t);
      assert init + [log[n]] == log;
      FoldAppend(NewState(), init, log[n]);
      ContextFrame(Fold(init), log[n]);
      forall p: nat
        ensures ContextAt(log, p, t) <==>
          if body.ContextAssembled? then p == n && body.turn == t
          else !body.ClarificationAnswered? && ContextAt(init, p, t)
      {
        LastMarkSnoc(log, p, Assembles, Answered);
        Within(init, p, Assembles, Answered);
      }
      assert body.ContextAssembled? && body.turn == t ==> ContextAt(log, n, t);
    }
  }

  lemma {:induction false} PlanMarkerIsExact(log: seq<Event>, t: nat)
    ensures Fold(log).planTurn == Some(t) <==> exists p: nat :: PlannedAt(log, p, t)
    decreases |log|
  {
    if log != [] {
      hide Reduce, LastMark;
      var n := |log| - 1;
      var init, body := log[..n], log[n].body;
      PlanMarkerIsExact(init, t);
      assert init + [log[n]] == log;
      FoldAppend(NewState(), init, log[n]);
      PlanFrame(Fold(init), log[n]);
      forall p: nat
        ensures PlannedAt(log, p, t) <==>
          if body.PlanStep? then p == n && body.plan.turn == t
          else !body.ClarificationAnswered? && PlannedAt(init, p, t)
      {
        LastMarkSnoc(log, p, Plans, Answered);
        Within(init, p, Plans, Answered);
      }
      assert body.PlanStep? && body.plan.turn == t ==> PlannedAt(log, n, t);
    }
  }

  /** The plan the kernel acts on is the last one in the log. */
  lemma {:induction false} PlanOnFile(log: seq<Event>, p: nat, t: nat)
    requires PlannedAt(log, p, t)
    ensures Fold(log).lastPlan == Some(log[p].body.plan)
    decreases |log|
  {
    hide Reduce, LastMark;
    Within(log, p, Plans, Answered);
    var n := |log| - 1;
    var init := log[..n];
    LastMarkSnoc(log, p, Plans, Answered);
    assert init + [log[n]] == log;
    FoldAppend(NewState(), init, log[n]);
    PlanFrame(Fold(init), log[n]);
    if p < n {
      PlanOnFile(init, p, t);
    }
  }

  // ---------------------------------------------------------------- stages and acts

  /** A model is asked only after the turn's context was assembled with every answer so far, and
      that only after the turn's environment was sampled. */
  lemma StagesComeInOrder(log: seq<Event>, i: nat)
    requires Lawful(log) && i < |log|
    ensures log[i].body.ModelRequested? ==> exists p: nat :: ContextAt(log[..i], p, log[i].body.turn)
    ensures log[i].body.ContextAssembled? ==> exists p: nat :: SampledAt(log[..i], p, log[i].body.turn)
  {
    LawfulPrefix(log, i);
    if log[i].body.ModelRequested? {
      ContextMarkerIsExact(log[..i], log[i].body.turn);
    } else if log[i].body.ContextAssembled? {
      SampleMarkerIsExact(log[..i], log[i].body.turn);
    }
  }

  /** Where the plan of the current turn stands in the log. */
  lemma PlanOfTheTurn(log: seq<Event>) returns (p: nat)
    requires HasPlan(Fold(log))
    ensures PlannedAt(log, p, Fold(log).turn) && p < |log| && log[p].body.PlanStep?
    ensures Fold(log).lastPlan == Some(log[p].body.plan)
  {
    PlanMarkerIsExact(log, Fold(log).turn);
    p :| PlannedAt(log, p, Fold(log).turn);
    PlanOnFile(log, p, Fold(log).turn);
  }

  /** Every effect requested is the call of the turn's plan, made after every answer so far. */
  lemma EffectsFollowThePlan(log: seq<Event>, i: nat) returns (p: nat)
    requires Lawful(log) && i < |log| && log[i].body.ToolRequested?
    ensures p < i && PlannedAt(log[..i], p, log[i].body.turn)
    ensures log[p].body.plan.call == Some(PlannedCall(log[i].body.tool, log[i].body.paramsRef))
  {
    hide PlannedAt, Fold;
    LawfulPrefix(log, i);
    p := PlanOfTheTurn(log[..i]);
  }

  /** So is every question put to a human. */
  lemma QuestionsFollowThePlan(log: seq<Event>, i: nat) returns (p: nat)
    requires Lawful(log) && i < |log| && log[i].body.ClarificationRequested?
    ensures p < i && PlannedAt(log[..i], p, Fold(log[..i]).turn)
    ensures log[p].body.plan.clarification
         == Some(PlannedClarification(log[i].body.promptRef, log[i].body.options))
  {
    hide PlannedAt, Fold;
    LawfulPrefix(log, i);
    p := PlanOfTheTurn(log[..i]);
  }

  /** A run completes only on a plan of its turn: well when the plan says it is finished, as a
      failure when it asks for a call or a question it does not contain. */
  lemma CompletionFollowsThePlan(log: seq<Event>, i: nat) returns (p: nat)
    requires Lawful(log) && i < |log| && log[i].body.RunCompleted?
    ensures p < i && PlannedAt(log[..i], p, Fold(log[..i]).turn)
    ensures log[i].body.completion == if IsHollow(log[p].body.plan) then CompletedFailed else CompletedOk
    ensures log[i].body.completion.CompletedOk? ==> log[p].body.plan.intent == PlanIntent.Finish
  {
    hide PlannedAt, Fold;
    LawfulPrefix(log, i);
    p := PlanOfTheTurn(log[..i]);
  }

  // ---------------------------------------------------------------- waiting, checkpoints, the clock

  lemma AwaitingFrame(s: RunState, log: seq<Event>, ev: Event)
    requires MayAppend(s, log, ev.actor, ev.body)
    ensures Reduce(s, ev).awaiting.Some? <==>
      ev.body.RunSuspended? || (s.awaiting.Some? && !ev.body.RunResumed?)
  {
  }

  lemma EmptyLog()
    ensures Fold([]) == NewState()
  {
  }

  /** The run waits for something exactly when it was suspended and not resumed since. Failing does not
      end the wait; completing never finds one. */
  lemma {:induction false} AwaitingIsExact(log: seq<Event>)
    requires Lawful(log)
    ensures Fold(log).awaiting.Some? <==> exists p: nat :: LastMark(log, p, Suspends, Resumes)
    decreases |log|
  {
    hide Reduce, MayAppend, LastMark, Fold, FoldFrom, Lawful;
    if log == [] {
      EmptyLog();
      forall p: nat ensures !LastMark(log, p, Suspends, Resumes) {
        Within(log, p, Suspends, Resumes);
      }
    } else {
      var n := |log| - 1;
      var init, body := log[..n], log[n].body;
      LawfulPrefix(log, n);
      AwaitingIsExact(init);
      assert init + [log[n]] == log;
      FoldAppend(NewState(), init, log[n]);
      FoldIsFromNew(init);
      FoldIsFromNew(log);
      AwaitingFrame(Fold(init), init, log[n]);
      forall p: nat
        ensures LastMark(log, p, Suspends, Resumes) <==>
          if body.RunSuspended? then p == n else !body.RunResumed? && LastMark(init, p, Suspends, Resumes)
      {
        LastMarkSnoc(log, p, Suspends, Resumes);
        Within(init, p, Suspends, Resumes);
      }
      assert body.RunSuspended? ==> LastMark(log, n, Suspends, Resumes);
    }
  }

  lemma FoldIsFromNew(log: seq<Event>)
    ensures Fold(log) == FoldFrom(NewState(), log)
  {
  }

  /** How many events were written after the last checkpoint. */
  function SinceCheckpoint(log: seq<Event>): nat
  {
    if log == [] || log[|log| - 1].body.Checkpoint? then 0 else 1 + SinceCheckpoint(log[..|log| - 1])
  }

  lemma {:induction false} SinceCheckpointBounds(log: seq<Event>)
    ensures SinceCheckpoint(log) <= |log|
    decreases |log|
  {
    if log != [] {
      SinceCheckpointBounds(log[..|log| - 1]);
    }
  }

  lemma {:induction false} CheckpointMarkIsExact(log: seq<Event>)
    requires Lawful(log)
    ensures SinceCheckpoint(log) <= |log|
    ensures Fold(log).lastCheckpointSeq ==
      if SinceCheckpoint(log) < |log| then Some(|log| - 1 - SinceCheckpoint(log)) else None
    decreases |log|
  {
    hide Reduce, MayAppend, Fold, FoldFrom, Lawful;
    if log == [] {
      EmptyLog();
    } else {
      var n := |log| - 1;
      var init := log[..n];
      LawfulPrefix(log, n);
      CheckpointMarkIsExact(init);
      assert init + [log[n]] == log;
      FoldAppend(NewState(), init, log[n]);
      FoldIsFromNew(init);
      FoldIsFromNew(log);
      CheckpointFrame(Fold(init), log[n]);
    }
  }

  lemma {:induction false} SinceCheckpointCounts(log: seq<Event>, n: nat)
    requires n <= |log|
    ensures SinceCheckpoint(log) >= n <==> forall i :: |log| - n <= i < |log| ==> !log[i].body.Checkpoint?
    decreases |log|
  {
    if n > 0 {
      SinceCheckpointCounts(log[..|log| - 1], n - 1);
    }
  }

  lemma SinceCheckpointIsFolded(log: seq<Event>)
    requires Lawful(log) && log != []
    ensures Fold(log).EventsSinceCheckpoint() == SinceCheckpoint(log)
    ensures Fold(log).status == Running ==> Fold(log).awaiting.None?
  {
    hide Fold, FoldFrom, PaperTrail, ApprovalLedger, EffectLedger, Lawful, SinceCheckpoint;
    LedgerHolds(log);
    CheckpointMarkIsExact(log);
  }

  lemma NoCheckpointIsNext(s: RunState)
    ensures TakeCheckpoint(Periodic) !in NextCommand(s)
  {
  }

  /** The kernel's first choice is a checkpoint exactly when none is among the last 50 events. */
  lemma CheckpointsArePeriodic(log: seq<Event>)
    requires Lawful(log) && log != [] && Fold(log).status == Running
    ensures TakeCheckpoint(Periodic) in Decide(Fold(log)) <==>
      |log| >= 50 && forall i :: |log| - 50 <= i < |log| ==> !log[i].body.Checkpoint?
    ensures TakeCheckpoint(Periodic) in Decide(Fold(log)) ==> Decide(Fold(log))[0] == TakeCheckpoint(Periodic)
  {
    hide Fold, FoldFrom, Lawful, SinceCheckpoint, NextCommand, RunState.EventsSinceCheckpoint;
    SinceCheckpointBounds(log);
    SinceCheckpointIsFolded(log);
    NoCheckpointIsNext(Fold(log));
    if |log| >= 50 {
      SinceCheckpointCounts(log, 50);
    }
  }

  function LastReading(log: seq<Event>): nat
  {
    if log == [] then 0
    else if log[|log| - 1].body.EnvSampled? then log[|log| - 1].body.wallClockMs
    else LastReading(log[..|log| - 1])
  }

  /** The clock an approval's deadline counts from is the last reading in the log. */
  lemma {:induction false} ClockIsLastReading(log: seq<Event>)
    ensures Fold(log).clockMs == LastReading(log)
    decreases |log|
  {
    if log != [] {
      hide Reduce;
      var init, ev := log[..|log| - 1], log[|log| - 1];
      ClockIsLastReading(init);
      assert init + [ev] == log;
      FoldAppend(NewState(), init, ev);
      SampleFrame(Fold(init), ev);
    }
  }
}

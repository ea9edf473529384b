/**
 * The runs on which client and kernel differ, event by event: one that completes as a failure, and
 * those that fail while they wait.
 */
module Disagreement {
  import opened Protocol
  import opened KernelState
  import opened Events
  import opened Kernel
  import opened Context
  import opened WriteProtocol
  import opened Admission
  import opened Traces
  import opened Projection
  import opened Agreement
  import Runtime

  // ---------------------------------------------------------------- completed as a failure

  const HOLLOW_PLAN := Plan(0, ToolCall, Clean, None, None)
  const INTENT_BLOCK := ContextBlock(CiteId(0, UserIntent, ""), UserIntent, UserDirect, "", None, 0)

  /** A run whose first plan announces a call and does not contain one, event by event. */
  function HollowBody(k: nat): EventBody
  {
    if k == 0 then RunCreated(UNLIMITED)
    else if k == 1 then IntentDeclared("")
    else if k == 2 then EnvSampled(0, 0, "")
    else if k == 3 then ContextAssembled(0, "", [INTENT_BLOCK], Clean, 0)
    else if k == 4 then ModelRequested(0)
    else if k == 5 then ModelResponded(0, Usage(0, 0))
    else if k == 6 then PlanStep(HOLLOW_PLAN)
    else RunCompleted(CompletedFailed)
  }

  function HollowActor(k: nat): Actor
  {
    if k < 2 then Human("") else if k < 7 then Actor.Runtime else Actor.Kernel
  }

  function HollowRun(n: nat): (log: seq<Event>)
    ensures |log| == n && forall k :: 0 <= k < n ==> log[k] == Event(k, "", HollowActor(k), HollowBody(k))
  {
    seq(n, k requires 0 <= k < n => Event(k, "", HollowActor(k), HollowBody(k)))
  }

  /** The state after the first `k` of its events. */
  function HollowState(k: nat): RunState
    requires k <= 8
  {
    if k == 0 then NewState()
    else if k == 1 then NewState()
    else if k == 2 then NewState().(intent := Some(""), lastSeq := 1)
    else
      var sampled :=
        NewState().(intent := Some(""), clockStartMs := Some(0), envSampledTurn := Some(0), lastSeq := k - 1);
      if k == 3 then sampled
      else
        var assembled :=
          sampled.(context := Some(ContextRecord(0, "", 1, Clean, 0)), cites := {INTENT_BLOCK.citeId},
                   contextTurn := Some(0));
        if k <= 6 then assembled
        else
          var planned := assembled.(lastPlan := Some(HOLLOW_PLAN), planTurn := Some(0));
          if k == 7 then planned else planned.(status := Failed)
  }

  lemma HollowBegins(k: nat, ev: Event)
    requires k < 3 && ev.seqNo == k && ev.body == HollowBody(k)
    ensures Reduce(HollowState(k), ev) == HollowState(k + 1)
  {
  }

  lemma HollowGoesOn(k: nat, ev: Event)
    requires 3 <= k < 6 && ev.seqNo == k && ev.body == HollowBody(k)
    ensures Reduce(HollowState(k), ev) == HollowState(k + 1)
  {
  }

  lemma HollowEnds(k: nat, ev: Event)
    requires 6 <= k < 8 && ev.seqNo == k && ev.body == HollowBody(k)
    ensures Reduce(HollowState(k), ev) == HollowState(k + 1)
  {
    hide Reduce;
    if k == 6 {
      PlanReduces(HollowState(6), ev);
    } else {
      CompletionReduces(HollowState(7), ev);
    }
  }

  lemma PlanReduces(s: RunState, ev: Event)
    requires ev.body == PlanStep(HOLLOW_PLAN) && s.taint == Clean
    ensures Reduce(s, ev) == s.(lastPlan := Some(HOLLOW_PLAN), planTurn := Some(0), lastSeq := ev.seqNo)
  {
  }

  lemma CompletionReduces(s: RunState, ev: Event)
    requires ev.body == RunCompleted(CompletedFailed)
    ensures Reduce(s, ev) == s.(status := Failed, lastSeq := ev.seqNo)
  {
  }

  lemma Extends(log: seq<Event>, ev: Event)
    requires Lawful(log) && ev.seqNo == |log| && MayAppend(Fold(log), log, ev.actor, ev.body)
    ensures Lawful(log + [ev]) && Fold(log + [ev]) == Reduce(Fold(log), ev)
  {
    hide Lawful, Reduce, MayAppend;
    LawfulAppend(log, ev);
    FoldAppend(NewState(), log, ev);
  }

  lemma HollowMayAppend(k: nat, log: seq<Event>, actor: Actor)
    requires k < 8 && |log| == k && (k == 1 ==> log[0].body == HollowBody(0))
    requires AnswersIn(log) == [] && OutputsIn(log) == []
    ensures MayAppend(HollowState(k), log, actor, HollowBody(k))
  {
    hide AnswersIn, OutputsIn;
    if k == 3 {
      IntentAlone(log);
    }
  }

  lemma IntentAlone(log: seq<Event>)
    requires AnswersIn(log) == [] && OutputsIn(log) == []
    ensures ShowsAll([INTENT_BLOCK], "", log) && TaintOf([INTENT_BLOCK]) == Clean
  {
  }

  lemma {:induction false} NothingComesBack(k: nat)
    requires k <= 8
    ensures AnswersIn(HollowRun(k)) == [] && OutputsIn(HollowRun(k)) == []
  {
    hide AnswersIn, OutputsIn, Asked, IsRequested, HollowActor;
    if k == 0 {
      NothingYet();
      assert HollowRun(0) == [];
    } else {
      NothingComesBack(k - 1);
      assert HollowRun(k) == HollowRun(k - 1) + [HollowRun(k)[k - 1]];
      AnswersSnoc(HollowRun(k - 1), HollowRun(k)[k - 1]);
      OutputsSnoc(HollowRun(k - 1), HollowRun(k)[k - 1]);
    }
  }

  lemma {:induction false} HollowRunIsLawful(k: nat)
    requires k <= 8
    ensures Lawful(HollowRun(k)) && Fold(HollowRun(k)) == HollowState(k)
  {
    hide Fold, FoldFrom, Lawful, Reduce, MayAppend, HollowState, HollowBody, AnswersIn, OutputsIn;
    if k == 0 {
      HollowRunIsEmpty();
    } else {
      var log, ev := HollowRun(k - 1), HollowRun(k)[k - 1];
      HollowRunIsLawful(k - 1);
      NothingComesBack(k - 1);
      HollowMayAppend(k - 1, log, ev.actor);
      if k <= 3 {
        HollowBegins(k - 1, ev);
      } else if k <= 6 {
        HollowGoesOn(k - 1, ev);
      } else {
        HollowEnds(k - 1, ev);
      }
      assert log + [ev] == HollowRun(k);
      Extends(log, ev);
    }
  }

  lemma HollowRunIsEmpty()
    ensures Lawful(HollowRun(0)) && Fold(HollowRun(0)) == HollowState(0)
  {
  }

  lemma HollowDecides()
    ensures Decide(HollowState(2)) == [SampleEnv]
    ensures Decide(HollowState(3)) == [AssembleContext(0, "default")]
    ensures Decide(HollowState(4)) == [CallModel(0)]
    ensures Decide(HollowState(7)) == [Complete(Failed)]
    ensures Decide(HollowState(8)) == []
  {
  }

  /** From one of its logs to a later one, the entries are those of its events. */
  lemma HollowWritten(i: nat, j: nat)
    requires i <= j
    ensures HollowRun(i) <= HollowRun(j)
    ensures |Written(HollowRun(i), HollowRun(j))| == j - i
    ensures forall k :: 0 <= k < j - i ==>
      Written(HollowRun(i), HollowRun(j))[k] == Entry(HollowActor(i + k), HollowBody(i + k))
  {
  }

  lemma HollowCarriesOut(g: Gateway, principal: string)
    ensures CarriesOut(HollowState(2), g, principal, SampleEnv, Written(HollowRun(2), HollowRun(3)))
    ensures
      CarriesOut(HollowState(3), g, principal, AssembleContext(0, "default"), Written(HollowRun(3), HollowRun(4)))
    ensures CarriesOut(HollowState(4), g, principal, CallModel(0), Written(HollowRun(4), HollowRun(7)))
    ensures CarriesOut(HollowState(7), g, principal, Complete(Failed), Written(HollowRun(7), HollowRun(8)))
  {
    hide IsModelCall, Written, HollowRun;
    HollowWritten(2, 3);
    HollowWritten(3, 4);
    HollowWritten(7, 8);
    HollowModelCall();
  }

  lemma HollowModelCall()
    ensures IsModelCall(0, Clean, Written(HollowRun(4), HollowRun(7)))
  {
    hide IsModelCall, HollowRun, Written;
    HollowWritten(4, 7);
    var reply := ModelReply(Usage(0, 0), true, [], Some(ParsedPlan(ToolCall, None, "", "", [])));
    var entries := [Entry(Actor.Runtime, ModelRequested(0))] + Reply(0, Clean, reply);
    assert Charges([]) == [];
    assert Written(HollowRun(4), HollowRun(7)) == entries;
    ModelCallBy(0, Clean, reply);
  }

  lemma HollowDriven(g: Gateway, principal: string)
    ensures Driven(g, principal, HollowRun(2), HollowRun(8))
  {
    hide Fold, Decide, CarriesOut, Driven, HollowState, Written, Lawful;
    HollowDecides();
    HollowCarriesOut(g, principal);
    HollowTurn();
    HollowRunIsLawful(2);
    HollowRunIsLawful(3);
    HollowRunIsLawful(4);
    HollowRunIsLawful(7);
    DriveNothing(g, principal, HollowRun(2));
    CommandDrives(g, principal, HollowRun(2), HollowRun(2), HollowRun(3), SampleEnv);
    CommandDrives(g, principal, HollowRun(2), HollowRun(3), HollowRun(4), AssembleContext(0, "default"));
    CommandDrives(g, principal, HollowRun(2), HollowRun(4), HollowRun(7), CallModel(0));
    CommandDrives(g, principal, HollowRun(2), HollowRun(7), HollowRun(8), Complete(Failed));
  }

  lemma HollowTurn()
    ensures forall k :: 0 <= k <= 8 ==> HollowState(k).turn == 0
  {
  }

  /** The entries a human starts that run with. */
  function HollowStart(): seq<Entry>
  {
    By(Human(""), [RunCreated(UNLIMITED), IntentDeclared("")])
  }

  lemma HollowRunIsStarted(g: Gateway, principal: string)
    ensures Runtime.Started(g, principal, HollowRun(8), HollowStart())
  {
    hide Fold, Driven, HollowState, DrivenToEnd, Decide;
    HollowWritten(0, 2);
    assert HollowRun(0) == [] && HollowRun(8)[..2] == HollowRun(2);
    assert Written([], HollowRun(2)) == HollowStart();
    HollowDriven(g, principal);
    HollowDecides();
    HollowTurn();
    HollowRunIsLawful(8);
    HollowStatus();
    assert Written(HollowRun(8), HollowRun(8)) == [];
    DriveStops(g, principal, HollowRun(2), HollowRun(8), HollowRun(8));
  }

  lemma HollowStatus()
    ensures HollowState(8).status == Failed
  {
  }

  /** A start under any gateway can leave a run that completed as a failure, and there client and kernel
      differ. */
  lemma HollowRunShowsBoth(g: Gateway, principal: string, r: RunId)
    ensures Runtime.Started(g, principal, HollowRun(8), HollowStart())
    ensures Lawful(HollowRun(8)) && CompletedAsFailure(HollowRun(8))
    ensures FoldRun(r, HollowRun(8)).status == Completed && Fold(HollowRun(8)).status == Failed
  {
    hide Fold, FoldRun, Lawful, MayAppend;
    HollowRunIsStarted(g, principal);
    HollowRunIsLawful(8);
    ClientAgreesWithKernel(r, HollowRun(8));
    assert HollowRun(8)[7].body == RunCompleted(CompletedFailed);
  }

  // ---------------------------------------------------------------- failed while it waited

  /** Whatever a lawful log is suspended for, it may fail next, and then kernel and client differ on what
      the run waits for. At the turn limit driving does write that failure. */
  lemma FailureKeepsTheWait(g: Gateway, principal: string, r: RunId, log: seq<Event>, ev: Event)
    requires Lawful(log) && Fold(log).status == Suspended
    requires ev.seqNo == |log| && ev.body.RunFailed?
    ensures Lawful(log + [ev]) && Fold(log + [ev]).status == Failed
    ensures Fold(log + [ev]).awaiting == Fold(log).awaiting && Fold(log).awaiting.Some?
    ensures FoldRun(r, log + [ev]).awaiting.None?
    ensures !SameReason(FoldRun(r, log + [ev]).awaiting, Fold(log + [ev]).awaiting)
    ensures Fold(log).turn > MAX_TURNS && ev.actor == Actor.Runtime && ev.body.code == "turn_limit" ==>
      DrivenToEnd(g, principal, log, log + [ev])
  {
    hide Fold, FoldRun, CardsAgree, ToolsAreTrue, PaperTrail, ApprovalLedger, EffectLedger, Lawful, DrivenToEnd;
    var failed := log + [ev];
    StatusLedgerOf(log);
    Extends(log, ev);
    FailureFrame(Fold(log), ev);
    ReasonAgreesExactly(r, failed);
    ClientAgreesWithKernel(r, failed);
    if Fold(log).turn > MAX_TURNS && ev.actor == Actor.Runtime && ev.body.code == "turn_limit" {
      TurnLimitEnds(g, principal, log, ev);
    }
  }

  lemma StatusLedgerOf(log: seq<Event>)
    requires Lawful(log)
    ensures StatusLedger(Fold(log))
  {
    LedgerHolds(log);
  }

  lemma FailureFrame(s: RunState, ev: Event)
    requires ev.body.RunFailed?
    ensures Reduce(s, ev).status == Failed && Reduce(s, ev).awaiting == s.awaiting
  {
  }

  lemma TurnLimitEnds(g: Gateway, principal: string, log: seq<Event>, ev: Event)
    requires Fold(log).turn > MAX_TURNS && ev.actor == Actor.Runtime && ev.body == RunFailed("turn_limit")
    ensures DrivenToEnd(g, principal, log, log + [ev])
  {
    hide Fold;
    DriveNothing(g, principal, log);
    assert Written(log, log + [ev]) == [Entry(Actor.Runtime, RunFailed("turn_limit"))];
    DriveStops(g, principal, log, log, log + [ev]);
  }

  const BROKE := BudgetSpec(None, Some(0), None)

  /** A run that is created without any money and suspended at once. */
  function BrokeRun(): seq<Event>
  {
    [Event(0, "", Human(""), RunCreated(BROKE))] + [Event(1, "", Human(""), IntentDeclared(""))]
    + [Event(2, "", Actor.Kernel, RunSuspended(BudgetExhausted))]
  }

  lemma BrokeRunWaits()
    ensures Lawful(BrokeRun())
    ensures Fold(BrokeRun()).status == Suspended && Fold(BrokeRun()).awaiting == Some(AwaitBudget)
  {
    hide Fold, FoldFrom, Lawful;
    var created, declared := Event(0, "", Human(""), RunCreated(BROKE)), Event(1, "", Human(""), IntentDeclared(""));
    HollowRunIsEmpty();
    assert HollowRun(0) == [] && [] + [created] == [created];
    Extends([], created);
    Extends([created], declared);
    Extends([created] + [declared], Event(2, "", Actor.Kernel, RunSuspended(BudgetExhausted)));
  }
}

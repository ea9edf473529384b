/**
 * What the write protocol guarantees about effects over whole runs: each is executed at most
 * once, only after being admitted, never after being denied, and never unapproved once taint
 * has entered the run.
 */
module EffectSafety {
  import opened Protocol
  import opened KernelState
  import opened Events
  import opened Kernel
  import opened WriteProtocol

  predicate DispatchesAt(log: seq<Event>, i: nat, e: EffectId)
  {
    i < |log| && log[i].body.EffectDispatched? && log[i].body.effectId == e
  }

  /** Event `d` refuses effect `e`: a policy denial, a gateway settlement, a human, or expiry. */
  predicate DeniesAt(log: seq<Event>, d: nat, e: EffectId)
  {
    d < |log| &&
    match log[d].body
    case PolicyEvaluated(f, decision, _, _) => f == e && decision.DecidedDeny?
    case ToolResult(f, status, _, _, _) => f == e && status.ResultDenied? && log[d].actor == Gateway
    case ApprovalDenied(a) => AsksFor(log[..d], a, e)
    case ApprovalExpired(a) => AsksFor(log[..d], a, e)
    case _ => false
  }

  /** How far an effect has come; it never goes back. */
  function Progress(state: EffectState): nat
  {
    match state
    case Requested => 0
    case Approved => 1
    case Dispatched => 2
    case Settled => 3
    case Denied => 3
  }

  lemma ProgressStep(s: RunState, log: seq<Event>, ev: Event, e: EffectId)
    requires PaperTrail(s.pendingEffects, s.pendingApprovals, log)
    requires ApprovalLedger(s.pendingEffects, s.pendingApprovals)
    requires MayAppend(s, log, ev.actor, ev.body) && e in s.pendingEffects
    ensures e in Reduce(s, ev).pendingEffects
    ensures Progress(s.pendingEffects[e]) <= Progress(Reduce(s, ev).pendingEffects[e])
  {
    assert IsRequested(log, e);
    if Quiet(ev.body) {
      QuietFrame(s, ev);
    }
  }

  lemma {:induction false} ProgressNeverFalls(log: seq<Event>, i: nat, j: nat, e: EffectId)
    requires Lawful(log) && i <= j <= |log|
    requires e in Fold(log[..i]).pendingEffects
    ensures e in Fold(log[..j]).pendingEffects
    ensures Progress(Fold(log[..i]).pendingEffects[e]) <= Progress(Fold(log[..j]).pendingEffects[e])
    decreases j
  {
    hide Fold, FoldFrom, Lawful, Reduce, MayAppend;
    if i < j {
      ProgressNeverFalls(log, i, j - 1, e);
      LawfulPrefix(log, j - 1);
      LedgerHolds(log[..j - 1]);
      StateAfter(log, j - 1);
      ProgressStep(Fold(log[..j - 1]), log[..j - 1], log[j - 1], e);
    }
  }

  lemma StateAfter(log: seq<Event>, i: nat)
    requires i < |log|
    ensures Fold(log[..i + 1]) == Reduce(Fold(log[..i]), log[i])
  {
    assert log[..i + 1] == log[..i] + [log[i]];
    FoldAppend(NewState(), log[..i], log[i]);
  }

  /** Where a dispatch stands: open before it, past approval after it. */
  lemma DispatchStands(log: seq<Event>, i: nat, e: EffectId)
    requires Lawful(log) && DispatchesAt(log, i, e)
    ensures e in Fold(log[..i]).pendingEffects && Progress(Fold(log[..i]).pendingEffects[e]) <= 1
    ensures e in Fold(log[..i + 1]).pendingEffects && Progress(Fold(log[..i + 1]).pendingEffects[e]) == 2
  {
    LawfulPrefix(log, i);
    StateAfter(log, i);
  }

  /** Each effect is dispatched at most once, whatever calls and crashes made the log. */
  lemma AtMostOneDispatch(log: seq<Event>, i: nat, j: nat, e: EffectId)
    requires Lawful(log) && DispatchesAt(log, i, e) && DispatchesAt(log, j, e)
    ensures i == j
  {
    DispatchStands(log, i, e);
    DispatchStands(log, j, e);
    if i < j {
      ProgressNeverFalls(log, i + 1, j, e);
    } else if j < i {
      ProgressNeverFalls(log, j + 1, i, e);
    }
  }

  /** A dispatch follows its request, and a policy `allow` or a grant of its own approval. */
  lemma DispatchWasAdmitted(log: seq<Event>, i: nat, e: EffectId)
    requires Lawful(log) && DispatchesAt(log, i, e)
    ensures IsRequested(log[..i], e)
    ensures PolicySaid(log[..i], e, DecidedAllow) || Granted(log[..i], e)
  {
    LawfulPrefix(log, i);
    LedgerHolds(log[..i]);
  }

  /** An approval is only ever asked for an effect whose policy verdict was "ask a human". */
  lemma GrantWasRequired(log: seq<Event>, e: EffectId)
    requires Lawful(log) && Granted(log, e)
    ensures PolicySaid(log, e, DecidedRequireApproval)
  {
    var g: nat :| GrantsAt(log, g, e);
    var asked := log[g].body.approvalId.at + 1;
    LawfulPrefix(log, asked);
    assert log[..g][asked] == log[asked];
    assert log[..asked][e.at + 2] == log[e.at + 2];
  }

  lemma PolicyDenialHolds(log: seq<Event>, d: nat, i: nat, e: EffectId)
    requires Lawful(log) && DeniesAt(log, d, e) && log[d].body.PolicyEvaluated?
    ensures !DispatchesAt(log, i, e)
  {
    LawfulPrefix(log, d);
    if DispatchesAt(log, i, e) {
      DispatchWasAdmitted(log, i, e);
      LawfulPrefix(log, i);
      if Granted(log[..i], e) {
        GrantWasRequired(log[..i], e);
      }
      assert false;
    }
  }

  /** A refused effect is never executed: not before the refusal, and not after it. */
  lemma DeniedNeverRuns(log: seq<Event>, d: nat, i: nat, e: EffectId)
    requires Lawful(log) && DeniesAt(log, d, e)
    ensures !DispatchesAt(log, i, e)
  {
    hide Fold, FoldFrom, Lawful;
    if log[d].body.PolicyEvaluated? {
      PolicyDenialHolds(log, d, i, e);
    } else if DispatchesAt(log, i, e) {
      ClosedByDenial(log, d, e);
      DispatchStands(log, i, e);
      if i < d {
        ProgressNeverFalls(log, i + 1, d, e);
      } else if d < i {
        ProgressNeverFalls(log, d + 1, i, e);
      }
      assert false;
    }
  }

  lemma ClosedByDenial(log: seq<Event>, d: nat, e: EffectId)
    requires Lawful(log) && DeniesAt(log, d, e) && !log[d].body.PolicyEvaluated?
    ensures e in Fold(log[..d]).pendingEffects && Fold(log[..d]).pendingEffects[e] == Requested
    ensures e in Fold(log[..d + 1]).pendingEffects && Fold(log[..d + 1]).pendingEffects[e] == Denied
  {
    LawfulPrefix(log, d);
    LedgerHolds(log[..d]);
    StateAfter(log, d);
    var s := Fold(log[..d]);
    if log[d].body.ApprovalDenied? || log[d].body.ApprovalExpired? {
      assert AsksFor(log[..d], log[d].body.approvalId, s.pendingApprovals[log[d].body.approvalId]);
    }
  }

  // ---------------------------------------------------------------- taint

  /** The folded taint is exactly "some event so far carried taint". */
  lemma {:induction false} TaintIsExact(log: seq<Event>)
    ensures Fold(log).taint == Tainted <==> exists t :: 0 <= t < |log| && CarriedTaint(log[t].body) == Tainted
    decreases |log|
  {
    if log != [] {
      var init, ev := log[..|log| - 1], log[|log| - 1];
      TaintIsExact(init);
      assert init + [ev] == log;
      TaintStep(Fold(init), ev);
      if CarriedTaint(ev.body) == Clean && Fold(log).taint == Tainted {
        var t :| 0 <= t < |init| && CarriedTaint(init[t].body) == Tainted;
        assert CarriedTaint(log[t].body) == Tainted;
      }
      if t :| 0 <= t < |log| && CarriedTaint(log[t].body) == Tainted {
        assert t == |log| - 1 || CarriedTaint(init[t].body) == Tainted;
      }
    }
  }

  lemma TaintStep(s: RunState, ev: Event)
    ensures Reduce(s, ev).taint == s.taint.Join(CarriedTaint(ev.body))
  {
    match ev.body
    case ContextAssembled(_, _, _, _, _) =>
    case PlanStep(_) =>
    case ToolResult(_, _, _, _, _) =>
    case _ =>
  }

  /** Once any event carried taint, an effect requested later that is more than a read runs
      only after a human granted its own approval, whatever the policy says. */
  lemma TaintedNeedsApproval(log: seq<Event>, t: nat, r: nat, i: nat, e: EffectId)
    requires Lawful(log) && RequestedUnderTaint(log, t, r, e) && DispatchesAt(log, i, e)
    ensures Granted(log[..i], e)
  {
    LawfulPrefix(log, r);
    DispatchWasAdmitted(log, i, e);
    if PolicySaid(log[..i], e, DecidedAllow) {
      LawfulPrefix(log, r + 1);
      assert CarriedTaint(log[..r + 1][t].body) == Tainted;
      TaintIsExact(log[..r + 1]);
      assert false;
    }
  }

  /** The citations an event brings into the run. */
  function CitesOf(body: EventBody): set<CiteId>
  {
    match body
    case ContextAssembled(_, _, blocks, _, _) => set b | b in blocks :: b.citeId
    case ToolResult(_, _, _, _, cites) => set c | c in cites
    case _ => {}
  }

  lemma CitesStep(s: RunState, ev: Event)
    ensures Reduce(s, ev).cites == s.cites + CitesOf(ev.body)
  {
  }

  /** The citations a run may refer to are exactly those some event brought. */
  lemma {:induction false} CitesAreExact(log: seq<Event>, c: CiteId)
    ensures c in Fold(log).cites <==> exists i :: 0 <= i < |log| && c in CitesOf(log[i].body)
    decreases |log|
  {
    if log != [] {
      hide Reduce, CitesOf;
      var init, ev := log[..|log| - 1], log[|log| - 1];
      CitesAreExact(init, c);
      assert init + [ev] == log;
      FoldAppend(NewState(), init, ev);
      CitesStep(Fold(init), ev);
      if c in Fold(init).cites {
        var i :| 0 <= i < |init| && c in CitesOf(init[i].body);
        assert c in CitesOf(log[i].body);
      }
      if i :| 0 <= i < |log| && c in CitesOf(log[i].body) {
        assert i == |log| - 1 || c in CitesOf(init[i].body);
      }
    }
  }

  /** Event `r` requests an effect that is more than a read, after event `t` brought taint. */
  predicate RequestedUnderTaint(log: seq<Event>, t: nat, r: nat, e: EffectId)
  {
    && t < r < |log|
    && CarriedTaint(log[t].body) == Tainted
    && log[r].body.ToolRequested? && log[r].body.effectId == e && !log[r].body.effectClass.Read?
  }

  /** The reducer's own panic, a question-suspension without a question, is never reached. */
  lemma SuspensionHasItsReason(log: seq<Event>, i: nat)
    requires Lawful(log) && i < |log| && log[i].body.RunSuspended?
    ensures log[i].body.suspendReason == AwaitingHuman ==> Fold(log[..i]).pendingQuestion.Some?
    ensures Fold(log[..i + 1]).status == Suspended && Fold(log[..i + 1]).awaiting.Some?
  {
    LawfulPrefix(log, i);
    StateAfter(log, i);
  }

  // ---------------------------------------------------------------- all of it, for whole runs

  ghost predicate SafeRun(log: seq<Event>)
  {
    && (forall i: nat, j: nat, e :: DispatchesAt(log, i, e) && DispatchesAt(log, j, e) ==> i == j)
    && (forall i: nat, e :: DispatchesAt(log, i, e) ==>
          IsRequested(log[..i], e) && (PolicySaid(log[..i], e, DecidedAllow) || Granted(log[..i], e)))
    && (forall d: nat, i: nat, e :: DeniesAt(log, d, e) ==> !DispatchesAt(log, i, e))
    && (forall t: nat, r: nat, i: nat, e :: RequestedUnderTaint(log, t, r, e) && DispatchesAt(log, i, e) ==>
          Granted(log[..i], e))
  }

  lemma LawfulRunsAreSafe(log: seq<Event>)
    requires Lawful(log)
    ensures SafeRun(log)
  {
    forall i: nat, j: nat, e | DispatchesAt(log, i, e) && DispatchesAt(log, j, e) ensures i == j {
      AtMostOneDispatch(log, i, j, e);
    }
    forall i: nat, e | DispatchesAt(log, i, e)
      ensures IsRequested(log[..i], e) && (PolicySaid(log[..i], e, DecidedAllow) || Granted(log[..i], e))
    {
      DispatchWasAdmitted(log, i, e);
    }
    forall d: nat, i: nat, e | DeniesAt(log, d, e) ensures !DispatchesAt(log, i, e) {
      DeniedNeverRuns(log, d, i, e);
    }
    forall t: nat, r: nat, i: nat, e | RequestedUnderTaint(log, t, r, e) && DispatchesAt(log, i, e)
      ensures Granted(log[..i], e)
    {
      TaintedNeedsApproval(log, t, r, i, e);
    }
  }
}

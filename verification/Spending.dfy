/**
 * How far a run can overshoot its amount limit. Charges are written after the money is spent,
 * so the limit can be passed; it is passed at most once, by one model call or one effect.
 */
module Spending {
  import opened Protocol
  import opened KernelState
  import opened Events
  import opened Kernel
  import opened WriteProtocol

  function Spent(log: seq<Event>): nat
  {
    Fold(log).budgetUsed.amountMicros
  }

  /** The charges of the model call or effect the log currently ends in. */
  function Bill(log: seq<Event>): nat
    decreases |log|
  {
    if log == [] then 0
    else
      var init, last := log[..|log| - 1], log[|log| - 1].body;
      if last.CostCharged? then Bill(init) + last.amountMicros
      else if last.ArtifactEmitted? then Bill(init)
      else 0
  }

  /** A bill is what was charged since the last event that is neither a charge nor an artifact. */
  lemma {:induction false} BillIsTheTail(log: seq<Event>) returns (j: nat)
    ensures j <= |log| && Spent(log) == Spent(log[..j]) + Bill(log)
    ensures forall k :: j <= k < |log| ==> log[k].body.CostCharged? || log[k].body.ArtifactEmitted?
    ensures j > 0 ==> !log[j - 1].body.CostCharged? && !log[j - 1].body.ArtifactEmitted?
  {
    hide Fold, Reduce;
    if log == [] {
      j := 0;
    } else {
      var n := |log| - 1;
      Snoc(log);
      MoneyFrame(Fold(log[..n]), log[n]);
      if log[n].body.CostCharged? || log[n].body.ArtifactEmitted? {
        j := BillIsTheTail(log[..n]);
        assert log[..n][..j] == log[..j];
      } else {
        j := |log|;
        assert log[..j] == log;
      }
    }
  }

  /** No single model call or effect is ever charged more than `most`. */
  predicate BillsAtMost(log: seq<Event>, most: nat)
  {
    forall k :: 0 <= k <= |log| ==> Bill(log[..k]) <= most
  }

  /** A budget that allows spending up to `limit` at most. */
  predicate Caps(budget: BudgetSpec, limit: nat)
  {
    budget.maxAmountMicros.Some? && budget.maxAmountMicros.value <= limit
  }

  /** Raised and lowered as it may be, the amount limit in force is never above `limit`: not when the
      run is created and not after any amendment. */
  predicate LimitStays(log: seq<Event>, limit: nat)
  {
    && (log != [] ==> log[0].body.RunCreated?)
    && (forall i :: 0 <= i < |log| ==>
          (log[i].body.RunCreated? ==> Caps(log[i].body.budget, limit)) &&
          (log[i].body.BudgetAmended? ==> Caps(log[i].body.budget, limit)))
  }

  predicate SpendInvariant(s: RunState, log: seq<Event>, limit: nat, most: nat)
  {
    && (log != [] ==> Caps(s.budget, limit))
    && (SpendOpen(log) ==> s.budgetUsed.amountMicros < limit + Bill(log))
    && (!s.AllResolved() ==> s.budgetUsed.amountMicros < limit)
    && (s.budgetUsed.amountMicros == 0 || s.budgetUsed.amountMicros < limit + most)
  }

  /** An effect open after an event was open before it, unless the event requested it. */
  lemma OpenBefore(s: RunState, log: seq<Event>, ev: Event)
    requires MayAppend(s, log, ev.actor, ev.body) && !ev.body.ToolRequested?
    requires ApprovalLedger(s.pendingEffects, s.pendingApprovals)
    ensures !Reduce(s, ev).AllResolved() ==> !s.AllResolved()
    ensures ev.body.ToolResult? ==> !s.AllResolved()
  {
    if Quiet(ev.body) {
      QuietFrame(s, ev);
    } else if ev.body.ToolResult? {
      assert Open(s.pendingEffects, ev.body.effectId);
    } else if ev.body.EffectDispatched? {
      assert Open(s.pendingEffects, ev.body.effectId);
    }
  }

  lemma MoneyFrame(s: RunState, ev: Event)
    ensures
      Reduce(s, ev).budget
      == if ev.body.RunCreated? then ev.body.budget else if ev.body.BudgetAmended? then ev.body.budget else s.budget
    ensures
      Reduce(s, ev).budgetUsed.amountMicros
      == s.budgetUsed.amountMicros + if ev.body.CostCharged? then ev.body.amountMicros else 0
  {
    match ev.body
    case RunCreated(_) =>
    case BudgetAmended(_) =>
    case CostCharged(_) =>
    case _ =>
  }

  lemma SpendStep(s: RunState, log: seq<Event>, ev: Event, limit: nat, most: nat)
    requires SpendInvariant(s, log, limit, most) && MayAppend(s, log, ev.actor, ev.body)
    requires ApprovalLedger(s.pendingEffects, s.pendingApprovals)
    requires log == [] ==> ev.body.RunCreated?
    requires ev.body.RunCreated? ==> Caps(ev.body.budget, limit)
    requires ev.body.BudgetAmended? ==> Caps(ev.body.budget, limit)
    requires Bill(log + [ev]) <= most
    requires log == [] ==> s == NewState()
    ensures SpendInvariant(Reduce(s, ev), log + [ev], limit, most)
  {
    hide Reduce, FoldFrom, Fold;
    MoneyFrame(s, ev);
    assert (log + [ev])[..|log|] == log;
    if ev.body.ToolRequested? {
    } else {
      OpenBefore(s, log, ev);
    }
  }

  lemma {:induction false} SpendHolds(log: seq<Event>, limit: nat, most: nat)
    requires Lawful(log) && LimitStays(log, limit) && BillsAtMost(log, most)
    ensures SpendInvariant(Fold(log), log, limit, most)
    decreases |log|
  {
    hide Fold, FoldFrom, Lawful, Reduce, MayAppend, PaperTrail, EffectLedger, ApprovalLedger, Bill;
    if log == [] {
      NothingSpentYet(limit, most);
    } else {
      hide SpendInvariant;
      var n := |log| - 1;
      var init, ev := log[..n], log[n];
      LawfulPrefix(log, n);
      assert log[..n + 1] == log;
      assert forall k :: 0 <= k <= n ==> init[..k] == log[..k];
      SpendHolds(init, limit, most);
      LedgerHolds(init);
      Snoc(log);
      SpendStep(Fold(init), init, ev, limit, most);
    }
  }

  lemma Snoc(log: seq<Event>)
    requires log != []
    ensures var n := |log| - 1; log[..n] + [log[n]] == log && Fold(log) == Reduce(Fold(log[..n]), log[n])
    ensures log[..|log| - 1] == [] ==> Fold(log[..|log| - 1]) == NewState()
  {
    var n := |log| - 1;
    assert log[..n] + [log[n]] == log;
    FoldAppend(NewState(), log[..n], log[n]);
  }

  lemma NothingSpentYet(limit: nat, most: nat)
    ensures SpendInvariant(Fold([]), [], limit, most)
  {
  }

  /** At every point of every run, nothing has been spent or less than the highest limit it ever had
      plus one bill, across suspensions, approvals, amendments, crashes and resumes. */
  lemma OverspendIsBounded(log: seq<Event>, k: nat, limit: nat, most: nat)
    requires Lawful(log) && LimitStays(log, limit) && BillsAtMost(log, most) && k <= |log|
    ensures Spent(log[..k]) == 0 || Spent(log[..k]) < limit + most
  {
    LawfulPrefix(log, k);
    assert forall j :: 0 <= j <= k ==> log[..k][..j] == log[..j];
    SpendHolds(log[..k], limit, most);
  }
}

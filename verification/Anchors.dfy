/**
 * The checkpoints a run can be verified by: every act that is hard to take back, and every question
 * of whether to act, stands directly behind a checkpoint of its own, at every crash point of every
 * run.
 */
module Anchors {
  import opened Protocol
  import opened KernelState
  import opened Events
  import opened Kernel
  import opened WriteProtocol
  import opened EffectSafety
  import opened TurnOrder
  import opened Replay
  import opened Traces

  /** Just before event `i` a checkpoint recorded the state of that moment. */
  predicate AnchoredAt(log: seq<Event>, i: nat, reason: CheckpointReason)
  {
    && 0 < i <= |log|
    && log[i - 1].body == Checkpoint(StateHash(Fold(log[..i - 1])), reason)
  }

  /** An act on the world: the dispatch of a write or an external effect. */
  predicate ActsAt(log: seq<Event>, i: nat)
  {
    && i < |log| && log[i].body.EffectDispatched?
    && IsRequested(log[..i], log[i].body.effectId)
    && ChangesTheWorld(ClassOf(log[..i], log[i].body.effectId))
  }

  /** A decision about an effect: it is put to a human, refused by one, or refused by the gateway. */
  predicate JudgesAt(log: seq<Event>, i: nat)
  {
    && i < |log|
    && (|| log[i].body.ApprovalRequested?
        || log[i].body.ApprovalDenied?
        || (log[i].body.ToolResult? && log[i].actor == Gateway))
  }

  lemma MarkIsAnchor(log: seq<Event>, i: nat, reason: CheckpointReason)
    requires Lawful(log) && i <= |log| && MarkedFor(log[..i], reason)
    ensures AnchoredAt(log, i, reason)
  {
    LawfulPrefix(log, i - 1);
  }

  /** Every write and every external effect is dispatched right after a checkpoint of the very state
      it is dispatched from, whether it was allowed at once or approved by a human after a restart. */
  lemma ActsAreAnchored(log: seq<Event>, i: nat)
    requires Lawful(log) && ActsAt(log, i)
    ensures AnchoredAt(log, i, PreWrite)
  {
    LawfulPrefix(log, i);
    MarkIsAnchor(log, i, PreWrite);
  }

  /** So is every approval asked for, and every refusal by the gateway or a human. */
  lemma JudgementsAreAnchored(log: seq<Event>, i: nat)
    requires Lawful(log) && JudgesAt(log, i)
    ensures AnchoredAt(log, i, PreApproval)
  {
    LawfulPrefix(log, i);
    MarkIsAnchor(log, i, PreApproval);
  }

  /** A human has until a day after the last clock reading before the approval was asked for. */
  lemma DeadlinesAreADayAway(log: seq<Event>, i: nat)
    requires Lawful(log) && i < |log| && log[i].body.ApprovalRequested?
    ensures log[i].body.expiresAtMs == LastReading(log[..i]) + 86_400_000
  {
    LawfulPrefix(log, i);
    ClockIsLastReading(log[..i]);
  }

  /** A pending approval is overdue a day after the last clock reading before it was asked for. */
  lemma OverdueIsADayLate(log: seq<Event>, a: ApprovalId, now: nat)
    requires Lawful(log) && a in Fold(log).pendingApprovals
    ensures a.at + 1 < |log| && log[a.at + 1].body.ApprovalRequested? && log[a.at + 1].body.approvalId == a
    ensures IsOverdue(log, a, now) <==> LastReading(log[..a.at + 1]) + 86_400_000 <= now
  {
    hide Fold, Lawful;
    LedgerHolds(log);
    assert AsksFor(log, a, Fold(log).pendingApprovals[a]);
    DeadlinesAreADayAway(log, a.at + 1);
  }

  /** The last reading of the clock is that of the last sampling. */
  lemma {:induction false} LastReadingIsLast(log: seq<Event>, p: nat)
    requires p < |log| && log[p].body.EnvSampled? && forall k :: p < k < |log| ==> !log[k].body.EnvSampled?
    ensures LastReading(log) == log[p].body.wallClockMs
    decreases |log|
  {
    if p < |log| - 1 {
      LastReadingIsLast(log[..|log| - 1], p);
    }
  }

  /** The acts and judgements of a log. */
  function AnchoredActs(log: seq<Event>): nat
    decreases |log|
  {
    if log == [] then 0
    else
      var n := |log| - 1;
      AnchoredActs(log[..n]) + if ActsAt(log, n) || JudgesAt(log, n) then 1 else 0
  }

  /** No two acts share a checkpoint, and none of them stands behind the last one. */
  lemma {:induction false} EachHasItsOwnAnchor(log: seq<Event>)
    requires Lawful(log)
    ensures AnchoredActs(log) + (if log != [] && log[|log| - 1].body.Checkpoint? then 1 else 0) <= CheckpointsIn(log)
    decreases |log|
  {
    if log != [] {
      hide Fold, FoldFrom, MayAppend;
      var n := |log| - 1;
      LawfulPrefix(log, n);
      EachHasItsOwnAnchor(log[..n]);
      if ActsAt(log, n) {
        ActsAreAnchored(log, n);
      } else if JudgesAt(log, n) {
        JudgementsAreAnchored(log, n);
      }
    }
  }

  lemma {:induction false} ActsAreCounted(log: seq<Event>, i: nat)
    requires ActsAt(log, i) || JudgesAt(log, i)
    ensures AnchoredActs(log) > 0
    decreases |log|
  {
    var n := |log| - 1;
    if i < n {
      assert log[..n][..i] == log[..i];
      ActsAreCounted(log[..n], i);
    }
  }

  /** Verification of a run in which anything was done to the world, refused, or put to a human
      checks at least one checkpoint for each, and finds every one of them true. */
  lemma VerificationIsNotVacuous(log: seq<Event>, i: nat)
    requires Lawful(log) && (ActsAt(log, i) || JudgesAt(log, i))
    ensures CheckpointsIn(log) >= AnchoredActs(log) > 0
    ensures MismatchesIn(log) == []
  {
    ActsAreCounted(log, i);
    EachHasItsOwnAnchor(log);
    LawfulLogsVerify(log);
  }
}

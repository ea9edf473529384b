/**
 * The gate from what a tool hands back to what a run may still do unasked: returned content enters
 * every later context, taints it, and from then on each effect that is more than a read needs a
 * human's own grant. Nothing else taints a run.
 */
module TaintGate {
  import opened Protocol
  import opened KernelState
  import opened Events
  import opened Kernel
  import opened Context
  import opened WriteProtocol
  import opened EffectSafety
  import opened TurnOrder
  import opened Admission
  import opened Provenance

  /** Event `j` hands back content. */
  predicate HandsBackAt(log: seq<Event>, j: nat)
  {
    j < |log| && log[j].body.ToolResult? && log[j].body.outputRef.Some?
  }

  /** Event `j` hands back this content, from the tool that was asked for it. */
  predicate ReturnsAt(log: seq<Event>, j: nat, o: ReturnedOutput)
  {
    && HandsBackAt(log, j) && log[j].body.outputRef == Some(o.content)
    && IsRequested(log[..j], log[j].body.effectId)
    && log[log[j].body.effectId.at + 1].body.tool == o.tool
  }

  lemma {:induction false} OutputsAreExact(log: seq<Event>, o: ReturnedOutput)
    ensures o in OutputsIn(log) <==> exists j: nat :: ReturnsAt(log, j, o)
    decreases |log|
  {
    if log != [] {
      var n := |log| - 1;
      var init := log[..n];
      OutputsAreExact(init, o);
      OutputsSnoc(init, log[n]);
      assert init + [log[n]] == log;
      forall j: nat ensures ReturnsAt(log, j, o) <==> if j == n then ReturnsAt(log, n, o) else ReturnsAt(init, j, o) {
        if j < n {
          assert init[..j] == log[..j];
        }
      }
      assert ReturnsAt(log, n, o) <==> o in OutputsIn(log)[|OutputsIn(init)|..];
    }
  }

  /** In a lawful log every content handed back belongs to a request. */
  lemma ReturnedOnRequest(log: seq<Event>, j: nat) returns (o: ReturnedOutput)
    requires Lawful(log) && HandsBackAt(log, j)
    ensures ReturnsAt(log, j, o)
  {
    hide Fold, FoldFrom, Lawful;
    LawfulPrefix(log, j);
    ResultsAreOnFile(Fold(log[..j]), log[..j], log[j]);
    LedgerHolds(log[..j]);
    var e := log[j].body.effectId;
    o := ReturnedOutput(log[e.at + 1].body.tool, log[j].body.outputRef.value);
  }

  lemma ResultsAreOnFile(s: RunState, log: seq<Event>, ev: Event)
    requires MayAppend(s, log, ev.actor, ev.body) && ev.body.ToolResult?
    ensures PaperTrail(s.pendingEffects, s.pendingApprovals, log) ==> IsRequested(log, ev.body.effectId)
  {
  }

  /** How many answers a log holds. */
  function AnswerCount(log: seq<Event>): nat
    decreases |log|
  {
    if log == [] then 0
    else AnswerCount(log[..|log| - 1]) + if log[|log| - 1].body.ClarificationAnswered? then 1 else 0
  }

  lemma {:induction false} EveryAnswerCounts(log: seq<Event>)
    requires Lawful(log)
    ensures |AnswersIn(log)| == AnswerCount(log)
    decreases |log|
  {
    if log != [] {
      var n := |log| - 1;
      LawfulPrefix(log, n);
      EveryAnswerCounts(log[..n]);
      LedgerHolds(log[..n]);
    }
  }

  /** A block of a context that shows this output. */
  predicate ShowsOutput(blocks: seq<ContextBlock>, o: ReturnedOutput)
  {
    exists b :: b in blocks && b.source == ToolOutput && b.content == o.content && b.span == Some(o.tool)
  }

  lemma ShownAreReturned(blocks: seq<ContextBlock>, intent: BlobRef, log: seq<Event>, o: ReturnedOutput)
    requires ShowsAll(blocks, intent, log)
    ensures ShowsOutput(blocks, o) <==> o in OutputsIn(log)
  {
    hide AnswersIn, OutputsIn;
    var answers, outputs := |AnswersIn(log)|, OutputsIn(log);
    if o in outputs {
      var k :| 0 <= k < |outputs| && outputs[k] == o;
      assert blocks[1 + answers + k] in blocks;
    }
    if ShowsOutput(blocks, o) {
      var b :| b in blocks && b.source == ToolOutput && b.content == o.content && b.span == Some(o.tool);
      var i :| 0 <= i < |blocks| && blocks[i] == b;
      assert i > answers;
      var k := i - 1 - answers;
      assert blocks[1 + answers + k].content == outputs[k].content;
      assert outputs[k] == o;
    }
  }

  /** In every run a context shows exactly what tools had handed back by then, and one block for each
      answer a human had given; it is tainted exactly when a tool had handed anything back. */
  lemma ContextsAreComplete(log: seq<Event>, i: nat)
    requires Lawful(log) && i < |log| && log[i].body.ContextAssembled?
    ensures forall o :: ShowsOutput(log[i].body.blocks, o) <==> exists j: nat :: ReturnsAt(log[..i], j, o)
    ensures |log[i].body.blocks| == 1 + AnswerCount(log[..i]) + |OutputsIn(log[..i])|
    ensures log[i].body.taintLevel == Tainted <==> exists j: nat :: j < i && HandsBackAt(log, j)
  {
    hide Fold, FoldFrom, Lawful, OutputsIn, AnswersIn, ReturnsAt;
    LawfulPrefix(log, i);
    var intent := Fold(log[..i]).intent.value;
    var blocks := log[i].body.blocks;
    EveryAnswerCounts(log[..i]);
    forall o ensures ShowsOutput(blocks, o) <==> exists j: nat :: ReturnsAt(log[..i], j, o) {
      ShownAreReturned(blocks, intent, log[..i], o);
      OutputsAreExact(log[..i], o);
    }
    ContextTaint(blocks, intent, log[..i]);
    AnyOutput(log, i);
  }

  lemma AnyOutput(log: seq<Event>, i: nat)
    requires Lawful(log) && i <= |log|
    ensures OutputsIn(log[..i]) != [] <==> exists j: nat :: j < i && HandsBackAt(log, j)
  {
    hide OutputsIn, Lawful;
    LawfulPrefix(log, i);
    if OutputsIn(log[..i]) != [] {
      var o := OutputsIn(log[..i])[0];
      OutputsAreExact(log[..i], o);
      var j: nat :| ReturnsAt(log[..i], j, o);
      assert j < i && HandsBackAt(log, j);
    }
    if j: nat :| j < i && HandsBackAt(log, j) {
      assert HandsBackAt(log[..i], j);
      var o := ReturnedOnRequest(log[..i], j);
      OutputsAreExact(log[..i], o);
    }
  }

  // ---------------------------------------------------------------- turns move on

  lemma TurnStep(s: RunState, log: seq<Event>, ev: Event)
    requires MayAppend(s, log, ev.actor, ev.body)
    ensures s.turn <= Reduce(s, ev).turn
  {
  }

  lemma {:induction false} TurnNeverFalls(log: seq<Event>, i: nat, j: nat)
    requires Lawful(log) && i <= j <= |log|
    ensures Fold(log[..i]).turn <= Fold(log[..j]).turn
    decreases j
  {
    hide Fold, FoldFrom, Lawful, MayAppend, Reduce;
    if i < j {
      TurnNeverFalls(log, i, j - 1);
      LawfulPrefix(log, j - 1);
      StateAfter(log, j - 1);
      TurnStep(Fold(log[..j - 1]), log[..j - 1], log[j - 1]);
    }
  }

  /** A tool's result closes the only open effect, so the turn is over. */
  lemma ResultEndsTheTurn(log: seq<Event>, j: nat)
    requires Lawful(log) && j < |log| && log[j].body.ToolResult?
    ensures Fold(log[..j + 1]).turn == Fold(log[..j]).turn + 1
  {
    hide Fold, FoldFrom, Lawful, PaperTrail, ApprovalLedger;
    LawfulPrefix(log, j);
    LedgerHolds(log[..j]);
    StateAfter(log, j);
    ClosingMovesOn(Fold(log[..j]), log[..j], log[j]);
  }

  lemma ClosingMovesOn(s: RunState, log: seq<Event>, ev: Event)
    requires EffectLedger(s.pendingEffects, s.turn) && MayAppend(s, log, ev.actor, ev.body) && ev.body.ToolResult?
    ensures Reduce(s, ev).turn == s.turn + 1
  {
    var e := ev.body.effectId;
    assert Open(s.pendingEffects, e);
    forall f | f in s.pendingEffects && f != e ensures s.pendingEffects[f].IsResolved() {
      assert !Open(s.pendingEffects, f);
    }
  }

  /** Between a tool's result and the next request of an effect a context is assembled. */
  lemma ContextInBetween(log: seq<Event>, j: nat, r: nat) returns (p: nat)
    requires Lawful(log) && j < r < |log| && log[j].body.ToolResult? && log[r].body.ToolRequested?
    ensures j < p < r && log[p].body.ContextAssembled?
  {
    hide Fold, FoldFrom, Lawful, PaperTrail, ApprovalLedger, EffectLedger, LastMark;
    LawfulPrefix(log, r);
    LedgerHolds(log[..r]);
    var turn := Fold(log[..r]).turn;
    ContextMarkerIsExact(log[..r], turn);
    p :| ContextAt(log[..r], p, turn);
    Within(log[..r], p, Assembles, TurnOrder.Answered);
    Marked(log[..r], p, Assembles, TurnOrder.Answered);
    if p < j {
      LawfulPrefix(log, p);
      TurnNeverFalls(log, p, j);
      ResultEndsTheTurn(log, j);
      TurnNeverFalls(log, j + 1, r);
    }
  }

  lemma Marked(log: seq<Event>, p: nat, marks: EventBody -> bool, wipes: EventBody -> bool)
    requires LastMark(log, p, marks, wipes)
    ensures p < |log| && marks(log[p].body)
  {
  }

  // ---------------------------------------------------------------- what a model is asked with

  lemma {:induction false} NothingCameBack(log: seq<Event>, p: nat, i: nat)
    requires p <= i <= |log|
    requires forall k :: p <= k < i ==> !log[k].body.ClarificationAnswered? && !log[k].body.ToolResult?
    ensures AnswersIn(log[..i]) == AnswersIn(log[..p]) && OutputsIn(log[..i]) == OutputsIn(log[..p])
    decreases i
  {
    if p < i {
      NothingCameBack(log, p, i - 1);
      assert log[..i] == log[..i - 1] + [log[i - 1]];
      AnswersSnoc(log[..i - 1], log[i - 1]);
      OutputsSnoc(log[..i - 1], log[i - 1]);
    }
  }

  lemma NoResultWithinTurn(log: seq<Event>, p: nat, j: nat, i: nat)
    requires Lawful(log) && p < j < i <= |log| && Fold(log[..p]).turn == Fold(log[..i]).turn
    ensures !log[j].body.ToolResult?
  {
    hide Fold, FoldFrom, Lawful;
    TurnNeverFalls(log, p, j);
    TurnNeverFalls(log, j + 1, i);
    if log[j].body.ToolResult? {
      ResultEndsTheTurn(log, j);
    }
  }

  /** Whenever a model is asked, its turn's context shows everything: every answer humans have given
      by then and every content tools have handed back. */
  lemma ModelsSeeEverything(log: seq<Event>, i: nat) returns (p: nat)
    requires Lawful(log) && i < |log| && log[i].body.ModelRequested?
    ensures p < i && log[p].body.ContextAssembled? && log[p].body.turn == log[i].body.turn
    ensures Fold(log[..p]).intent.Some? && ShowsAll(log[p].body.blocks, Fold(log[..p]).intent.value, log[..i])
    ensures AnswersIn(log[..p]) == AnswersIn(log[..i]) && OutputsIn(log[..p]) == OutputsIn(log[..i])
  {
    hide Fold, FoldFrom, Lawful, LastMark, Shows, AnswersIn, OutputsIn;
    LawfulPrefix(log, i);
    var turn := log[i].body.turn;
    ContextMarkerIsExact(log[..i], turn);
    p :| ContextAt(log[..i], p, turn);
    Marked(log[..i], p, Assembles, TurnOrder.Answered);
    LawfulPrefix(log, p);
    forall k | p <= k < i ensures !log[k].body.ClarificationAnswered? && !log[k].body.ToolResult? {
      if k > p {
        Unwiped(log[..i], p, k, Assembles, TurnOrder.Answered);
        NoResultWithinTurn(log, p, k, i);
      }
    }
    NothingCameBack(log, p, i);
  }

  /** And in a runtime's own log each of those answers is there as the content put together for it. */
  lemma ModelsSeeEveryAnswer(log: seq<Event>, i: nat, g: Gateway, contents: Contents) returns (p: nat)
    requires Lawful(log) && Own(log, g, contents) && i < |log| && log[i].body.ModelRequested?
    ensures p < i && log[p].body.ContextAssembled? && log[p].body.turn == log[i].body.turn
    ensures |AnswersIn(log[..i])| == AnswerCount(log[..i]) < |log[p].body.blocks|
    ensures forall k :: 0 <= k < AnswerCount(log[..i]) ==>
      log[p].body.blocks[1 + k].content == contents.summary(AnswersIn(log[..i])[k])
  {
    hide Fold, FoldFrom, Lawful, AnswersIn, OutputsIn, ShowsAll, Own;
    p := ModelsSeeEverything(log, i);
    OwnAt(log, p, g, contents);
    LawfulPrefix(log, i);
    EveryAnswerCounts(log[..i]);
  }

  lemma {:induction false} AnswersGrow(log: seq<Event>, n: nat)
    requires n <= |log|
    ensures AnswersIn(log[..n]) <= AnswersIn(log) && OutputsIn(log[..n]) <= OutputsIn(log)
    decreases |log|
  {
    if n < |log| {
      var init := log[..|log| - 1];
      AnswersGrow(init, n);
      assert init[..n] == log[..n];
    } else {
      assert log[..n] == log;
    }
  }

  /** The answers collected are those of the log in their order, each with the question it answers. */
  lemma AnswersAreExact(log: seq<Event>, j: nat)
    requires Lawful(log) && j < |log| && log[j].body.ClarificationAnswered?
    ensures var (body, k) := (log[j].body, AnswerCount(log[..j]));
      && k < |AnswersIn(log)| && body.questionId.at + 1 < j && log[body.questionId.at + 1].body.ClarificationRequested?
      && log[body.questionId.at + 1].body.questionId == body.questionId
      && AnswersIn(log)[k].promptRef == log[body.questionId.at + 1].body.promptRef
      && AnswersIn(log)[k].option == body.option && AnswersIn(log)[k].freeText == body.freeText
  {
    hide Fold, FoldFrom, Lawful, AnswersIn, OutputsIn;
    LawfulPrefix(log, j);
    LedgerHolds(log[..j]);
    AnswerAsked(Fold(log[..j]), log[..j], log[j]);
    EveryAnswerCounts(log[..j]);
    AnswersSnoc(log[..j], log[j]);
    assert log[..j + 1] == log[..j] + [log[j]];
    AnswersGrow(log, j + 1);
  }

  lemma AnswerAsked(s: RunState, log: seq<Event>, ev: Event)
    requires QuestionLedger(s, log) && MayAppend(s, log, ev.actor, ev.body) && ev.body.ClarificationAnswered?
    ensures Asked(log, ev.body.questionId)
  {
  }

  lemma Unwiped(log: seq<Event>, p: nat, k: nat, marks: EventBody -> bool, wipes: EventBody -> bool)
    requires LastMark(log, p, marks, wipes) && p < k < |log|
    ensures !wipes(log[k].body)
  {
  }

  // ---------------------------------------------------------------- the gate

  /** Once a tool has handed back anything, an effect requested later that is more than a read runs
      only after a human granted its own approval: whatever the tool, the content, the model and the
      policy. */
  lemma ReturnedContentGatesEffects(log: seq<Event>, j: nat, r: nat, i: nat, e: EffectId)
    requires Lawful(log) && HandsBackAt(log, j) && j < r < |log|
    requires log[r].body.ToolRequested? && log[r].body.effectId == e && !log[r].body.effectClass.Read?
    requires DispatchesAt(log, i, e)
    ensures Granted(log[..i], e)
  {
    hide Lawful;
    var p := ContextInBetween(log, j, r);
    ContextsAreComplete(log, p);
    TaintedNeedsApproval(log, p, r, i, e);
  }

  /** In a runtime's own log that is every tool whose manifest does not say that it only reads, and every
      tool without a manifest. */
  lemma ReturnedContentGatesTools(
      log: seq<Event>, g: Gateway, contents: Contents, j: nat, r: nat, i: nat, e: EffectId)
    requires Lawful(log) && Own(log, g, contents) && HandsBackAt(log, j) && j < r < |log|
    requires log[r].body.ToolRequested? && log[r].body.effectId == e
    requires log[r].body.tool !in g.manifests || g.manifests[log[r].body.tool].effectClass != Read
    requires DispatchesAt(log, i, e)
    ensures Granted(log[..i], e)
  {
    hide Lawful, Own;
    OwnAt(log, r, g, contents);
    ReturnedContentGatesEffects(log, j, r, i, e);
  }

  /** Event `j` is a tool's result that the executor marked as tainted. */
  predicate MarkedAt(log: seq<Event>, j: nat)
  {
    j < |log| && log[j].body.ToolResult? && log[j].body.taint == Tainted
  }

  /** A context at `i` was assembled after `j` had handed back content. */
  predicate FedAt(log: seq<Event>, j: nat, i: nat)
  {
    j < i < |log| && HandsBackAt(log, j) && log[i].body.ContextAssembled?
  }

  /** A run is tainted exactly when a tool's result was marked so, or a context was assembled after a
      tool had handed anything back. Plans, humans and the runtime itself bring no taint of their own. */
  lemma TaintComesFromTools(log: seq<Event>)
    requires Lawful(log)
    ensures Fold(log).taint == Tainted <==>
      (exists j: nat :: MarkedAt(log, j)) || (exists j: nat, i: nat :: FedAt(log, j, i))
  {
    hide Fold, FoldFrom, Lawful, ShowsOutput;
    TaintIsExact(log);
    if Fold(log).taint == Tainted {
      SourceOfTaint(log);
    }
    if j: nat, i: nat :| FedAt(log, j, i) {
      ContextsAreComplete(log, i);
      assert CarriedTaint(log[i].body) == Tainted;
    }
    if j: nat :| MarkedAt(log, j) {
      assert CarriedTaint(log[j].body) == Tainted;
    }
  }

  /** Going back from plan to plan, the taint of a run leads to a tool. */
  lemma {:induction false} SourceOfTaint(log: seq<Event>)
    requires Lawful(log) && Fold(log).taint == Tainted
    ensures (exists j: nat :: MarkedAt(log, j)) || (exists j: nat, i: nat :: FedAt(log, j, i))
    decreases |log|
  {
    hide Fold, FoldFrom, Lawful, ShowsOutput;
    TaintIsExact(log);
    var t: nat :| t < |log| && CarriedTaint(log[t].body) == Tainted;
    if log[t].body.ContextAssembled? {
      ContextsAreComplete(log, t);
      var j: nat :| j < t && HandsBackAt(log, j);
      assert FedAt(log, j, t);
    } else if log[t].body.PlanStep? {
      PlansInherit(log, t);
      LawfulPrefix(log, t);
      SourceOfTaint(log[..t]);
      if j: nat :| MarkedAt(log[..t], j) {
        assert MarkedAt(log, j);
      } else {
        var j: nat, i: nat :| FedAt(log[..t], j, i);
        assert FedAt(log, j, i);
      }
    } else {
      assert MarkedAt(log, t);
    }
  }

  lemma PlansInherit(log: seq<Event>, t: nat)
    requires Lawful(log) && t < |log| && log[t].body.PlanStep?
    ensures log[t].body.plan.taintInherited == Fold(log[..t]).taint
  {
    LawfulPrefix(log, t);
  }
}

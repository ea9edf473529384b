/**
 * What a model is shown in a turn: the intent, every answered question and everything a tool has
 * handed back so far. Whether a block is to be trusted depends on where it comes from, on nothing
 * else.
 */
module Context {
  import opened Protocol
  import opened Events

  // ---------------------------------------------------------------- one block

  function TrustOf(source: BlockSource): TrustLevel
  {
    match source
    case UserIntent => UserDirect
    case ClarificationAnswer => UserDirect
    case ToolOutput => Untrusted
  }

  function TaintOfTrust(trust: TrustLevel): TaintLevel
  {
    if trust.Untrusted? then Tainted else Clean
  }

  /** The first eight digits of a content hash, with or without its algorithm's name before it. */
  function ShortHash(hash: BlobRef): string
  {
    var hex := if "sha256:" <= hash then hash[7..] else hash;
    if |hex| < 8 then hex else hex[..8]
  }

  /** How many bytes a character takes in UTF-8. */
  function Utf8Length(c: char): nat
  {
    if c as int < 0x80 then 1 else if c as int < 0x800 then 2 else if c as int < 0x1_0000 then 3 else 4
  }

  function Bytes(text: string): nat
  {
    if text == "" then 0 else Bytes(text[..|text| - 1]) + Utf8Length(text[|text| - 1])
  }

  /** The greater of one token a character and one token for four bytes, but at least one. */
  function EstimateTokens(text: string): nat
  {
    if text == "" then 0 else MaxNat(MaxNat(|text|, Bytes(text) / 4), 1)
  }

  lemma {:induction false} FewBytes(text: string)
    ensures Bytes(text) <= 4 * |text|
  {
    if text != "" {
      FewBytes(text[..|text| - 1]);
    }
  }

  /** Four bytes are never more than one character, so the estimate is always the number of characters. */
  lemma EstimateIsTheLength(text: string)
    ensures EstimateTokens(text) == |text|
  {
    FewBytes(text);
  }

  // ---------------------------------------------------------------- what has come back so far

  datatype AnsweredQuestion = AnsweredQuestion(promptRef: BlobRef, option: Option<string>, freeText: Option<BlobRef>)

  datatype ReturnedOutput = ReturnedOutput(tool: ToolId, content: BlobRef)

  /** The answers in a log, each with the question it answers. */
  function AnswersIn(log: seq<Event>): seq<AnsweredQuestion>
    decreases |log|
  {
    if log == [] then []
    else
      var init, body := log[..|log| - 1], log[|log| - 1].body;
      AnswersIn(init)
      + if body.ClarificationAnswered? && Asked(init, body.questionId) then
          [AnsweredQuestion(init[body.questionId.at + 1].body.promptRef, body.option, body.freeText)]
        else []
  }

  /** The contents tools have handed back, each with the tool it came from. */
  function OutputsIn(log: seq<Event>): seq<ReturnedOutput>
    decreases |log|
  {
    if log == [] then []
    else
      var init, body := log[..|log| - 1], log[|log| - 1].body;
      OutputsIn(init)
      + if body.ToolResult? && body.outputRef.Some? && IsRequested(init, body.effectId) then
          [ReturnedOutput(init[body.effectId.at + 1].body.tool, body.outputRef.value)]
        else []
  }

  lemma AnswersSnoc(log: seq<Event>, ev: Event)
    ensures
      AnswersIn(log + [ev]) == AnswersIn(log)
        + if ev.body.ClarificationAnswered? && Asked(log, ev.body.questionId) then
            [AnsweredQuestion(log[ev.body.questionId.at + 1].body.promptRef, ev.body.option, ev.body.freeText)]
          else []
  {
    assert (log + [ev])[..|log|] == log;
  }

  lemma OutputsSnoc(log: seq<Event>, ev: Event)
    ensures
      OutputsIn(log + [ev]) == OutputsIn(log)
        + if ev.body.ToolResult? && ev.body.outputRef.Some? && IsRequested(log, ev.body.effectId) then
            [ReturnedOutput(log[ev.body.effectId.at + 1].body.tool, ev.body.outputRef.value)]
          else []
  {
    assert (log + [ev])[..|log|] == log;
  }

  /** A request that carries its own place is on file from then on, and no other one is added. */
  lemma RequestedSnoc(log: seq<Event>, ev: Event)
    requires ev.body.ToolRequested? ==> ev.body.effectId.at + 1 == |log|
    ensures forall e :: IsRequested(log + [ev], e) <==>
      IsRequested(log, e) || (ev.body.ToolRequested? && ev.body.effectId == e)
  {
  }

  lemma AskedSnoc(log: seq<Event>, ev: Event)
    requires ev.body.ClarificationRequested? ==> ev.body.questionId.at + 1 == |log|
    ensures forall q :: Asked(log + [ev], q) <==>
      Asked(log, q) || (ev.body.ClarificationRequested? && ev.body.questionId == q)
  {
  }

  lemma NothingYet()
    ensures AnswersIn([]) == [] && OutputsIn([]) == []
    ensures forall e :: !IsRequested([], e)
    ensures forall q :: !Asked([], q)
  {
  }

  // ---------------------------------------------------------------- the whole context

  // The content-addressed store: a content's text, and the content put together for an answer.
  datatype Contents = Contents(text: BlobRef -> string, summary: AnsweredQuestion -> BlobRef)
  {
    function Block(turn: nat, source: BlockSource, content: BlobRef, span: Option<ToolId>): ContextBlock
    {
      ContextBlock(CiteId(turn, source, ShortHash(content)), source, TrustOf(source), content, span,
                   EstimateTokens(text(content)))
    }

    function Blocks(turn: nat, intent: BlobRef, answers: seq<AnsweredQuestion>, outputs: seq<ReturnedOutput>)
      : (blocks: seq<ContextBlock>)
      ensures |blocks| == 1 + |answers| + |outputs|
    {
      [Block(turn, UserIntent, intent, None)]
      + seq(|answers|, i requires 0 <= i < |answers| =>
          Block(turn, ClarificationAnswer, summary(answers[i]), None))
      + seq(|outputs|, i requires 0 <= i < |outputs| =>
          Block(turn, ToolOutput, outputs[i].content, Some(outputs[i].tool)))
    }
  }

  function TaintOf(blocks: seq<ContextBlock>): TaintLevel
  {
    if blocks == [] then Clean
    else TaintOf(blocks[..|blocks| - 1]).Join(TaintOfTrust(blocks[|blocks| - 1].trust))
  }

  function TotalTokens(blocks: seq<ContextBlock>): nat
  {
    if blocks == [] then 0 else TotalTokens(blocks[..|blocks| - 1]) + blocks[|blocks| - 1].tokenEstimate
  }

  function Assemble(contents: Contents, profile: string, turn: nat, intent: BlobRef,
                    answers: seq<AnsweredQuestion>, outputs: seq<ReturnedOutput>): EventBody
  {
    var blocks := contents.Blocks(turn, intent, answers, outputs);
    ContextAssembled(turn, profile, blocks, TaintOf(blocks), TotalTokens(blocks))
  }

  /** Block by block, the context is the intent, so many answers, and these outputs: the first two to be
      trusted as the user's own, the outputs not at all. */
  predicate Shows(blocks: seq<ContextBlock>, intent: BlobRef, answers: nat, outputs: seq<ReturnedOutput>)
  {
    && |blocks| == 1 + answers + |outputs|
    && blocks[0].source == UserIntent && blocks[0].content == intent && blocks[0].trust == UserDirect
    && (forall k :: 1 <= k <= answers ==>
          blocks[k].source == ClarificationAnswer && blocks[k].trust == UserDirect)
    && (forall k :: 0 <= k < |outputs| ==>
          var block := blocks[1 + answers + k];
          && block.source == ToolOutput && block.trust == Untrusted
          && block.content == outputs[k].content && block.span == Some(outputs[k].tool))
  }

  /** The sources of a context are the intent, the answers and the outputs of the log. */
  predicate ShowsAll(blocks: seq<ContextBlock>, intent: BlobRef, log: seq<Event>)
  {
    Shows(blocks, intent, |AnswersIn(log)|, OutputsIn(log))
  }

  /** Behind the intent come the answers, each as the content put together for it, in their order. */
  predicate AnswersShown(blocks: seq<ContextBlock>, contents: Contents, log: seq<Event>)
  {
    && 1 + |AnswersIn(log)| <= |blocks|
    && forall k :: 0 <= k < |AnswersIn(log)| ==>
         && blocks[1 + k].source == ClarificationAnswer
         && blocks[1 + k].content == contents.summary(AnswersIn(log)[k])
  }

  /** A block is cited by its turn, its kind and the beginning of its content's hash, and counts a token
      for each character; only what a tool handed back names a tool. */
  predicate Labelled(block: ContextBlock, contents: Contents, turn: nat)
  {
    && block.citeId.turn == turn && block.citeId.source == block.source
    && block.citeId.short == ShortHash(block.content)
    && block.tokenEstimate == |contents.text(block.content)|
    && (block.source != ToolOutput ==> block.span == None)
  }

  /** What the assembler makes of a log: the intent, every answer and every content handed back, each
      block labelled, the whole tainted exactly when a tool had handed anything back. */
  lemma AssembledShowsAll(contents: Contents, profile: string, turn: nat, intent: BlobRef, log: seq<Event>)
    ensures var body := Assemble(contents, profile, turn, intent, AnswersIn(log), OutputsIn(log));
      && body.ContextAssembled? && body.turn == turn && body.profile == profile
      && ShowsAll(body.blocks, intent, log) && AnswersShown(body.blocks, contents, log)
      && (forall i :: 0 <= i < |body.blocks| ==> Labelled(body.blocks[i], contents, turn))
      && (body.taintLevel == Tainted <==> OutputsIn(log) != [])
      && body.taintLevel == TaintOf(body.blocks) && body.totalTokenEstimate == TotalTokens(body.blocks)
  {
    hide AnswersIn, OutputsIn, ShortHash, EstimateTokens;
    var answers, outputs := AnswersIn(log), OutputsIn(log);
    var blocks := contents.Blocks(turn, intent, answers, outputs);
    forall i | 0 <= i < |blocks| ensures Labelled(blocks[i], contents, turn) {
      EstimateIsTheLength(contents.text(blocks[i].content));
    }
    ContextTaint(blocks, intent, log);
  }

  /** Token estimates add up. */
  lemma {:induction false} TokensAddUp(a: seq<ContextBlock>, b: seq<ContextBlock>)
    ensures TotalTokens(a + b) == TotalTokens(a) + TotalTokens(b)
    ensures |b| == 1 ==> TotalTokens(b) == b[0].tokenEstimate
  {
    if b == [] {
      assert a + b == a;
    } else {
      var n := |b| - 1;
      TokensAddUp(a, b[..n]);
      assert (a + b)[..|a + b| - 1] == a + b[..n];
    }
  }

  /** The beginning of a hash does not count the name of its algorithm. */
  lemma ShortHashIsEightDigits(hex: string)
    ensures ShortHash("sha256:" + hex) == if |hex| >= 8 then hex[..8] else hex
    ensures !("sha256:" <= hex) ==> ShortHash(hex) == if |hex| >= 8 then hex[..8] else hex
  {
    assert ("sha256:" + hex)[7..] == hex;
  }

  /** One block that is not to be trusted taints the whole context, and nothing else does. */
  lemma {:induction false} OneTaintsAll(blocks: seq<ContextBlock>)
    ensures TaintOf(blocks) == Tainted <==> exists b :: b in blocks && b.trust == Untrusted
  {
    if blocks != [] {
      var n := |blocks| - 1;
      OneTaintsAll(blocks[..n]);
      assert blocks == blocks[..n] + [blocks[n]];
    }
  }

  lemma ContextTaint(blocks: seq<ContextBlock>, intent: BlobRef, log: seq<Event>)
    requires ShowsAll(blocks, intent, log)
    ensures TaintOf(blocks) == Tainted <==> OutputsIn(log) != []
  {
    OneTaintsAll(blocks);
    if OutputsIn(log) != [] {
      var k := 0;
      assert blocks[1 + |AnswersIn(log)| + k].content == OutputsIn(log)[k].content;
      assert blocks[1 + |AnswersIn(log)| + k] in blocks;
    } else {
      forall b | b in blocks ensures b.trust != Untrusted {
        var k :| 0 <= k < |blocks| && blocks[k] == b;
      }
    }
  }
}

/** Provider messages, the compaction checkpoint and the stored provider
    context: internal/assistant/anthropic_context.go. */
module AnthropicContext {
  import opened Basics

  datatype Role = User | Assistant

  /** A request block. A compaction block carries its summary, or None for null. */
  datatype Block =
    | Text(text: string)
    | Image(data: string, mediaType: string)
    | ToolUse(id: string, name: string, input: string)
    | ToolResult(toolUseId: string, payload: string, isError: bool)
    | WebSearch(found: string)
    | Compaction(summary: Option<string>)
    | Opaque(raw: string)

  datatype Message = Message(role: Role, blocks: seq<Block>)

  /** A response block. The content of a compaction block is found in the wire
      form or, for a streamed response, in the accumulated union field. */
  datatype ReplyBlock =
    | ReplyText(text: string)
    | ReplyToolUse(id: string, name: string, input: string)
    | ReplyWebSearch(found: string)
    | ReplyCompaction(wire: Option<string>, accumulated: string)
    | ReplyOther(raw: string)

  datatype SamplingIteration = SamplingIteration(compaction: bool, tokens: Tokens)

  datatype Tokens = Tokens(input: int, output: int, cacheCreation: int, cacheRead: int)

  datatype Usage = Usage(topLevel: Tokens, iterations: seq<SamplingIteration>)

  datatype Response = Response(content: seq<ReplyBlock>, usage: Usage)

  datatype CompactionState = CompactionNone | CompactionValid | CompactionNull

  // ----- Compaction -----

  /** betaCompactionContent: the summary of a compaction block, None when it has none. */
  function CompactionContent(b: ReplyBlock): (r: Option<string>)
    requires b.ReplyCompaction?
    ensures r.Some? ==> r.value != ""
    ensures r.Some? <==> (b.wire.Some? && b.wire.value != "") || b.accumulated != ""
    ensures r.Some? && r != b.wire ==> b.wire.None? || b.wire.value == ""
    ensures r.Some? ==> r == b.wire || r.value == b.accumulated
  {
    if b.wire.Some? && b.wire.value != "" then b.wire
    else if b.accumulated != "" then Some(b.accumulated)
    else None
  }

  predicate ValidCompaction(b: ReplyBlock) {
    b.ReplyCompaction? && CompactionContent(b).Some?
  }

  method BetaCompactionState(response: Response) returns (state: CompactionState)
    ensures state == CompactionValid <==> exists i | 0 <= i < |response.content| :: ValidCompaction(response.content[i])
    ensures state == CompactionNone <==> forall i | 0 <= i < |response.content| :: !response.content[i].ReplyCompaction?
  {
    state := CompactionNone;
    for k := 0 to |response.content|
      invariant state != CompactionValid
      invariant forall i | 0 <= i < k :: !ValidCompaction(response.content[i])
      invariant state == CompactionNone <==> forall i | 0 <= i < k :: !response.content[i].ReplyCompaction?
    {
      var block := response.content[k];
      if !block.ReplyCompaction? {
        continue;
      }
      if CompactionContent(block).Some? {
        return CompactionValid;
      }
      state := CompactionNull;
    }
  }

  /** The request block that stands for a response block in later requests. */
  function Param(b: ReplyBlock): Block {
    match b
    case ReplyText(text) => Text(text)
    case ReplyToolUse(id, name, input) => ToolUse(id, name, input)
    case ReplyWebSearch(found) => WebSearch(found)
    case ReplyCompaction(_, _) => Compaction(CompactionContent(b))
    case ReplyOther(raw) => Opaque(raw)
  }

  function ParamMessage(response: Response): Message {
    Message(Assistant, seq(|response.content|, i requires 0 <= i < |response.content| => Param(response.content[i])))
  }

  /** The SDK's own conversion, which keeps only the wire content of a compaction block. */
  function WireParam(b: ReplyBlock): Block {
    if b.ReplyCompaction? then Compaction(b.wire) else Param(b)
  }

  /** A request block the provider treats as the start of the conversation. */
  predicate IsCheckpoint(b: Block) {
    b.Compaction? && b.summary.Some?
  }

  predicate Checkpointed(blocks: seq<Block>) {
    exists i | 0 <= i < |blocks| :: IsCheckpoint(blocks[i])
  }

  predicate HasCheckpoint(m: Message) {
    Checkpointed(m.blocks)
  }

  /** The message list after a response; `trim` selects the checkpoint cut. */
  function Appended(messages: seq<Message>, response: Response, trim: bool): seq<Message> {
    var m := ParamMessage(response);
    if trim && HasCheckpoint(m) then [m] else messages + [m]
  }

  /** The request block says what the response block said; a compaction has the wire
      content when that is not empty, else the accumulated one, else null. */
  predicate SaysSame(b: ReplyBlock, p: Block) {
    && (b.ReplyText? ==> p.Text? && p.text == b.text)
    && (b.ReplyToolUse? ==> p.ToolUse? && p.id == b.id && p.name == b.name && p.input == b.input)
    && (b.ReplyWebSearch? ==> p.WebSearch? && p.found == b.found)
    && (b.ReplyOther? ==> p.Opaque? && p.raw == b.raw)
    && (b.ReplyCompaction? && b.wire.Some? && b.wire.value != "" ==> p.Compaction? && p.summary == b.wire)
    && (b.ReplyCompaction? && (b.wire.None? || b.wire.value == "") && b.accumulated != "" ==>
          p.Compaction? && p.summary == Some(b.accumulated))
    && (b.ReplyCompaction? && (b.wire.None? || b.wire.value == "") && b.accumulated == "" ==>
          p.Compaction? && p.summary == None)
  }

  /** An assistant message with a block for each block of the response. */
  predicate StandsFor(m: Message, response: Response) {
    && m.role == Assistant && |m.blocks| == |response.content|
    && forall i | 0 <= i < |m.blocks| :: SaysSame(response.content[i], m.blocks[i])
  }

  method AppendBetaResponse(messages: seq<Message>, response: Option<Response>)
    returns (updated: seq<Message>, state: CompactionState)
    ensures response.None? ==> updated == messages && state == CompactionNone
    ensures response.Some? ==> updated == Appended(messages, response.value, true)
    ensures response.Some? ==> |updated| == (if state == CompactionValid then 1 else |messages| + 1)
    ensures response.Some? && state != CompactionValid ==> updated[..|messages|] == messages
    ensures response.Some? ==> StandsFor(updated[|updated| - 1], response.value)
    ensures response.Some? ==> (state == CompactionValid <==> HasCheckpoint(ParamMessage(response.value)))
  {
    if response.None? {
      return messages, CompactionNone;
    }
    var content := response.value.content;
    state := BetaCompactionState(response.value);
    var blocks := new Block[|content|](i requires 0 <= i < |content| => WireParam(content[i]));
    for i := 0 to |content|
      invariant forall k | 0 <= k < i :: blocks[k] == Param(content[k])
      invariant forall k | i <= k < |content| :: blocks[k] == WireParam(content[k])
    {
      if !content[i].ReplyCompaction? {
        continue;
      }
      blocks[i] := Compaction(CompactionContent(content[i]));
    }
    var param := Message(Assistant, blocks[..]);
    assert param == ParamMessage(response.value);
    CheckpointIsValidCompaction(response.value);
    AppendedStands(messages, response.value, true);
    updated := messages + [param];
    if state == CompactionValid {
      updated := [updated[|updated| - 1]];
    }
  }

  lemma CheckpointIsValidCompaction(response: Response)
    ensures HasCheckpoint(ParamMessage(response))
       <==> exists i | 0 <= i < |response.content| :: ValidCompaction(response.content[i])
  {
    var blocks := ParamMessage(response).blocks;
    forall i | 0 <= i < |blocks|
      ensures IsCheckpoint(blocks[i]) <==> ValidCompaction(response.content[i])
    {
    }
    if i :| 0 <= i < |response.content| && ValidCompaction(response.content[i]) {
      assert IsCheckpoint(blocks[i]);
    }
  }

  /** A compaction block with a summary, by its fields. */
  predicate Summarises(b: ReplyBlock) {
    b.ReplyCompaction? && ((b.wire.Some? && b.wire.value != "") || b.accumulated != "")
  }

  /** The message appended stands for the response; where the list is cut, which takes a
      summary, it is left alone, and otherwise everything before it stays. */
  lemma AppendedStands(messages: seq<Message>, response: Response, trim: bool)
    ensures var after := Appended(messages, response, trim);
            var cut := trim && exists i | 0 <= i < |response.content| :: Summarises(response.content[i]);
            && after != [] && StandsFor(after[|after| - 1], response)
            && after == (if cut then [] else messages) + [after[|after| - 1]]
  {
    CheckpointIsValidCompaction(response);
    assert forall i | 0 <= i < |response.content| ::
        Summarises(response.content[i]) <==> ValidCompaction(response.content[i]);
  }

  // ----- What the provider reads -----

  /** The block sequence from its latest checkpoint onward. */
  function Cut(blocks: seq<Block>): (r: seq<Block>)
    requires Checkpointed(blocks)
    ensures 0 < |r| <= |blocks| && r == blocks[|blocks| - |r|..]
    ensures IsCheckpoint(r[0]) && !Checkpointed(r[1..])
  {
    if Checkpointed(blocks[1..]) then Cut(blocks[1..]) else blocks
  }

  function FromCheckpoint(m: Message): Message
    requires HasCheckpoint(m)
  {
    m.(blocks := Cut(m.blocks))
  }

  /** The part of a conversation the provider reads: everything from the latest
      valid compaction block onward. */
  function View(messages: seq<Message>): seq<Message> {
    if messages == [] then []
    else Extend(View(messages[..|messages| - 1]), messages[|messages| - 1])
  }

  function Extend(view: seq<Message>, m: Message): seq<Message> {
    if HasCheckpoint(m) then [FromCheckpoint(m)] else view + [m]
  }

  lemma ViewAppend(messages: seq<Message>, m: Message)
    ensures View(messages + [m]) == Extend(View(messages), m)
  {
    assert (messages + [m])[..|messages|] == messages;
  }

  /** Without a checkpoint the provider reads everything. */
  lemma {:induction false} ViewWithoutCheckpoint(messages: seq<Message>)
    requires forall i | 0 <= i < |messages| :: !HasCheckpoint(messages[i])
    ensures View(messages) == messages
  {
    if messages != [] {
      ViewWithoutCheckpoint(messages[..|messages| - 1]);
    }
  }

  /** With one, it reads the latest checkpoint's message from the checkpoint on
      and every later message whole. */
  lemma {:induction false} ViewFromLatestCheckpoint(before: seq<Message>, m: Message, after: seq<Message>)
    requires HasCheckpoint(m)
    requires forall i | 0 <= i < |after| :: !HasCheckpoint(after[i])
    ensures View(before + [m] + after) == [FromCheckpoint(m)] + after
  {
    if after == [] {
      ViewAppend(before, m);
      assert before + [m] + after == before + [m];
    } else {
      var n := |after| - 1;
      var front, last := after[..n], after[n];
      assert after == front + [last];
      ConcatLast(before + [m], after);
      ViewFromLatestCheckpoint(before, m, front);
      ViewAppend(before + [m] + front, last);
    }
  }

  /** Dropping everything before a checkpoint leaves the view as it was. */
  lemma TrimKeepsView(messages: seq<Message>, response: Response)
    ensures View(Appended(messages, response, true)) == View(Appended(messages, response, false))
  {
    var m := ParamMessage(response);
    ViewAppend(messages, m);
    ViewAppend([], m);
    assert [] + [m] == [m];
  }

  /** No checkpoint behind the first message: nothing kept is invisible as a whole. */
  predicate Bounded(messages: seq<Message>) {
    forall i | 0 < i < |messages| :: !HasCheckpoint(messages[i])
  }

  /** A bounded list holds exactly as many messages as the provider reads. */
  lemma {:induction false} BoundedIsMinimal(messages: seq<Message>)
    requires Bounded(messages)
    ensures |View(messages)| == |messages|
  {
    if |messages| > 1 {
      BoundedIsMinimal(messages[..|messages| - 1]);
    }
  }

  // ----- Usage -----

  /** The figures a TurnUsage holds. */
  datatype Totals = Totals(tokens: Tokens, messageIterations: int, compactionIterations: int)

  const ZERO_TOTALS := Totals(Tokens(0, 0, 0, 0), 0, 0)

  function AddTokens(a: Tokens, b: Tokens): Tokens {
    Tokens(a.input + b.input, a.output + b.output, a.cacheCreation + b.cacheCreation, a.cacheRead + b.cacheRead)
  }

  function AddTotals(a: Totals, b: Totals): Totals {
    Totals(AddTokens(a.tokens, b.tokens), a.messageIterations + b.messageIterations,
           a.compactionIterations + b.compactionIterations)
  }

  function BilledIteration(it: SamplingIteration): Totals {
    Totals(it.tokens, if it.compaction then 0 else 1, if it.compaction then 1 else 0)
  }

  /** The first n iterations together. */
  function BilledTo(its: seq<SamplingIteration>, n: nat): Totals
    requires n <= |its|
  {
    if n == 0 then ZERO_TOTALS else AddTotals(BilledTo(its, n - 1), BilledIteration(its[n - 1]))
  }

  /** What one response costs: its iterations when it lists any, its top-level figures otherwise. */
  function Billed(usage: Usage): Totals {
    if usage.iterations == [] then ZERO_TOTALS.(tokens := usage.topLevel)
    else BilledTo(usage.iterations, |usage.iterations|)
  }

  function SumTo(column: seq<int>, n: nat): int
    requires n <= |column|
  {
    if n == 0 then 0 else SumTo(column, n - 1) + column[n - 1]
  }

  /** The columns of a list of iterations; `compactions` has a one for each compaction. */
  predicate Columns(its: seq<SamplingIteration>, inputs: seq<int>, outputs: seq<int>, creations: seq<int>,
        cached: seq<int>, compactions: seq<int>) {
    && |inputs| == |outputs| == |creations| == |cached| == |compactions| == |its|
    && forall i | 0 <= i < |its| ::
         && its[i].tokens == Tokens(inputs[i], outputs[i], creations[i], cached[i])
         && compactions[i] == if its[i].compaction then 1 else 0
  }

  lemma {:induction false} IterationsAddUp(its: seq<SamplingIteration>, n: nat, inputs: seq<int>, outputs: seq<int>,
        creations: seq<int>, cached: seq<int>, compactions: seq<int>)
    requires Columns(its, inputs, outputs, creations, cached, compactions) && n <= |its|
    ensures var b := BilledTo(its, n);
            && b.tokens == Tokens(SumTo(inputs, n), SumTo(outputs, n), SumTo(creations, n), SumTo(cached, n))
            && b.compactionIterations == SumTo(compactions, n)
            && b.messageIterations == n - b.compactionIterations
  {
    if n > 0 {
      IterationsAddUp(its, n - 1, inputs, outputs, creations, cached, compactions);
    }
  }

  /** A response that lists its iterations adds the sums of their figures, each counted
      as a message or as a compaction; any other adds its top-level figures alone. */
  lemma UsageAddsUp(before: Totals, usage: Usage, inputs: seq<int>, outputs: seq<int>, creations: seq<int>,
        cached: seq<int>, compactions: seq<int>)
    requires Columns(usage.iterations, inputs, outputs, creations, cached, compactions)
    ensures var after, n, top := AddTotals(before, Billed(usage)), |usage.iterations|, usage.topLevel;
            && after.tokens.input == before.tokens.input + (if n == 0 then top.input else SumTo(inputs, n))
            && after.tokens.output == before.tokens.output + (if n == 0 then top.output else SumTo(outputs, n))
            && after.tokens.cacheCreation
               == before.tokens.cacheCreation + (if n == 0 then top.cacheCreation else SumTo(creations, n))
            && after.tokens.cacheRead
               == before.tokens.cacheRead + (if n == 0 then top.cacheRead else SumTo(cached, n))
            && after.compactionIterations == before.compactionIterations + SumTo(compactions, n)
            && after.messageIterations == before.messageIterations + n - SumTo(compactions, n)
  {
    IterationsAddUp(usage.iterations, |usage.iterations|, inputs, outputs, creations, cached, compactions);
  }

  class TurnUsage {
    var totals: Totals

    constructor ()
      ensures totals == ZERO_TOTALS
    {
      totals := ZERO_TOTALS;
    }

    method Add(usage: Usage)
      modifies this
      ensures totals == AddTotals(old(totals), Billed(usage))
    {
      if usage.iterations == [] {
        totals := totals.(tokens := AddTokens(totals.tokens, usage.topLevel));
        return;
      }
      var its := usage.iterations;
      ghost var before := totals;
      for i := 0 to |its|
        invariant totals == AddTotals(before, BilledTo(its, i))
      {
        ghost var s := totals;
        totals := totals.(tokens := AddTokens(totals.tokens, its[i].tokens));
        if its[i].compaction {
          totals := totals.(compactionIterations := totals.compactionIterations + 1);
        } else {
          totals := totals.(messageIterations := totals.messageIterations + 1);
        }
        assert totals == AddTotals(s, BilledIteration(its[i]));
      }
    }
  }
}

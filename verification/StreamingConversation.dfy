/** Whole conversations of the copilot, whose turns stream: the cut is unobservable and
    tool calls stay answered there too, whatever the deltas are. */
module StreamingConversation {
  import opened Basics
  import opened AnthropicContext
  import opened ContextCodec
  import opened AssistantRunner
  import opened AssistantConversation
  import opened AssistantStreaming

  /** How the streaming runner answers one message of a conversation. */
  function StreamTurns<E>(v: StreamWorld<E>, p: Policy, trim: bool): (E, Conversation, Input) -> Turn<E> {
    (env: E, c: Conversation, input: Input) =>
      RunStreamingTurn(v, env, p.maxIter, LastLines(c.history, p.historyLimit), c.context, input.text, input.image,
                       trim)
  }

  /** A streaming turn sees them too. */
  lemma StreamTurnsExactly<E>(v: StreamWorld<E>, p: Policy, trim: bool, env: E, c: Conversation, input: Input,
        recent: seq<ChatLine>)
    requires Latest(recent, c.history, p.historyLimit)
    ensures StreamTurns(v, p, trim)(env, c, input)
         == RunStreamingTurn(v, env, p.maxIter, recent, c.context, input.text, input.image, trim)
  {
    assert recent == LastLines(c.history, p.historyLimit);
  }

  // ----- The cut is unobservable -----

  /** The provider behind v, handed the view only. */
  function StreamingView<E>(v: StreamWorld<E>): StreamWorld<E> {
    StreamWorld((env, messages) => v.stream(env, View(messages)), v.invoke, v.sanitize)
  }

  lemma StreamSimulates<E>(v: StreamWorld<E>, s: Loop<E>, f: Loop<E>)
    requires SameLoop(s, f)
    ensures SameOutcome(IterateStream(StreamingView(v), s, true), IterateStream(StreamingView(v), f, false))
  {
    ViewsAppend(s.trace.requests, s.messages);
    ViewsAppend(f.trace.requests, f.messages);
    var (env1, streamed) := v.stream(s.env, View(s.messages));
    if streamed.response.Some? {
      var response := streamed.response.value;
      AppendedSameView(s.messages, f.messages, response);
      var tools := AssistantStreaming.Plain(StreamingView(v));
      var answer := Message(User, InvokeAll(tools, env1, ToolCalls(response.content)).1);
      ViewAppend(Appended(s.messages, response, true), answer);
      ViewAppend(Appended(f.messages, response, false), answer);
    }
  }

  lemma StreamLoopSimulates<E(!new)>(v: StreamWorld<E>, s: Loop<E>, f: Loop<E>, left: nat)
    requires SameLoop(s, f)
    ensures var cut, keep := StreamStepper(StreamingView(v), true), StreamStepper(StreamingView(v), false);
            && SameOutcome(Iterations(cut, s, left).0, Iterations(keep, f, left).0)
            && Iterations(cut, s, left).1 == Iterations(keep, f, left).1
  {
    var cut, keep := StreamStepper(StreamingView(v), true), StreamStepper(StreamingView(v), false);
    var alike := (a: Outcome<E>, b: Outcome<E>) => SameOutcome(a, b);
    forall x: Loop<E>, y: Loop<E> | alike(Continues(x), Continues(y))
      ensures alike(cut(x), keep(y))
    {
      StreamSimulates(v, x, y);
    }
    IterationsSimulate(cut, keep, alike, s, f, left);
  }

  lemma FinishStreamSame<E>(s: Outcome<E>, f: Outcome<E>, exhausted: bool)
    requires SameOutcome(s, f)
    ensures SameTurn(FinishStream(s, exhausted), FinishStream(f, exhausted))
  {
    if !s.Failed? {
      StoredAlikeIsSame(s.loop.messages, f.loop.messages);
    }
  }

  lemma StreamTurnSimulates<E(!new)>(v: StreamWorld<E>, env: E, maxIter: nat, history: seq<ChatLine>,
                                     a: ProviderContext, b: ProviderContext, input: Input)
    requires SameContext(a, b)
    ensures SameTurn(RunStreamingTurn(StreamingView(v), env, maxIter, history, a, input.text, input.image, true),
                     RunStreamingTurn(StreamingView(v), env, maxIter, history, b, input.text, input.image, false))
  {
    OpeningSameView(history, a, b, input);
    var x := TurnMessages(history, a, input.text, input.image);
    var y := TurnMessages(history, b, input.text, input.image);
    if x.Ok? {
      var s, f := Start(env, x.value), Start(env, y.value);
      StreamLoopSimulates(v, s, f, maxIter);
      var cut := Iterations(StreamStepper(StreamingView(v), true), s, maxIter);
      var keep := Iterations(StreamStepper(StreamingView(v), false), f, maxIter);
      FinishStreamSame(cut.0, keep.0, cut.1);
    }
  }

  /** The conversations of the copilot: against a provider that reads only from the
      latest valid compaction, cutting at checkpoints shows the same requests (as
      read), tool calls, replies, usage and transcript as keeping every message. */
  lemma StreamedCuttingIsUnobservable<E(!new)>(v: StreamWorld<E>, p: Policy, start: Dialogue<E>, inputs: seq<Input>)
    ensures SameDialogue(Talk(StreamTurns(StreamingView(v), p, true), p, start, inputs, |inputs|),
                         Talk(StreamTurns(StreamingView(v), p, false), p, start, inputs, |inputs|))
  {
    var cut, keep := StreamTurns(StreamingView(v), p, true), StreamTurns(StreamingView(v), p, false);
    forall env: E, c: Conversation, c': Conversation, input: Input
      | c.history == c'.history && SameContext(c.context, c'.context)
      ensures SameTurn(cut(env, c, input), keep(env, c', input))
    {
      var lines := LastLines(c.history, p.historyLimit);
      StreamTurnSimulates(v, env, p.maxIter, lines, c.context, c'.context, input);
    }
    TalkAlike(cut, keep, p, start, inputs, |inputs|);
  }

  // ----- Tool calls stay answered -----

  /** The outcome without its display text. */
  function Unspoken<E>(outcome: Outcome<E>): Outcome<E> {
    match outcome
    case Failed(_, _) => outcome
    case Answered(loop) => Answered(loop.(last := ""))
    case Continues(loop) => Continues(loop.(last := ""))
  }

  /** Apart from the text, an iteration does what the plain one does with the same reply. */
  lemma OnlyTextDiffers<E>(v: StreamWorld<E>, s: Loop<E>, trim: bool)
    ensures Unspoken(IterateStream(v, s, trim)) == Unspoken(Iterate(AssistantStreaming.Plain(v), s, trim))
  {
  }

  lemma UnspokenKept<E>(a: Outcome<E>, b: Outcome<E>, trim: bool)
    requires Unspoken(a) == Unspoken(b) && KeptOutcome(b, trim)
    ensures KeptOutcome(a, trim)
  {
  }

  lemma StreamLoopKeeps<E(!new)>(v: StreamWorld<E>, s: Loop<E>, left: nat, trim: bool)
    requires Kept(s.messages, trim) && KeptTrace(s.trace, trim)
    ensures KeptOutcome(Iterations(StreamStepper(v, trim), s, left).0, trim)
  {
    var step := StreamStepper(v, trim);
    forall x: Loop<E> | Kept(x.messages, trim) && KeptTrace(x.trace, trim)
      ensures KeptOutcome(step(x), trim)
    {
      IterateKeeps(AssistantStreaming.Plain(v), x, trim);
      OnlyTextDiffers(v, x, trim);
      UnspokenKept(step(x), Iterate(AssistantStreaming.Plain(v), x, trim), trim);
    }
    IterationsKeep(step, s, left, trim);
  }

  lemma FinishStreamKeeps<E>(outcome: Outcome<E>, exhausted: bool, trim: bool)
    requires KeptOutcome(outcome, trim)
    ensures KeptTurn(FinishStream(outcome, exhausted), trim)
  {
    if !outcome.Failed? {
      ContextRoundTrip(outcome.loop.messages);
    }
  }

  lemma StreamTurnKeeps<E(!new)>(v: StreamWorld<E>, env: E, maxIter: nat, history: seq<ChatLine>,
                                 context: ProviderContext, text: string, image: Option<ImageInput>, trim: bool)
    requires KeptContext(context, trim)
    ensures KeptTurn(RunStreamingTurn(v, env, maxIter, history, context, text, image, trim), trim)
  {
    var opening := TurnMessages(history, context, text, image);
    if opening.Ok? {
      OpeningIsKept(history, context, text, image, trim);
      StreamLoopKeeps(v, Start(env, opening.value), maxIter, trim);
      var end := Iterations(StreamStepper(v, trim), Start(env, opening.value), maxIter);
      FinishStreamKeeps(end.0, end.1, trim);
    }
  }

  /** In every request and every stored context of a streaming conversation, tool
      calls are answered at once, in order and completely; a cutting one never
      stores or sends a checkpoint behind its first message. */
  lemma StreamedConversationStaysPaired<E(!new)>(v: StreamWorld<E>, p: Policy, start: Dialogue<E>, inputs: seq<Input>,
                                                 trim: bool)
    requires KeptDialogue(start, trim)
    ensures KeptDialogue(Talk(StreamTurns(v, p, trim), p, start, inputs, |inputs|), trim)
  {
    var answer := StreamTurns(v, p, trim);
    forall env: E, c: Conversation, input: Input | KeptContext(c.context, trim)
      ensures KeptTurn(answer(env, c, input), trim)
    {
      var lines := LastLines(c.history, p.historyLimit);
      StreamTurnKeeps(v, env, p.maxIter, lines, c.context, input.text, input.image, trim);
    }
    TalkKeeps(answer, p, start, inputs, |inputs|, trim);
  }
}

/** The streaming turn and its agreement with the plain one:
    internal/assistant/runner_streaming.go. */
module AssistantStreaming {
  import opened Basics
  import opened AnthropicContext
  import opened ContextCodec
  import opened AssistantRunner

  /** One streamed reply: its text deltas in order and the accumulated response,
      None when the stream or the accumulation fails. */
  datatype Stream = Stream(deltas: seq<string>, response: Option<Response>)

  datatype StreamWorld<!E> = StreamWorld(
    stream: (E, seq<Message>) -> (E, Stream),
    invoke: (E, ToolCall) -> (E, ToolOutcome),
    sanitize: string -> string)

  /** The same tools behind a provider that does not stream. */
  function Plain<E>(v: StreamWorld<E>): World<E> {
    World((env, messages) => var (after, s) := v.stream(env, messages); (after, s.response), v.invoke, v.sanitize)
  }

  /** The first n deltas in one string. */
  function ConcatTo(deltas: seq<string>, n: nat): string
    requires n <= |deltas|
  {
    if n == 0 then "" else ConcatTo(deltas, n - 1) + deltas[n - 1]
  }

  /** The deltas are strung together in order, each whole. */
  lemma ConcatGrows(deltas: seq<string>, n: nat)
    requires n < |deltas|
    ensures ConcatTo(deltas, 0) == ""
    ensures var front, all := ConcatTo(deltas, n), ConcatTo(deltas, n + 1);
            |front| <= |all| && all[..|front|] == front && all[|front|..] == deltas[n]
  {
  }

  /** The display text of a streamed reply: the streamed text stands in when the
      blocks show nothing. */
  function StreamedText(sanitize: string -> string, s: Stream): string
    requires s.response.Some?
  {
    var text := DisplayText(sanitize, s.response.value.content);
    if text == "" then TrimSpace(ConcatTo(s.deltas, |s.deltas|)) else text
  }

  /** One iteration; `trim` selects the loop that cuts at checkpoints or one that never does. */
  function IterateStream<E>(v: StreamWorld<E>, s: Loop<E>, trim: bool): Outcome<E> {
    var (env1, streamed) := v.stream(s.env, s.messages);
    var requests := s.trace.requests + [s.messages];
    if streamed.response.None? then Failed(env1, Trace(requests, s.trace.calls)) else
    var response := streamed.response.value;
    var messages := Appended(s.messages, response, trim);
    var usage := AddTotals(s.usage, Billed(response.usage));
    var text, calls := StreamedText(v.sanitize, streamed), ToolCalls(response.content);
    if calls == [] then Answered(Loop(env1, Trace(requests, s.trace.calls), messages, text, usage)) else
    var (env2, results) := InvokeAll(Plain(v), env1, calls);
    Continues(Loop(env2, Trace(requests, s.trace.calls + calls), messages + [Message(User, results)], text, usage))
  }

  function StreamStepper<E>(v: StreamWorld<E>, trim: bool): Loop<E> -> Outcome<E> {
    (s: Loop<E>) => IterateStream(v, s, trim)
  }

  function StreamedFinalText(last: string, exhausted: bool): string {
    TrimSpace(if last == "" && exhausted then EXHAUSTED_REPLY else last)
  }

  function FinishStream<E>(outcome: Outcome<E>, exhausted: bool): Turn<E> {
    if outcome.Failed? then Turn(outcome.env, outcome.trace, None) else
    var end := outcome.loop;
    Turn(end.env, end.trace,
         Some(TurnResult(StreamedFinalText(end.last, exhausted), Encoded(end.messages), end.usage)))
  }

  function RunStreamingTurn<E>(v: StreamWorld<E>, env: E, maxIter: nat, history: seq<ChatLine>,
                               context: ProviderContext, text: string, image: Option<ImageInput>, trim: bool): Turn<E>
  {
    var opening := TurnMessages(history, context, text, image);
    if opening.Err? then Turn(env, SILENT, None) else
    var end := Iterations(StreamStepper(v, trim), Start(env, opening.value), maxIter);
    FinishStream(end.0, end.1)
  }

  class StreamingRunner {
    const maxIter: nat

    constructor (maxIter: nat)
      ensures this.maxIter == maxIter
    {
      this.maxIter := maxIter;
    }

    /** The event loop of one iteration: the text deltas, collected in order. */
    method Collect(deltas: seq<string>) returns (text: string)
      ensures text == ConcatTo(deltas, |deltas|)
    {
      text := "";
      for i := 0 to |deltas|
        invariant text == ConcatTo(deltas, i)
      {
        if deltas[i] != "" {
          text := text + deltas[i];
        }
      }
    }

    /** One round of the loop, begun in s. */
    method RunIteration<E>(v: StreamWorld<E>, env: E, history: seq<Message>, usage: TurnUsage, ghost s: Loop<E>)
      returns (after: E, messages: seq<Message>, text: string, more: bool, failed: bool, ghost trace: Trace)
      requires s == Loop(env, s.trace, history, s.last, usage.totals)
      modifies usage
      ensures failed ==> IterateStream(v, s, true) == Failed(after, trace)
      ensures !failed && more ==>
                IterateStream(v, s, true) == Continues(Loop(after, trace, messages, text, usage.totals))
      ensures !failed && !more ==>
                IterateStream(v, s, true) == Answered(Loop(after, trace, messages, text, usage.totals))
    {
      messages, text, more, failed := history, "", false, true;
      var (next, streamed) := v.stream(env, messages);
      after := next;
      trace := Trace(s.trace.requests + [messages], s.trace.calls);
      var streamedText := Collect(streamed.deltas);
      if streamed.response.None? {
        return;
      }
      failed := false;
      usage.Add(streamed.response.value.usage);
      var toolBlocks;
      text, toolBlocks := ExtractBetaContent(v.sanitize, streamed.response.value);
      if text == "" {
        text := TrimSpace(streamedText);
      }
      var state;
      messages, state := AppendBetaResponse(messages, streamed.response);
      if |toolBlocks| == 0 {
        return;
      }
      var toolResults;
      after, toolResults := InvokeBetaTools(Plain(v), after, toolBlocks);
      trace := Trace(trace.requests, trace.calls + toolBlocks);
      messages := messages + [Message(User, toolResults)];
      more := true;
    }

    method RunIterations<E>(v: StreamWorld<E>, env: E, opening: seq<Message>, usage: TurnUsage)
      returns (after: E, messages: seq<Message>, lastAssistant: string, exhausted: bool, failed: bool,
            ghost trace: Trace)
      modifies usage
      ensures Iterations(StreamStepper(v, true), Loop(env, SILENT, opening, "", old(usage.totals)), maxIter)
           == (if failed then Failed(after, trace)
               else Answered(Loop(after, trace, messages, lastAssistant, usage.totals)), exhausted)
    {
      after, messages, lastAssistant, trace := env, opening, "", SILENT;
      ghost var step := StreamStepper(v, true);
      ghost var whole := Iterations(step, Loop(env, SILENT, opening, "", usage.totals), maxIter);
      var iter := 0;
      while iter < maxIter
        invariant 0 <= iter <= maxIter
        invariant whole == Iterations(step, Loop(after, trace, messages, lastAssistant, usage.totals), maxIter - iter)
      {
        ghost var s := Loop(after, trace, messages, lastAssistant, usage.totals);
        var more;
        after, messages, lastAssistant, more, failed, trace := RunIteration(v, after, messages, usage, s);
        assert step(s) == IterateStream(v, s, true);
        if failed || !more {
          return after, messages, lastAssistant, false, failed, trace;
        }
        iter := iter + 1;
      }
      exhausted, failed := true, false;
    }

    /** RunWithStreamingContext */
    method RunWithStreamingContext<E>(v: StreamWorld<E>, env: E, history: seq<ChatLine>, context: ProviderContext,
                                      userMessage: string, image: Option<ImageInput>)
      returns (after: E, result: Option<TurnResult>, ghost trace: Trace)
      ensures after == RunStreamingTurn(v, env, maxIter, history, context, userMessage, image, true).env
      ensures result == RunStreamingTurn(v, env, maxIter, history, context, userMessage, image, true).result
      ensures trace == RunStreamingTurn(v, env, maxIter, history, context, userMessage, image, true).trace
    {
      var opening := BuildTurnMessages(history, context, userMessage, image);
      if opening.Err? {
        return env, None, SILENT;
      }
      var usage := new TurnUsage();
      var messages, lastAssistant, exhausted, failed;
      after, messages, lastAssistant, exhausted, failed, trace := RunIterations(v, env, opening.value, usage);
      if failed {
        return after, None, trace;
      }
      if lastAssistant == "" && exhausted {
        lastAssistant := EXHAUSTED_REPLY;
      }
      var encoded := EncodeProviderContext(messages);
      result := Some(TurnResult(TrimSpace(lastAssistant), encoded, usage.totals));
    }
  }

  // ----- Agreement -----

  /** The text of the first n blocks, joined without any trimming. */
  function RawTextTo(content: seq<ReplyBlock>, n: nat): string
    requires n <= |content|
  {
    if n == 0 then "" else RawTextTo(content, n - 1) + if content[n - 1].ReplyText? then content[n - 1].text else ""
  }

  /** The deltas of every reply are together the text of the accumulated response. */
  ghost predicate DeltasAccumulate<E(!new)>(v: StreamWorld<E>) {
    forall env: E, messages: seq<Message> :: Accumulates(v.stream(env, messages).1)
  }

  predicate Accumulates(s: Stream) {
    s.response.Some? ==>
      ConcatTo(s.deltas, |s.deltas|) == RawTextTo(s.response.value.content, |s.response.value.content|)
  }

  /** Where nothing is displayed, the raw text is white space only. */
  lemma {:induction false} NothingDisplayed(sanitize: string -> string, content: seq<ReplyBlock>, n: nat)
    requires n <= |content| && DisplayTextTo(sanitize, content, n) == ""
    ensures !Inked(RawTextTo(content, n))
  {
    if n > 0 {
      var b := content[n - 1];
      NothingDisplayed(sanitize, content, n - 1);
      if b.ReplyText? {
        TrimSpaceKeepsInk(b.text);
        InkedConcat(RawTextTo(content, n - 1), b.text);
      }
    }
  }

  /** The two readings of one reply agree exactly when the blocks show something
      or the deltas show nothing. */
  lemma StreamedTextAgrees(sanitize: string -> string, s: Stream)
    requires s.response.Some?
    ensures StreamedText(sanitize, s) == DisplayText(sanitize, s.response.value.content)
       <==> DisplayText(sanitize, s.response.value.content) != "" || !Inked(ConcatTo(s.deltas, |s.deltas|))
  {
    TrimSpaceKeepsInk(ConcatTo(s.deltas, |s.deltas|));
  }

  /** A loop whose last display text is empty or shows something. */
  predicate Shown<E>(outcome: Outcome<E>) {
    outcome.Failed? || outcome.loop.last == "" || Inked(outcome.loop.last)
  }

  lemma IterateAgrees<E(!new)>(v: StreamWorld<E>, s: Loop<E>)
    requires DeltasAccumulate(v)
    ensures IterateStream(v, s, true) == Iterate(Plain(v), s, true)
    ensures Shown(IterateStream(v, s, true))
  {
    var streamed := v.stream(s.env, s.messages).1;
    if streamed.response.Some? {
      var content := streamed.response.value.content;
      assert Accumulates(streamed);
      if DisplayText(v.sanitize, content) == "" {
        NothingDisplayed(v.sanitize, content, |content|);
      }
      StreamedTextAgrees(v.sanitize, streamed);
      DisplayTextInked(v.sanitize, content, |content|);
    }
  }

  lemma {:induction false} IterationsAgree<E(!new)>(a: Loop<E> -> Outcome<E>, b: Loop<E> -> Outcome<E>, s: Loop<E>,
        left: nat)
    requires forall x: Loop<E> :: a(x) == b(x) && Shown(a(x))
    requires Shown(Answered(s))
    ensures Iterations(a, s, left) == Iterations(b, s, left)
    ensures Shown(Iterations(a, s, left).0)
    decreases left
  {
    if left > 0 {
      assert a(s) == b(s) && Shown(a(s));
      if a(s).Continues? {
        IterationsAgree(a, b, a(s).loop, left - 1);
      }
    }
  }

  lemma FinalTextAgrees(last: string, exhausted: bool)
    requires last == "" || Inked(last)
    ensures StreamedFinalText(last, exhausted) == FinalText(last, exhausted)
  {
    TrimSpaceKeepsInk(last);
    ExhaustedReplyIsTrimmed();
  }

  /** For the same replies, the streaming turn and the plain turn return the same
      text, context and usage, send the same requests and call the same tools,
      including when they run out of iterations or fail. */
  lemma StreamingAgrees<E(!new)>(v: StreamWorld<E>, env: E, maxIter: nat, history: seq<ChatLine>,
                                 context: ProviderContext, text: string, image: Option<ImageInput>)
    requires DeltasAccumulate(v)
    ensures RunStreamingTurn(v, env, maxIter, history, context, text, image, true)
         == RunTurn(Plain(v), env, maxIter, history, context, text, image, true)
  {
    var opening := TurnMessages(history, context, text, image);
    if opening.Ok? {
      var a, b := StreamStepper(v, true), Stepper(Plain(v), true);
      forall x: Loop<E>
        ensures a(x) == b(x) && Shown(a(x))
      {
        IterateAgrees(v, x);
      }
      IterationsAgree(a, b, Start(env, opening.value), maxIter);
      var end := Iterations(a, Start(env, opening.value), maxIter);
      if !end.0.Failed? {
        FinalTextAgrees(end.0.loop.last, end.1);
      }
    }
  }
}

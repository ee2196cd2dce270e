/** Plain and streaming turns told exchange by exchange: what was sent, called, counted
    and answered. */
module AssistantTurns {
  import opened Basics
  import opened AnthropicContext
  import opened ContextCodec
  import opened AssistantRunner
  import opened AssistantStreaming

  /** A request with its reply, None where the provider failed, the text the reply shows
      and the results of the tools it called. */
  datatype Exchange = Exchange(request: seq<Message>, reply: Option<Response>, text: string, results: seq<Block>)

  /** What comes of messages sent in a state, and the state after it. */
  type Talker<!E> = (E, seq<Message>) -> (Exchange, E)

  predicate CallsTools(e: Exchange) {
    e.reply.Some? && exists i | 0 <= i < |e.reply.value.content| :: e.reply.value.content[i].ReplyToolUse?
  }

  function Talking<E>(w: World<E>): Talker<E> {
    (env, messages) =>
      var (sent, reply) := w.send(env, messages);
      if reply.None? then (Exchange(messages, None, "", []), sent) else
      var (after, results) := InvokeAll(w, sent, ToolCalls(reply.value.content));
      (Exchange(messages, reply, DisplayText(w.sanitize, reply.value.content), results), after)
  }

  /** The text of a streamed reply is that of its blocks or, where they show nothing, the
      deltas put together, without the white space around them. */
  function Streaming<E>(v: StreamWorld<E>): Talker<E> {
    (env, messages) =>
      var (sent, s) := v.stream(env, messages);
      if s.response.None? then (Exchange(messages, None, "", []), sent) else
      var content := s.response.value.content;
      var (after, results) := InvokeAll(AssistantStreaming.Plain(v), sent, ToolCalls(content));
      var shown := DisplayText(v.sanitize, content);
      var text := if shown != "" then shown else TrimSpace(ConcatTo(s.deltas, |s.deltas|));
      (Exchange(messages, s.response, text, results), after)
  }

  /** The messages after an exchange: the request with the reply behind it or, when it
      is cut, the reply alone; then the results, when tools were called. */
  function After(e: Exchange, trim: bool): seq<Message>
    requires e.reply.Some?
  {
    Appended(e.request, e.reply.value, trim) + if CallsTools(e) then [Message(User, e.results)] else []
  }

  /** The exchanges of at most `left` iterations from these messages on. */
  function Exchanges<E>(talk: Talker<E>, env: E, messages: seq<Message>, left: nat, trim: bool): seq<Exchange>
    decreases left
  {
    if left == 0 then [] else
    var (e, after) := talk(env, messages);
    if CallsTools(e) then [e] + Exchanges(talk, after, After(e, trim), left - 1, trim) else [e]
  }

  /** Only the last exchange may call nothing, and no more are made than allowed. */
  lemma {:induction false} OnlyLastIsSilent<E>(talk: Talker<E>, env: E, messages: seq<Message>, left: nat, trim: bool)
    ensures var log := Exchanges(talk, env, messages, left, trim);
            && |log| <= left && (left > 0 ==> log != [])
            && (forall k | 0 <= k < |log| - 1 :: CallsTools(log[k]))
            && (0 < |log| < left ==> !CallsTools(log[|log| - 1]))
    decreases left
  {
    if left > 0 {
      var (e, after) := talk(env, messages);
      if CallsTools(e) {
        OnlyLastIsSilent(talk, after, After(e, trim), left - 1, trim);
        var rest := Exchanges(talk, after, After(e, trim), left - 1, trim);
        assert Exchanges(talk, env, messages, left, trim) == [e] + rest;
        assert forall k | 0 < k < |rest| :: ([e] + rest)[k] == rest[k - 1];
      }
    }
  }

  // ----- Sums over exchanges -----

  function TraceWith(trace: Trace, e: Exchange): Trace {
    Trace(trace.requests + [e.request],
          trace.calls + if e.reply.Some? then ToolCalls(e.reply.value.content) else [])
  }

  function CostWith(usage: Totals, e: Exchange): Totals {
    if e.reply.Some? then AddTotals(usage, Billed(e.reply.value.usage)) else usage
  }

  function TraceOf(trace: Trace, log: seq<Exchange>): Trace
    decreases |log|
  {
    if log == [] then trace else TraceOf(TraceWith(trace, log[0]), log[1..])
  }

  function CostOf(usage: Totals, log: seq<Exchange>): Totals
    decreases |log|
  {
    if log == [] then usage else CostOf(CostWith(usage, log[0]), log[1..])
  }

  function RequestsIn(log: seq<Exchange>): seq<seq<Message>> {
    if log == [] then [] else [log[0].request] + RequestsIn(log[1..])
  }

  function CallsIn(log: seq<Exchange>): seq<ToolCall> {
    if log == [] then [] else
    (if log[0].reply.Some? then ToolCalls(log[0].reply.value.content) else []) + CallsIn(log[1..])
  }

  lemma {:induction false} TraceIsAll(trace: Trace, log: seq<Exchange>)
    ensures TraceOf(trace, log) == Trace(trace.requests + RequestsIn(log), trace.calls + CallsIn(log))
    decreases |log|
  {
    if log == [] {
      assert trace.requests + [] == trace.requests && trace.calls + [] == trace.calls;
    } else {
      var next, rest := TraceWith(trace, log[0]), log[1..];
      TraceIsAll(next, rest);
      assert trace.requests + RequestsIn(log) == next.requests + RequestsIn(rest);
      assert trace.calls + CallsIn(log) == next.calls + CallsIn(rest);
    }
  }

  // ----- The loop -----

  /** What one exchange makes of the loop. */
  function Step<E>(talk: Talker<E>, s: Loop<E>, trim: bool): Outcome<E> {
    var (e, after) := talk(s.env, s.messages);
    if e.reply.None? then Failed(after, TraceWith(s.trace, e)) else
    var t := Loop(after, TraceWith(s.trace, e), After(e, trim), e.text, CostWith(s.usage, e));
    if CallsTools(e) then Continues(t) else Answered(t)
  }

  ghost predicate Steps<E(!new)>(step: Loop<E> -> Outcome<E>, talk: Talker<E>, trim: bool) {
    forall s: Loop<E> :: step(s) == Step(talk, s, trim)
  }

  lemma {:induction false} CallsAreTools(content: seq<ReplyBlock>, n: nat)
    requires n <= |content|
    ensures ToolCallsTo(content, n) != [] <==> exists i | 0 <= i < n :: content[i].ReplyToolUse?
  {
    if n > 0 {
      CallsAreTools(content, n - 1);
    }
  }

  /** One iteration of the plain loop does what one exchange does. */
  lemma IterateTells<E(!new)>(w: World<E>, trim: bool)
    ensures Steps(Stepper(w, trim), Talking(w), trim)
  {
    forall s: Loop<E>
      ensures Stepper(w, trim)(s) == Step(Talking(w), s, trim)
    {
      var (_, reply) := w.send(s.env, s.messages);
      if reply.Some? {
        CallsAreTools(reply.value.content, |reply.value.content|);
      }
    }
  }

  lemma StreamStepTells<E>(v: StreamWorld<E>, s: Loop<E>, trim: bool)
    ensures IterateStream(v, s, trim) == Step(Streaming(v), s, trim)
  {
    var (_, streamed) := v.stream(s.env, s.messages);
    if streamed.response.Some? {
      var content := streamed.response.value.content;
      CallsAreTools(content, |content|);
      var e := Streaming(v)(s.env, s.messages).0;
      assert e.text == StreamedText(v.sanitize, streamed);
      assert CallsTools(e) <==> ToolCalls(content) != [];
    }
  }

  lemma IterateStreamTells<E(!new)>(v: StreamWorld<E>, trim: bool)
    ensures Steps(StreamStepper(v, trim), Streaming(v), trim)
  {
    forall s: Loop<E>
      ensures StreamStepper(v, trim)(s) == Step(Streaming(v), s, trim)
    {
      StreamStepTells(v, s, trim);
    }
  }

  /** How a loop that began with s ended, by its exchanges. */
  ghost predicate Tells<E>(log: seq<Exchange>, s: Loop<E>, outcome: Outcome<E>, exhausted: bool, trim: bool) {
    if log == [] then outcome == Answered(s) && exhausted else
    var e := log[|log| - 1];
    && (exhausted <==> CallsTools(e))
    && (if e.reply.None? then outcome.Failed? && outcome.trace == TraceOf(s.trace, log) else
        && outcome.Answered?
        && outcome.loop.trace == TraceOf(s.trace, log)
        && outcome.loop.usage == CostOf(s.usage, log)
        && outcome.loop.last == e.text
        && outcome.loop.messages == After(e, trim))
  }

  lemma TellsFrom<E>(e: Exchange, log: seq<Exchange>, s: Loop<E>, t: Loop<E>, outcome: Outcome<E>, exhausted: bool,
        trim: bool)
    requires CallsTools(e) && Tells(log, t, outcome, exhausted, trim)
    requires t == Loop(t.env, TraceWith(s.trace, e), After(e, trim), e.text, CostWith(s.usage, e))
    ensures Tells([e] + log, s, outcome, exhausted, trim)
  {
    var all := [e] + log;
    assert all[0] == e && all[1..] == log;
    if log == [] {
      assert TraceOf(t.trace, log) == t.trace && CostOf(t.usage, log) == t.usage;
    } else {
      assert all[|all| - 1] == log[|log| - 1];
    }
  }

  lemma {:induction false} NextIsTold<E(!new)>(step: Loop<E> -> Outcome<E>, talk: Talker<E>, s: Loop<E>, left: nat,
        trim: bool)
    requires Steps(step, talk, trim) && CallsTools(talk(s.env, s.messages).0)
    ensures var end := Iterations(step, s, left + 1);
            Tells(Exchanges(talk, s.env, s.messages, left + 1, trim), s, end.0, end.1, trim)
    decreases left, 1
  {
    var e := talk(s.env, s.messages).0;
    assert step(s) == Step(talk, s, trim);
    var t := step(s).loop;
    LoopIsTold(step, talk, t, left, trim);
    var end := Iterations(step, t, left);
    TellsFrom(e, Exchanges(talk, t.env, t.messages, left, trim), s, t, end.0, end.1, trim);
  }

  lemma {:induction false} LoopIsTold<E(!new)>(step: Loop<E> -> Outcome<E>, talk: Talker<E>, s: Loop<E>, left: nat,
        trim: bool)
    requires Steps(step, talk, trim)
    ensures var end := Iterations(step, s, left);
            Tells(Exchanges(talk, s.env, s.messages, left, trim), s, end.0, end.1, trim)
    decreases left, 0
  {
    if left > 0 {
      var e := talk(s.env, s.messages).0;
      assert step(s) == Step(talk, s, trim);
      if CallsTools(e) {
        NextIsTold(step, talk, s, left - 1, trim);
      } else {
        assert [e][1..] == [];
        assert TraceOf(s.trace, [e]) == TraceOf(TraceWith(s.trace, e), []);
        assert CostOf(s.usage, [e]) == CostOf(CostWith(s.usage, e), []);
      }
    }
  }

  // ----- Turns -----

  /** What a turn with these exchanges gives: no result where the provider failed, and
      otherwise the text of the last reply, without the white space around it. */
  ghost predicate TurnTells<E>(log: seq<Exchange>, turn: Turn<E>, trim: bool) {
    && turn.trace == Trace(RequestsIn(log), CallsIn(log))
    && (turn.result.None? <==> log != [] && log[|log| - 1].reply.None?)
    && (turn.result.Some? && log != [] ==>
          var e := log[|log| - 1];
          && turn.result.value.usage == CostOf(Totals(Tokens(0, 0, 0, 0), 0, 0), log)
          && turn.result.value.context == Encoded(After(e, trim))
          && ShowsLast(turn.result.value.text, e))
  }

  /** The apology stands in where the turn ran out of iterations with nothing to show. */
  predicate ShowsLast(text: string, e: Exchange) {
    text == if TrimSpace(e.text) == "" && CallsTools(e) then EXHAUSTED_REPLY else TrimSpace(e.text)
  }

  lemma FinishTells<E(!new)>(log: seq<Exchange>, s: Loop<E>, outcome: Outcome<E>, exhausted: bool, trim: bool)
    requires Tells(log, s, outcome, exhausted, trim)
    requires s == Start(s.env, s.messages)
    ensures TurnTells(log, Finish(outcome, exhausted), trim)
  {
    TraceIsAll(SILENT, log);
    assert [] + CallsIn(log) == CallsIn(log) && [] + RequestsIn(log) == RequestsIn(log);
    assert log == [] ==> RequestsIn(log) == [] && CallsIn(log) == [];
  }

  /** A whole turn is told by its exchanges; without a decodable context nothing is sent. */
  lemma TurnIsTold<E(!new)>(w: World<E>, env: E, maxIter: nat, history: seq<ChatLine>, context: ProviderContext,
        text: string, image: Option<ImageInput>, trim: bool)
    ensures var turn := RunTurn(w, env, maxIter, history, context, text, image, trim);
            var opening := TurnMessages(history, context, text, image);
            if opening.Err? then turn.result.None? && turn.env == env && turn.trace == Trace([], [])
            else TurnTells(Exchanges(Talking(w), env, opening.value, maxIter, trim), turn, trim)
  {
    var opening := TurnMessages(history, context, text, image);
    if opening.Ok? {
      var s := Start(env, opening.value);
      IterateTells(w, trim);
      LoopIsTold(Stepper(w, trim), Talking(w), s, maxIter, trim);
      var end := Iterations(Stepper(w, trim), s, maxIter);
      FinishTells(Exchanges(Talking(w), env, opening.value, maxIter, trim), s, end.0, end.1, trim);
    }
  }

  /** The text of a streamed exchange is empty or shows something. */
  predicate Visible(e: Exchange) {
    e.text == "" || Inked(e.text)
  }

  lemma StreamIsVisible<E>(v: StreamWorld<E>, env: E, messages: seq<Message>)
    ensures Visible(Streaming(v)(env, messages).0)
  {
    var s := v.stream(env, messages).1;
    if s.response.Some? {
      DisplayTextInked(v.sanitize, s.response.value.content, |s.response.value.content|);
      TrimSpaceKeepsInk(ConcatTo(s.deltas, |s.deltas|));
    }
  }

  lemma {:induction false} AllVisible<E(!new)>(talk: Talker<E>, env: E, messages: seq<Message>, left: nat, trim: bool)
    requires forall x: E, y: seq<Message> :: Visible(talk(x, y).0)
    ensures forall k | 0 <= k < |Exchanges(talk, env, messages, left, trim)| ::
              Visible(Exchanges(talk, env, messages, left, trim)[k])
    decreases left
  {
    if left > 0 {
      var (e, after) := talk(env, messages);
      if CallsTools(e) {
        AllVisible(talk, after, After(e, trim), left - 1, trim);
      }
    }
  }

  /** So is a whole streaming turn. */
  lemma StreamingTurnIsTold<E(!new)>(v: StreamWorld<E>, env: E, maxIter: nat, history: seq<ChatLine>,
        context: ProviderContext, text: string, image: Option<ImageInput>, trim: bool)
    ensures var turn := RunStreamingTurn(v, env, maxIter, history, context, text, image, trim);
            var opening := TurnMessages(history, context, text, image);
            if opening.Err? then turn.result.None? && turn.env == env && turn.trace == Trace([], [])
            else TurnTells(Exchanges(Streaming(v), env, opening.value, maxIter, trim), turn, trim)
  {
    var opening := TurnMessages(history, context, text, image);
    if opening.Ok? {
      var s, step := Start(env, opening.value), StreamStepper(v, trim);
      var log := Exchanges(Streaming(v), env, opening.value, maxIter, trim);
      IterateStreamTells(v, trim);
      LoopIsTold(step, Streaming(v), s, maxIter, trim);
      forall x: E, y: seq<Message>
        ensures Visible(Streaming(v)(x, y).0)
      {
        StreamIsVisible(v, x, y);
      }
      AllVisible(Streaming(v), env, opening.value, maxIter, trim);
      var end := Iterations(step, s, maxIter);
      if end.0.Answered? {
        assert log != [] ==> Visible(log[|log| - 1]);
        FinalTextAgrees(end.0.loop.last, end.1);
      }
      FinishTells(log, s, end.0, end.1, trim);
    }
  }
}

/** The assistant turn: internal/assistant/runner.go. */
module AssistantRunner {
  import opened Basics
  import opened AnthropicContext
  import opened ContextCodec

  datatype ToolCall = ToolCall(id: string, name: string, input: string)

  /** What the executor and the encoding of its result give for one call. */
  datatype ToolOutcome = ToolOutcome(payload: string, isError: bool)

  /** Everything outside the runner. E is its state, so that answers may depend
      on time, on earlier calls and on chance. */
  datatype World<!E> = World(
    send: (E, seq<Message>) -> (E, Option<Response>),
    invoke: (E, ToolCall) -> (E, ToolOutcome),
    sanitize: string -> string)

  const DEFAULT_MAX_ITERATIONS := 5
  const EXHAUSTED_REPLY :=
    "I ran out of steps trying to answer that. " + "Could you try rephrasing, or ask something more specific?"

  // ----- Trimming -----

  /** unicode.IsSpace */
  predicate IsSpace(c: char) {
    var n := c as int;
    || 9 <= n <= 13 || n == 32 || n == 0x85 || n == 0xA0 || n == 0x1680
    || 0x2000 <= n <= 0x200A || n == 0x2028 || n == 0x2029 || n == 0x202F || n == 0x205F || n == 0x3000
  }

  /** Some character is not white space. */
  predicate Inked(s: string) {
    exists i | 0 <= i < |s| :: !IsSpace(s[i])
  }

  /** The first position from i on that is not white space, |s| if there is none. */
  function SkipSpace(s: string, i: nat): (r: nat)
    requires i <= |s|
    ensures i <= r <= |s|
    ensures forall k | i <= k < r :: IsSpace(s[k])
    ensures r < |s| ==> !IsSpace(s[r])
    decreases |s| - i
  {
    if i < |s| && IsSpace(s[i]) then SkipSpace(s, i + 1) else i
  }

  /** The end of s[..n] without its trailing white space. */
  function SkipSpaceBack(s: string, n: nat): (r: nat)
    requires n <= |s|
    ensures r <= n
    ensures forall k | r <= k < n :: IsSpace(s[k])
    ensures r > 0 ==> !IsSpace(s[r - 1])
  {
    if n > 0 && IsSpace(s[n - 1]) then SkipSpaceBack(s, n - 1) else n
  }

  /** strings.TrimSpace */
  function TrimSpace(s: string): string {
    var from, to := SkipSpace(s, 0), SkipSpaceBack(s, |s|);
    if from < to then s[from..to] else ""
  }

  lemma TrimSpaceKeepsInk(s: string)
    ensures TrimSpace(s) == "" <==> !Inked(s)
    ensures Inked(s) ==> Inked(TrimSpace(s))
    ensures TrimSpace(TrimSpace(s)) == TrimSpace(s)
  {
    var from, to := SkipSpace(s, 0), SkipSpaceBack(s, |s|);
    if from < to {
      var t := s[from..to];
      assert t[0] == s[from] && t[|t| - 1] == s[to - 1];
      assert SkipSpace(t, 0) == 0 && SkipSpaceBack(t, |t|) == |t|;
    }
  }

  /** Trimming takes white space off both ends and nothing else. */
  lemma TrimSpaceExactly(s: string) returns (from: nat, to: nat)
    ensures from <= to <= |s| && TrimSpace(s) == s[from..to]
    ensures forall i | 0 <= i < |s| && !(from <= i < to) :: IsSpace(s[i])
    ensures from < to ==> !IsSpace(s[from]) && !IsSpace(s[to - 1])
  {
    from, to := SkipSpace(s, 0), SkipSpaceBack(s, |s|);
    if from >= to {
      from, to := 0, 0;
      assert forall i | 0 <= i < |s| :: IsSpace(s[i]);
    }
  }

  lemma SpacesAre(c: char)
    requires c as int < 0x1680
    ensures IsSpace(c) <==> c in [' ', '\t', '\n', '\r', '\U{000B}', '\U{000C}', '\U{0085}', '\U{00A0}']
  {
  }

  lemma ExhaustedReplyIsTrimmed()
    ensures TrimSpace(EXHAUSTED_REPLY) == EXHAUSTED_REPLY
  {
    var reply := EXHAUSTED_REPLY;
    assert reply[0] == 'I' && reply[|reply| - 1] == '?';
    assert SkipSpace(reply, 0) == 0 && SkipSpaceBack(reply, |reply|) == |reply|;
  }

  lemma InkedConcat(a: string, b: string)
    ensures Inked(a + b) <==> Inked(a) || Inked(b)
  {
    if i :| 0 <= i < |a| && !IsSpace(a[i]) {
      assert (a + b)[i] == a[i];
    }
    if i :| 0 <= i < |b| && !IsSpace(b[i]) {
      assert (a + b)[|a| + i] == b[i];
    }
  }

  // ----- Reading a response -----

  const WEB_SEARCH_PREFIX := "web_search: "

  /** The display text one block contributes; empty when it contributes none. */
  function Piece(sanitize: string -> string, b: ReplyBlock): string {
    match b
    case ReplyText(text) => TrimSpace(text)
    case ReplyWebSearch(found) => WEB_SEARCH_PREFIX + (if found != "" then sanitize(found) else "results available")
    case _ => ""
  }

  /** Pieces are joined by line breaks, empty ones skipped. */
  function Joined(front: string, piece: string): string {
    if piece == "" then front else if front == "" then piece else front + "\n" + piece
  }

  /** The display text of the first n blocks. */
  function DisplayTextTo(sanitize: string -> string, content: seq<ReplyBlock>, n: nat): string
    requires n <= |content|
  {
    if n == 0 then ""
    else Joined(DisplayTextTo(sanitize, content, n - 1), Piece(sanitize, content[n - 1]))
  }

  function DisplayText(sanitize: string -> string, content: seq<ReplyBlock>): string {
    DisplayTextTo(sanitize, content, |content|)
  }

  /** The tool calls among the first n blocks. */
  function ToolCallsTo(content: seq<ReplyBlock>, n: nat): seq<ToolCall>
    requires n <= |content|
  {
    if n == 0 then [] else
    var front, b := ToolCallsTo(content, n - 1), content[n - 1];
    if b.ReplyToolUse? then front + [ToolCall(b.id, b.name, b.input)] else front
  }

  function ToolCalls(content: seq<ReplyBlock>): seq<ToolCall> {
    ToolCallsTo(content, |content|)
  }

  /** A piece is either empty or shows something. */
  lemma PieceInked(sanitize: string -> string, b: ReplyBlock)
    ensures Piece(sanitize, b) == "" || Inked(Piece(sanitize, b))
  {
    if b.ReplyText? {
      TrimSpaceKeepsInk(b.text);
    } else if b.ReplyWebSearch? {
      assert WEB_SEARCH_PREFIX[0] == 'w' && !IsSpace('w');
      InkedConcat(WEB_SEARCH_PREFIX, if b.found != "" then sanitize(b.found) else "results available");
    }
  }

  lemma JoinedInked(front: string, piece: string)
    requires (front == "" || Inked(front)) && (piece == "" || Inked(piece))
    ensures Joined(front, piece) == "" || Inked(Joined(front, piece))
  {
    InkedConcat(front + "\n", piece);
  }

  /** A display text is either empty or shows something. */
  lemma {:induction false} DisplayTextInked(sanitize: string -> string, content: seq<ReplyBlock>, n: nat)
    requires n <= |content|
    ensures DisplayTextTo(sanitize, content, n) == "" || Inked(DisplayTextTo(sanitize, content, n))
  {
    if n > 0 {
      DisplayTextInked(sanitize, content, n - 1);
      PieceInked(sanitize, content[n - 1]);
      JoinedInked(DisplayTextTo(sanitize, content, n - 1), Piece(sanitize, content[n - 1]));
    }
  }

  /** Block n adds to the display text its own on a line below, when it has any: a trimmed
      text, or a web search whatever it found. */
  lemma DisplayTextGrows(sanitize: string -> string, content: seq<ReplyBlock>, n: nat)
    requires n < |content|
    ensures DisplayTextTo(sanitize, content, 0) == ""
    ensures var b := content[n];
            var front, all := DisplayTextTo(sanitize, content, n), DisplayTextTo(sanitize, content, n + 1);
            && (b.ReplyText? && TrimSpace(b.text) != "" ==>
                  all == if front == "" then TrimSpace(b.text) else front + "\n" + TrimSpace(b.text))
            && (b.ReplyWebSearch? ==>
                  var found := "web_search: " + if b.found == "" then "results available" else sanitize(b.found);
                  all == if front == "" then found else front + "\n" + found)
            && (!b.ReplyText? && !b.ReplyWebSearch? ==> all == front)
            && (b.ReplyText? && TrimSpace(b.text) == "" ==> all == front)
  {
  }

  /** Block n adds its tool call, when it is one, with its id, name and input. */
  lemma ToolCallsGrow(content: seq<ReplyBlock>, n: nat)
    requires n < |content|
    ensures ToolCallsTo(content, 0) == []
    ensures var b, front, all := content[n], ToolCallsTo(content, n), ToolCallsTo(content, n + 1);
            if b.ReplyToolUse? then
              |all| == |front| + 1 && all[..|front|] == front
              && all[|front|].id == b.id && all[|front|].name == b.name && all[|front|].input == b.input
            else all == front
  {
  }

  method WritePiece(text: string, piece: string) returns (r: string)
    ensures r == Joined(text, piece)
  {
    r := text;
    if piece != "" {
      if |r| > 0 {
        r := r + "\n";
      }
      r := r + piece;
    }
  }

  method ExtractBetaContent(sanitize: string -> string, response: Response)
    returns (text: string, calls: seq<ToolCall>)
    ensures text == DisplayText(sanitize, response.content)
    ensures calls == ToolCalls(response.content)
  {
    text, calls := "", [];
    var content := response.content;
    for i := 0 to |content|
      invariant text == DisplayTextTo(sanitize, content, i)
      invariant calls == ToolCallsTo(content, i)
    {
      var block := content[i];
      text := WritePiece(text, Piece(sanitize, block));
      if block.ReplyToolUse? {
        calls := calls + [ToolCall(block.id, block.name, block.input)];
      }
    }
  }

  // ----- Tools -----

  /** The state and the result blocks after the first n calls. */
  function InvokeTo<E>(w: World<E>, env: E, calls: seq<ToolCall>, n: nat): (E, seq<Block>)
    requires n <= |calls|
  {
    if n == 0 then (env, []) else
    var (env1, results) := InvokeTo(w, env, calls, n - 1);
    var call := calls[n - 1];
    var (env2, outcome) := w.invoke(env1, call);
    (env2, results + [ToolResult(call.id, outcome.payload, outcome.isError)])
  }

  function InvokeAll<E>(w: World<E>, env: E, calls: seq<ToolCall>): (E, seq<Block>) {
    InvokeTo(w, env, calls, |calls|)
  }

  /** Call n is made in the state the calls before it left, and its result carries its
      id, and the payload and the error flag the tool gave. */
  lemma InvokeGrows<E>(w: World<E>, env: E, calls: seq<ToolCall>, n: nat)
    requires n < |calls|
    ensures InvokeTo(w, env, calls, 0) == (env, [])
    ensures var front, all := InvokeTo(w, env, calls, n), InvokeTo(w, env, calls, n + 1);
            var r := w.invoke(front.0, calls[n]);
            && all.0 == r.0 && |all.1| == |front.1| + 1 && all.1[..|front.1|] == front.1
            && var result := all.1[|front.1|];
               result.ToolResult? && result.toolUseId == calls[n].id
               && result.payload == r.1.payload && result.isError == r.1.isError
  {
  }

  method InvokeBetaTools<E>(w: World<E>, env: E, calls: seq<ToolCall>) returns (after: E, results: seq<Block>)
    ensures (after, results) == InvokeAll(w, env, calls)
  {
    after, results := env, [];
    for i := 0 to |calls|
      invariant (after, results) == InvokeTo(w, env, calls, i)
    {
      var (next, outcome) := w.invoke(after, calls[i]);
      after := next;
      results := results + [ToolResult(calls[i].id, outcome.payload, outcome.isError)];
    }
  }

  // ----- The loop -----

  /** What is seen from outside: the requests sent and the tools called, in order. */
  datatype Trace = Trace(requests: seq<seq<Message>>, calls: seq<ToolCall>)

  const SILENT := Trace([], [])

  /** The variables of the loop. */
  datatype Loop<E> = Loop(env: E, trace: Trace, messages: seq<Message>, last: string, usage: Totals)

  /** How one iteration ends: the provider failed, the reply called no tool, or the loop goes on. */
  datatype Outcome<E> = Failed(env: E, trace: Trace) | Answered(loop: Loop<E>) | Continues(loop: Loop<E>)

  /** One iteration; `trim` selects the loop that cuts at checkpoints or one that never does. */
  function Iterate<E>(w: World<E>, s: Loop<E>, trim: bool): Outcome<E> {
    var (env1, reply) := w.send(s.env, s.messages);
    var requests := s.trace.requests + [s.messages];
    if reply.None? then Failed(env1, Trace(requests, s.trace.calls)) else
    var messages := Appended(s.messages, reply.value, trim);
    var usage := AddTotals(s.usage, Billed(reply.value.usage));
    var text, calls := DisplayText(w.sanitize, reply.value.content), ToolCalls(reply.value.content);
    if calls == [] then Answered(Loop(env1, Trace(requests, s.trace.calls), messages, text, usage)) else
    var (env2, results) := InvokeAll(w, env1, calls);
    Continues(Loop(env2, Trace(requests, s.trace.calls + calls), messages + [Message(User, results)], text, usage))
  }

  function Stepper<E>(w: World<E>, trim: bool): Loop<E> -> Outcome<E> {
    (s: Loop<E>) => Iterate(w, s, trim)
  }

  /** The loop with `left` iterations to go: how it ends and whether it ran out of them. */
  function Iterations<E>(step: Loop<E> -> Outcome<E>, s: Loop<E>, left: nat): (Outcome<E>, bool)
    decreases left
  {
    if left == 0 then (Answered(s), true) else
    var outcome := step(s);
    if outcome.Continues? then Iterations(step, outcome.loop, left - 1) else (outcome, false)
  }

  function FinalText(last: string, exhausted: bool): string {
    var trimmed := TrimSpace(last);
    if trimmed == "" && exhausted then EXHAUSTED_REPLY else trimmed
  }

  datatype TurnResult = TurnResult(text: string, context: ProviderContext, usage: Totals)

  datatype Turn<E> = Turn(env: E, trace: Trace, result: Option<TurnResult>)

  /** What a turn returns when its loop ended so. */
  function Finish<E>(outcome: Outcome<E>, exhausted: bool): Turn<E> {
    if outcome.Failed? then Turn(outcome.env, outcome.trace, None) else
    var end := outcome.loop;
    Turn(end.env, end.trace, Some(TurnResult(FinalText(end.last, exhausted), Encoded(end.messages), end.usage)))
  }

  function Start<E>(env: E, opening: seq<Message>): Loop<E> {
    Loop(env, SILENT, opening, "", ZERO_TOTALS)
  }

  /** One whole turn; no result when the context does not decode or the provider fails. */
  function RunTurn<E>(w: World<E>, env: E, maxIter: nat, history: seq<ChatLine>, context: ProviderContext,
                      text: string, image: Option<ImageInput>, trim: bool): Turn<E>
  {
    var opening := TurnMessages(history, context, text, image);
    if opening.Err? then Turn(env, SILENT, None) else
    var end := Iterations(Stepper(w, trim), Start(env, opening.value), maxIter);
    Finish(end.0, end.1)
  }

  class Runner {
    const maxIter: nat

    constructor (maxIterations: int)
      ensures maxIter == if maxIterations <= 0 then 5 else maxIterations
    {
      maxIter := if maxIterations <= 0 then DEFAULT_MAX_ITERATIONS else maxIterations;
    }

    /** One round of the loop, begun in s: `more` when the reply called tools, `failed`
        when the provider did. */
    method RunIteration<E>(w: World<E>, env: E, history: seq<Message>, usage: TurnUsage, ghost s: Loop<E>)
      returns (after: E, messages: seq<Message>, text: string, more: bool, failed: bool, ghost trace: Trace)
      requires s == Loop(env, s.trace, history, s.last, usage.totals)
      modifies usage
      ensures failed ==> Iterate(w, s, true) == Failed(after, trace)
      ensures !failed && more ==> Iterate(w, s, true) == Continues(Loop(after, trace, messages, text, usage.totals))
      ensures !failed && !more ==> Iterate(w, s, true) == Answered(Loop(after, trace, messages, text, usage.totals))
    {
      messages, text, more, failed := history, "", false, true;
      var (next, reply) := w.send(env, messages);
      after := next;
      trace := Trace(s.trace.requests + [messages], s.trace.calls);
      if reply.None? {
        return;
      }
      failed := false;
      usage.Add(reply.value.usage);
      var state;
      messages, state := AppendBetaResponse(messages, reply);
      var toolBlocks;
      text, toolBlocks := ExtractBetaContent(w.sanitize, reply.value);
      if |toolBlocks| == 0 {
        return;
      }
      var toolResults;
      after, toolResults := InvokeBetaTools(w, after, toolBlocks);
      trace := Trace(trace.requests, trace.calls + toolBlocks);
      messages := messages + [Message(User, toolResults)];
      more := true;
    }

    /** The iteration loop of RunWithProgressContext; `failed` when the provider did. */
    method RunIterations<E>(w: World<E>, env: E, opening: seq<Message>, usage: TurnUsage)
      returns (after: E, messages: seq<Message>, lastAssistant: string, exhausted: bool, failed: bool,
            ghost trace: Trace)
      modifies usage
      ensures Iterations(Stepper(w, true), Loop(env, SILENT, opening, "", old(usage.totals)), maxIter)
           == (if failed then Failed(after, trace)
               else Answered(Loop(after, trace, messages, lastAssistant, usage.totals)), exhausted)
    {
      after, messages, lastAssistant, trace := env, opening, "", SILENT;
      ghost var step := Stepper(w, true);
      ghost var whole := Iterations(step, Loop(env, SILENT, opening, "", usage.totals), maxIter);
      var iter := 0;
      while iter < maxIter
        invariant 0 <= iter <= maxIter
        invariant whole == Iterations(step, Loop(after, trace, messages, lastAssistant, usage.totals), maxIter - iter)
      {
        ghost var s := Loop(after, trace, messages, lastAssistant, usage.totals);
        var more;
        after, messages, lastAssistant, more, failed, trace := RunIteration(w, after, messages, usage, s);
        assert step(s) == Iterate(w, s, true);
        if failed || !more {
          return after, messages, lastAssistant, false, failed, trace;
        }
        iter := iter + 1;
      }
      exhausted, failed := true, false;
    }

    /** RunWithProgressContext. The ghost trace is what the provider and the tools saw. */
    method RunWithProgressContext<E>(w: World<E>, env: E, history: seq<ChatLine>, context: ProviderContext,
                                     userMessage: string)
      returns (after: E, result: Option<TurnResult>, ghost trace: Trace)
      ensures after == RunTurn(w, env, maxIter, history, context, userMessage, None, true).env
      ensures result == RunTurn(w, env, maxIter, history, context, userMessage, None, true).result
      ensures trace == RunTurn(w, env, maxIter, history, context, userMessage, None, true).trace
    {
      var opening := BuildTurnMessages(history, context, userMessage, None);
      if opening.Err? {
        return env, None, SILENT;
      }
      var usage := new TurnUsage();
      var messages, lastAssistant, exhausted, failed;
      after, messages, lastAssistant, exhausted, failed, trace := RunIterations(w, env, opening.value, usage);
      if failed {
        return after, None, trace;
      }
      lastAssistant := TrimSpace(lastAssistant);
      if lastAssistant == "" && exhausted {
        lastAssistant := EXHAUSTED_REPLY;
      }
      var encoded := EncodeProviderContext(messages);
      result := Some(TurnResult(lastAssistant, encoded, usage.totals));
    }
  }
}

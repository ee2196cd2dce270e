/** Whole conversations of the assistant: what the checkpoint cut leaves
    unobservable and what every request keeps. */
module AssistantConversation {
  import opened Basics
  import opened AnthropicContext
  import opened ContextCodec
  import opened AssistantRunner

  // ----- The cut is unobservable -----

  /** The world w with a provider that ignores everything before the latest
      valid compaction block: it is handed the view only. */
  function ReadingView<E>(w: World<E>): World<E> {
    World((env, messages) => w.send(env, View(messages)), w.invoke, w.sanitize)
  }

  function Views(requests: seq<seq<Message>>): seq<seq<Message>> {
    seq(|requests|, i requires 0 <= i < |requests| => View(requests[i]))
  }

  lemma ViewsAppend(requests: seq<seq<Message>>, messages: seq<Message>)
    ensures Views(requests + [messages]) == Views(requests) + [View(messages)]
  {
  }

  /** Equal tool calls, and requests that look the same to the provider. */
  predicate SameTrace(a: Trace, b: Trace) {
    a.calls == b.calls && Views(a.requests) == Views(b.requests)
  }

  ghost predicate SameLoop<E>(s: Loop<E>, f: Loop<E>) {
    && s.env == f.env
    && SameTrace(s.trace, f.trace)
    && s.messages != [] && f.messages != []
    && View(s.messages) == View(f.messages)
    && s.last == f.last
    && s.usage == f.usage
  }

  ghost predicate SameOutcome<E>(s: Outcome<E>, f: Outcome<E>) {
    match s
    case Failed(env, trace) => f.Failed? && env == f.env && SameTrace(trace, f.trace)
    case Answered(loop) => f.Answered? && SameLoop(loop, f.loop)
    case Continues(loop) => f.Continues? && SameLoop(loop, f.loop)
  }

  lemma AppendedSameView(a: seq<Message>, b: seq<Message>, response: Response)
    requires View(a) == View(b)
    ensures View(Appended(a, response, true)) == View(Appended(b, response, false))
  {
    TrimKeepsView(a, response);
    ViewAppend(a, ParamMessage(response));
    ViewAppend(b, ParamMessage(response));
  }

  lemma IterateSimulates<E>(w: World<E>, s: Loop<E>, f: Loop<E>)
    requires SameLoop(s, f)
    ensures SameOutcome(Iterate(ReadingView(w), s, true), Iterate(ReadingView(w), f, false))
  {
    ViewsAppend(s.trace.requests, s.messages);
    ViewsAppend(f.trace.requests, f.messages);
    var (env1, reply) := w.send(s.env, View(s.messages));
    if reply.Some? {
      AppendedSameView(s.messages, f.messages, reply.value);
      var answer := Message(User, InvokeAll(ReadingView(w), env1, ToolCalls(reply.value.content)).1);
      ViewAppend(Appended(s.messages, reply.value, true), answer);
      ViewAppend(Appended(f.messages, reply.value, false), answer);
    }
  }

  lemma {:induction false} IterationsSimulate<E(!new)>(step: Loop<E> -> Outcome<E>, keep: Loop<E> -> Outcome<E>,
                                                      alike: (Outcome<E>, Outcome<E>) -> bool,
                                                      s: Loop<E>, f: Loop<E>, left: nat)
    requires forall a: Outcome<E>, b: Outcome<E> :: alike(a, b) ==> (a.Continues? <==> b.Continues?)
    requires forall x: Loop<E>, y: Loop<E> :: alike(Continues(x), Continues(y)) ==> alike(Answered(x), Answered(y))
    requires forall x: Loop<E>, y: Loop<E> :: alike(Continues(x), Continues(y)) ==> alike(step(x), keep(y))
    requires alike(Continues(s), Continues(f))
    ensures alike(Iterations(step, s, left).0, Iterations(keep, f, left).0)
    ensures Iterations(step, s, left).1 == Iterations(keep, f, left).1
    decreases left
  {
    if left > 0 {
      var a, b := step(s), keep(f);
      assert alike(a, b);
      if a.Continues? {
        IterationsSimulate(step, keep, alike, a.loop, b.loop, left - 1);
      }
    }
  }

  lemma LoopSimulates<E(!new)>(w: World<E>, s: Loop<E>, f: Loop<E>, left: nat)
    requires SameLoop(s, f)
    ensures SameOutcome(Iterations(Stepper(ReadingView(w), true), s, left).0,
                        Iterations(Stepper(ReadingView(w), false), f, left).0)
    ensures Iterations(Stepper(ReadingView(w), true), s, left).1
         == Iterations(Stepper(ReadingView(w), false), f, left).1
  {
    var step, keep := Stepper(ReadingView(w), true), Stepper(ReadingView(w), false);
    var alike := (a: Outcome<E>, b: Outcome<E>) => SameOutcome(a, b);
    forall x: Loop<E>, y: Loop<E> | alike(Continues(x), Continues(y))
      ensures alike(step(x), keep(y))
    {
      IterateSimulates(w, x, y);
    }
    IterationsSimulate(step, keep, alike, s, f, left);
  }

  /** Two stored contexts the provider cannot tell apart. */
  ghost predicate SameContext(a: ProviderContext, b: ProviderContext) {
    a == b || exists s: seq<Message>, f: seq<Message> :: StoredAlike(a, b, s, f)
  }

  predicate StoredAlike(a: ProviderContext, b: ProviderContext, s: seq<Message>, f: seq<Message>) {
    s != [] && f != [] && a == Encoded(s) && b == Encoded(f) && View(s) == View(f)
  }

  predicate SameOpening(x: Result<seq<Message>, nat>, y: Result<seq<Message>, nat>) {
    if x.Err? then y.Err? else y.Ok? && x.value != [] && y.value != [] && View(x.value) == View(y.value)
  }

  lemma OpeningSameView(history: seq<ChatLine>, a: ProviderContext, b: ProviderContext, input: Input)
    requires SameContext(a, b)
    ensures SameOpening(TurnMessages(history, a, input.text, input.image),
                        TurnMessages(history, b, input.text, input.image))
  {
    if a != b {
      var s, f :| StoredAlike(a, b, s, f);
      ContextRoundTrip(s);
      ContextRoundTrip(f);
      ViewAppend(s, CurrentUserMessage(input.text, input.image));
      ViewAppend(f, CurrentUserMessage(input.text, input.image));
    }
  }

  /** Turns alike from outside: same state, trace, text and usage, contexts alike. */
  ghost predicate SameTurn<E>(s: Turn<E>, f: Turn<E>) {
    && s.env == f.env
    && SameTrace(s.trace, f.trace)
    && (if s.result.None? then f.result.None? else
        && f.result.Some?
        && s.result.value.text == f.result.value.text
        && s.result.value.usage == f.result.value.usage
        && SameContext(s.result.value.context, f.result.value.context))
  }

  /** One turn: the cutting loop and the loop that keeps everything answer alike. */
  lemma TurnSimulates<E(!new)>(w: World<E>, env: E, maxIter: nat, history: seq<ChatLine>, a: ProviderContext,
                         b: ProviderContext, input: Input)
    requires SameContext(a, b)
    ensures SameTurn(RunTurn(ReadingView(w), env, maxIter, history, a, input.text, input.image, true),
                     RunTurn(ReadingView(w), env, maxIter, history, b, input.text, input.image, false))
  {
    OpeningSameView(history, a, b, input);
    var x := TurnMessages(history, a, input.text, input.image);
    var y := TurnMessages(history, b, input.text, input.image);
    if x.Ok? {
      var s, f := Start(env, x.value), Start(env, y.value);
      LoopSimulates(w, s, f, maxIter);
      var u := Iterations(Stepper(ReadingView(w), true), s, maxIter);
      var v := Iterations(Stepper(ReadingView(w), false), f, maxIter);
      FinishSame(u.0, v.0, u.1);
    }
  }

  lemma FinishSame<E>(s: Outcome<E>, f: Outcome<E>, exhausted: bool)
    requires SameOutcome(s, f)
    ensures SameTurn(Finish(s, exhausted), Finish(f, exhausted))
  {
    if !s.Failed? {
      StoredAlikeIsSame(s.loop.messages, f.loop.messages);
    }
  }

  lemma StoredAlikeIsSame(s: seq<Message>, f: seq<Message>)
    requires s != [] && f != [] && View(s) == View(f)
    ensures SameContext(Encoded(s), Encoded(f))
  {
    assert StoredAlike(Encoded(s), Encoded(f), s, f);
  }

  // ----- Many turns -----

  datatype Conversation = Conversation(history: seq<ChatLine>, context: ProviderContext)

  datatype Input = Input(text: string, image: Option<ImageInput>)

  /** How the caller runs turns: iteration and history limits, and the form in
      which a reply enters the display transcript. */
  datatype Policy = Policy(maxIter: nat, historyLimit: nat, display: string -> string)

  datatype Seen = Seen(trace: Trace, reply: Option<(string, Totals)>)

  function LastLines(history: seq<ChatLine>, limit: nat): seq<ChatLine> {
    if |history| > limit then history[|history| - limit..] else history
  }

  /** How a runner answers one message of a conversation. */
  function Turns<E>(w: World<E>, p: Policy, trim: bool): (E, Conversation, Input) -> Turn<E> {
    (env: E, c: Conversation, input: Input) =>
      RunTurn(w, env, p.maxIter, LastLines(c.history, p.historyLimit), c.context, input.text, input.image, trim)
  }

  datatype Dialogue<E> = Dialogue(env: E, conversation: Conversation, seen: seq<Seen>)

  /** The dialogue after a turn: the lines are stored, and the new context if the turn succeeded. */
  function Settle<E>(p: Policy, d: Dialogue<E>, input: Input, turn: Turn<E>): Dialogue<E> {
    var stored := if input.text == "" && input.image.Some? then "[image attached]" else input.text;
    var asked := d.conversation.history + [ChatLine("user", stored)];
    if turn.result.None? then
      Dialogue(turn.env, d.conversation.(history := asked), d.seen + [Seen(turn.trace, None)])
    else
      var result := turn.result.value;
      Dialogue(turn.env, Conversation(asked + [ChatLine("assistant", p.display(result.text))], result.context),
               d.seen + [Seen(turn.trace, Some((result.text, result.usage)))])
  }

  /** The first n messages of a commander, each answered before the next. */
  function Talk<E>(answer: (E, Conversation, Input) -> Turn<E>, p: Policy, start: Dialogue<E>, inputs: seq<Input>,
        n: nat)
    : Dialogue<E>
    requires n <= |inputs|
  {
    if n == 0 then start else
    var d := Talk(answer, p, start, inputs, n - 1);
    Settle(p, d, inputs[n - 1], answer(d.env, d.conversation, inputs[n - 1]))
  }

  /** One more message adds its line and, when the turn succeeds, that of the answer,
      whose context replaces the stored one; a failed turn leaves the stored one. */
  ghost predicate Settled<E>(p: Policy, d: Dialogue<E>, input: Input, turn: Turn<E>, after: Dialogue<E>) {
    var lines, told := d.conversation.history, after.conversation.history;
    && after.env == turn.env
    && |told| == |lines| + (if turn.result.Some? then 2 else 1) && told[..|lines|] == lines
    && told[|lines|].role == "user"
    && told[|lines|].content == (if input.text == "" && input.image.Some? then "[image attached]" else input.text)
    && |after.seen| == |d.seen| + 1 && after.seen[..|d.seen|] == d.seen
    && after.seen[|d.seen|].trace == turn.trace
    && (if turn.result.Some? then
          && told[|lines| + 1].role == "assistant"
          && told[|lines| + 1].content == p.display(turn.result.value.text)
          && after.conversation.context == turn.result.value.context
          && after.seen[|d.seen|].reply == Some((turn.result.value.text, turn.result.value.usage))
        else
          && after.conversation.context == d.conversation.context
          && after.seen[|d.seen|].reply.None?)
  }

  lemma TalkGrows<E>(answer: (E, Conversation, Input) -> Turn<E>, p: Policy, start: Dialogue<E>, inputs: seq<Input>,
        n: nat)
    requires n < |inputs|
    ensures Talk(answer, p, start, inputs, 0) == start
    ensures var d := Talk(answer, p, start, inputs, n);
            Settled(p, d, inputs[n], answer(d.env, d.conversation, inputs[n]), Talk(answer, p, start, inputs, n + 1))
  {
  }

  /** The latest lines of a transcript, all of them up to the limit. */
  predicate Latest(recent: seq<ChatLine>, history: seq<ChatLine>, limit: nat) {
    && |recent| == (if |history| < limit then |history| else limit)
    && forall i | 0 <= i < |recent| :: recent[i] == history[|history| - |recent| + i]
  }

  /** A turn sees the latest lines, the stored context and the message. */
  lemma TurnsExactly<E>(w: World<E>, p: Policy, trim: bool, env: E, c: Conversation, input: Input,
        recent: seq<ChatLine>)
    requires Latest(recent, c.history, p.historyLimit)
    ensures Turns(w, p, trim)(env, c, input)
         == RunTurn(w, env, p.maxIter, recent, c.context, input.text, input.image, trim)
  {
    assert recent == LastLines(c.history, p.historyLimit);
  }

  predicate SameSeen(a: Seen, b: Seen) {
    SameTrace(a.trace, b.trace) && a.reply == b.reply
  }

  ghost predicate SameDialogue<E>(s: Dialogue<E>, f: Dialogue<E>) {
    && s.env == f.env
    && s.conversation.history == f.conversation.history
    && SameContext(s.conversation.context, f.conversation.context)
    && |s.seen| == |f.seen|
    && forall i | 0 <= i < |s.seen| :: SameSeen(s.seen[i], f.seen[i])
  }

  lemma SettleSame<E>(p: Policy, s: Dialogue<E>, f: Dialogue<E>, input: Input, a: Turn<E>, b: Turn<E>)
    requires SameDialogue(s, f) && SameTurn(a, b)
    ensures SameDialogue(Settle(p, s, input, a), Settle(p, f, input, b))
  {
  }

  ghost predicate AnswerAlike<E(!new)>(a: (E, Conversation, Input) -> Turn<E>, b: (E, Conversation, Input) -> Turn<E>) {
    forall env: E, c: Conversation, c': Conversation, input: Input ::
      c.history == c'.history && SameContext(c.context, c'.context) ==> SameTurn(a(env, c, input), b(env, c', input))
  }

  lemma {:induction false} TalkAlike<E(!new)>(a: (E, Conversation, Input) -> Turn<E>,
        b: (E, Conversation, Input) -> Turn<E>, p: Policy, start: Dialogue<E>, inputs: seq<Input>, n: nat)
    requires AnswerAlike(a, b) && n <= |inputs|
    ensures SameDialogue(Talk(a, p, start, inputs, n), Talk(b, p, start, inputs, n))
  {
    if n > 0 {
      TalkAlike(a, b, p, start, inputs, n - 1);
      var s, f := Talk(a, p, start, inputs, n - 1), Talk(b, p, start, inputs, n - 1);
      var input := inputs[n - 1];
      SettleSame(p, s, f, input, a(s.env, s.conversation, input), b(f.env, f.conversation, input));
    }
  }

  /** Against a provider that reads only from the latest valid compaction, a
      conversation that cuts at checkpoints, stores and reloads its context shows
      the same requests (as read), tool calls, replies, usage and transcript as
      one that keeps every message, for any stored context to begin with. */
  lemma CuttingIsUnobservable<E(!new)>(w: World<E>, p: Policy, start: Dialogue<E>, inputs: seq<Input>)
    ensures SameDialogue(Talk(Turns(ReadingView(w), p, true), p, start, inputs, |inputs|),
                         Talk(Turns(ReadingView(w), p, false), p, start, inputs, |inputs|))
  {
    var cut, keep := Turns(ReadingView(w), p, true), Turns(ReadingView(w), p, false);
    forall env: E, c: Conversation, c': Conversation, input: Input
      | c.history == c'.history && SameContext(c.context, c'.context)
      ensures SameTurn(cut(env, c, input), keep(env, c', input))
    {
      TurnSimulates(w, env, p.maxIter, LastLines(c.history, p.historyLimit), c.context, c'.context, input);
    }
    TalkAlike(cut, keep, p, start, inputs, |inputs|);
  }

  // ----- Tool calls and their answers -----

  function UseIdsTo(blocks: seq<Block>, n: nat): seq<string>
    requires n <= |blocks|
  {
    if n == 0 then [] else
    UseIdsTo(blocks, n - 1) + if blocks[n - 1].ToolUse? then [blocks[n - 1].id] else []
  }

  /** The ids of the tool_use blocks, in order. */
  function UseIds(m: Message): seq<string> {
    UseIdsTo(m.blocks, |m.blocks|)
  }

  predicate NoResults(m: Message) {
    forall i | 0 <= i < |m.blocks| :: !m.blocks[i].ToolResult?
  }

  /** A user message made of one result per id, in that order. */
  predicate AnswersIds(m: Message, ids: seq<string>) {
    && m.role.User?
    && |m.blocks| == |ids|
    && forall i | 0 <= i < |ids| :: m.blocks[i].ToolResult? && m.blocks[i].toolUseId == ids[i]
  }

  /** Every message with tool calls is followed at once by their answers, and
      answers stand nowhere else. */
  predicate Paired(messages: seq<Message>) {
    forall i | 0 <= i < |messages| :: PairedAt(messages, i)
  }

  predicate PairedAt(messages: seq<Message>, i: nat)
    requires i < |messages|
  {
    PairedHere(Previous(messages, i), messages[i], Next(messages, i))
  }

  function Previous(messages: seq<Message>, i: nat): Option<Message>
    requires i < |messages|
  {
    if i > 0 then Some(messages[i - 1]) else None
  }

  function Next(messages: seq<Message>, i: nat): Option<Message>
    requires i < |messages|
  {
    if i + 1 < |messages| then Some(messages[i + 1]) else None
  }

  predicate PairedHere(previous: Option<Message>, m: Message, next: Option<Message>) {
    && (UseIds(m) != [] ==> m.role.Assistant? && next.Some? && AnswersIds(next.value, UseIds(m)))
    && (NoResults(m) || (previous.Some? && UseIds(previous.value) != [] && AnswersIds(m, UseIds(previous.value))))
  }

  predicate Plain(m: Message) {
    UseIds(m) == [] && NoResults(m)
  }

  lemma PairedPlain(messages: seq<Message>, m: Message)
    requires Paired(messages) && Plain(m)
    ensures Paired(messages + [m])
  {
    var all := messages + [m];
    forall i | 0 <= i < |all|
      ensures PairedAt(all, i)
    {
      if i < |messages| {
        assert PairedAt(messages, i);
      }
    }
  }

  lemma PairedExchange(messages: seq<Message>, use: Message, answer: Message)
    requires Paired(messages)
    requires use.role.Assistant? && UseIds(use) != [] && NoResults(use)
    requires AnswersIds(answer, UseIds(use))
    ensures Paired(messages + [use] + [answer])
  {
    var all := messages + [use] + [answer];
    NoUsesInAnswer(answer, UseIds(use));
    forall i | 0 <= i < |all|
      ensures PairedAt(all, i)
    {
      if i < |messages| {
        assert PairedAt(messages, i);
      }
    }
  }

  lemma NoUsesInAnswer(m: Message, ids: seq<string>)
    requires AnswersIds(m, ids)
    ensures UseIds(m) == []
  {
    NoUses(m.blocks, |m.blocks|);
  }

  lemma {:induction false} NoUses(blocks: seq<Block>, n: nat)
    requires n <= |blocks| && forall i | 0 <= i < n :: !blocks[i].ToolUse?
    ensures UseIdsTo(blocks, n) == []
  {
    if n > 0 {
      NoUses(blocks, n - 1);
    }
  }

  function Ids(calls: seq<ToolCall>): seq<string> {
    seq(|calls|, i requires 0 <= i < |calls| => calls[i].id)
  }

  /** The calls taken from a response are those of the message that stands for it. */
  lemma {:induction false} CallsAreUses(response: Response, n: nat)
    requires n <= |response.content|
    ensures UseIdsTo(ParamMessage(response).blocks, n) == Ids(ToolCallsTo(response.content, n))
  {
    if n > 0 {
      CallsAreUses(response, n - 1);
    }
  }

  lemma {:induction false} ResultsAnswerCalls<E>(w: World<E>, env: E, calls: seq<ToolCall>, n: nat)
    requires n <= |calls|
    ensures var results := InvokeTo(w, env, calls, n).1;
            |results| == n && forall i | 0 <= i < n :: results[i].ToolResult? && results[i].toolUseId == calls[i].id
  {
    if n > 0 {
      ResultsAnswerCalls(w, env, calls, n - 1);
    }
  }

  /** What a list of messages keeps: pairing always, one checkpoint at most when cutting. */
  predicate Kept(messages: seq<Message>, trim: bool) {
    Paired(messages) && (trim ==> Bounded(messages))
  }

  predicate KeptTrace(trace: Trace, trim: bool) {
    forall i | 0 <= i < |trace.requests| :: Kept(trace.requests[i], trim)
  }

  lemma IterateKeeps<E>(w: World<E>, s: Loop<E>, trim: bool)
    requires Kept(s.messages, trim) && KeptTrace(s.trace, trim)
    ensures KeptOutcome(Iterate(w, s, trim), trim)
  {
    var (env1, reply) := w.send(s.env, s.messages);
    if reply.Some? {
      var m, calls := ParamMessage(reply.value), ToolCalls(reply.value.content);
      CallsAreUses(reply.value, |reply.value.content|);
      var front := if trim && HasCheckpoint(m) then [] else s.messages;
      assert Appended(s.messages, reply.value, trim) == front + [m];
      if calls == [] {
        PairedPlain(front, m);
      } else {
        ResultsAnswerCalls(w, env1, calls, |calls|);
        PairedExchange(front, m, Message(User, InvokeAll(w, env1, calls).1));
      }
    }
  }

  predicate KeptOutcome<E>(outcome: Outcome<E>, trim: bool) {
    match outcome
    case Failed(_, trace) => KeptTrace(trace, trim)
    case Answered(loop) => Kept(loop.messages, trim) && KeptTrace(loop.trace, trim)
    case Continues(loop) => Kept(loop.messages, trim) && KeptTrace(loop.trace, trim)
  }

  lemma {:induction false} IterationsKeep<E(!new)>(step: Loop<E> -> Outcome<E>, s: Loop<E>, left: nat, trim: bool)
    requires forall x: Loop<E> :: Kept(x.messages, trim) && KeptTrace(x.trace, trim) ==> KeptOutcome(step(x), trim)
    requires Kept(s.messages, trim) && KeptTrace(s.trace, trim)
    ensures KeptOutcome(Iterations(step, s, left).0, trim)
    decreases left
  {
    if left > 0 {
      var outcome := step(s);
      if outcome.Continues? {
        IterationsKeep(step, outcome.loop, left - 1, trim);
      }
    }
  }

  lemma LoopKeeps<E(!new)>(w: World<E>, s: Loop<E>, left: nat, trim: bool)
    requires Kept(s.messages, trim) && KeptTrace(s.trace, trim)
    ensures KeptOutcome(Iterations(Stepper(w, trim), s, left).0, trim)
  {
    var step := Stepper(w, trim);
    forall x: Loop<E> | Kept(x.messages, trim) && KeptTrace(x.trace, trim)
      ensures KeptOutcome(step(x), trim)
    {
      IterateKeeps(w, x, trim);
    }
    IterationsKeep(step, s, left, trim);
  }

  lemma {:induction false} SeededIsKept(history: seq<ChatLine>, n: nat)
    requires n <= |history|
    ensures Kept(SeededTo(history, n), true)
  {
    if n > 0 {
      SeededIsKept(history, n - 1);
      var line := history[n - 1];
      var m := Message(if Lower(line.role) == "assistant" then Assistant else User, [Text(line.content)]);
      assert Plain(m) by { NoUses(m.blocks, 1); }
      PairedPlain(SeededTo(history, n - 1), m);
    }
  }

  /** A stored context that, where it decodes, decodes to a kept list. */
  predicate KeptContext(context: ProviderContext, trim: bool) {
    Usable(context) && Decoded(context.messages).Ok? ==> Kept(Decoded(context.messages).value, trim)
  }

  lemma OpeningIsKept(history: seq<ChatLine>, context: ProviderContext, text: string, image: Option<ImageInput>,
        trim: bool)
    requires KeptContext(context, trim) && TurnMessages(history, context, text, image).Ok?
    ensures Kept(TurnMessages(history, context, text, image).value, trim)
  {
    SeededIsKept(history, |history|);
    var user := CurrentUserMessage(text, image);
    assert Plain(user) by { NoUses(user.blocks, |user.blocks|); }
    PairedPlain(Opening(history, context).value, user);
  }

  lemma TurnKeeps<E(!new)>(w: World<E>, env: E, maxIter: nat, history: seq<ChatLine>, context: ProviderContext,
                     text: string, image: Option<ImageInput>, trim: bool)
    requires KeptContext(context, trim)
    ensures KeptTurn(RunTurn(w, env, maxIter, history, context, text, image, trim), trim)
  {
    var opening := TurnMessages(history, context, text, image);
    if opening.Ok? {
      OpeningIsKept(history, context, text, image, trim);
      LoopKeeps(w, Start(env, opening.value), maxIter, trim);
      var end := Iterations(Stepper(w, trim), Start(env, opening.value), maxIter);
      FinishKeeps(end.0, end.1, trim);
    }
  }

  lemma FinishKeeps<E>(outcome: Outcome<E>, exhausted: bool, trim: bool)
    requires KeptOutcome(outcome, trim)
    ensures KeptTurn(Finish(outcome, exhausted), trim)
  {
    if !outcome.Failed? {
      ContextRoundTrip(outcome.loop.messages);
    }
  }

  predicate KeptDialogue<E>(d: Dialogue<E>, trim: bool) {
    && KeptContext(d.conversation.context, trim)
    && forall i | 0 <= i < |d.seen| :: KeptTrace(d.seen[i].trace, trim)
  }

  predicate KeptTurn<E>(turn: Turn<E>, trim: bool) {
    KeptTrace(turn.trace, trim) && (turn.result.Some? ==> KeptContext(turn.result.value.context, trim))
  }

  lemma {:induction false} TalkKeeps<E(!new)>(answer: (E, Conversation, Input) -> Turn<E>, p: Policy,
        start: Dialogue<E>, inputs: seq<Input>, n: nat, trim: bool)
    requires forall env: E, c: Conversation, input: Input ::
               KeptContext(c.context, trim) ==> KeptTurn(answer(env, c, input), trim)
    requires n <= |inputs| && KeptDialogue(start, trim)
    ensures KeptDialogue(Talk(answer, p, start, inputs, n), trim)
  {
    if n > 0 {
      TalkKeeps(answer, p, start, inputs, n - 1, trim);
      var d := Talk(answer, p, start, inputs, n - 1);
      assert KeptTurn(answer(d.env, d.conversation, inputs[n - 1]), trim);
    }
  }

  /** In every request and every stored context of a conversation, tool calls are
      answered at once, in order and completely, through cuts, tool errors,
      exhausted turns and reloads; a cutting conversation never stores or sends a
      checkpoint behind its first message. */
  lemma ConversationStaysPaired<E(!new)>(w: World<E>, p: Policy, start: Dialogue<E>, inputs: seq<Input>, trim: bool)
    requires KeptDialogue(start, trim)
    ensures KeptDialogue(Talk(Turns(w, p, trim), p, start, inputs, |inputs|), trim)
  {
    var answer := Turns(w, p, trim);
    forall env: E, c: Conversation, input: Input | KeptContext(c.context, trim)
      ensures KeptTurn(answer(env, c, input), trim)
    {
      TurnKeeps(w, env, p.maxIter, LastLines(c.history, p.historyLimit), c.context, input.text, input.image, trim);
    }
    TalkKeeps(answer, p, start, inputs, |inputs|, trim);
  }

  // ----- What the provider itself sees of a pair -----

  lemma {:induction false} UseIdsSplit(blocks: seq<Block>, k: nat, n: nat)
    requires k <= n <= |blocks|
    ensures UseIdsTo(blocks, n) == UseIdsTo(blocks, k) + UseIdsTo(blocks[k..], n - k)
  {
    if k < n {
      UseIdsSplit(blocks, k, n - 1);
      assert blocks[k..][n - k - 1] == blocks[n - 1];
    }
  }

  lemma {:induction false} UsesFound(blocks: seq<Block>, i: nat, n: nat)
    requires i < n <= |blocks| && blocks[i].ToolUse?
    ensures UseIdsTo(blocks, n) != []
  {
    if i < n - 1 {
      UsesFound(blocks, i, n - 1);
    }
  }

  /** No tool call stands before the latest checkpoint of the message. */
  predicate NoEarlyUse(m: Message)
    requires HasCheckpoint(m)
  {
    forall i | 0 <= i < |m.blocks| - |Cut(m.blocks)| :: !m.blocks[i].ToolUse?
  }

  /** The list stays paired, but what the provider reads of it does so exactly
      when no tool call precedes the compaction block in its own response:
      otherwise the cut hides a call whose result is still sent. */
  lemma ReadPairsExactly(before: seq<Message>, m: Message, after: seq<Message>)
    requires Paired(before + [m] + after)
    requires NoResults(m) && HasCheckpoint(m)
    requires forall i | 0 <= i < |after| :: !HasCheckpoint(after[i])
    ensures Paired(View(before + [m] + after)) <==> NoEarlyUse(m)
  {
    ViewFromLatestCheckpoint(before, m, after);
    CutPairsExactly(before, m, after);
  }

  lemma CutPairsExactly(before: seq<Message>, m: Message, after: seq<Message>)
    requires Paired(before + [m] + after) && HasCheckpoint(m) && NoResults(m)
    ensures Paired([FromCheckpoint(m)] + after) <==> NoEarlyUse(m)
  {
    EarlyUses(m);
    if NoEarlyUse(m) {
      CutKeepsPairs(before, m, after);
    } else {
      CutHidesCall(before, m, after);
    }
  }

  lemma EarlyUses(m: Message)
    requires HasCheckpoint(m)
    ensures NoEarlyUse(m) ==> UseIds(m) == UseIds(FromCheckpoint(m))
    ensures !NoEarlyUse(m) ==> |UseIds(m)| > |UseIds(FromCheckpoint(m))|
  {
    var k := |m.blocks| - |Cut(m.blocks)|;
    UseIdsSplit(m.blocks, k, |m.blocks|);
    if NoEarlyUse(m) {
      NoUses(m.blocks, k);
    } else {
      var i :| 0 <= i < k && m.blocks[i].ToolUse?;
      UsesFound(m.blocks, i, k);
    }
  }

  lemma CutHidesCall(before: seq<Message>, m: Message, after: seq<Message>)
    requires Paired(before + [m] + after) && HasCheckpoint(m)
    requires |UseIds(m)| > |UseIds(FromCheckpoint(m))|
    ensures !Paired([FromCheckpoint(m)] + after)
  {
    var all, p := before + [m] + after, |before|;
    var view := [FromCheckpoint(m)] + after;
    assert PairedAt(all, p) && all[p] == m && all[p + 1] == after[0];
    assert after[0].blocks[0].ToolResult?;
    assert view[1] == after[0] && !PairedAt(view, 1);
  }

  lemma CutKeepsPairs(before: seq<Message>, m: Message, after: seq<Message>)
    requires Paired(before + [m] + after) && HasCheckpoint(m) && NoResults(m)
    requires UseIds(FromCheckpoint(m)) == UseIds(m)
    ensures Paired([FromCheckpoint(m)] + after)
  {
    forall i | 0 <= i <= |after|
      ensures PairedAt([] + [FromCheckpoint(m)] + after, i)
    {
      assert PairedAt(before + [m] + after, |before| + i);
      if i == 0 {
        CutKeepsFirst(before, m, after);
      } else {
        CutKeepsLater(before, m, after, i);
      }
    }
    assert [] + [FromCheckpoint(m)] + after == [FromCheckpoint(m)] + after;
  }

  lemma Neighbours(before: seq<Message>, m: Message, after: seq<Message>, i: nat)
    requires i <= |after|
    ensures var all, p := before + [m] + after, |before| + i;
            && all[p] == (if i == 0 then m else after[i - 1])
            && Next(all, p) == (if i < |after| then Some(after[i]) else None)
            && (i > 0 ==> Previous(all, p) == Some(if i == 1 then m else after[i - 2]))
            && (i == 0 && before == [] ==> Previous(all, p) == None)
  {
  }

  /** The cut message can stand first. */
  lemma PairedFirst(previous: Option<Message>, m: Message, next: Option<Message>)
    requires HasCheckpoint(m) && NoResults(m) && UseIds(FromCheckpoint(m)) == UseIds(m)
    requires PairedHere(previous, m, next)
    ensures PairedHere(None, FromCheckpoint(m), next)
  {
    CutHasNoResults(m);
  }

  lemma CutHasNoResults(m: Message)
    requires HasCheckpoint(m) && NoResults(m)
    ensures NoResults(FromCheckpoint(m))
  {
    var k := |m.blocks| - |Cut(m.blocks)|;
    forall i | 0 <= i < |Cut(m.blocks)|
      ensures Cut(m.blocks)[i] == m.blocks[k + i]
    {
    }
  }

  /** Only the calls of the previous message matter. */
  lemma PairedAfterCut(previous: Message, cut: Message, m: Message, next: Option<Message>)
    requires UseIds(previous) == UseIds(cut) && PairedHere(Some(previous), m, next)
    ensures PairedHere(Some(cut), m, next)
  {
  }

  lemma CutKeepsFirst(before: seq<Message>, m: Message, after: seq<Message>)
    requires HasCheckpoint(m) && NoResults(m) && UseIds(FromCheckpoint(m)) == UseIds(m)
    requires PairedAt(before + [m] + after, |before|)
    ensures PairedAt([] + [FromCheckpoint(m)] + after, 0)
  {
    var next := if after == [] then None else Some(after[0]);
    Neighbours(before, m, after, 0);
    Neighbours([], FromCheckpoint(m), after, 0);
    PairedFirst(Previous(before + [m] + after, |before|), m, next);
  }

  lemma CutKeepsLater(before: seq<Message>, m: Message, after: seq<Message>, i: nat)
    requires HasCheckpoint(m) && UseIds(FromCheckpoint(m)) == UseIds(m)
    requires 0 < i <= |after| && PairedAt(before + [m] + after, |before| + i)
    ensures PairedAt([] + [FromCheckpoint(m)] + after, i)
  {
    var next := if i < |after| then Some(after[i]) else None;
    Neighbours(before, m, after, i);
    Neighbours([], FromCheckpoint(m), after, i);
    if i == 1 {
      PairedAfterCut(m, FromCheckpoint(m), after[0], next);
    }
  }
}

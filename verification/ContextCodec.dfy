/** Storing a conversation and reading it back: encodeProviderContext and
    buildTurnMessages in internal/assistant/anthropic_context.go. */
module ContextCodec {
  import opened Basics
  import opened AnthropicContext

  datatype Json =
    | JNull
    | JBool(truth: bool)
    | JString(chars: string)
    | JArray(items: seq<Json>)
    | JObject(fields: map<string, Json>)

  /** ProviderContext: the opaque state kept between turns. */
  datatype ProviderContext = ProviderContext(provider: string, version: int, messages: seq<Json>)

  const ANTHROPIC_PROVIDER := "anthropic"
  const ANTHROPIC_CONTEXT_VERSION := 1
  const NO_CONTEXT := ProviderContext("", 0, [])

  // ----- The wire form of one message -----

  function EncodeBlock(b: Block): Json {
    match b
    case Text(text) => JObject(map["type" := JString("text"), "text" := JString(text)])
    case Image(data, mediaType) =>
      JObject(map["type" := JString("image"), "data" := JString(data), "media_type" := JString(mediaType)])
    case ToolUse(id, name, input) =>
      JObject(map["type" := JString("tool_use"), "id" := JString(id), "name" := JString(name),
                  "input" := JString(input)])
    case ToolResult(toolUseId, payload, isError) =>
      JObject(map["type" := JString("tool_result"), "tool_use_id" := JString(toolUseId),
                  "content" := JString(payload), "is_error" := JBool(isError)])
    case WebSearch(found) => JObject(map["type" := JString("web_search_tool_result"), "text" := JString(found)])
    case Compaction(summary) =>
      JObject(map["type" := JString("compaction"),
                  "content" := if summary.Some? then JString(summary.value) else JNull])
    case Opaque(raw) => JString(raw)
  }

  function StringField(j: Json, key: string): Option<string> {
    if j.JObject? && key in j.fields && j.fields[key].JString? then Some(j.fields[key].chars) else None
  }

  function DecodeBlock(j: Json): Option<Block> {
    if j.JString? then Some(Opaque(j.chars)) else
    var kind := StringField(j, "type");
    var text, data, media := StringField(j, "text"), StringField(j, "data"), StringField(j, "media_type");
    var id, name, input := StringField(j, "id"), StringField(j, "name"), StringField(j, "input");
    var use, content := StringField(j, "tool_use_id"), StringField(j, "content");
    if kind == Some("text") && text.Some? then Some(Text(text.value))
    else if kind == Some("image") && data.Some? && media.Some? then Some(Image(data.value, media.value))
    else if kind == Some("tool_use") && id.Some? && name.Some? && input.Some? then
      Some(ToolUse(id.value, name.value, input.value))
    else if kind == Some("tool_result") && use.Some? && content.Some?
            && "is_error" in j.fields && j.fields["is_error"].JBool? then
      Some(ToolResult(use.value, content.value, j.fields["is_error"].truth))
    else if kind == Some("web_search_tool_result") && text.Some? then Some(WebSearch(text.value))
    else if kind == Some("compaction") && content.Some? then Some(Compaction(content))
    else if kind == Some("compaction") && "content" in j.fields && j.fields["content"].JNull? then
      Some(Compaction(None))
    else None
  }

  lemma BlockRoundTrip(b: Block)
    ensures DecodeBlock(EncodeBlock(b)) == Some(b)
  {
  }

  function EncodeBlocks(bs: seq<Block>): seq<Json> {
    if bs == [] then [] else [EncodeBlock(bs[0])] + EncodeBlocks(bs[1..])
  }

  function DecodeBlocks(js: seq<Json>): Option<seq<Block>> {
    if js == [] then Some([]) else
    var head, tail := DecodeBlock(js[0]), DecodeBlocks(js[1..]);
    if head.Some? && tail.Some? then Some([head.value] + tail.value) else None
  }

  lemma {:induction false} BlocksRoundTrip(bs: seq<Block>)
    ensures DecodeBlocks(EncodeBlocks(bs)) == Some(bs)
  {
    if bs != [] {
      BlockRoundTrip(bs[0]);
      BlocksRoundTrip(bs[1..]);
      assert EncodeBlocks(bs)[1..] == EncodeBlocks(bs[1..]);
      assert bs == [bs[0]] + bs[1..];
    }
  }

  function EncodeMessage(m: Message): Json {
    JObject(map["role" := JString(if m.role.User? then "user" else "assistant"),
                "content" := JArray(EncodeBlocks(m.blocks))])
  }

  function DecodeMessage(j: Json): Option<Message> {
    var role := StringField(j, "role");
    if !(role == Some("user") || role == Some("assistant")) then None
    else if "content" !in j.fields || !j.fields["content"].JArray? then None
    else
      var blocks := DecodeBlocks(j.fields["content"].items);
      if blocks.None? then None
      else Some(Message(if role.value == "user" then User else Assistant, blocks.value))
  }

  lemma MessageRoundTrip(m: Message)
    ensures DecodeMessage(EncodeMessage(m)) == Some(m)
  {
    BlocksRoundTrip(m.blocks);
  }

  /** The names the provider knows blocks and roles by. */
  lemma WireNames(m: Message, i: nat)
    requires i < |m.blocks|
    ensures var j := EncodeMessage(m);
            && StringField(j, "role") == Some(if m.role == User then "user" else "assistant")
            && "content" in j.fields && j.fields["content"].JArray? && |j.fields["content"].items| == |m.blocks|
            && var b := j.fields["content"].items[i];
               && (m.blocks[i].Text? ==> StringField(b, "type") == Some("text"))
               && (m.blocks[i].ToolUse? ==> StringField(b, "type") == Some("tool_use"))
               && (m.blocks[i].ToolResult? ==>
                     StringField(b, "type") == Some("tool_result")
                     && StringField(b, "tool_use_id") == Some(m.blocks[i].toolUseId))
               && (m.blocks[i].Compaction? ==> StringField(b, "type") == Some("compaction"))
  {
    EncodedBlockAt(m.blocks, i);
  }

  lemma {:induction false} EncodedBlockAt(bs: seq<Block>, i: nat)
    requires i < |bs|
    ensures |EncodeBlocks(bs)| == |bs| && EncodeBlocks(bs)[i] == EncodeBlock(bs[i])
  {
    if |bs| > 1 {
      EncodedBlockAt(bs[1..], if i > 0 then i - 1 else 0);
    }
  }

  // ----- The stored context -----

  function Encoded(messages: seq<Message>): ProviderContext {
    ProviderContext(ANTHROPIC_PROVIDER, ANTHROPIC_CONTEXT_VERSION,
                    seq(|messages|, i requires 0 <= i < |messages| => EncodeMessage(messages[i])))
  }

  method EncodeProviderContext(messages: seq<Message>) returns (context: ProviderContext)
    ensures context == Encoded(messages)
    ensures context.provider == "anthropic" && context.version == 1 && |context.messages| == |messages|
    ensures forall i | 0 <= i < |messages| :: DecodeMessage(context.messages[i]) == Some(messages[i])
  {
    context := ProviderContext(ANTHROPIC_PROVIDER, ANTHROPIC_CONTEXT_VERSION, []);
    for i := 0 to |messages|
      invariant context == ProviderContext(ANTHROPIC_PROVIDER, ANTHROPIC_CONTEXT_VERSION, context.messages)
      invariant |context.messages| == i
      invariant forall k | 0 <= k < i :: context.messages[k] == EncodeMessage(messages[k])
      invariant forall k | 0 <= k < i :: DecodeMessage(context.messages[k]) == Some(messages[k])
    {
      context := context.(messages := context.messages + [EncodeMessage(messages[i])]);
      MessageRoundTrip(messages[i]);
    }
  }

  /** The first n messages decoded, or the index of the first one that does not decode. */
  function DecodedTo(js: seq<Json>, n: nat): Result<seq<Message>, nat>
    requires n <= |js|
  {
    if n == 0 then Ok([]) else
    var front := DecodedTo(js, n - 1);
    if front.Err? then front
    else if DecodeMessage(js[n - 1]).None? then Err(n - 1)
    else Ok(front.value + [DecodeMessage(js[n - 1]).value])
  }

  function Decoded(js: seq<Json>): Result<seq<Message>, nat> {
    DecodedTo(js, |js|)
  }

  lemma {:induction false} DecodedPrefixFails(js: seq<Json>, i: nat)
    requires i <= |js| && DecodedTo(js, i).Err?
    ensures Decoded(js) == DecodedTo(js, i)
    decreases |js| - i
  {
    if i < |js| {
      DecodedPrefixFails(js, i + 1);
    }
  }

  /** What is stored reads back as the same messages, null compactions included. */
  lemma ContextRoundTrip(messages: seq<Message>)
    ensures Decoded(Encoded(messages).messages) == Ok(messages)
  {
    ContextRoundTripTo(messages, |messages|);
    assert messages[..|messages|] == messages;
  }

  lemma {:induction false} ContextRoundTripTo(messages: seq<Message>, n: nat)
    requires n <= |messages|
    ensures DecodedTo(Encoded(messages).messages, n) == Ok(messages[..n])
  {
    if n > 0 {
      ContextRoundTripTo(messages, n - 1);
      MessageRoundTrip(messages[n - 1]);
      assert messages[..n] == messages[..n - 1] + [messages[n - 1]];
    }
  }

  // ----- The messages of a turn -----

  /** One line of the display transcript. */
  datatype ChatLine = ChatLine(role: string, content: string)

  datatype ImageInput = ImageInput(base64: string, mediaType: string)

  function Lower(s: string): string {
    seq(|s|, i requires 0 <= i < |s| => if 'A' <= s[i] <= 'Z' then (s[i] as int + 32) as char else s[i])
  }

  function ImageMediaType(s: string): string {
    if s == "image/jpeg" || s == "image/gif" || s == "image/webp" then s else "image/png"
  }

  function CurrentUserMessage(text: string, image: Option<ImageInput>): Message {
    if image.None? || image.value.base64 == "" then Message(User, [Text(text)])
    else
      var picture := Image(image.value.base64, ImageMediaType(image.value.mediaType));
      Message(User, if text != "" then [picture, Text(text)] else [picture])
  }

  /** The first n display lines as text-only messages, system lines left out. */
  function SeededTo(history: seq<ChatLine>, n: nat): seq<Message>
    requires n <= |history|
  {
    if n == 0 then [] else
    var line := history[n - 1];
    var role := Lower(line.role);
    if role == "system" then SeededTo(history, n - 1)
    else SeededTo(history, n - 1) + [Message(if role == "assistant" then Assistant else User, [Text(line.content)])]
  }

  function Seeded(history: seq<ChatLine>): seq<Message> {
    SeededTo(history, |history|)
  }

  method BuildBetaMessageParams(history: seq<ChatLine>, userMessage: string, image: Option<ImageInput>)
    returns (params: seq<Message>)
    ensures params == Seeded(history) + [CurrentUserMessage(userMessage, image)]
  {
    params := [];
    for i := 0 to |history|
      invariant params == SeededTo(history, i)
    {
      var role := Lower(history[i].role);
      if role == "assistant" {
        params := params + [Message(Assistant, [Text(history[i].content)])];
      } else if role == "system" {
        continue;
      } else {
        params := params + [Message(User, [Text(history[i].content)])];
      }
    }
    params := params + [CurrentUserMessage(userMessage, image)];
  }

  predicate Usable(context: ProviderContext) {
    && context.provider == ANTHROPIC_PROVIDER
    && context.version == ANTHROPIC_CONTEXT_VERSION
    && context.messages != []
  }

  /** The conversation a turn starts from: the stored context when there is a
      usable one, the display transcript otherwise. */
  function Opening(history: seq<ChatLine>, context: ProviderContext): Result<seq<Message>, nat> {
    if Usable(context) then Decoded(context.messages) else Ok(Seeded(history))
  }

  function TurnMessages(history: seq<ChatLine>, context: ProviderContext, text: string, image: Option<ImageInput>)
    : Result<seq<Message>, nat>
  {
    var opening := Opening(history, context);
    if opening.Err? then opening else Ok(opening.value + [CurrentUserMessage(text, image)])
  }

  method BuildTurnMessages(history: seq<ChatLine>, context: ProviderContext, text: string, image: Option<ImageInput>)
    returns (r: Result<seq<Message>, nat>)
    ensures r == TurnMessages(history, context, text, image)
  {
    var messages: seq<Message> := [];
    if Usable(context) {
      for i := 0 to |context.messages|
        invariant DecodedTo(context.messages, i) == Ok(messages)
      {
        var message := DecodeMessage(context.messages[i]);
        if message.None? {
          DecodedPrefixFails(context.messages, i + 1);
          return Err(i);
        }
        messages := messages + [message.value];
      }
    } else {
      messages := BuildBetaMessageParams(history, "", None);
      if |messages| > 0 {
        messages := messages[..|messages| - 1];
      }
    }
    r := Ok(messages + [CurrentUserMessage(text, image)]);
  }

  // ----- The messages of a turn, by their fields -----

  /** The letters of the word, in either case. */
  predicate Spells(s: string, word: string) {
    && |s| == |word|
    && forall i | 0 <= i < |s| :: s[i] == word[i] || ('A' <= s[i] <= 'Z' && s[i] as int + 32 == word[i] as int)
  }

  lemma LowerSpells(s: string, word: string)
    requires forall i | 0 <= i < |word| :: 'a' <= word[i] <= 'z'
    ensures Lower(s) == word <==> Spells(s, word)
  {
    if Lower(s) == word {
      forall i | 0 <= i < |s|
        ensures Lower(s)[i] == word[i]
      {
      }
    }
  }

  predicate IsSystem(line: ChatLine) {
    Spells(line.role, "system")
  }

  /** A text from the assistant where the role says so in any case, from the user otherwise. */
  predicate Shows(m: Message, line: ChatLine) {
    && m.blocks == [Text(line.content)]
    && (m.role == Assistant <==> Spells(line.role, "assistant"))
  }

  /** picks names, in order, the first n lines that are not system lines, and the
      messages show them. */
  predicate Lists(messages: seq<Message>, history: seq<ChatLine>, picks: seq<nat>, n: nat) {
    && n <= |history| && |messages| == |picks|
    && (forall k | 0 <= k < |picks| :: picks[k] < n && Shows(messages[k], history[picks[k]]))
    && (forall j, k | 0 <= j < k < |picks| :: picks[j] < picks[k])
    && (forall i | 0 <= i < n :: i in picks <==> !IsSystem(history[i]))
  }

  lemma ListsTake(messages: seq<Message>, history: seq<ChatLine>, picks: seq<nat>, n: nat, m: Message)
    requires n < |history| && Lists(messages, history, picks, n) && !IsSystem(history[n]) && Shows(m, history[n])
    ensures Lists(messages + [m], history, picks + [n], n + 1)
  {
    assert forall i | 0 <= i < n :: i in picks + [n] <==> i in picks;
  }

  lemma SeedsLine(history: seq<ChatLine>, n: nat) returns (m: Message)
    requires n < |history|
    ensures IsSystem(history[n]) ==> SeededTo(history, n + 1) == SeededTo(history, n)
    ensures !IsSystem(history[n]) ==> SeededTo(history, n + 1) == SeededTo(history, n) + [m] && Shows(m, history[n])
  {
    var line := history[n];
    LowerSpells(line.role, "system");
    LowerSpells(line.role, "assistant");
    m := Message(if Lower(line.role) == "assistant" then Assistant else User, [Text(line.content)]);
  }

  lemma ListsSkip(messages: seq<Message>, history: seq<ChatLine>, picks: seq<nat>, n: nat)
    requires n < |history| && Lists(messages, history, picks, n) && IsSystem(history[n])
    ensures Lists(messages, history, picks, n + 1)
  {
  }

  /** The transcript gives one message per line that is not a system line. */
  lemma {:induction false} SeededExactly(history: seq<ChatLine>, n: nat) returns (picks: seq<nat>)
    requires n <= |history|
    ensures Lists(SeededTo(history, n), history, picks, n)
  {
    if n == 0 {
      picks := [];
    } else {
      picks := SeededExactly(history, n - 1);
      var m := SeedsLine(history, n - 1);
      if IsSystem(history[n - 1]) {
        ListsSkip(SeededTo(history, n - 1), history, picks, n - 1);
      } else {
        ListsTake(SeededTo(history, n - 1), history, picks, n - 1, m);
        picks := picks + [n - 1];
      }
    }
  }

  /** The current message: the picture first where there is one, then the text where
      there is one; the text alone, empty or not, without a picture. */
  lemma CurrentExactly(text: string, image: Option<ImageInput>)
    ensures var m := CurrentUserMessage(text, image);
            && m.role == User
            && (image.None? || image.value.base64 == "" ==> m.blocks == [Text(text)])
            && (image.Some? && image.value.base64 != "" ==>
                  && |m.blocks| == (if text == "" then 1 else 2) && (text != "" ==> m.blocks[1] == Text(text))
                  && m.blocks[0].Image? && m.blocks[0].data == image.value.base64
                  && m.blocks[0].mediaType in ["image/png", "image/jpeg", "image/gif", "image/webp"]
                  && (m.blocks[0].mediaType == image.value.mediaType
                      || (m.blocks[0].mediaType == "image/png"
                          && image.value.mediaType !in ["image/jpeg", "image/gif", "image/webp"])))
  {
  }

  /** A turn starts from the stored context when that is Anthropic's, of this version
      and not empty, and fails at the first message of it that does not decode; it
      starts from the transcript otherwise. The current message comes last. */
  lemma TurnMessagesExactly(history: seq<ChatLine>, context: ProviderContext, text: string, image: Option<ImageInput>)
    ensures var r, js := TurnMessages(history, context, text, image), context.messages;
            && (r.Ok? ==> r.value != [] && r.value[|r.value| - 1] == CurrentUserMessage(text, image))
            && if context.provider == "anthropic" && context.version == 1 && js != [] then
                 if r.Ok? then
                   |r.value| == |js| + 1 && forall k | 0 <= k < |js| :: DecodeMessage(js[k]) == Some(r.value[k])
                 else
                   && r.error < |js| && DecodeMessage(js[r.error]).None?
                   && forall k | 0 <= k < r.error :: DecodeMessage(js[k]).Some?
               else r.Ok? && r.value[..|r.value| - 1] == SeededTo(history, |history|)
  {
    DecodedExactly(context.messages, |context.messages|);
  }

  lemma {:induction false} DecodedExactly(js: seq<Json>, n: nat)
    requires n <= |js|
    ensures var r := DecodedTo(js, n);
            if r.Ok? then |r.value| == n && forall k | 0 <= k < n :: DecodeMessage(js[k]) == Some(r.value[k])
            else
              && r.error < n && DecodeMessage(js[r.error]).None?
              && forall k | 0 <= k < r.error :: DecodeMessage(js[k]).Some?
  {
    if n > 0 {
      DecodedExactly(js, n - 1);
    }
  }
}

/**
 * Request and response body conversion between the OpenAI chat-completion
 * shape and the Anthropic Messages shape
 * (apps/worker/src/services/format-converter.ts, non-streaming part).
 *
 * Parsed JSON bodies are datatypes: a field that may be missing is an
 * `Option`; fields the converters never read are not represented.
 */
module FormatConverter {
  import opened Wrappers
  import opened Text

  /** A content block; the converters only look at `type` and `text`. */
  datatype Block = Block(kind: string, text: Option<string>)

  /** Message content: a plain string or an array of blocks. */
  datatype Content = TextContent(text: string) | BlockContent(blocks: seq<Block>)

  datatype Message = Message(role: string, content: Content)

  /** OpenAI `stop`: one string or a list. */
  datatype Stop = StopString(s: string) | StopList(list: seq<string>)

  datatype OpenaiRequest = OpenaiRequest(
    model: Option<string>,
    messages: Option<seq<Message>>,
    stream: Option<bool>,
    maxTokens: Option<int>,
    temperature: Option<real>,
    topP: Option<real>,
    stop: Option<Stop>)

  /** Anthropic `system`: a string or an array of text blocks. */
  datatype SystemPrompt = SystemString(text: string) | SystemBlocks(blocks: seq<Block>)

  datatype AnthropicRequest = AnthropicRequest(
    model: Option<string>,
    messages: Option<seq<Message>>,
    system: Option<SystemPrompt>,
    maxTokens: Option<int>,
    stream: Option<bool>,
    temperature: Option<real>,
    topP: Option<real>,
    stopSequences: Option<seq<string>>)

  const DefaultMaxTokens := 4096

  /** JavaScript truthiness of an optional string: present and non-empty. */
  predicate Truthy(s: Option<string>) {
    s.Some? && s.value != ""
  }

  predicate StopTruthy(stop: Option<Stop>) {
    stop.Some? && (stop.value.StopString? ==> stop.value.s != "")
  }

  predicate SystemTruthy(system: Option<SystemPrompt>) {
    system.Some? && (system.value.SystemString? ==> system.value.text != "")
  }

  /** `blocks.map(b => b.text ?? "")`. */
  function BlockTexts(blocks: seq<Block>): (r: seq<string>)
    ensures |r| == |blocks|
    ensures forall i :: 0 <= i < |r| ==> r[i] == blocks[i].text.GetOr("")
  {
    if blocks == [] then [] else [blocks[0].text.GetOr("")] + BlockTexts(blocks[1..])
  }

  /** The text of the `text` blocks only, in order, other blocks contributing nothing. */
  function TextOfBlocks(blocks: seq<Block>): string
  {
    if blocks == [] then ""
    else (if blocks[0].kind == "text" then blocks[0].text.GetOr("") else "") + TextOfBlocks(blocks[1..])
  }

  lemma {:induction false} TextOfBlocksAppend(a: seq<Block>, b: seq<Block>)
    ensures TextOfBlocks(a + b) == TextOfBlocks(a) + TextOfBlocks(b)
  {
    if a == [] {
      assert a + b == b;
    } else {
      assert (a + b)[1..] == a[1..] + b;
      TextOfBlocksAppend(a[1..], b);
    }
  }

  /** Blocks that are not of type "text" never contribute to the flattened string. */
  lemma {:induction false} TextOfBlocksIgnoresOthers(blocks: seq<Block>, other: Block)
    requires other.kind != "text"
    ensures TextOfBlocks(blocks + [other]) == TextOfBlocks(blocks)
    ensures TextOfBlocks([other] + blocks) == TextOfBlocks(blocks)
  {
    TextOfBlocksAppend(blocks, [other]);
    TextOfBlocksAppend([other], blocks);
  }

  // --- OpenAI -> Anthropic request ---

  /** The text a system-role message contributes: its string, or its blocks' texts joined by "\n". */
  function SystemMessageText(content: Content): string
  {
    match content
    case TextContent(t) => t
    case BlockContent(bs) => Join(BlockTexts(bs), "\n")
  }

  /** The texts of the system-role messages, in order. */
  function SystemParts(msgs: seq<Message>): (r: seq<string>)
    ensures |r| <= |msgs|
  {
    if msgs == [] then []
    else
      var rest := SystemParts(msgs[1..]);
      if msgs[0].role == "system" then [SystemMessageText(msgs[0].content)] + rest else rest
  }

  /** There are no system parts exactly when no message has the system role. */
  lemma {:induction false} SystemPartsEmpty(msgs: seq<Message>)
    ensures SystemParts(msgs) == [] <==> forall i :: 0 <= i < |msgs| ==> msgs[i].role != "system"
  {
    if msgs != [] {
      SystemPartsEmpty(msgs[1..]);
      assert forall i :: 1 <= i < |msgs| ==> msgs[i] == msgs[1..][i - 1];
    }
  }

  /** The role an OpenAI non-system message gets on the Anthropic side. */
  function AnthropicRole(role: string): (r: string)
    ensures r == "assistant" || r == "user"
    ensures r == "assistant" <==> role == "assistant"
  {
    if role == "assistant" then "assistant" else "user"
  }

  /** The non-system messages, role mapped, content kept, order kept. */
  function NonSystemMessages(msgs: seq<Message>): (r: seq<Message>)
    ensures |r| <= |msgs|
    ensures forall i :: 0 <= i < |r| ==> r[i].role == "user" || r[i].role == "assistant"
  {
    if msgs == [] then []
    else
      var rest := NonSystemMessages(msgs[1..]);
      if msgs[0].role == "system" then rest
      else [Message(AnthropicRole(msgs[0].role), msgs[0].content)] + rest
  }

  /**
   * How one message is split: a system message contributes its text to the
   * system parts and nothing to the messages, any other message is kept with
   * its role mapped.
   */
  lemma SplitOfMessage(m: Message)
    ensures SystemParts([m]) == if m.role == "system" then [SystemMessageText(m.content)] else []
    ensures NonSystemMessages([m]) == if m.role == "system" then [] else [Message(AnthropicRole(m.role), m.content)]
  {
    assert [m][1..] == [];
  }

  /** The system parts of a concatenation are the concatenated system parts. */
  lemma {:induction false} SystemPartsAppend(a: seq<Message>, b: seq<Message>)
    ensures SystemParts(a + b) == SystemParts(a) + SystemParts(b)
  {
    if a == [] {
      assert a + b == b;
    } else {
      var ab := a + b;
      assert ab[0] == a[0] && ab[1..] == a[1..] + b;
      var head := if a[0].role == "system" then [SystemMessageText(a[0].content)] else [];
      var x, y := SystemParts(a[1..]), SystemParts(b);
      SystemPartsAppend(a[1..], b);
      assert SystemParts(ab) == head + (x + y);
      assert SystemParts(a) == head + x;
      assert head + (x + y) == (head + x) + y;
    }
  }

  /** The kept messages of a concatenation are the concatenated kept messages. */
  lemma {:induction false} NonSystemMessagesAppend(a: seq<Message>, b: seq<Message>)
    ensures NonSystemMessages(a + b) == NonSystemMessages(a) + NonSystemMessages(b)
  {
    if a == [] {
      assert a + b == b;
    } else {
      var ab := a + b;
      assert ab[0] == a[0] && ab[1..] == a[1..] + b;
      var head := if a[0].role == "system" then [] else [Message(AnthropicRole(a[0].role), a[0].content)];
      var x, y := NonSystemMessages(a[1..]), NonSystemMessages(b);
      NonSystemMessagesAppend(a[1..], b);
      assert NonSystemMessages(ab) == head + (x + y);
      assert NonSystemMessages(a) == head + x;
      assert head + (x + y) == (head + x) + y;
    }
  }

  /** Every message goes to exactly one side: the system parts or the kept messages. */
  lemma {:induction false} SplitCounts(msgs: seq<Message>)
    ensures |NonSystemMessages(msgs)| + |SystemParts(msgs)| == |msgs|
  {
    if msgs != [] {
      SplitCounts(msgs[1..]);
    }
  }

  /** `openaiToAnthropicRequest`. */
  function OpenaiToAnthropicRequest(body: OpenaiRequest): (r: AnthropicRequest)
    ensures r.maxTokens == Some(if body.maxTokens.Some? then body.maxTokens.value else DefaultMaxTokens)
    ensures StopTruthy(body.stop) && body.stop.value.StopString? ==> r.stopSequences == Some([body.stop.value.s])
    ensures StopTruthy(body.stop) && body.stop.value.StopList? ==> r.stopSequences == Some(body.stop.value.list)
    ensures !StopTruthy(body.stop) ==> r.stopSequences == None
    ensures r.messages.Some?
    ensures forall i :: 0 <= i < |r.messages.value| ==> r.messages.value[i].role in {"user", "assistant"}
    ensures r.system.None? <==> forall i :: 0 <= i < |body.messages.GetOr([])| ==> body.messages.GetOr([])[i].role != "system"
    ensures r.system.Some? ==> r.system.value == SystemString(Join(SystemParts(body.messages.GetOr([])), "\n\n"))
    ensures r.messages == Some(NonSystemMessages(body.messages.GetOr([])))
    ensures r.model == (if Truthy(body.model) then body.model else None)
    ensures r.stream == body.stream && r.temperature == body.temperature && r.topP == body.topP
  {
    var msgs := body.messages.GetOr([]);
    var parts := SystemParts(msgs);
    SystemPartsEmpty(msgs);
    AnthropicRequest(
      model := if Truthy(body.model) then body.model else None,
      messages := Some(NonSystemMessages(msgs)),
      system := if |parts| > 0 then Some(SystemString(Join(parts, "\n\n"))) else None,
      maxTokens := Some(body.maxTokens.GetOr(DefaultMaxTokens)),
      stream := body.stream,
      temperature := body.temperature,
      topP := body.topP,
      stopSequences :=
        if !StopTruthy(body.stop) then None
        else match body.stop.value
          case StopString(s) => Some([s])
          case StopList(l) => Some(l))
  }

  /** Several system messages end up joined with a blank line between them. */
  lemma {:induction false} SystemMessagesJoined(a: string, b: string, rest: seq<Message>)
    requires forall i :: 0 <= i < |rest| ==> rest[i].role != "system"
    ensures var r := OpenaiToAnthropicRequest(OpenaiRequest(None,
        Some([Message("system", TextContent(a)), Message("system", TextContent(b))] + rest),
        None, None, None, None, None));
      r.system == Some(SystemString(a + "\n\n" + b)) && r.messages == Some(NonSystemMessages(rest))
  {
    var m1, m2 := Message("system", TextContent(a)), Message("system", TextContent(b));
    var msgs := [m1, m2] + rest;
    assert msgs[1..] == [m2] + rest;
    assert ([m2] + rest)[1..] == rest;
    SystemPartsEmpty(rest);
    assert SystemParts(rest) == [];
    assert SystemParts([m2] + rest) == [b];
    assert SystemParts(msgs) == [a, b];
    assert NonSystemMessages([m2] + rest) == NonSystemMessages(rest);
    assert NonSystemMessages(msgs) == NonSystemMessages(rest);
    assert Join([a, b], "\n\n") == a + "\n\n" + b;
    var r := OpenaiToAnthropicRequest(OpenaiRequest(None, Some(msgs), None, None, None, None, None));
    assert r.system == Some(SystemString(a + "\n\n" + b));
    assert r.messages == Some(NonSystemMessages(rest));
  }

  // --- Anthropic -> OpenAI request ---

  /** The text of an Anthropic `system` field. */
  function SystemPromptText(system: SystemPrompt): string
  {
    match system
    case SystemString(t) => t
    case SystemBlocks(bs) => Join(BlockTexts(bs), "\n\n")
  }

  /** Message content flattened to a string: text blocks only, concatenated. */
  function FlattenContent(content: Content): string
  {
    match content
    case TextContent(t) => t
    case BlockContent(bs) => TextOfBlocks(bs)
  }

  /** Each message with its content flattened and its role copied. */
  function FlattenMessages(msgs: seq<Message>): (r: seq<Message>)
    ensures |r| == |msgs|
    ensures forall i :: 0 <= i < |r| ==>
      r[i].role == msgs[i].role && r[i].content == TextContent(FlattenContent(msgs[i].content))
  {
    if msgs == [] then []
    else [Message(msgs[0].role, TextContent(FlattenContent(msgs[0].content)))] + FlattenMessages(msgs[1..])
  }

  /** The flattened messages, after a prefix of text messages, keep their roles and all carry text. */
  lemma FlattenedAfterPrefix(prefix: seq<Message>, msgs: seq<Message>)
    requires forall i :: 0 <= i < |prefix| ==> prefix[i].content.TextContent?
    ensures var out := prefix + FlattenMessages(msgs);
      && |out| == |prefix| + |msgs|
      && (forall i :: 0 <= i < |msgs| ==> out[|prefix| + i].role == msgs[i].role)
      && (forall i :: 0 <= i < |out| ==> out[i].content.TextContent?)
  {
    var flat := FlattenMessages(msgs);
    var out := prefix + flat;
    forall i | 0 <= i < |msgs| ensures out[|prefix| + i].role == msgs[i].role {
      assert out[|prefix| + i] == flat[i];
    }
    forall i | 0 <= i < |out| ensures out[i].content.TextContent? {
      if i >= |prefix| { assert out[i] == flat[i - |prefix|]; }
    }
  }

  /**
   * What the OpenAI message list holds: a leading system message exactly when
   * the Anthropic `system` field is truthy, then one message per Anthropic
   * message with its role kept and its content flattened to the text of its
   * text blocks, and only string contents throughout.
   */
  predicate ConvertedMessages(system: Option<SystemPrompt>, msgs: seq<Message>, out: seq<Message>) {
    var k := if SystemTruthy(system) then 1 else 0;
    && |out| == k + |msgs|
    && (SystemTruthy(system) ==> out[0] == Message("system", TextContent(SystemPromptText(system.value))))
    && out[k..] == FlattenMessages(msgs)
    && (forall i :: 0 <= i < |msgs| ==> out[k + i].role == msgs[i].role)
    && (forall i :: 0 <= i < |out| ==> out[i].content.TextContent?)
  }

  /** `anthropicToOpenaiRequest`. */
  function AnthropicToOpenaiRequest(body: AnthropicRequest): (r: OpenaiRequest)
    ensures r.messages.Some? && ConvertedMessages(body.system, body.messages.GetOr([]), r.messages.value)
    ensures r.stop == (if body.stopSequences.Some? then Some(StopList(body.stopSequences.value)) else None)
    ensures r.maxTokens == body.maxTokens && r.stream == body.stream
    ensures r.temperature == body.temperature && r.topP == body.topP
    ensures r.model == (if Truthy(body.model) then body.model else None)
  {
    var system := if SystemTruthy(body.system)
      then [Message("system", TextContent(SystemPromptText(body.system.value)))] else [];
    var msgs := body.messages.GetOr([]);
    var out := system + FlattenMessages(msgs);
    FlattenedAfterPrefix(system, msgs);
    assert SystemTruthy(body.system) ==> out[0] == system[0];
    assert out[|system|..] == FlattenMessages(msgs);
    OpenaiRequest(
      model := if Truthy(body.model) then body.model else None,
      messages := Some(out),
      stream := body.stream,
      maxTokens := body.maxTokens,
      temperature := body.temperature,
      topP := body.topP,
      stop := if body.stopSequences.Some? then Some(StopList(body.stopSequences.value)) else None)
  }

  /** An empty `system` block array is still truthy, so it yields an empty system message. */
  lemma EmptySystemBlocksGiveEmptySystemMessage()
    ensures AnthropicToOpenaiRequest(AnthropicRequest(None, None, Some(SystemBlocks([])), None, None, None, None, None)).messages
      == Some([Message("system", TextContent(""))])
  {
    var body := AnthropicRequest(None, None, Some(SystemBlocks([])), None, None, None, None, None);
    assert BlockTexts([]) == [];
    assert SystemPromptText(SystemBlocks([])) == "";
    assert SystemTruthy(body.system);
    assert FlattenMessages([]) == [];
    var r := AnthropicToOpenaiRequest(body);
    assert r.messages.value[0] == Message("system", TextContent(""));
    assert |r.messages.value| == 1;
    assert r.messages.value == [Message("system", TextContent(""))];
    assert r.messages == Some([Message("system", TextContent(""))]);
  }

  // --- Round trip ---

  /** A plain chat message of the kind both dialects represent the same way. */
  predicate IsPlainTurn(m: Message) {
    (m.role == "user" || m.role == "assistant") && m.content.TextContent?
  }

  /** At most one leading system message with non-empty text, then plain user/assistant turns. */
  predicate IsPlainConversation(msgs: seq<Message>) {
    && (forall i :: 1 <= i < |msgs| ==> IsPlainTurn(msgs[i]))
    && (msgs != [] ==>
         (IsPlainTurn(msgs[0]) ||
          (msgs[0].role == "system" && msgs[0].content.TextContent? && msgs[0].content.text != "")))
  }

  lemma {:induction false} PlainTurnsSurvive(msgs: seq<Message>)
    requires forall i :: 0 <= i < |msgs| ==> IsPlainTurn(msgs[i])
    ensures SystemParts(msgs) == []
    ensures NonSystemMessages(msgs) == msgs
    ensures FlattenMessages(msgs) == msgs
  {
    if msgs != [] {
      PlainTurnsSurvive(msgs[1..]);
    }
  }

  /**
   * Converting a plain conversation to Anthropic and back keeps the model,
   * the stream flag and the message list.
   */
  lemma RequestRoundTrip(body: OpenaiRequest)
    requires body.messages.Some? && IsPlainConversation(body.messages.value)
    requires body.model != Some("")
    ensures var back := AnthropicToOpenaiRequest(OpenaiToAnthropicRequest(body));
      back.model == body.model && back.stream == body.stream && back.messages == body.messages
  {
    var msgs := body.messages.value;
    if msgs != [] && msgs[0].role == "system" {
      SystemTurnRoundTrip(body);
    } else {
      PlainTurnsRoundTrip(body);
    }
  }

  /** The round trip of a conversation that opens with a system message. */
  lemma SystemTurnRoundTrip(body: OpenaiRequest)
    requires body.messages.Some? && IsPlainConversation(body.messages.value)
    requires body.messages.value != [] && body.messages.value[0].role == "system"
    ensures AnthropicToOpenaiRequest(OpenaiToAnthropicRequest(body)).messages == body.messages
  {
    var msgs := body.messages.value;
    var t := msgs[0].content.text;
    PlainTurnsSurvive(msgs[1..]);
    assert SystemParts(msgs) == [t];
    assert NonSystemMessages(msgs) == msgs[1..];
    var there := OpenaiToAnthropicRequest(body);
    assert there.system == Some(SystemString(t));
    assert there.messages == Some(msgs[1..]);
    assert msgs[0] == Message("system", TextContent(t));
    assert [msgs[0]] + msgs[1..] == msgs;
  }

  /** The round trip of a conversation made only of plain turns. */
  lemma PlainTurnsRoundTrip(body: OpenaiRequest)
    requires body.messages.Some? && IsPlainConversation(body.messages.value)
    requires !(body.messages.value != [] && body.messages.value[0].role == "system")
    ensures AnthropicToOpenaiRequest(OpenaiToAnthropicRequest(body)).messages == body.messages
  {
    var msgs := body.messages.value;
    assert forall i :: 0 <= i < |msgs| ==> IsPlainTurn(msgs[i]);
    PlainTurnsSurvive(msgs);
    var there := OpenaiToAnthropicRequest(body);
    assert there.system == None;
    assert there.messages == Some(msgs);
    assert [] + msgs == msgs;
  }

  // --- Stop reasons ---

  /** `mapStopReason`: Anthropic stop_reason to OpenAI finish_reason. */
  function MapStopReason(stopReason: Option<string>): (r: string)
    ensures r in {"stop", "length", "tool_calls"}
    ensures r == "length" <==> stopReason == Some("max_tokens")
    ensures r == "tool_calls" <==> stopReason == Some("tool_use")
  {
    if !Truthy(stopReason) then "stop"
    else match stopReason.value
      case "end_turn" => "stop"
      case "stop_sequence" => "stop"
      case "max_tokens" => "length"
      case "tool_use" => "tool_calls"
      case _ => "stop"
  }

  /** `mapFinishReason`: OpenAI finish_reason to Anthropic stop_reason. */
  function MapFinishReason(finishReason: Option<string>): (r: string)
    ensures r in {"end_turn", "max_tokens", "tool_use"}
    ensures r == "max_tokens" <==> finishReason == Some("length")
    ensures r == "tool_use" <==> finishReason == Some("tool_calls")
  {
    if !Truthy(finishReason) then "end_turn"
    else match finishReason.value
      case "stop" => "end_turn"
      case "length" => "max_tokens"
      case "tool_calls" => "tool_use"
      case _ => "end_turn"
  }

  /** The two tables are inverse on the OpenAI reasons, and on the Anthropic ones except stop_sequence. */
  lemma StopReasonTablesInverse()
    ensures forall x :: x in {"stop", "length", "tool_calls"} ==> MapStopReason(Some(MapFinishReason(Some(x)))) == x
    ensures forall y :: y in {"end_turn", "max_tokens", "tool_use"} ==> MapFinishReason(Some(MapStopReason(Some(y)))) == y
    ensures MapFinishReason(Some(MapStopReason(Some("stop_sequence")))) == "end_turn"
    ensures MapStopReason(None) == "stop" && MapStopReason(Some("")) == "stop"
    ensures MapFinishReason(None) == "end_turn" && MapFinishReason(Some("")) == "end_turn"
  {
  }

  // --- Responses ---

  datatype AnthropicUsage = AnthropicUsage(inputTokens: Option<int>, outputTokens: Option<int>)

  datatype AnthropicResponse = AnthropicResponse(
    id: Option<string>,
    model: Option<string>,
    content: Option<seq<Block>>,
    stopReason: Option<string>,
    usage: Option<AnthropicUsage>)

  datatype OpenaiUsage = OpenaiUsage(promptTokens: int, completionTokens: int, totalTokens: int)

  /** An OpenAI chat.completion with its single assistant choice. */
  datatype OpenaiCompletion = OpenaiCompletion(
    id: string,
    created: int,
    model: Option<string>,
    content: string,
    finishReason: string,
    usage: Option<OpenaiUsage>)

  /**
   * `anthropicToOpenaiResponse`; `freshId` stands for `crypto.randomUUID()` and
   * `nowSeconds` for `Math.floor(Date.now() / 1000)`.
   */
  function AnthropicToOpenaiResponse(body: AnthropicResponse, freshId: string, nowSeconds: int): (r: OpenaiCompletion)
    ensures r.id == "chatcmpl-" + (if body.id.Some? then body.id.value else freshId)
    ensures r.content == TextOfBlocks(body.content.GetOr([]))
    ensures r.finishReason == MapStopReason(body.stopReason)
    ensures r.usage.Some? <==> body.usage.Some?
    ensures r.usage.Some? ==> r.usage.value.totalTokens == r.usage.value.promptTokens + r.usage.value.completionTokens
    ensures r.usage.Some? ==>
      (r.usage.value.promptTokens == body.usage.value.inputTokens.GetOr(0) &&
       r.usage.value.completionTokens == body.usage.value.outputTokens.GetOr(0))
    ensures r.model == body.model
  {
    OpenaiCompletion(
      id := "chatcmpl-" + body.id.GetOr(freshId),
      created := nowSeconds,
      model := body.model,
      content := TextOfBlocks(body.content.GetOr([])),
      finishReason := MapStopReason(body.stopReason),
      usage := match body.usage
        case None => None
        case Some(u) =>
          var input := u.inputTokens.GetOr(0);
          var output := u.outputTokens.GetOr(0);
          Some(OpenaiUsage(input, output, input + output)))
  }

  datatype OpenaiUsageIn = OpenaiUsageIn(promptTokens: Option<int>, completionTokens: Option<int>)

  /** A choice of an OpenAI response: `message?.content` and `finish_reason`. */
  datatype OpenaiChoice = OpenaiChoice(content: Option<string>, finishReason: Option<string>)

  datatype OpenaiResponse = OpenaiResponse(
    id: Option<string>,
    model: Option<string>,
    choices: Option<seq<OpenaiChoice>>,
    usage: Option<OpenaiUsageIn>)

  /** An Anthropic message response with its single text block. */
  datatype AnthropicMessage = AnthropicMessage(
    id: string,
    model: Option<string>,
    text: string,
    stopReason: string,
    inputTokens: int,
    outputTokens: int)

  /** The Anthropic id for an OpenAI response id. */
  function AnthropicMessageId(id: Option<string>, freshId: string): (r: string)
    ensures id.None? || id == Some("") ==> r == "msg_" + freshId
    ensures id.Some? && id.value != "" ==> r == ReplaceFirst(id.value, "chatcmpl-", "msg_")
  {
    var replaced := ReplaceFirst(id.GetOr(""), "chatcmpl-", "msg_");
    if replaced == "" then "msg_" + freshId else replaced
  }

  /** A "chatcmpl-" id keeps its suffix under a "msg_" prefix; an id without the marker is kept. */
  lemma MessageIdRewrite(suffix: string, other: string, freshId: string)
    requires other != "" && !Contains(other, "chatcmpl-")
    ensures AnthropicMessageId(Some("chatcmpl-" + suffix), freshId) == "msg_" + suffix
    ensures AnthropicMessageId(Some(other), freshId) == other
  {
    assert ("chatcmpl-" + suffix)[..9] == "chatcmpl-";
    assert ("chatcmpl-" + suffix)[9..] == suffix;
  }

  /** `openaiToAnthropicResponse`. */
  function OpenaiToAnthropicResponse(body: OpenaiResponse, freshId: string): (r: AnthropicMessage)
    ensures r.id == AnthropicMessageId(body.id, freshId)
    ensures body.usage.None? ==> r.inputTokens == 0 && r.outputTokens == 0
    ensures body.usage.Some? ==>
      (r.inputTokens == body.usage.value.promptTokens.GetOr(0) &&
       r.outputTokens == body.usage.value.completionTokens.GetOr(0))
    ensures body.choices.None? || body.choices.value == [] ==> r.text == "" && r.stopReason == "end_turn"
    ensures body.choices.Some? && body.choices.value != [] ==>
      (r.text == body.choices.value[0].content.GetOr("") && r.stopReason == MapFinishReason(body.choices.value[0].finishReason))
    ensures r.model == body.model
  {
    var first := if body.choices.Some? && body.choices.value != [] then Some(body.choices.value[0]) else None;
    var usage := body.usage.GetOr(OpenaiUsageIn(None, None));
    AnthropicMessage(
      id := AnthropicMessageId(body.id, freshId),
      model := body.model,
      text := if first.Some? then first.value.content.GetOr("") else "",
      stopReason := MapFinishReason(if first.Some? then first.value.finishReason else None),
      inputTokens := usage.promptTokens.GetOr(0),
      outputTokens := usage.completionTokens.GetOr(0))
  }
}

/**
 * The Anthropic-to-OpenAI stream transcoder
 * (`createAnthropicToOpenaiStreamTransform` and
 * `convertAnthropicEventToOpenaiChunk` in
 * apps/worker/src/services/format-converter.ts): Anthropic server-sent
 * events ("event:" and "data:" lines) in, OpenAI chat.completion.chunk
 * frames and "[DONE]" markers out.
 *
 * The closure state of the transform is the class `Transcoder`; the
 * handling of one line is the function `HandleLine`, and the loop of
 * `transform` is proved equal to `SseLines.Drain` with that handler.
 * `JSON.parse` is the oracle `parse` (None: not a JSON object), and
 * `crypto.randomUUID()` is the oracle `uuid`, indexed by how many ids have
 * been drawn so far.
 */
module AnthropicToOpenaiStream {
  import opened Wrappers
  import opened Text
  import opened SseLines
  import FormatConverter

  datatype StartUsage = StartUsage(inputTokens: Option<int>)

  /** `data.message` of a message_start event. */
  datatype MessageInfo = MessageInfo(id: Option<string>, model: Option<string>, usage: Option<StartUsage>)

  /** `data.delta`: a content delta (`type`, `text`) or a message delta (`stop_reason`). */
  datatype EventDelta = EventDelta(kind: Option<string>, text: Option<string>, stopReason: Option<string>)

  datatype DeltaUsage = DeltaUsage(outputTokens: Option<int>)

  /** A parsed Anthropic event payload. */
  datatype EventData = EventData(
    kind: Option<string>,
    message: Option<MessageInfo>,
    delta: Option<EventDelta>,
    usage: Option<DeltaUsage>)

  /** The `delta` of the single choice of an OpenAI chunk (its `index` is always 0). */
  datatype ChunkDelta =
    | RoleDelta                      // { role: "assistant", content: "" }
    | ContentDelta(content: string)  // { content }
    | EmptyDelta                     // {}

  datatype Chunk = Chunk(
    id: string,
    model: string,
    delta: ChunkDelta,
    finishReason: Option<string>,
    usage: Option<FormatConverter.OpenaiUsage>)

  /** What the transform enqueues: `data: <chunk>` or `data: [DONE]`. */
  datatype Frame = ChunkFrame(chunk: Chunk) | Done

  /** The closure variables other than the buffer, plus the number of UUIDs drawn. */
  datatype State = State(eventType: string, messageId: string, model: string, drawn: nat)

  const Initial := State("", "", "", 0)

  /** The chunk id: the message id when known, a fresh UUID otherwise. */
  function ChunkId(messageId: string, newId: string): (r: string)
    ensures StartsWith(r, "chatcmpl-")
    ensures messageId != "" ==> r[9..] == messageId
    ensures messageId == "" ==> r[9..] == newId
  {
    "chatcmpl-" + (if messageId != "" then messageId else newId)
  }

  /** The UUID `crypto.randomUUID()` returns when it is called for the `drawn`-th time. */
  function NextId(uuid: nat -> string, drawn: nat): string
  {
    uuid(drawn)
  }

  predicate IsTextDelta(data: EventData) {
    data.delta.Some? && data.delta.value.kind == Some("text_delta")
  }

  /** `convertAnthropicEventToOpenaiChunk`; `newId` is the UUID drawn when `messageId` is empty. */
  function ConvertEvent(eventType: string, data: EventData, messageId: string, model: string, newId: string): (r: Option<Chunk>)
    ensures r.Some? ==> r.value.id == ChunkId(messageId, newId)
  {
    var id := ChunkId(messageId, newId);
    match eventType
    case "message_start" =>
      var msg := data.message;
      var usage :=
        if msg.Some? && msg.value.usage.Some? then
          var input := msg.value.usage.value.inputTokens.GetOr(0);
          Some(FormatConverter.OpenaiUsage(input, 0, input))
        else None;
      var m := if msg.Some? then msg.value.model.GetOr(model) else model;
      Some(Chunk(id, m, RoleDelta, None, usage))
    case "content_block_delta" =>
      if IsTextDelta(data) then Some(Chunk(id, model, ContentDelta(data.delta.value.text.GetOr("")), None, None))
      else None
    case "message_delta" =>
      var stopReason := if data.delta.Some? then data.delta.value.stopReason else None;
      var usage :=
        if data.usage.Some? then
          var output := data.usage.value.outputTokens.GetOr(0);
          Some(FormatConverter.OpenaiUsage(0, output, output))
        else None;
      Some(Chunk(id, model, EmptyDelta, Some(FormatConverter.MapStopReason(stopReason)), usage))
    case _ => None
  }

  /**
   * Which events produce a chunk, and what it carries: the role delta for
   * message_start, the same text for a text_delta, the mapped stop reason for
   * message_delta; token totals are always the sum of their parts.
   */
  lemma ConvertEventCases(eventType: string, data: EventData, messageId: string, model: string, newId: string)
    ensures var r := ConvertEvent(eventType, data, messageId, model, newId);
      && (r.Some? <==>
           eventType == "message_start" || eventType == "message_delta" ||
           (eventType == "content_block_delta" && IsTextDelta(data)))
      && (r.Some? && eventType == "content_block_delta" ==>
           r.value.delta == ContentDelta(data.delta.value.text.GetOr("")) && r.value.model == model)
      && (r.Some? && eventType == "message_delta" ==>
           r.value.delta == EmptyDelta &&
           r.value.finishReason == Some(FormatConverter.MapStopReason(if data.delta.Some? then data.delta.value.stopReason else None)))
      && (r.Some? && eventType == "message_start" ==> r.value.delta == RoleDelta && r.value.finishReason == None)
      && (r.Some? && r.value.usage.Some? ==>
           r.value.usage.value.totalTokens == r.value.usage.value.promptTokens + r.value.usage.value.completionTokens)
  {
  }

  /** The payload of a "data:" line that parses, if the line is one. */
  function ParsedData(line: string, parse: string -> Option<EventData>): Option<EventData>
  {
    if StartsWith(line, "event:") || !StartsWith(line, "data:") then None
    else
      var payload := Trim(line[5..]);
      if payload == "" then None else parse(payload)
  }

  /** Whether this event ends the message, by its "event:" line or its own `type`. */
  predicate EndsMessage(eventType: string, data: EventData) {
    eventType == "message_stop" || data.kind == Some("message_stop")
  }

  /** The body of the `try` block for a parsed payload. */
  function Absorb(st: State, data: EventData, uuid: nat -> string): (State, seq<Frame>)
  {
    var chunk := ConvertEvent(st.eventType, data, st.messageId, st.model, NextId(uuid, st.drawn));
    var started := data.kind == Some("message_start") && data.message.Some?;
    var next := State(
      st.eventType,
      if started then data.message.value.id.GetOr(st.messageId) else st.messageId,
      if started then data.message.value.model.GetOr(st.model) else st.model,
      if st.messageId == "" then st.drawn + 1 else st.drawn);
    var frames := OptionalFrame(chunk);
    (next, if EndsMessage(st.eventType, data) then frames + [Done] else frames)
  }

  /** One trimmed line of the `transform` loop. */
  function HandleLine(st: State, line: string, parse: string -> Option<EventData>, uuid: nat -> string): (State, seq<Frame>)
  {
    if StartsWith(line, "event:") then (st.(eventType := Trim(line[6..])), [])
    else
      match ParsedData(line, parse)
      case None => (st, [])
      case Some(data) => Absorb(st, data, uuid)
  }

  /**
   * What one line does: only a parsed "data:" line emits anything, "[DONE]"
   * comes exactly with a message_stop, only an "event:" line changes the
   * event type, and only a message_start payload changes the message id or
   * model.
   */
  lemma HandleLineEffects(st: State, line: string, parse: string -> Option<EventData>, uuid: nat -> string)
    ensures var r := HandleLine(st, line, parse, uuid); var data := ParsedData(line, parse);
      && (data.None? ==> r.1 == [])
      && (data.Some? ==> (Done in r.1 <==> EndsMessage(st.eventType, data.value)))
      && r.0.eventType == (if StartsWith(line, "event:") then Trim(line[6..]) else st.eventType)
      && ((r.0.messageId != st.messageId || r.0.model != st.model) ==>
           data.Some? && data.value.kind == Some("message_start"))
      && r.0.drawn == (if data.Some? && st.messageId == "" then st.drawn + 1 else st.drawn)
  {
  }

  /** The line handler, as the value `SseLines.Drain` folds. */
  function Step(parse: string -> Option<EventData>, uuid: nat -> string): (State, string) -> (State, seq<Frame>)
  {
    (st: State, line: string) => HandleLine(st, line, parse, uuid)
  }

  /** `flush`: a last "data:" payload still in the buffer, then "[DONE]" unconditionally. */
  function FlushFrames(buffer: string, st: State, parse: string -> Option<EventData>, uuid: nat -> string): (State, seq<Frame>)
  {
    var parsed := FlushPayload(buffer, parse);
    if parsed.None? then (st, [Done])
    else
      var chunk := ConvertEvent(st.eventType, parsed.value, st.messageId, st.model, NextId(uuid, st.drawn));
      var next := State(st.eventType, st.messageId, st.model, if st.messageId == "" then st.drawn + 1 else st.drawn);
      (next, OptionalFrame(chunk) + [Done])
  }

  /** The payload `flush` still converts: a parsed "data:" line left in the buffer, other than "[DONE]". */
  function FlushPayload(buffer: string, parse: string -> Option<EventData>): Option<EventData>
  {
    var line := Trim(buffer);
    if line == "" || !StartsWith(line, "data:") then None
    else
      var payload := Trim(line[5..]);
      if payload == "" || payload == "[DONE]" then None else parse(payload)
  }

  function OptionalFrame(chunk: Option<Chunk>): (r: seq<Frame>)
    ensures |r| <= 1 && Done !in r
  {
    if chunk.Some? then [ChunkFrame(chunk.value)] else []
  }

  /** The transform's closure: the line buffer and the variables the loop updates. */
  class Transcoder {
    var buffer: string
    var currentEventType: string
    var messageId: string
    var model: string
    var drawn: nat

    function Current(): State
      reads this
    {
      State(currentEventType, messageId, model, drawn)
    }

    constructor()
      ensures buffer == "" && Current() == Initial
    {
      buffer := "";
      currentEventType := "";
      messageId := "";
      model := "";
      drawn := 0;
    }

    /** `transform(chunk)`: append, then handle every complete line. */
    method Transform(chunk: string, parse: string -> Option<EventData>, uuid: nat -> string) returns (frames: seq<Frame>)
      modifies this
      ensures var d := Drain(old(buffer) + chunk, old(Current()), Step(parse, uuid));
        buffer == d.pending && Current() == d.state && frames == d.out
    {
      buffer := buffer + chunk;
      ghost var total := Drain(buffer, Current(), Step(parse, uuid));
      frames := [];
      var newlineIndex := IndexOf(buffer, '\n');
      while newlineIndex != -1
        invariant newlineIndex == IndexOf(buffer, '\n')
        invariant var d := Drain(buffer, Current(), Step(parse, uuid));
          total == Drained(d.pending, d.state, frames + d.out)
        decreases |buffer|
      {
        ghost var before := Current();
        ghost var rest := buffer;
        var line := Trim(buffer[..newlineIndex]);
        buffer := buffer[newlineIndex + 1..];
        var emitted := HandleOne(line, parse, uuid);
        DrainLoopStep(rest, before, Step(parse, uuid), newlineIndex, total, frames, Current(), emitted);
        frames := frames + emitted;
        newlineIndex := IndexOf(buffer, '\n');
      }
    }

    /** The body of the `transform` loop for one trimmed line. */
    method HandleOne(line: string, parse: string -> Option<EventData>, uuid: nat -> string) returns (emitted: seq<Frame>)
      modifies this
      ensures buffer == old(buffer)
      ensures (Current(), emitted) == Step(parse, uuid)(old(Current()), line)
    {
      emitted := [];
      if StartsWith(line, "event:") {
        currentEventType := Trim(line[6..]);
      } else {
        var parsed := ParsedData(line, parse);
        if parsed.Some? {
          emitted := AbsorbOne(parsed.value, uuid);
        }
      }
    }

    /** The `try` block for a parsed payload: convert, remember the message, enqueue. */
    method AbsorbOne(data: EventData, uuid: nat -> string) returns (emitted: seq<Frame>)
      modifies this
      ensures buffer == old(buffer)
      ensures (Current(), emitted) == Absorb(old(Current()), data, uuid)
    {
      var openaiChunk := ConvertEvent(currentEventType, data, messageId, model, NextId(uuid, drawn));
      if messageId == "" {
        drawn := drawn + 1;
      }
      if data.kind == Some("message_start") && data.message.Some? {
        messageId := data.message.value.id.GetOr(messageId);
        model := data.message.value.model.GetOr(model);
      }
      emitted := OptionalFrame(openaiChunk);
      if currentEventType == "message_stop" || data.kind == Some("message_stop") {
        emitted := emitted + [Done];
      }
    }

    /** `flush()`: the buffer is left as it is. */
    method Flush(parse: string -> Option<EventData>, uuid: nat -> string) returns (frames: seq<Frame>)
      modifies this
      ensures buffer == old(buffer)
      ensures (Current(), frames) == FlushFrames(buffer, old(Current()), parse, uuid)
    {
      var parsed := FlushPayload(buffer, parse);
      if parsed.Some? {
        var openaiChunk := ConvertEvent(currentEventType, parsed.value, messageId, model, NextId(uuid, drawn));
        if messageId == "" {
          drawn := drawn + 1;
        }
        frames := OptionalFrame(openaiChunk) + [Done];
      } else {
        frames := [Done];
      }
    }
  }

  // --- Properties ---

  /** A "data:" line carrying a text_delta content_block_delta event with the given text. */
  predicate IsTextDeltaLine(line: string, parse: string -> Option<EventData>, text: string) {
    var data := ParsedData(line, parse);
    data.Some? && data.value.kind == Some("content_block_delta") && IsTextDelta(data.value) &&
    data.value.delta.value.text == Some(text)
  }

  /**
   * Under a "content_block_delta" event, text_delta lines become content
   * chunks carrying the same texts, one each, in the same order.
   */
  lemma {:induction false} TextDeltasInOrder(st: State, lines: seq<string>, texts: seq<string>,
                                             parse: string -> Option<EventData>, uuid: nat -> string)
    requires st.eventType == "content_block_delta"
    requires |lines| == |texts|
    requires forall i :: 0 <= i < |lines| ==> IsTextDeltaLine(lines[i], parse, texts[i])
    ensures var out := Run(st, lines, Step(parse, uuid)).1;
      |out| == |texts| && forall i :: 0 <= i < |out| ==> out[i].ChunkFrame? && out[i].chunk.delta == ContentDelta(texts[i])
    decreases |lines|
  {
    if lines != [] {
      var h := HandleLine(st, lines[0], parse, uuid);
      assert !StartsWith(lines[0], "event:");
      assert h.1 == [ChunkFrame(ConvertEvent(st.eventType, ParsedData(lines[0], parse).value, st.messageId, st.model, NextId(uuid, st.drawn)).value)];
      TextDeltasInOrder(h.0, lines[1..], texts[1..], parse, uuid);
    }
  }

  /**
   * The first chunk of a message is built before `messageId` is set, so its
   * id comes from a newId UUID, while every chunk after it uses the
   * message's own id.
   */
  lemma FirstChunkIdIsFresh(st: State, start: string, parse: string -> Option<EventData>, uuid: nat -> string, m: string)
    requires st.eventType == "message_start" && st.messageId == ""
    requires var data := ParsedData(start, parse);
      data.Some? && data.value.kind == Some("message_start") &&
      data.value.message.Some? && data.value.message.value.id == Some(m)
    requires m != ""
    ensures var h := HandleLine(st, start, parse, uuid);
      && h.1 != [] && h.1[0].ChunkFrame? && h.1[0].chunk.id == "chatcmpl-" + NextId(uuid, st.drawn)
      && h.0.messageId == m
  {
    assert !StartsWith(start, "event:") by {
      assert start[0] == 'd';
    }
    var data := ParsedData(start, parse).value;
    assert HandleLine(st, start, parse, uuid) == Absorb(st, data, uuid);
    ConvertEventCases(st.eventType, data, st.messageId, st.model, NextId(uuid, st.drawn));
  }

  /** Once the message id is known, every chunk carries it. */
  lemma LaterChunksUseMessageId(st: State, line: string, parse: string -> Option<EventData>, uuid: nat -> string)
    requires st.messageId != ""
    ensures forall f :: f in HandleLine(st, line, parse, uuid).1 && f.ChunkFrame? ==> f.chunk.id == "chatcmpl-" + st.messageId
  {
  }

  /** A message_stop event emits "[DONE]", and the flush that follows emits a second one. */
  lemma DoneTwiceAtMessageStop(st: State, line: string, parse: string -> Option<EventData>, uuid: nat -> string)
    requires ParsedData(line, parse).Some? && EndsMessage(st.eventType, ParsedData(line, parse).value)
    ensures var h := HandleLine(st, line, parse, uuid);
      var out := h.1 + FlushFrames("", h.0, parse, uuid).1;
      exists i, j :: 0 <= i < j < |out| && out[i] == Done && out[j] == Done
  {
    var h := HandleLine(st, line, parse, uuid);
    var f := FlushFrames("", h.0, parse, uuid).1;
    var out := h.1 + f;
    var i :| 0 <= i < |h.1| && h.1[i] == Done;
    assert out[i] == Done && out[|out| - 1] == Done;
  }

  /** Lines that are not parsed "data:" lines, and parsed events of other types, emit nothing. */
  lemma UnknownEventsEmitNothing(st: State, line: string, parse: string -> Option<EventData>, uuid: nat -> string)
    requires ParsedData(line, parse).Some? ==>
      var data := ParsedData(line, parse).value;
      && st.eventType !in {"message_start", "message_delta", "content_block_delta", "message_stop"}
      && data.kind != Some("message_stop")
    ensures HandleLine(st, line, parse, uuid).1 == []
  {
  }
}

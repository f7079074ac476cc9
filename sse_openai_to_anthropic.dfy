/**
 * The OpenAI-to-Anthropic stream transcoder
 * (`createOpenaiToAnthropicStreamTransform` and
 * `convertOpenaiChunkToAnthropicEvents` in
 * apps/worker/src/services/format-converter.ts): OpenAI
 * chat.completion.chunk "data:" lines in, Anthropic server-sent events out.
 *
 * The transform's closure is the class `Transcoder`. The converter emits
 * event TEXTS, and the transform updates `sentMessageStart` and
 * `contentBlockIndex` by searching those texts for "message_start" and
 * "content_block_start"; so the events are a datatype together with
 * `Render`, the text `JSON.stringify` produces for them, and the counter
 * is defined by substring search on that text exactly as the source does.
 * `JSON.parse` is the oracle `parse`, `crypto.randomUUID()` the oracle
 * `uuid` indexed by the number of ids drawn so far.
 */
module OpenaiToAnthropicStream {
  import opened Wrappers
  import opened Text
  import opened SseLines
  import FormatConverter

  datatype ChunkUsage = ChunkUsage(promptTokens: Option<int>, completionTokens: Option<int>)

  /**
   * A parsed OpenAI chunk, as far as the converter reads it: `model`,
   * `choices[0].delta.content`, `choices[0].finish_reason` and `usage`
   * (a chunk without choices has neither content nor finish reason).
   */
  datatype StreamChunk = StreamChunk(
    model: Option<string>,
    content: Option<string>,
    finishReason: Option<string>,
    usage: Option<ChunkUsage>)

  /** The Anthropic events the transcoder writes. */
  datatype Event =
    | MessageStart(id: string, model: string, inputTokens: int)
    | BlockStart(index: int)
    | BlockDelta(index: int, text: string)
    | BlockStop(index: int)
    | MessageDelta(stopReason: string, outputTokens: int)
    | MessageStop

  /** One server-sent event: the "event:" line, the "data:" line and a blank line. */
  function EventText(name: string, json: string): string
  {
    "event: " + name + "\ndata: " + json + "\n\n"
  }

  /** The exact text enqueued for an event (`JSON.stringify` of its payload, keys in source order). */
  function Render(e: Event): string
  {
    match e
    case MessageStart(id, model, inputTokens) =>
      EventText("message_start",
        "{\"type\":\"message_start\",\"message\":{\"id\":" + JsonQuote(id) +
        ",\"type\":\"message\",\"role\":\"assistant\",\"model\":" + JsonQuote(model) +
        ",\"content\":[],\"stop_reason\":null,\"usage\":{\"input_tokens\":" + IntToString(inputTokens) +
        ",\"output_tokens\":0}}}")
    case BlockStart(index) =>
      EventText("content_block_start",
        "{\"type\":\"content_block_start\",\"index\":" + IntToString(index) +
        ",\"content_block\":{\"type\":\"text\",\"text\":\"\"}}")
    case BlockDelta(index, text) =>
      EventText("content_block_delta",
        "{\"type\":\"content_block_delta\",\"index\":" + IntToString(index) +
        ",\"delta\":{\"type\":\"text_delta\",\"text\":" + JsonQuote(text) + "}}")
    case BlockStop(index) =>
      EventText("content_block_stop", "{\"type\":\"content_block_stop\",\"index\":" + IntToString(index) + "}")
    case MessageDelta(stopReason, outputTokens) =>
      EventText("message_delta",
        "{\"type\":\"message_delta\",\"delta\":{\"stop_reason\":" + JsonQuote(stopReason) +
        "},\"usage\":{\"output_tokens\":" + IntToString(outputTokens) + "}}")
    case MessageStop =>
      EventText("message_stop", "{\"type\":\"message_stop\"}")
  }

  const MessageStartMark := "message_start"
  const BlockStartMark := "content_block_start"

  /** `Math.max(0, contentBlockIndex - (sentMessageStart ? 1 : 0))`. */
  function BlockIndex(sent: bool, cbi: nat): (r: nat)
    ensures !sent ==> r == cbi
    ensures sent ==> r + 1 == cbi || (cbi == 0 && r == 0)
  {
    if sent then (if cbi == 0 then 0 else cbi - 1) else cbi
  }

  /** `convertOpenaiChunkToAnthropicEvents`; `newId` is the UUID drawn when the envelope is not yet sent. */
  function ChunkEvents(data: StreamChunk, model: string, sent: bool, cbi: nat, newId: string): seq<Event>
  {
    var envelope :=
      if sent then []
      else
        var input := if data.usage.Some? then data.usage.value.promptTokens.GetOr(0) else 0;
        [MessageStart("msg_" + newId, data.model.GetOr(model), input), BlockStart(cbi)];
    var index := BlockIndex(sent, cbi);
    var text := if FormatConverter.Truthy(data.content) then [BlockDelta(index, data.content.value)] else [];
    var stop :=
      if FormatConverter.Truthy(data.finishReason) then
        var output := if data.usage.Some? then data.usage.value.completionTokens.GetOr(0) else 0;
        [BlockStop(index), MessageDelta(FormatConverter.MapFinishReason(data.finishReason), output)]
      else [];
    envelope + text + stop
  }

  /** The closure variables other than the buffer, plus the number of UUIDs drawn. */
  datatype State = State(sent: bool, cbi: nat, drawn: nat)

  const Initial := State(false, 0, 0)

  /** The UUID `crypto.randomUUID()` returns when it is called for the `drawn`-th time. */
  function NextId(uuid: nat -> string, drawn: nat): string
  {
    uuid(drawn)
  }

  /** The texts of the events, as the converter returns them. */
  function Texts(events: seq<Event>): (r: seq<string>)
    ensures |r| == |events|
  {
    if events == [] then [] else [Render(events[0])] + Texts(events[1..])
  }

  /** The body of the `for (const event of events)` loop: what one enqueued text does to the flag and the counter. */
  function Tally(sent: bool, cbi: nat, text: string): (bool, nat)
  {
    (sent || Contains(text, MessageStartMark), if Contains(text, BlockStartMark) then cbi + 1 else cbi)
  }

  /** The `for (const event of events)` loop: the flag and the counter after enqueuing `texts`. */
  function Track(sent: bool, cbi: nat, texts: seq<string>): (bool, nat)
    decreases |texts|
  {
    if texts == [] then (sent, cbi)
    else
      var t := Tally(sent, cbi, texts[0]);
      Track(t.0, t.1, texts[1..])
  }

  /** A parsed chunk: convert it with the current flag and counter, then track what was emitted. */
  function Convert(st: State, data: StreamChunk, model: string, uuid: nat -> string): (State, seq<Event>)
  {
    var events := ChunkEvents(data, model, st.sent, st.cbi, NextId(uuid, st.drawn));
    var t := Track(st.sent, st.cbi, Texts(events));
    (State(t.0, t.1, if st.sent then st.drawn else st.drawn + 1), events)
  }

  /** One trimmed line of the `transform` loop. */
  function HandleLine(st: State, line: string, model: string,
                      parse: string -> Option<StreamChunk>, uuid: nat -> string): (State, seq<Event>)
  {
    if !StartsWith(line, "data:") then (st, [])
    else
      var payload := Trim(line[5..]);
      if payload == "" then (st, [])
      else if payload == "[DONE]" then (st, [MessageStop])
      else
        match parse(payload)
        case None => (st, [])
        case Some(data) => Convert(st, data, model, uuid)
  }

  /** The line handler, as the value `SseLines.Drain` folds. */
  function Step(model: string, parse: string -> Option<StreamChunk>, uuid: nat -> string): (State, string) -> (State, seq<Event>)
  {
    (st: State, line: string) => HandleLine(st, line, model, parse, uuid)
  }

  /** `flush`: a closing message_stop only when the envelope was sent. */
  function FlushEvents(st: State): (r: seq<Event>)
  {
    if st.sent then [MessageStop] else []
  }

  /** The transform's closure: the line buffer, the envelope flag and the block counter. */
  class Transcoder {
    const model: string
    var buffer: string
    var sentMessageStart: bool
    var contentBlockIndex: nat
    var drawn: nat

    function Current(): State
      reads this
    {
      State(sentMessageStart, contentBlockIndex, drawn)
    }

    constructor(model: string)
      ensures this.model == model && buffer == "" && Current() == Initial
    {
      this.model := model;
      buffer := "";
      sentMessageStart := false;
      contentBlockIndex := 0;
      drawn := 0;
    }

    /** `transform(chunk)`: append, then handle every complete line. */
    method Transform(chunk: string, parse: string -> Option<StreamChunk>, uuid: nat -> string) returns (events: seq<Event>)
      modifies this
      ensures var d := Drain(old(buffer) + chunk, old(Current()), Step(model, parse, uuid));
        buffer == d.pending && Current() == d.state && events == d.out
    {
      buffer := buffer + chunk;
      ghost var total := Drain(buffer, Current(), Step(model, parse, uuid));
      events := [];
      var newlineIndex := IndexOf(buffer, '\n');
      while newlineIndex != -1
        invariant newlineIndex == IndexOf(buffer, '\n')
        invariant var d := Drain(buffer, Current(), Step(model, parse, uuid));
          total == Drained(d.pending, d.state, events + d.out)
        decreases |buffer|
      {
        ghost var before := Current();
        ghost var rest := buffer;
        var line := Trim(buffer[..newlineIndex]);
        buffer := buffer[newlineIndex + 1..];
        var emitted := HandleOne(line, parse, uuid);
        DrainLoopStep(rest, before, Step(model, parse, uuid), newlineIndex, total, events, Current(), emitted);
        events := events + emitted;
        newlineIndex := IndexOf(buffer, '\n');
      }
    }

    /** The body of the `transform` loop for one trimmed line. */
    method HandleOne(line: string, parse: string -> Option<StreamChunk>, uuid: nat -> string) returns (emitted: seq<Event>)
      modifies this
      ensures buffer == old(buffer)
      ensures (Current(), emitted) == Step(model, parse, uuid)(old(Current()), line)
    {
      emitted := [];
      if StartsWith(line, "data:") {
        var payload := Trim(line[5..]);
        if payload == "[DONE]" {
          emitted := [MessageStop];
        } else if payload != "" {
          var parsed := parse(payload);
          if parsed.Some? {
            emitted := ConvertOne(parsed.value, uuid);
          }
        }
      }
    }

    /** The `try` block: convert the chunk, then enqueue each event and update the flag and counter. */
    method ConvertOne(data: StreamChunk, uuid: nat -> string) returns (emitted: seq<Event>)
      modifies this
      ensures buffer == old(buffer)
      ensures (Current(), emitted) == Convert(old(Current()), data, model, uuid)
    {
      var events := ChunkEvents(data, model, sentMessageStart, contentBlockIndex, NextId(uuid, drawn));
      if !sentMessageStart {
        drawn := drawn + 1;
      }
      NoteAll(Texts(events));
      emitted := events;
    }

    /** The `for (const event of events)` loop. */
    method NoteAll(texts: seq<string>)
      modifies this
      ensures buffer == old(buffer) && drawn == old(drawn)
      ensures (sentMessageStart, contentBlockIndex) == Track(old(sentMessageStart), old(contentBlockIndex), texts)
    {
      ghost var goal := Track(sentMessageStart, contentBlockIndex, texts);
      for i := 0 to |texts|
        invariant buffer == old(buffer) && drawn == old(drawn)
        invariant Track(sentMessageStart, contentBlockIndex, texts[i..]) == goal
      {
        assert texts[i..][1..] == texts[i + 1..];
        Note(texts[i]);
      }
      assert texts[|texts|..] == [];
    }

    /** Enqueue one event text: set the flag on "message_start", count "content_block_start". */
    method Note(text: string)
      modifies this
      ensures buffer == old(buffer) && drawn == old(drawn)
      ensures (sentMessageStart, contentBlockIndex) == Tally(old(sentMessageStart), old(contentBlockIndex), text)
    {
      if !sentMessageStart && Contains(text, MessageStartMark) {
        sentMessageStart := true;
      }
      if Contains(text, BlockStartMark) {
        contentBlockIndex := contentBlockIndex + 1;
      }
    }

    /** `flush()`. */
    method Flush() returns (events: seq<Event>)
      ensures events == FlushEvents(Current())
    {
      events := [];
      if sentMessageStart {
        events := [MessageStop];
      }
    }
  }

  // --- Properties ---

  /**
   * The shape of one conversion: the envelope (message_start, then
   * content_block_start at the current counter) only while it has not been
   * sent; then a text delta exactly when the chunk has content; then a
   * block stop and a message delta exactly when it has a finish reason; and
   * every delta and stop index is `BlockIndex(sent, cbi)`.
   */
  lemma ChunkEventsShape(data: StreamChunk, model: string, sent: bool, cbi: nat, newId: string)
    ensures var r := ChunkEvents(data, model, sent, cbi, newId);
      var index := BlockIndex(sent, cbi);
      var input := if data.usage.Some? then data.usage.value.promptTokens.GetOr(0) else 0;
      && (!sent ==> |r| >= 2 && r[0] == MessageStart("msg_" + newId, data.model.GetOr(model), input) && r[1] == BlockStart(cbi))
      && (forall i :: (if sent then 0 else 2) <= i < |r| ==> !r[i].MessageStart? && !r[i].BlockStart?)
      && (forall i :: 0 <= i < |r| && (r[i].BlockDelta? || r[i].BlockStop?) ==> r[i].index == index)
      && (forall i :: 0 <= i < |r| ==> r[i] != MessageStop)
      && (forall i :: 0 <= i < |r| && r[i].BlockDelta? ==>
            FormatConverter.Truthy(data.content) && r[i].text == data.content.value)
      && (FormatConverter.Truthy(data.content) ==> BlockDelta(index, data.content.value) in r)
      && (forall i :: 0 <= i < |r| && r[i].MessageDelta? ==>
            FormatConverter.Truthy(data.finishReason) && r[i].stopReason == FormatConverter.MapFinishReason(data.finishReason))
      && |r| == (if sent then 0 else 2) + (if FormatConverter.Truthy(data.content) then 1 else 0)
                + (if FormatConverter.Truthy(data.finishReason) then 2 else 0)
  {
  }

  /** An event text starts with "event: " followed by the event name. */
  lemma EventTextStartsWithName(name: string, json: string)
    ensures EventText(name, json) == "event: " + (name + ("\ndata: " + json + "\n\n"))
  {
    var t := "\ndata: " + json + "\n\n";
    calc {
      EventText(name, json);
      "event: " + name + "\ndata: " + json + "\n\n";
      { AppendAssoc("event: " + name + "\ndata: ", json, "\n\n");
        AppendAssoc("event: " + name, "\ndata: ", json + "\n\n");
        AppendAssoc("event: ", name, "\ndata: " + (json + "\n\n"));
        AppendAssoc("\ndata: ", json, "\n\n"); }
      "event: " + (name + t);
    }
  }

  /** A message_start event's text mentions "message_start". */
  lemma StartMentionsStart(id: string, model: string, input: int)
    ensures Contains(Render(MessageStart(id, model, input)), MessageStartMark)
  {
    var json := "{\"type\":\"message_start\",\"message\":{\"id\":" + JsonQuote(id) +
        ",\"type\":\"message\",\"role\":\"assistant\",\"model\":" + JsonQuote(model) +
        ",\"content\":[],\"stop_reason\":null,\"usage\":{\"input_tokens\":" + IntToString(input) +
        ",\"output_tokens\":0}}}";
    assert Render(MessageStart(id, model, input)) == EventText(MessageStartMark, json);
    EventTextStartsWithName(MessageStartMark, json);
    ContainsAt("event: ", MessageStartMark + ("\ndata: " + json + "\n\n"), MessageStartMark);
  }

  /** A content_block_start event's text mentions "content_block_start". */
  lemma BlockStartMentionsBlockStart(index: int)
    ensures Contains(Render(BlockStart(index)), BlockStartMark)
  {
    var json := "{\"type\":\"content_block_start\",\"index\":" + IntToString(index) +
        ",\"content_block\":{\"type\":\"text\",\"text\":\"\"}}";
    assert Render(BlockStart(index)) == EventText(BlockStartMark, json);
    EventTextStartsWithName(BlockStartMark, json);
    ContainsAt("event: ", BlockStartMark + ("\ndata: " + json + "\n\n"), BlockStartMark);
  }

  /** The message_stop text has no 'r' (so it cannot mention "message_start"). */
  lemma StopTextLacksR(e: Event)
    requires e == MessageStop
    ensures 'r' !in Render(e)
  {
    var json := "{\"type\":\"message_stop\"}";
    assert Render(e) == EventText("message_stop", json);
    assert 'r' !in "event: " && 'r' !in "message_stop" && 'r' !in "\ndata: " && 'r' !in json && 'r' !in "\n\n";
  }

  /** The message_stop text has no 'k' (so it cannot mention "content_block_start"). */
  lemma StopTextLacksK(e: Event)
    requires e == MessageStop
    ensures 'k' !in Render(e)
  {
    var json := "{\"type\":\"message_stop\"}";
    assert Render(e) == EventText("message_stop", json);
    assert 'k' !in "event: " && 'k' !in "message_stop" && 'k' !in "\ndata: " && 'k' !in json && 'k' !in "\n\n";
  }

  /** The message_stop text mentions neither mark, so "[DONE]" leaves the flag and counter alone. */
  lemma StopMentionsNeither(e: Event)
    requires e == MessageStop
    ensures !Contains(Render(e), MessageStartMark)
    ensures !Contains(Render(e), BlockStartMark)
  {
    StopTextLacksR(e);
    MissingCharExcludes(Render(e), MessageStartMark, 'r');
    StopTextLacksK(e);
    MissingCharExcludes(Render(e), BlockStartMark, 'k');
  }

  /** How many of the texts mention `mark`. */
  function CountMentions(texts: seq<string>, mark: string): (r: nat)
    ensures r <= |texts|
  {
    if texts == [] then 0 else (if Contains(texts[0], mark) then 1 else 0) + CountMentions(texts[1..], mark)
  }

  /**
   * The loop over one conversion's texts sets the flag exactly when some text
   * mentions "message_start" (or it was set), and adds to the counter one per
   * text mentioning "content_block_start".
   */
  lemma {:induction false} TrackCounts(sent: bool, cbi: nat, texts: seq<string>)
    ensures Track(sent, cbi, texts) ==
      (sent || CountMentions(texts, MessageStartMark) > 0, cbi + CountMentions(texts, BlockStartMark))
    decreases |texts|
  {
    if texts != [] {
      var t := Tally(sent, cbi, texts[0]);
      TrackCounts(t.0, t.1, texts[1..]);
    }
  }

  lemma {:induction false} TextsAppend(a: seq<Event>, b: seq<Event>)
    ensures Texts(a + b) == Texts(a) + Texts(b)
    decreases |a|
  {
    if a == [] {
      assert a + b == b;
    } else {
      assert (a + b)[1..] == a[1..] + b;
      TextsAppend(a[1..], b);
    }
  }

  lemma {:induction false} CountMentionsAppend(a: seq<string>, b: seq<string>, mark: string)
    ensures CountMentions(a + b, mark) == CountMentions(a, mark) + CountMentions(b, mark)
    decreases |a|
  {
    if a == [] {
      assert a + b == b;
    } else {
      assert (a + b)[1..] == a[1..] + b;
      CountMentionsAppend(a[1..], b, mark);
    }
  }

  /** How many message_start events. */
  function Starts(events: seq<Event>): (r: nat)
    ensures r <= |events|
  {
    if events == [] then 0 else (if events[0].MessageStart? then 1 else 0) + Starts(events[1..])
  }

  /** How many content_block_start events. */
  function BlockStarts(events: seq<Event>): (r: nat)
    ensures r <= |events|
  {
    if events == [] then 0 else (if events[0].BlockStart? then 1 else 0) + BlockStarts(events[1..])
  }

  lemma {:induction false} StartsAppend(a: seq<Event>, b: seq<Event>)
    ensures Starts(a + b) == Starts(a) + Starts(b)
    ensures BlockStarts(a + b) == BlockStarts(a) + BlockStarts(b)
    decreases |a|
  {
    if a == [] {
      assert a + b == b;
    } else {
      assert (a + b)[1..] == a[1..] + b;
      StartsAppend(a[1..], b);
    }
  }

  lemma {:induction false} NoStarts(events: seq<Event>)
    requires forall i :: 0 <= i < |events| ==> !events[i].MessageStart? && !events[i].BlockStart?
    ensures Starts(events) == 0 && BlockStarts(events) == 0
    decreases |events|
  {
    if events != [] {
      NoStarts(events[1..]);
    }
  }

  /** Converting a chunk before the envelope is sent emits it first, once, and sets the flag. */
  lemma ConvertOpensEnvelope(st: State, data: StreamChunk, model: string, uuid: nat -> string)
    requires !st.sent
    ensures var c := Convert(st, data, model, uuid);
      && c.0.sent && c.0.cbi >= st.cbi
      && Starts(c.1) == 1 && BlockStarts(c.1) == 1 && c.1[0].MessageStart? && c.1[1].BlockStart?
  {
    var events := ChunkEvents(data, model, st.sent, st.cbi, NextId(uuid, st.drawn));
    ChunkEventsShape(data, model, st.sent, st.cbi, NextId(uuid, st.drawn));
    var texts := Texts(events);
    TrackCounts(st.sent, st.cbi, texts);
    NoStarts(events[2..]);
    assert events == [events[0], events[1]] + events[2..];
    StartsAppend([events[0], events[1]], events[2..]);
    StartMentionsStart(events[0].id, events[0].model, events[0].inputTokens);
    assert texts[0] == Render(events[0]);
  }

  /** Once the envelope is sent, converting a chunk never emits it again, and the flag stays set. */
  lemma ConvertAfterEnvelope(st: State, data: StreamChunk, model: string, uuid: nat -> string)
    requires st.sent
    ensures var c := Convert(st, data, model, uuid);
      c.0.sent && c.0.cbi >= st.cbi && Starts(c.1) == 0 && BlockStarts(c.1) == 0
  {
    var events := ChunkEvents(data, model, st.sent, st.cbi, NextId(uuid, st.drawn));
    ChunkEventsShape(data, model, st.sent, st.cbi, NextId(uuid, st.drawn));
    TrackCounts(st.sent, st.cbi, Texts(events));
    NoStarts(events);
  }

  /**
   * One line and the envelope: once sent, no line emits message_start or
   * content_block_start again and the flag stays set; before that, a line
   * either emits neither and leaves the flag and counter alone, or emits
   * each exactly once, first, and sets the flag.
   */
  lemma HandleLineEnvelope(st: State, line: string, model: string, parse: string -> Option<StreamChunk>, uuid: nat -> string)
    ensures var h := HandleLine(st, line, model, parse, uuid);
      && (st.sent ==> h.0.sent && Starts(h.1) == 0 && BlockStarts(h.1) == 0)
      && (!st.sent ==>
            || (h.0.sent == st.sent && h.0.cbi == st.cbi && Starts(h.1) == 0 && BlockStarts(h.1) == 0)
            || (h.0.sent && Starts(h.1) == 1 && BlockStarts(h.1) == 1 && h.1[0].MessageStart? && h.1[1].BlockStart?))
  {
    if StartsWith(line, "data:") {
      var payload := Trim(line[5..]);
      if payload != "" && payload != "[DONE]" && parse(payload).Some? {
        if st.sent {
          ConvertAfterEnvelope(st, parse(payload).value, model, uuid);
        } else {
          ConvertOpensEnvelope(st, parse(payload).value, model, uuid);
        }
      }
    }
  }

  /**
   * Over any sequence of lines, message_start and content_block_start are
   * each emitted at most once, and never once the envelope has been sent.
   */
  lemma {:induction false} EnvelopeAtMostOnce(st: State, lines: seq<string>, model: string,
                                              parse: string -> Option<StreamChunk>, uuid: nat -> string)
    ensures var out := Run(st, lines, Step(model, parse, uuid)).1;
      Starts(out) <= (if st.sent then 0 else 1) && BlockStarts(out) <= (if st.sent then 0 else 1)
    decreases |lines|
  {
    if lines != [] {
      var h := HandleLine(st, lines[0], model, parse, uuid);
      HandleLineEnvelope(st, lines[0], model, parse, uuid);
      EnvelopeAtMostOnce(h.0, lines[1..], model, parse, uuid);
      StartsAppend(h.1, Run(h.0, lines[1..], Step(model, parse, uuid)).1);
    }
  }

  /**
   * One line and the block counter: the counter grows by the number of
   * emitted texts that mention "content_block_start", and it can only be
   * non-zero once the envelope has been sent.
   */
  lemma HandleLineCounts(st: State, line: string, model: string, parse: string -> Option<StreamChunk>, uuid: nat -> string)
    requires st.sent || st.cbi == 0
    ensures var h := HandleLine(st, line, model, parse, uuid);
      && h.0.cbi == st.cbi + CountMentions(Texts(h.1), BlockStartMark)
      && (h.0.sent || h.0.cbi == 0)
  {
    var h := HandleLine(st, line, model, parse, uuid);
    if StartsWith(line, "data:") {
      var payload := Trim(line[5..]);
      if payload == "[DONE]" {
        assert h.1 == [MessageStop];
        StopMentionsNeither(MessageStop);
        assert Texts(h.1) == [Render(MessageStop)];
      } else if payload != "" && parse(payload).Some? {
        var data := parse(payload).value;
        var events := ChunkEvents(data, model, st.sent, st.cbi, NextId(uuid, st.drawn));
        TrackCounts(st.sent, st.cbi, Texts(events));
        if st.sent {
          ConvertAfterEnvelope(st, data, model, uuid);
        } else {
          ConvertOpensEnvelope(st, data, model, uuid);
        }
      }
    }
  }

  /** Over any sequence of lines, the counter is the number of emitted texts mentioning "content_block_start". */
  lemma {:induction false} RunCounts(st: State, lines: seq<string>, model: string,
                                     parse: string -> Option<StreamChunk>, uuid: nat -> string)
    requires st.sent || st.cbi == 0
    ensures var r := Run(st, lines, Step(model, parse, uuid));
      r.0.cbi == st.cbi + CountMentions(Texts(r.1), BlockStartMark) && (r.0.sent || r.0.cbi == 0)
    decreases |lines|
  {
    if lines != [] {
      var h := HandleLine(st, lines[0], model, parse, uuid);
      HandleLineCounts(st, lines[0], model, parse, uuid);
      RunCounts(h.0, lines[1..], model, parse, uuid);
      var rest := Run(h.0, lines[1..], Step(model, parse, uuid)).1;
      TextsAppend(h.1, rest);
      CountMentionsAppend(Texts(h.1), Texts(rest), BlockStartMark);
    }
  }

  /**
   * The index carried by every text delta and block stop is one less than
   * the number of texts emitted so far (from the start of the stream) that
   * mention "content_block_start", or 0 while there are none. Only the one
   * content_block_start event should count, so the index is 0 unless some
   * other emitted text happens to contain that substring.
   */
  lemma DeltaIndexFollowsMentions(lines: seq<string>, line: string, model: string,
                                  parse: string -> Option<StreamChunk>, uuid: nat -> string)
    ensures var r := Run(Initial, lines, Step(model, parse, uuid));
      var n := CountMentions(Texts(r.1), BlockStartMark);
      var out := HandleLine(r.0, line, model, parse, uuid).1;
      forall i :: 0 <= i < |out| && (out[i].BlockDelta? || out[i].BlockStop?) ==>
        out[i].index == (if n == 0 then 0 else n - 1)
  {
    var r := Run(Initial, lines, Step(model, parse, uuid));
    RunCounts(Initial, lines, model, parse, uuid);
    HandleLineIndexes(r.0, line, model, parse, uuid);
  }

  /** Every text delta and block stop one line emits carries the index just below the counter, or 0. */
  lemma HandleLineIndexes(st: State, line: string, model: string, parse: string -> Option<StreamChunk>, uuid: nat -> string)
    requires st.sent || st.cbi == 0
    ensures var out := HandleLine(st, line, model, parse, uuid).1;
      forall i :: 0 <= i < |out| && (out[i].BlockDelta? || out[i].BlockStop?) ==>
        out[i].index == (if st.cbi == 0 then 0 else st.cbi - 1)
  {
    if StartsWith(line, "data:") {
      var payload := Trim(line[5..]);
      if payload != "" && payload != "[DONE]" && parse(payload).Some? {
        var data := parse(payload).value;
        assert HandleLine(st, line, model, parse, uuid).1 == ChunkEvents(data, model, st.sent, st.cbi, NextId(uuid, st.drawn));
        ChunkEventsShape(data, model, st.sent, st.cbi, NextId(uuid, st.drawn));
      }
    }
  }

  /** "[DONE]" becomes message_stop and changes nothing else. */
  lemma DoneBecomesMessageStop(st: State, line: string, model: string, parse: string -> Option<StreamChunk>, uuid: nat -> string)
    requires StartsWith(line, "data:") && Trim(line[5..]) == "[DONE]"
    ensures HandleLine(st, line, model, parse, uuid) == (st, [MessageStop])
  {
  }

  /**
   * After "[DONE]", the closing flush of a stream whose envelope was sent
   * emits a second message_stop; before the envelope it emits nothing.
   */
  lemma DoneThenFlush(st: State, line: string, model: string, parse: string -> Option<StreamChunk>, uuid: nat -> string)
    requires StartsWith(line, "data:") && Trim(line[5..]) == "[DONE]"
    ensures var h := HandleLine(st, line, model, parse, uuid);
      h.1 + FlushEvents(h.0) == if st.sent then [MessageStop, MessageStop] else [MessageStop]
  {
  }

  /** A text delta whose text needs no escaping mentions that text. */
  lemma DeltaMentionsItsText(index: int, text: string)
    requires forall i :: 0 <= i < |text| ==> JsonPlain(text[i])
    ensures Contains(Render(BlockDelta(index, text)), text)
  {
    JsonQuoteContainsPlain(text);
    var pre := "{\"type\":\"content_block_delta\",\"index\":" + IntToString(index) +
      ",\"delta\":{\"type\":\"text_delta\",\"text\":";
    ContainsMiddle(pre, JsonQuote(text), "}}", text);
    ContainsMiddle("event: " + "content_block_delta" + "\ndata: ", pre + JsonQuote(text) + "}}", "\n\n", text);
  }

  /** After the envelope, a chunk carrying only text becomes one text delta at the current index. */
  lemma TextOnlyChunk(st: State, text: string, model: string, uuid: nat -> string)
    requires st.sent && st.cbi >= 1 && text != ""
    ensures Convert(st, StreamChunk(None, Some(text), None, None), model, uuid).1 == [BlockDelta(st.cbi - 1, text)]
  {
  }

  /** A text delta whose plain text mentions a needle mentions it too. */
  lemma DeltaTextMentions(index: int, text: string, needle: string)
    requires needle != "" && Contains(text, needle) && forall i :: 0 <= i < |text| ==> JsonPlain(text[i])
    ensures text != "" && Contains(Render(BlockDelta(index, text)), needle)
  {
    ContainsNonEmpty(text, needle);
    DeltaMentionsItsText(index, text);
    ContainsTransitive(Render(BlockDelta(index, text)), text, needle);
  }

  /** After the envelope, a text-only chunk whose delta text mentions "content_block_start" bumps the counter. */
  lemma DeltaMentionBumpsCounter(st: State, text: string, model: string, uuid: nat -> string)
    requires st.sent && st.cbi >= 1 && text != ""
    requires Contains(Render(BlockDelta(st.cbi - 1, text)), BlockStartMark)
    ensures Convert(st, StreamChunk(None, Some(text), None, None), model, uuid).0 == State(true, st.cbi + 1, st.drawn)
  {
    var events := ChunkEvents(StreamChunk(None, Some(text), None, None), model, true, st.cbi, NextId(uuid, st.drawn));
    assert Texts(events) == [Render(BlockDelta(st.cbi - 1, text))];
    assert Track(true, st.cbi, [Render(BlockDelta(st.cbi - 1, text))]) == (true, st.cbi + 1);
  }

  /** After the envelope, a chunk whose plain text mentions "content_block_start" bumps the counter. */
  lemma MentionBumpsCounter(st: State, text: string, model: string, uuid: nat -> string)
    requires st.sent && st.cbi >= 1
    requires Contains(text, BlockStartMark) && forall i :: 0 <= i < |text| ==> JsonPlain(text[i])
    ensures Convert(st, StreamChunk(None, Some(text), None, None), model, uuid).0 == State(true, st.cbi + 1, st.drawn)
  {
    DeltaTextMentions(st.cbi - 1, text, BlockStartMark);
    DeltaMentionBumpsCounter(st, text, model, uuid);
  }

  /**
   * The counter quirk: once the envelope is out (so the counter is at least
   * 1), a chunk whose content mentions "content_block_start" is emitted at
   * the current index but bumps the counter, so the next chunk's text delta
   * carries an index one higher, naming a block that was never started.
   */
  lemma MentionInTextShiftsIndex(st: State, text: string, next: string, model: string, uuid: nat -> string)
    requires st.sent && st.cbi >= 1
    requires Contains(text, BlockStartMark) && forall i :: 0 <= i < |text| ==> JsonPlain(text[i])
    requires next != ""
    ensures Convert(st, StreamChunk(None, Some(text), None, None), model, uuid).1 == [BlockDelta(st.cbi - 1, text)]
    ensures Convert(st, StreamChunk(None, Some(text), None, None), model, uuid).0 == State(true, st.cbi + 1, st.drawn)
    ensures Convert(State(true, st.cbi + 1, st.drawn), StreamChunk(None, Some(next), None, None), model, uuid).1
         == [BlockDelta(st.cbi, next)]
  {
    MentionBumpsCounter(st, text, model, uuid);
    ContainsNonEmpty(text, BlockStartMark);
    TextOnlyChunk(st, text, model, uuid);
    NextTextAtBumpedIndex(st, next, model, uuid);
  }

  lemma NextTextAtBumpedIndex(st: State, next: string, model: string, uuid: nat -> string)
    requires st.sent && st.cbi >= 1 && next != ""
    ensures Convert(State(true, st.cbi + 1, st.drawn), StreamChunk(None, Some(next), None, None), model, uuid).1
         == [BlockDelta(st.cbi, next)]
  {
    var mid := State(true, st.cbi + 1, st.drawn);
    assert mid.cbi - 1 == st.cbi;
    TextOnlyChunk(mid, next, model, uuid);
  }
}

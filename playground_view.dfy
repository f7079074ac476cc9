/**
 * The playground page's chat client (apps/ui/src/features/PlaygroundView.tsx):
 * the send guard of `handleSend`, and its read loop over the streamed
 * `/api/playground/chat` response. The loop appends every decoded chunk to
 * `buffer`, splits it at '\n', keeps the last piece in `buffer`, and for
 * each complete trimmed line starting "data: " (other than "[DONE]")
 * appends `choices[0].delta.content` to `accumulated` when it is non-empty
 * and keeps `usage` in `lastUsage` when present.
 *
 * JSON.parse is the parameter `parse` (None when it throws, or when the
 * parsed value has no object shape to read); the response body arrives as
 * the sequence of decoded text chunks.
 */
module PlaygroundView {
  import opened Wrappers
  import opened Text
  import opened SseLines

  datatype Usage = Usage(promptTokens: int, completionTokens: int, totalTokens: int)

  /** The two fields the reader looks at: `choices[0].delta.content` and `usage`. */
  datatype Chunk = Chunk(content: Option<string>, usage: Option<Usage>)

  datatype Role = User | Assistant
  datatype ChatMessage = ChatMessage(role: Role, content: string)

  /** How the fetch of `/api/playground/chat` ended. */
  datatype Response =
    | Rejected(status: int, errorField: Option<string>)  // !res.ok; `errBody?.error`
    | NoBody                                             // res.body is null
    | Streamed(chunks: seq<string>)                      // the decoded body chunks
    | Failed(message: string)                            // fetch itself threw
    | StreamFailed(chunks: seq<string>, message: string) // reader.read() threw after these chunks

  /** The chunk a trimmed line carries, if it is a parsable "data: " line other than "[DONE]". */
  function LineChunk(line: string, parse: string -> Option<Chunk>): Option<Chunk>
  {
    if line == "" || !StartsWith(line, "data: ") then None
    else
      var data := line[6..];
      if data == "[DONE]" then None else parse(data)
  }

  /** One complete trimmed line: the new `lastUsage`, and the text appended to `accumulated` (if any). */
  function ReadLine(lastUsage: Option<Usage>, line: string, parse: string -> Option<Chunk>): (Option<Usage>, seq<string>)
  {
    match LineChunk(line, parse)
    case None => (lastUsage, [])
    case Some(chunk) =>
      (if chunk.usage.Some? then chunk.usage else lastUsage,
       if chunk.content.Some? && chunk.content.value != "" then [chunk.content.value] else [])
  }

  function Reader(parse: string -> Option<Chunk>): (Option<Usage>, string) -> (Option<Usage>, seq<string>)
  {
    (u: Option<Usage>, line: string) => ReadLine(u, line, parse)
  }

  /** What reading a whole body leaves: the pending tail, the last usage, and the appended texts. */
  function Received(chunks: seq<string>, parse: string -> Option<Chunk>): Drained<Option<Usage>, string>
  {
    Drain(Concat(chunks), None, Reader(parse))
  }

  /**
   * One turn of the read loop: append the chunk, split, keep the last
   * piece, and handle the complete trimmed lines in order.
   */
  method ReadChunk(buffer: string, accumulated: string, lastUsage: Option<Usage>, chunk: string,
                   parse: string -> Option<Chunk>)
      returns (buffer': string, accumulated': string, lastUsage': Option<Usage>)
    ensures var d := Drain(buffer + chunk, lastUsage, Reader(parse));
      && buffer' == d.pending
      && lastUsage' == d.state
      && accumulated' == accumulated + Concat(d.out)
  {
    var whole := buffer + chunk;
    var lines := Split(whole, '\n');
    var complete := lines[..|lines| - 1];
    buffer' := lines[|lines| - 1];
    accumulated', lastUsage' := accumulated, lastUsage;
    for i := 0 to |complete|
      invariant var r := Run(lastUsage, TrimAll(complete[..i]), Reader(parse));
        lastUsage' == r.0 && accumulated' == accumulated + Concat(r.1)
    {
      ghost var r := Run(lastUsage, TrimAll(complete[..i]), Reader(parse));
      ghost var acc := accumulated';
      accumulated', lastUsage' := ReadCompleteLine(accumulated', lastUsage', complete[i], parse);
      ghost var step := ReadLine(r.0, Trim(complete[i]), parse);
      RunOneMore(lastUsage, complete, i, parse);
      ConcatAppend(r.1, step.1);
      AppendAssoc(accumulated, Concat(r.1), Concat(step.1));
    }
    assert complete[..|complete|] == complete;
    DrainIsRunOfLines(whole, lastUsage, Reader(parse));
  }

  /** The body of the `for (const line of lines)` loop. */
  method ReadCompleteLine(accumulated: string, lastUsage: Option<Usage>, line: string, parse: string -> Option<Chunk>)
      returns (accumulated': string, lastUsage': Option<Usage>)
    ensures var step := ReadLine(lastUsage, Trim(line), parse);
      lastUsage' == step.0 && accumulated' == accumulated + Concat(step.1)
  {
    accumulated', lastUsage' := accumulated, lastUsage;
    var trimmedLine := Trim(line);
    if trimmedLine == "" || !StartsWith(trimmedLine, "data: ") {
      return;
    }
    var data := trimmedLine[6..];
    if data == "[DONE]" {
      return;
    }
    match parse(data)
    case None =>
    case Some(parsed) =>
      if parsed.content.Some? && parsed.content.value != "" {
        accumulated' := accumulated' + parsed.content.value;
      }
      if parsed.usage.Some? {
        lastUsage' := parsed.usage;
      }
  }

  /** Handling one more line extends the fold over the prefix by that line's effect. */
  lemma RunOneMore(u: Option<Usage>, lines: seq<string>, i: nat, parse: string -> Option<Chunk>)
    requires i < |lines|
    ensures var r := Run(u, TrimAll(lines[..i]), Reader(parse));
      var step := ReadLine(r.0, Trim(lines[i]), parse);
      Run(u, TrimAll(lines[..i + 1]), Reader(parse)) == (step.0, r.1 + step.1)
  {
    assert lines[..i + 1] == lines[..i] + [lines[i]];
    assert TrimAll(lines[..i + 1]) == TrimAll(lines[..i]) + [Trim(lines[i])];
    RunAppend(u, TrimAll(lines[..i]), [Trim(lines[i])], Reader(parse));
    var r := Run(u, TrimAll(lines[..i]), Reader(parse));
    var step := ReadLine(r.0, Trim(lines[i]), parse);
    assert Reader(parse)(r.0, Trim(lines[i])) == step;
    assert [Trim(lines[i])][1..] == [];
    assert step.1 + [] == step.1;
    assert Run(r.0, [Trim(lines[i])], Reader(parse)) == (step.0, step.1 + []);
  }

  /** Reading one more chunk continues the drain of the concatenated body. */
  lemma ReceivedOneMore(chunks: seq<string>, n: nat, parse: string -> Option<Chunk>)
    requires n < |chunks|
    ensures var d1 := Received(chunks[..n], parse);
      var d2 := Drain(d1.pending + chunks[n], d1.state, Reader(parse));
      Received(chunks[..n + 1], parse) == Drained(d2.pending, d2.state, d1.out + d2.out)
  {
    assert chunks[..n + 1] == chunks[..n] + [chunks[n]];
    ConcatAppend(chunks[..n], [chunks[n]]);
    assert [chunks[n]][1..] == [];
    assert Concat([chunks[n]]) == chunks[n];
    DrainAppend(Concat(chunks[..n]), chunks[n], None, Reader(parse));
  }

  /**
   * The `while (true)` read loop over the body's chunks: afterwards
   * `accumulated`, `lastUsage` and `buffer` are what draining the whole
   * concatenated body yields, however it was split into chunks.
   */
  method ReadStream(chunks: seq<string>, parse: string -> Option<Chunk>)
      returns (accumulated: string, lastUsage: Option<Usage>, buffer: string)
    ensures var d := Received(chunks, parse);
      buffer == d.pending && lastUsage == d.state && accumulated == Concat(d.out)
  {
    accumulated, lastUsage, buffer := "", None, "";
    var n := 0;
    while n < |chunks|
      invariant n <= |chunks|
      invariant var d := Received(chunks[..n], parse);
        buffer == d.pending && lastUsage == d.state && accumulated == Concat(d.out)
    {
      ghost var d1 := Received(chunks[..n], parse);
      buffer, accumulated, lastUsage := ReadChunk(buffer, accumulated, lastUsage, chunks[n], parse);
      ghost var d2 := Drain(d1.pending + chunks[n], d1.state, Reader(parse));
      ReceivedOneMore(chunks, n, parse);
      ConcatAppend(d1.out, d2.out);
      n := n + 1;
    }
    assert chunks[..n] == chunks;
  }

  /** The text one line contributes to `accumulated`: its delta content, or nothing. */
  function DeltaText(line: string, parse: string -> Option<Chunk>): string
  {
    match LineChunk(line, parse)
    case Some(chunk) => chunk.content.GetOr("")
    case None => ""
  }

  function DeltaTexts(lines: seq<string>, parse: string -> Option<Chunk>): (r: seq<string>)
    ensures |r| == |lines|
  {
    if lines == [] then [] else [DeltaText(lines[0], parse)] + DeltaTexts(lines[1..], parse)
  }

  /**
   * `accumulated` is the in-order concatenation of the lines' delta
   * contents; only non-empty pieces are appended.
   */
  lemma {:induction false} AccumulatedIsDeltas(u: Option<Usage>, lines: seq<string>, parse: string -> Option<Chunk>)
    ensures var out := Run(u, lines, Reader(parse)).1;
      && Concat(out) == Concat(DeltaTexts(lines, parse))
      && forall k :: 0 <= k < |out| ==> out[k] != ""
    decreases |lines|
  {
    if lines != [] {
      var first := ReadLine(u, lines[0], parse);
      assert Reader(parse)(u, lines[0]) == first;
      AccumulatedIsDeltas(first.0, lines[1..], parse);
      var rest := Run(first.0, lines[1..], Reader(parse)).1;
      ConcatAppend(first.1, rest);
      ConcatAppend([DeltaText(lines[0], parse)], DeltaTexts(lines[1..], parse));
      assert Concat(first.1) == DeltaText(lines[0], parse);
      assert Concat([DeltaText(lines[0], parse)]) == DeltaText(lines[0], parse);
    }
  }

  /** The usage carried by the last line (scanning from the end) that carries one, else `u`. */
  function LastUsage(u: Option<Usage>, lines: seq<string>, parse: string -> Option<Chunk>): Option<Usage>
  {
    if lines == [] then u
    else
      var c := LineChunk(lines[|lines| - 1], parse);
      if c.Some? && c.value.usage.Some? then c.value.usage
      else LastUsage(u, lines[..|lines| - 1], parse)
  }

  /** `lastUsage` is the usage of the last parsed chunk that carried one. */
  lemma {:induction false} UsageIsLast(u: Option<Usage>, lines: seq<string>, parse: string -> Option<Chunk>)
    ensures Run(u, lines, Reader(parse)).0 == LastUsage(u, lines, parse)
    decreases |lines|
  {
    if lines != [] {
      var k := |lines| - 1;
      assert lines == lines[..k] + [lines[k]];
      RunAppend(u, lines[..k], [lines[k]], Reader(parse));
      UsageIsLast(u, lines[..k], parse);
      var r := Run(u, lines[..k], Reader(parse));
      assert Reader(parse)(r.0, lines[k]) == ReadLine(r.0, lines[k], parse);
      assert [lines[k]][1..] == [];
    }
  }

  /** A line changes nothing unless it is a parsable "data: " line other than "[DONE]". */
  lemma OnlyDataLinesCount(u: Option<Usage>, line: string, parse: string -> Option<Chunk>)
    ensures var r := ReadLine(u, line, parse);
      r != (u, []) ==> StartsWith(line, "data: ") && line[6..] != "[DONE]" && parse(line[6..]).Some?
  {
  }

  /** Text after the last '\n' of the body is never handled: an unterminated tail changes only the buffer. */
  lemma UnterminatedTailIgnored(chunks: seq<string>, tail: string, parse: string -> Option<Chunk>)
    requires '\n' !in tail
    ensures var before := Received(chunks, parse); var after := Received(chunks + [tail], parse);
      after == Drained(before.pending + tail, before.state, before.out)
  {
    ReceivedOneMore(chunks + [tail], |chunks|, parse);
    assert (chunks + [tail])[..|chunks|] == chunks;
    assert (chunks + [tail])[..|chunks| + 1] == chunks + [tail];
    var d1 := Received(chunks, parse);
    assert '\n' !in d1.pending + tail;
    assert d1.out + [] == d1.out;
  }

  /** The guard at the top of `handleSend`. */
  predicate CanSend(input: string, selectedModel: string, isLoading: bool)
  {
    Trim(input) != "" && selectedModel != "" && !isLoading
  }

  /** The message shown after a send: the server's `error` field, a fallback, or none. */
  function ErrorText(response: Response): string
  {
    match response
    case Rejected(status, errorField) => errorField.GetOr("HTTP " + IntToString(status))
    case NoBody => "No response body"
    case Failed(message) => message
    case StreamFailed(_, message) => message
    case Streamed(_) => ""
  }

  /** The assistant message a send appends: one, holding `accumulated`, only when it is non-empty. */
  function Reply(response: Response, parse: string -> Option<Chunk>): seq<ChatMessage>
  {
    if response.Streamed? && Concat(Received(response.chunks, parse).out) != "" then
      [ChatMessage(Assistant, Concat(Received(response.chunks, parse).out))]
    else []
  }

  /** The usage shown after a send: reset to none, then the stream's last usage. */
  function UsageAfter(response: Response, parse: string -> Option<Chunk>): Option<Usage>
  {
    if response.Streamed? then Received(response.chunks, parse).state else None
  }

  /**
   * The partial reply left on screen after a send: a stream that breaks off
   * keeps what it had accumulated; every other outcome leaves it empty.
   */
  function StreamingAfter(response: Response, parse: string -> Option<Chunk>): string
  {
    if response.StreamFailed? then Concat(Received(response.chunks, parse).out) else ""
  }

  /**
   * Over a whole streamed body, the reply is the concatenation of the delta
   * contents of the body's complete trimmed lines, in order; the text after
   * the last '\n' takes no part.
   */
  lemma ReplyIsDeltas(chunks: seq<string>, parse: string -> Option<Chunk>)
    ensures var text := Concat(DeltaTexts(TrimAll(CompleteLines(Concat(chunks))), parse));
      Reply(Streamed(chunks), parse) == if text != "" then [ChatMessage(Assistant, text)] else []
  {
    var lines := TrimAll(CompleteLines(Concat(chunks)));
    DrainIsRunOfLines(Concat(chunks), None, Reader(parse));
    AccumulatedIsDeltas(None, lines, parse);
  }

  /**
   * A stream that breaks off records no reply and no usage, reports the
   * error, and leaves on screen the delta contents of the complete lines it
   * had received, in order.
   */
  lemma StreamFailureKeepsPartial(chunks: seq<string>, message: string, parse: string -> Option<Chunk>)
    ensures var response := StreamFailed(chunks, message);
      && StreamingAfter(response, parse) == Concat(DeltaTexts(TrimAll(CompleteLines(Concat(chunks))), parse))
      && Reply(response, parse) == [] && UsageAfter(response, parse) == None
      && ErrorText(response) == message
  {
    var lines := TrimAll(CompleteLines(Concat(chunks)));
    DrainIsRunOfLines(Concat(chunks), None, Reader(parse));
    AccumulatedIsDeltas(None, lines, parse);
  }

  /** The page state `handleSend` reads and writes. */
  class Playground {
    var messages: seq<ChatMessage>
    var input: string
    var isLoading: bool
    var error: string
    var usage: Option<Usage>
    var streamingContent: string

    constructor()
      ensures messages == [] && input == "" && !isLoading && error == "" && usage == None
      ensures streamingContent == ""
    {
      messages, input, isLoading, error, usage := [], "", false, "", None;
      streamingContent := "";
    }

    /**
     * `handleSend` with the fetch outcome as a parameter: nothing happens
     * unless the guard holds; otherwise the trimmed input is appended as a
     * user message, the input is cleared, and the outcome decides the
     * error text, the usage, whether an assistant message follows and the
     * partial reply left on screen. `streamingContent` follows
     * `accumulated` while the stream is read; after a complete stream it is
     * cleared, and after a read that throws it keeps the partial text.
     */
    method Send(selectedModel: string, response: Response, parse: string -> Option<Chunk>)
      modifies this
      ensures !CanSend(old(input), selectedModel, old(isLoading)) ==>
        messages == old(messages) && input == old(input) && isLoading == old(isLoading)
        && error == old(error) && usage == old(usage) && streamingContent == old(streamingContent)
      ensures CanSend(old(input), selectedModel, old(isLoading)) ==>
        && messages == old(messages) + [ChatMessage(User, Trim(old(input)))] + Reply(response, parse)
        && input == "" && !isLoading
        && error == ErrorText(response) && usage == UsageAfter(response, parse)
        && streamingContent == StreamingAfter(response, parse)
    {
      var trimmed := Trim(input);
      if trimmed == "" || selectedModel == "" || isLoading {
        return;
      }
      error, usage := "", None;
      messages := messages + [ChatMessage(User, trimmed)];
      input := "";
      isLoading := true;
      streamingContent := "";
      match response {
      case Rejected(status, errorField) =>
        error := errorField.GetOr("HTTP " + IntToString(status));
      case NoBody =>
        error := "No response body";
      case Failed(message) =>
        error := message;
      case StreamFailed(chunks, message) =>
        var accumulated, lastUsage, buffer := ReadStream(chunks, parse);
        streamingContent := accumulated;
        error := message;
      case Streamed(chunks) =>
        var accumulated, lastUsage, buffer := ReadStream(chunks, parse);
        streamingContent := accumulated;
        if lastUsage.Some? {
          usage := lastUsage;
        }
        if accumulated != "" {
          messages := messages + [ChatMessage(Assistant, accumulated)];
        }
        streamingContent := "";
      }
      isLoading := false;
    }
  }
}

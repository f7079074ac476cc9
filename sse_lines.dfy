/**
 * The line framing shared by the two stream transcoders
 * (apps/worker/src/services/format-converter.ts) and the playground's
 * stream reader (apps/ui/src/features/PlaygroundView.tsx): text arrives in
 * chunks, is appended to a buffer, and every complete line (up to a '\n')
 * is trimmed and handed to a line handler, while the incomplete tail stays
 * buffered for the next chunk.
 *
 * `Drain` is the loop `while ((i = buffer.indexOf("\n")) !== -1) { line =
 * buffer.slice(0, i).trim(); buffer = buffer.slice(i + 1); ... }` as a
 * function of the buffer and the handler's state; `Run` is the independent
 * reference (fold the handler over the trimmed complete lines of
 * `buffer.split("\n")`), and the lemmas connect the two.
 */
module SseLines {
  import opened Text

  /** What draining a buffer leaves: the unterminated tail, the handler state, and everything emitted. */
  datatype Drained<S, F> = Drained(pending: string, state: S, out: seq<F>)

  /** Folds a line handler over the lines in order, concatenating what it emits. */
  function Run<S, F>(st: S, lines: seq<string>, handle: (S, string) -> (S, seq<F>)): (S, seq<F>)
  {
    if lines == [] then (st, [])
    else
      var first := handle(st, lines[0]);
      var rest := Run(first.0, lines[1..], handle);
      (rest.0, first.1 + rest.1)
  }

  lemma {:induction false} RunAppend<S, F>(st: S, a: seq<string>, b: seq<string>, handle: (S, string) -> (S, seq<F>))
    ensures var ra := Run(st, a, handle); var rb := Run(ra.0, b, handle);
      Run(st, a + b, handle) == (rb.0, ra.1 + rb.1)
  {
    if a == [] {
      assert a + b == b;
      assert [] + Run(st, b, handle).1 == Run(st, b, handle).1;
    } else {
      assert (a + b)[1..] == a[1..] + b;
      var first := handle(st, a[0]);
      RunAppend(first.0, a[1..], b, handle);
      var ra := Run(first.0, a[1..], handle);
      var rb := Run(ra.0, b, handle);
      assert first.1 + (ra.1 + rb.1) == (first.1 + ra.1) + rb.1;
    }
  }

  /** Every element trimmed. */
  function TrimAll(lines: seq<string>): (r: seq<string>)
    ensures |r| == |lines|
    ensures forall i :: 0 <= i < |r| ==> r[i] == Trim(lines[i])
  {
    if lines == [] then [] else [Trim(lines[0])] + TrimAll(lines[1..])
  }

  /** The complete lines of a buffer: every piece of the split except the last. */
  function CompleteLines(buffer: string): seq<string>
  {
    var pieces := Split(buffer, '\n');
    pieces[..|pieces| - 1]
  }

  /** The unterminated tail of a buffer: the last piece of the split. */
  function PendingLine(buffer: string): (r: string)
    ensures '\n' !in r
  {
    var pieces := Split(buffer, '\n');
    pieces[|pieces| - 1]
  }

  /** The `indexOf("\n")` loop: hand each complete trimmed line to `handle`, keep the tail. */
  function Drain<S, F>(buffer: string, st: S, handle: (S, string) -> (S, seq<F>)): (r: Drained<S, F>)
    ensures '\n' !in r.pending
    ensures |r.pending| <= |buffer|
    decreases |buffer|
  {
    var k := IndexOf(buffer, '\n');
    if k == -1 then Drained(buffer, st, [])
    else
      var first := handle(st, Trim(buffer[..k]));
      var d := Drain(buffer[k + 1..], first.0, handle);
      Drained(d.pending, d.state, first.1 + d.out)
  }

  /**
   * Draining handles exactly the trimmed complete lines of `buffer.split("\n")`,
   * in order, and keeps the last piece as the pending tail.
   */
  lemma {:induction false} DrainIsRunOfLines<S, F>(buffer: string, st: S, handle: (S, string) -> (S, seq<F>))
    ensures var run := Run(st, TrimAll(CompleteLines(buffer)), handle);
      Drain(buffer, st, handle) == Drained(PendingLine(buffer), run.0, run.1)
    decreases |buffer|
  {
    var k := IndexOf(buffer, '\n');
    if k == -1 {
      SplitWithoutSeparator(buffer, '\n');
      assert CompleteLines(buffer) == [];
    } else {
      var a, b := buffer[..k], buffer[k + 1..];
      assert buffer == a + ['\n'] + b;
      SplitAfterFirst(a, b, '\n');
      var pb := Split(b, '\n');
      assert Split(buffer, '\n') == [a] + pb;
      assert CompleteLines(buffer) == [a] + CompleteLines(b);
      var lines := TrimAll(CompleteLines(buffer));
      assert lines == [Trim(a)] + TrimAll(CompleteLines(b));
      assert lines[1..] == TrimAll(CompleteLines(b));
      assert PendingLine(buffer) == PendingLine(b);
      var first := handle(st, Trim(a));
      DrainIsRunOfLines(b, first.0, handle);
      assert Drain(buffer, st, handle) == Drained(Drain(b, first.0, handle).pending, Drain(b, first.0, handle).state, first.1 + Drain(b, first.0, handle).out);
      assert Run(st, lines, handle) == (Run(first.0, lines[1..], handle).0, first.1 + Run(first.0, lines[1..], handle).1);
    }
  }

  lemma IndexOfAppend(a: string, b: string, c: char)
    requires c in a
    ensures IndexOf(a + b, c) == IndexOf(a, c)
  {
    var k := IndexOf(a, c);
    var j := IndexOf(a + b, c);
    assert (a + b)[k] == c;
    assert (a + b)[..k] == a[..k];
  }

  /**
   * Chunk boundaries do not matter: draining `b`, appending `c` to what is
   * left and draining again handles the same lines, with the same result, as
   * draining `b + c` at once.
   */
  lemma {:induction false} DrainAppend<S, F>(b: string, c: string, st: S, handle: (S, string) -> (S, seq<F>))
    ensures var d1 := Drain(b, st, handle); var d2 := Drain(d1.pending + c, d1.state, handle);
      Drain(b + c, st, handle) == Drained(d2.pending, d2.state, d1.out + d2.out)
    decreases |b|
  {
    var k := IndexOf(b, '\n');
    if k == -1 {
      assert [] + Drain(b + c, st, handle).out == Drain(b + c, st, handle).out;
    } else {
      IndexOfAppend(b, c, '\n');
      assert (b + c)[..k] == b[..k];
      assert (b + c)[k + 1..] == b[k + 1..] + c;
      var first := handle(st, Trim(b[..k]));
      DrainAppend(b[k + 1..], c, first.0, handle);
      var d1 := Drain(b[k + 1..], first.0, handle);
      var d2 := Drain(d1.pending + c, d1.state, handle);
      var whole := Drain(b[k + 1..] + c, first.0, handle);
      assert Drain(b, st, handle) == Drained(d1.pending, d1.state, first.1 + d1.out);
      assert Drain(b + c, st, handle) == Drained(whole.pending, whole.state, first.1 + whole.out);
      AppendAssoc(first.1, d1.out, d2.out);
    }
  }

  /**
   * One turn of the `indexOf` loop keeps the loop invariant "what is emitted
   * so far, followed by draining what is left, is what draining the whole
   * buffer emits", once the handler has processed the first complete line.
   */
  lemma DrainLoopStep<S, F>(buffer: string, st: S, handle: (S, string) -> (S, seq<F>), k: int,
                            total: Drained<S, F>, frames: seq<F>, next: S, emitted: seq<F>)
    requires k == IndexOf(buffer, '\n') && k != -1
    requires var d := Drain(buffer, st, handle); total == Drained(d.pending, d.state, frames + d.out)
    requires (next, emitted) == handle(st, Trim(buffer[..k]))
    ensures var d := Drain(buffer[k + 1..], next, handle); total == Drained(d.pending, d.state, (frames + emitted) + d.out)
  {
    var d := Drain(buffer[k + 1..], next, handle);
    AppendAssoc(frames, emitted, d.out);
  }

  lemma AppendAssoc<F>(a: seq<F>, b: seq<F>, c: seq<F>)
    ensures a + (b + c) == (a + b) + c
  {
  }
}

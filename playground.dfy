/**
 * The admin playground's chat route (apps/worker/src/routes/playground.ts,
 * `POST /chat`): request validation, the strict candidate filter, and the
 * rounds-by-channels-by-keys retry loop that returns the first 2xx.
 *
 * The upstream is the oracle `fetch`: the outcome of the n-th upstream call
 * (counting from 0) made to a channel with a key. The weighted order of the
 * candidates is the parameter `order`; the random draws of the n-th key
 * shuffle are `draws(n)`; the sleep between rounds is counted. The spec
 * functions `KeyLoop`, `ChannelLoop` and `RoundLoop` define the three nested
 * loops, and the method `Chat` runs them with early returns and is proved to
 * end where `Respond` says.
 */
module PlaygroundRoute {
  import opened Wrappers
  import opened Keys
  import P = Proxy

  /** One message of the request body. */
  datatype Message = Message(role: string, content: string)

  /** The body sent upstream: `stream_options: { include_usage: true }` is present only when streaming. */
  datatype UpstreamBody = UpstreamBody(model: string, messages: seq<Message>, stream: bool, includeUsage: bool)

  function BuildBody(model: string, messages: seq<Message>, isStream: bool): (b: UpstreamBody)
    ensures b.model == model && b.messages == messages && b.stream == isStream
    ensures b.includeUsage <==> b.stream
  {
    UpstreamBody(model, messages, isStream, isStream)
  }

  /** `stream: isStream = true`: an absent `stream` means streaming. */
  function StreamFlag(stream: Option<bool>): (isStream: bool)
    ensures stream.None? ==> isStream
    ensures stream.Some? ==> isStream == stream.value
  {
    stream.GetOr(true)
  }

  /** One upstream call: channel, key, and what came back. */
  datatype Call = Call(channel: P.Channel, key: string, attempt: P.Attempt)

  /** The outcome of the n-th upstream call, made to a channel with a key. */
  type KeyFetch = (nat, P.Channel, string) -> P.Attempt

  /** Random draws for each shuffle, indexed by the number of shuffles made before. */
  ghost predicate IsDrawSource(draws: nat -> (nat -> nat)) {
    forall n: nat :: IsIndexOracle(draws(n))
  }

  /** What the key loop of one channel leaves: `lastResponse`, its calls, `channelRetryable`, and the 2xx reply if any. */
  datatype KeysDone = KeysDone(lastResponse: Option<P.Reply>, calls: seq<Call>, retryable: bool, won: Option<P.Reply>)

  /**
   * The `for (const apiKey of keys)` loop from key `j`; `base` is the
   * number of upstream calls made before.
   */
  function KeyLoop(ch: P.Channel, keys: seq<string>, j: nat, base: nat, lastResponse: Option<P.Reply>,
                   retryable: bool, fetch: KeyFetch): KeysDone
    requires j <= |keys|
    decreases |keys| - j
  {
    if j == |keys| then KeysDone(lastResponse, [], retryable, None)
    else
      var a := fetch(base, ch, keys[j]);
      var call := Call(ch, keys[j], a);
      if a.TransportError? then
        var rest := KeyLoop(ch, keys, j + 1, base + 1, None, true, fetch);
        KeysDone(rest.lastResponse, [call] + rest.calls, rest.retryable, rest.won)
      else if P.IsOk(a.reply.status) then
        KeysDone(Some(a.reply), [call], retryable, Some(a.reply))
      else if P.IsRetryableStatus(a.reply.status) then
        var rest := KeyLoop(ch, keys, j + 1, base + 1, Some(a.reply), true, fetch);
        KeysDone(rest.lastResponse, [call] + rest.calls, rest.retryable, rest.won)
      else
        KeysDone(Some(a.reply), [call], retryable, None)
  }

  /** The loop's variables: `lastResponse`, every call made so far, and the number of shuffles. */
  datatype Progress = Progress(lastResponse: Option<P.Reply>, log: seq<Call>, shuffles: nat)

  datatype Win = Win(channel: P.Channel, reply: P.Reply)

  datatype ChannelsDone = ChannelsDone(progress: Progress, shouldRetry: bool, won: Option<Win>)

  /** The keys of a channel in the order the n-th shuffle puts them. */
  function ChannelKeys(ch: P.Channel, n: nat, draws: nat -> (nat -> nat)): seq<string>
    requires IsDrawSource(draws)
  {
    Shuffled(ParseApiKeys(ch.apiKey), draws(n))
  }

  /** The `for (const channel of ordered)` loop from position `i`. */
  function ChannelLoop(ordered: seq<P.Channel>, i: nat, p: Progress, shouldRetry: bool,
                       draws: nat -> (nat -> nat), fetch: KeyFetch): ChannelsDone
    requires i <= |ordered| && IsDrawSource(draws)
    decreases |ordered| - i
  {
    if i == |ordered| then ChannelsDone(p, shouldRetry, None)
    else
      var ch := ordered[i];
      var k := KeyLoop(ch, ChannelKeys(ch, p.shuffles, draws), 0, |p.log|, p.lastResponse, false, fetch);
      var next := Progress(k.lastResponse, p.log + k.calls, p.shuffles + 1);
      if k.won.Some? then ChannelsDone(next, shouldRetry || k.retryable, Some(Win(ch, k.won.value)))
      else ChannelLoop(ordered, i + 1, next, shouldRetry || k.retryable, draws, fetch)
  }

  /** What the round loop leaves; `retries` holds each round's `shouldRetry`. */
  datatype RoundsDone = RoundsDone(progress: Progress, won: Option<Win>, sleeps: nat, retries: seq<bool>)

  /** The `while (round < retryRounds)` loop from round `round`. */
  function RoundLoop(ordered: seq<P.Channel>, retryRounds: nat, round: nat, p: Progress,
                     draws: nat -> (nat -> nat), fetch: KeyFetch): RoundsDone
    requires IsDrawSource(draws)
    decreases retryRounds - round
  {
    if round >= retryRounds then RoundsDone(p, None, 0, [])
    else
      var c := ChannelLoop(ordered, 0, p, false, draws, fetch);
      if c.won.Some? || !c.shouldRetry || round + 1 >= retryRounds then RoundsDone(c.progress, c.won, 0, [c.shouldRetry])
      else
        var rest := RoundLoop(ordered, retryRounds, round + 1, c.progress, draws, fetch);
        RoundsDone(rest.progress, rest.won, rest.sleeps + 1, [c.shouldRetry] + rest.retries)
  }

  /** The route's answer: the converted 2xx, a JSON error, or the last upstream response passed through. */
  datatype Answer = Converted(channel: P.Channel, reply: P.Reply, eventStream: bool)
                  | Error(status: int, code: string)
                  | Forwarded(reply: P.Reply)

  datatype Served = Served(answer: Answer, log: seq<Call>, sleeps: nat)

  /** A request without a model or without messages. */
  predicate Invalid(model: Option<string>, messages: Option<seq<Message>>)
  {
    model.None? || model.value == "" || messages.None? || |messages.value| == 0
  }

  /** The route, as the three loops define it. */
  function Respond(model: Option<string>, messages: Option<seq<Message>>, stream: Option<bool>, active: seq<P.Channel>,
                   configuredRounds: int, order: seq<P.Channel> -> seq<P.Channel>,
                   draws: nat -> (nat -> nat), fetch: KeyFetch): Served
    requires IsDrawSource(draws)
  {
    if Invalid(model, messages) then Served(Error(400, "invalid_request"), [], 0)
    else
      var candidates := P.ModelChannels(active, model);
      if candidates == [] then Served(Error(503, "no_available_channels"), [], 0)
      else
        Finish(RoundLoop(order(candidates), P.RetryRounds(configuredRounds), 0, Progress(None, [], 0), draws, fetch), stream)
  }

  /** After the loops: the converted 2xx, 502 when nothing answered last, or the last response passed through. */
  function Finish(r: RoundsDone, stream: Option<bool>): Served
  {
    if r.won.Some? then Served(Converted(r.won.value.channel, r.won.value.reply, StreamFlag(stream)), r.progress.log, r.sleeps)
    else if r.progress.lastResponse.None? then Served(Error(502, "upstream_unavailable"), r.progress.log, r.sleeps)
    else Served(Forwarded(r.progress.lastResponse.value), r.progress.log, r.sleeps)
  }

  /**
   * The key loop of one channel; a 2xx is handed back in `won`, on which
   * the handler returns at once.
   */
  method TryKeys(channel: P.Channel, keys: seq<string>, log0: seq<Call>, lastResponse0: Option<P.Reply>, fetch: KeyFetch)
      returns (lastResponse: Option<P.Reply>, log: seq<Call>, channelRetryable: bool, won: Option<P.Reply>)
    ensures var k := KeyLoop(channel, keys, 0, |log0|, lastResponse0, false, fetch);
      && lastResponse == k.lastResponse && log == log0 + k.calls && channelRetryable == k.retryable && won == k.won
  {
    lastResponse, log, channelRetryable, won := lastResponse0, log0, false, None;
    ghost var goal := KeyLoop(channel, keys, 0, |log0|, lastResponse0, false, fetch);
    var j := 0;
    while j < |keys|
      invariant j <= |keys|
      invariant var k := KeyLoop(channel, keys, j, |log|, lastResponse, channelRetryable, fetch);
        && log0 + goal.calls == log + k.calls
        && k.lastResponse == goal.lastResponse && k.retryable == goal.retryable && k.won == goal.won
      invariant won.None?
      decreases |keys| - j
    {
      var response := fetch(|log|, channel, keys[j]);
      log := log + [Call(channel, keys[j], response)];
      if response.Answered? {
        lastResponse := Some(response.reply);
        if P.IsOk(response.reply.status) {
          won := Some(response.reply);
          return;
        }
        if P.IsRetryableStatus(response.reply.status) {
          channelRetryable := true;
        } else {
          break;
        }
      } else {
        lastResponse := None;
        channelRetryable := true;
      }
      j := j + 1;
    }
  }

  /** One step of the channel loop, in terms of the key loop of the channel at `i`. */
  lemma ChannelStep(ordered: seq<P.Channel>, i: nat, p: Progress, shouldRetry: bool, draws: nat -> (nat -> nat), fetch: KeyFetch)
    requires i < |ordered| && IsDrawSource(draws)
    ensures var k := KeyLoop(ordered[i], ChannelKeys(ordered[i], p.shuffles, draws), 0, |p.log|, p.lastResponse, false, fetch);
      var next := Progress(k.lastResponse, p.log + k.calls, p.shuffles + 1);
      ChannelLoop(ordered, i, p, shouldRetry, draws, fetch)
        == if k.won.Some? then ChannelsDone(next, shouldRetry || k.retryable, Some(Win(ordered[i], k.won.value)))
           else ChannelLoop(ordered, i + 1, next, shouldRetry || k.retryable, draws, fetch)
  {
  }

  /** One round over the ordered channels, each with its keys freshly shuffled. */
  method TryChannels(ordered: seq<P.Channel>, p: Progress, draws: nat -> (nat -> nat), fetch: KeyFetch)
      returns (lastResponse: Option<P.Reply>, log: seq<Call>, shuffles: nat, shouldRetry: bool, won: Option<Win>)
    requires IsDrawSource(draws)
    ensures var c := ChannelLoop(ordered, 0, p, false, draws, fetch);
      && Progress(lastResponse, log, shuffles) == c.progress && shouldRetry == c.shouldRetry && won == c.won
  {
    lastResponse, log, shuffles, shouldRetry, won := p.lastResponse, p.log, p.shuffles, false, None;
    ghost var goal := ChannelLoop(ordered, 0, p, false, draws, fetch);
    var i := 0;
    while i < |ordered|
      invariant i <= |ordered|
      invariant ChannelLoop(ordered, i, Progress(lastResponse, log, shuffles), shouldRetry, draws, fetch) == goal
      invariant won.None?
      decreases |ordered| - i
    {
      var channel := ordered[i];
      ghost var before := Progress(lastResponse, log, shuffles);
      var keys := ShuffleArray(ParseApiKeys(channel.apiKey), draws(shuffles));
      shuffles := shuffles + 1;
      var channelRetryable, reply;
      lastResponse, log, channelRetryable, reply := TryKeys(channel, keys, log, lastResponse, fetch);
      ChannelStep(ordered, i, before, shouldRetry, draws, fetch);
      if channelRetryable {
        shouldRetry := true;
      }
      if reply.Some? {
        won := Some(Win(channel, reply.value));
        return;
      }
      i := i + 1;
    }
  }

  /** One step of the round loop, in terms of the channel loop of that round. */
  lemma RoundStep(ordered: seq<P.Channel>, retryRounds: nat, round: nat, p: Progress, draws: nat -> (nat -> nat), fetch: KeyFetch)
    requires round < retryRounds && IsDrawSource(draws)
    ensures var c := ChannelLoop(ordered, 0, p, false, draws, fetch);
      RoundLoop(ordered, retryRounds, round, p, draws, fetch)
        == if c.won.Some? || !c.shouldRetry || round + 1 >= retryRounds then RoundsDone(c.progress, c.won, 0, [c.shouldRetry])
           else
             var rest := RoundLoop(ordered, retryRounds, round + 1, c.progress, draws, fetch);
             RoundsDone(rest.progress, rest.won, rest.sleeps + 1, [c.shouldRetry] + rest.retries)
  {
  }

  /** The retry rounds over the ordered channels, stopping at the first 2xx. */
  method TryRounds(ordered: seq<P.Channel>, retryRounds: nat, draws: nat -> (nat -> nat), fetch: KeyFetch)
      returns (lastResponse: Option<P.Reply>, log: seq<Call>, sleeps: nat, won: Option<Win>)
    requires IsDrawSource(draws)
    ensures var r := RoundLoop(ordered, retryRounds, 0, Progress(None, [], 0), draws, fetch);
      && lastResponse == r.progress.lastResponse && log == r.progress.log && sleeps == r.sleeps && won == r.won
  {
    lastResponse, log, sleeps, won := None, [], 0, None;
    var shuffles := 0;
    ghost var goal := RoundLoop(ordered, retryRounds, 0, Progress(None, [], 0), draws, fetch);
    var round := 0;
    while round < retryRounds
      invariant var rest := RoundLoop(ordered, retryRounds, round, Progress(lastResponse, log, shuffles), draws, fetch);
        rest.progress == goal.progress && rest.won == goal.won && sleeps + rest.sleeps == goal.sleeps
      invariant won.None?
      decreases retryRounds - round
    {
      var shouldRetry;
      RoundStep(ordered, retryRounds, round, Progress(lastResponse, log, shuffles), draws, fetch);
      lastResponse, log, shuffles, shouldRetry, won := TryChannels(ordered, Progress(lastResponse, log, shuffles), draws, fetch);
      if won.Some? {
        return;
      }
      if !shouldRetry {
        break;
      }
      round := round + 1;
      if round < retryRounds {
        sleeps := sleeps + 1;
      }
    }
  }

  /** The `/chat` handler: validation, candidates, then the retry rounds, answering the first 2xx at once. */
  method Chat(model: Option<string>, messages: Option<seq<Message>>, stream: Option<bool>, active: seq<P.Channel>,
              configuredRounds: int, order: seq<P.Channel> -> seq<P.Channel>,
              draws: nat -> (nat -> nat), fetch: KeyFetch)
      returns (answer: Answer, log: seq<Call>, sleeps: nat)
    requires IsDrawSource(draws)
    ensures Served(answer, log, sleeps) == Respond(model, messages, stream, active, configuredRounds, order, draws, fetch)
  {
    if model.None? || model.value == "" || messages.None? || |messages.value| == 0 {
      return Error(400, "invalid_request"), [], 0;
    }
    var isStream := stream.GetOr(true);
    var candidates := P.ModelChannels(active, model);
    if |candidates| == 0 {
      return Error(503, "no_available_channels"), [], 0;
    }
    var ordered := order(candidates);
    var retryRounds := if configuredRounds < 1 then 1 else configuredRounds;
    var lastResponse, won;
    lastResponse, log, sleeps, won := TryRounds(ordered, retryRounds, draws, fetch);
    if won.Some? {
      return Converted(won.value.channel, won.value.reply, isStream), log, sleeps;
    }
    if lastResponse.None? {
      return Error(502, "upstream_unavailable"), log, sleeps;
    }
    return Forwarded(lastResponse.value), log, sleeps;
  }

  /** Some call among `calls` failed in a way that marks the channel retryable. */
  predicate AnyRetryable(calls: seq<Call>)
  {
    calls != [] && (P.Retryable(calls[0].attempt) || AnyRetryable(calls[1..]))
  }

  /** The reply of the last call, if it got one; none before any call. */
  function LastReply(log: seq<Call>): Option<P.Reply>
  {
    if log == [] then None else P.ReplyOf(log[|log| - 1].attempt)
  }

  /**
   * A channel's key loop calls its keys in order, one call each, each
   * answered by the oracle; a channel without keys makes no call.
   */
  lemma {:induction false} KeyCalls(ch: P.Channel, keys: seq<string>, j: nat, base: nat, lastResponse: Option<P.Reply>,
                                    retryable: bool, fetch: KeyFetch)
    requires j <= |keys|
    ensures var k := KeyLoop(ch, keys, j, base, lastResponse, retryable, fetch);
      && |k.calls| <= |keys| - j
      && (k.calls == [] <==> j == |keys|)
      && (forall m :: 0 <= m < |k.calls| ==> k.calls[m] == Call(ch, keys[j + m], fetch(base + m, ch, keys[j + m])))
    decreases |keys| - j
  {
    if j < |keys| {
      var a := fetch(base, ch, keys[j]);
      var k := KeyLoop(ch, keys, j, base, lastResponse, retryable, fetch);
      if a.TransportError? || (!P.IsOk(a.reply.status) && P.IsRetryableStatus(a.reply.status)) {
        var lr := if a.TransportError? then None else Some(a.reply);
        var rest := KeyLoop(ch, keys, j + 1, base + 1, lr, true, fetch);
        assert k.calls == [Call(ch, keys[j], a)] + rest.calls;
        KeyCalls(ch, keys, j + 1, base + 1, lr, true, fetch);
        forall m | 1 <= m < |k.calls|
          ensures k.calls[m] == Call(ch, keys[j + m], fetch(base + m, ch, keys[j + m]))
        {
          assert k.calls[m] == rest.calls[m - 1];
          assert j + 1 + (m - 1) == j + m && base + 1 + (m - 1) == base + m;
        }
      }
    }
  }

  /**
   * A key is tried after another only when the one before was retryable (a
   * transport error or a retryable status); the loop stops early only on a
   * 2xx or a non-retryable status; a 2xx is won exactly when it ends the loop.
   */
  lemma {:induction false} KeyStops(ch: P.Channel, keys: seq<string>, j: nat, base: nat, lastResponse: Option<P.Reply>,
                                    retryable: bool, fetch: KeyFetch)
    requires j <= |keys|
    ensures var k := KeyLoop(ch, keys, j, base, lastResponse, retryable, fetch); var n := |k.calls|;
      && (forall m :: 0 <= m < n - 1 ==> P.Retryable(k.calls[m].attempt))
      && (n < |keys| - j ==> n > 0 && !P.Retryable(k.calls[n - 1].attempt))
      && (k.won.Some? <==> n > 0 && P.Succeeded(k.calls[n - 1].attempt))
      && (k.won.Some? ==> k.won == P.ReplyOf(k.calls[n - 1].attempt))
    decreases |keys| - j
  {
    if j < |keys| {
      var a := fetch(base, ch, keys[j]);
      var k := KeyLoop(ch, keys, j, base, lastResponse, retryable, fetch);
      if a.TransportError? || (!P.IsOk(a.reply.status) && P.IsRetryableStatus(a.reply.status)) {
        var lr := if a.TransportError? then None else Some(a.reply);
        var rest := KeyLoop(ch, keys, j + 1, base + 1, lr, true, fetch);
        assert k.calls == [Call(ch, keys[j], a)] + rest.calls;
        KeyStops(ch, keys, j + 1, base + 1, lr, true, fetch);
        forall m | 1 <= m < |k.calls| - 1
          ensures P.Retryable(k.calls[m].attempt)
        {
          assert k.calls[m] == rest.calls[m - 1];
        }
        if rest.calls != [] {
          assert k.calls[|k.calls| - 1] == rest.calls[|rest.calls| - 1];
        }
      } else {
        assert k.calls == [Call(ch, keys[j], a)];
      }
    }
  }

  /** `lastResponse` follows the last call, and `channelRetryable` records whether any call was retryable. */
  lemma {:induction false} KeyState(ch: P.Channel, keys: seq<string>, j: nat, base: nat, lastResponse: Option<P.Reply>,
                                    retryable: bool, fetch: KeyFetch)
    requires j <= |keys|
    ensures var k := KeyLoop(ch, keys, j, base, lastResponse, retryable, fetch);
      && k.lastResponse == (if k.calls == [] then lastResponse else LastReply(k.calls))
      && k.retryable == (retryable || AnyRetryable(k.calls))
    decreases |keys| - j
  {
    if j < |keys| {
      var a := fetch(base, ch, keys[j]);
      var k := KeyLoop(ch, keys, j, base, lastResponse, retryable, fetch);
      if a.TransportError? || (!P.IsOk(a.reply.status) && P.IsRetryableStatus(a.reply.status)) {
        var lr := if a.TransportError? then None else Some(a.reply);
        var rest := KeyLoop(ch, keys, j + 1, base + 1, lr, true, fetch);
        assert k.calls == [Call(ch, keys[j], a)] + rest.calls;
        assert k.calls[1..] == rest.calls;
        KeyState(ch, keys, j + 1, base + 1, lr, true, fetch);
        if rest.calls != [] {
          assert k.calls[|k.calls| - 1] == rest.calls[|rest.calls| - 1];
        }
      } else {
        assert k.calls == [Call(ch, keys[j], a)];
        assert k.calls[1..] == [];
      }
    }
  }

  /** No call in `log` got a 2xx. */
  predicate NoneOk(log: seq<Call>)
  {
    forall m :: 0 <= m < |log| ==> !P.Succeeded(log[m].attempt)
  }

  /** The state between calls while nothing has succeeded: no 2xx yet, and `lastResponse` is the last call's reply. */
  predicate Settled(p: Progress)
  {
    NoneOk(p.log) && p.lastResponse == LastReply(p.log)
  }

  /** The state at the early return: the last call, and only it, got the 2xx `w.reply`, from `w.channel`. */
  predicate WonBy(p: Progress, w: Win)
  {
    && p.log != []
    && p.log[|p.log| - 1] == Call(w.channel, p.log[|p.log| - 1].key, P.Answered(w.reply))
    && P.IsOk(w.reply.status)
    && NoneOk(p.log[..|p.log| - 1])
    && p.lastResponse == Some(w.reply)
  }

  lemma NoneOkAppend(a: seq<Call>, b: seq<Call>)
    requires NoneOk(a) && NoneOk(b)
    ensures NoneOk(a + b)
  {
    forall m | 0 <= m < |a + b|
      ensures !P.Succeeded((a + b)[m].attempt)
    {
      if m >= |a| {
        assert (a + b)[m] == b[m - |a|];
      }
    }
  }

  lemma LastReplyAppend(a: seq<Call>, b: seq<Call>)
    requires b != []
    ensures LastReply(a + b) == LastReply(b)
  {
    assert (a + b)[|a + b| - 1] == b[|b| - 1];
  }

  /** The calls of a channel's key loop: none got a 2xx, or only the last, which is the won reply. */
  lemma KeyCallsOk(ch: P.Channel, keys: seq<string>, base: nat, lastResponse: Option<P.Reply>, fetch: KeyFetch)
    ensures var k := KeyLoop(ch, keys, 0, base, lastResponse, false, fetch); var n := |k.calls|;
      && (k.won.None? ==> NoneOk(k.calls))
      && (k.won.Some? ==> n > 0 && NoneOk(k.calls[..n - 1])
                          && k.calls[n - 1] == Call(ch, k.calls[n - 1].key, P.Answered(k.won.value))
                          && P.IsOk(k.won.value.status))
  {
    var k := KeyLoop(ch, keys, 0, base, lastResponse, false, fetch);
    KeyStops(ch, keys, 0, base, lastResponse, false, fetch);
    KeyCalls(ch, keys, 0, base, lastResponse, false, fetch);
  }

  /** One channel's key loop, started from a settled state, ends settled or won by that channel. */
  lemma KeyOutcome(ch: P.Channel, keys: seq<string>, p: Progress, shuffles: nat, fetch: KeyFetch)
    requires Settled(p)
    ensures var k := KeyLoop(ch, keys, 0, |p.log|, p.lastResponse, false, fetch);
      var next := Progress(k.lastResponse, p.log + k.calls, shuffles);
      && (k.won.None? ==> Settled(next))
      && (k.won.Some? ==> WonBy(next, Win(ch, k.won.value)))
  {
    var k := KeyLoop(ch, keys, 0, |p.log|, p.lastResponse, false, fetch);
    KeyCallsOk(ch, keys, |p.log|, p.lastResponse, fetch);
    KeyState(ch, keys, 0, |p.log|, p.lastResponse, false, fetch);
    AppendKeysDone(ch, p, k, shuffles);
  }

  /** Appending a key loop's calls, described by its outcome alone, to a settled state. */
  lemma AppendKeysDone(ch: P.Channel, p: Progress, k: KeysDone, shuffles: nat)
    requires Settled(p)
    requires k.lastResponse == (if k.calls == [] then p.lastResponse else LastReply(k.calls))
    requires k.won.None? ==> NoneOk(k.calls)
    requires var n := |k.calls|;
      k.won.Some? ==> n > 0 && NoneOk(k.calls[..n - 1])
                      && k.calls[n - 1] == Call(ch, k.calls[n - 1].key, P.Answered(k.won.value))
                      && P.IsOk(k.won.value.status)
    ensures var next := Progress(k.lastResponse, p.log + k.calls, shuffles);
      && (k.won.None? ==> Settled(next))
      && (k.won.Some? ==> WonBy(next, Win(ch, k.won.value)))
  {
    var log := p.log + k.calls;
    if k.calls == [] {
      assert log == p.log;
    } else {
      LastReplyAppend(p.log, k.calls);
      if k.won.None? {
        NoneOkAppend(p.log, k.calls);
      } else {
        assert log[..|log| - 1] == p.log + k.calls[..|k.calls| - 1];
        NoneOkAppend(p.log, k.calls[..|k.calls| - 1]);
        assert log[|log| - 1] == k.calls[|k.calls| - 1];
      }
    }
  }

  /** A round started from a settled state ends settled, or won by the channel of its last call. */
  lemma {:induction false} ChannelOutcome(ordered: seq<P.Channel>, i: nat, p: Progress, shouldRetry: bool,
                                          draws: nat -> (nat -> nat), fetch: KeyFetch)
    requires i <= |ordered| && IsDrawSource(draws) && Settled(p)
    ensures var c := ChannelLoop(ordered, i, p, shouldRetry, draws, fetch);
      && (c.won.None? ==> Settled(c.progress))
      && (c.won.Some? ==> WonBy(c.progress, c.won.value))
    decreases |ordered| - i
  {
    if i < |ordered| {
      var ch := ordered[i];
      var k := KeyLoop(ch, ChannelKeys(ch, p.shuffles, draws), 0, |p.log|, p.lastResponse, false, fetch);
      var next := Progress(k.lastResponse, p.log + k.calls, p.shuffles + 1);
      ChannelStep(ordered, i, p, shouldRetry, draws, fetch);
      KeyOutcome(ch, ChannelKeys(ch, p.shuffles, draws), p, p.shuffles + 1, fetch);
      if k.won.None? {
        ChannelOutcome(ordered, i + 1, next, shouldRetry || k.retryable, draws, fetch);
      }
    }
  }

  /** The whole loop, started from a settled state, ends settled or won. */
  lemma {:induction false} RoundOutcome(ordered: seq<P.Channel>, retryRounds: nat, round: nat, p: Progress,
                                        draws: nat -> (nat -> nat), fetch: KeyFetch)
    requires IsDrawSource(draws) && Settled(p)
    ensures var r := RoundLoop(ordered, retryRounds, round, p, draws, fetch);
      && (r.won.None? ==> Settled(r.progress))
      && (r.won.Some? ==> WonBy(r.progress, r.won.value))
    decreases retryRounds - round
  {
    if round < retryRounds {
      var c := ChannelLoop(ordered, 0, p, false, draws, fetch);
      RoundStep(ordered, retryRounds, round, p, draws, fetch);
      ChannelOutcome(ordered, 0, p, false, draws, fetch);
      if !(c.won.Some? || !c.shouldRetry || round + 1 >= retryRounds) {
        RoundOutcome(ordered, retryRounds, round + 1, c.progress, draws, fetch);
      }
    }
  }

  /**
   * The route's answer: a request without model or messages is refused with
   * 400 and no channel without the model is ever a candidate, so no
   * candidate means 503; neither makes any call.
   */
  lemma ChatRefuses(model: Option<string>, messages: Option<seq<Message>>, stream: Option<bool>, active: seq<P.Channel>,
                    configuredRounds: int, order: seq<P.Channel> -> seq<P.Channel>,
                    draws: nat -> (nat -> nat), fetch: KeyFetch)
    requires IsDrawSource(draws)
    ensures var s := Respond(model, messages, stream, active, configuredRounds, order, draws, fetch);
      && (Invalid(model, messages) ==> s.answer == Error(400, "invalid_request") && s.log == [])
      && (!Invalid(model, messages) ==>
            (s.answer == Error(503, "no_available_channels") && s.log == [] <==>
               forall c :: c in active ==> model.value !in c.models))
  {
    if !Invalid(model, messages) {
      var candidates := P.ModelChannels(active, model);
      if candidates != [] {
        assert candidates[0] in candidates;
      }
    }
  }

  /**
   * For a valid request with candidates: the answer is the converted 2xx
   * exactly when some call got a 2xx, and then that call was the last one,
   * made to the answering channel, with no 2xx before it; otherwise no call
   * got a 2xx, the answer is 502 exactly when there was no call or the last
   * one failed in transport, and else it is the last call's response.
   */
  lemma ChatAnswers(model: Option<string>, messages: Option<seq<Message>>, stream: Option<bool>, active: seq<P.Channel>,
                    configuredRounds: int, order: seq<P.Channel> -> seq<P.Channel>,
                    draws: nat -> (nat -> nat), fetch: KeyFetch)
    requires IsDrawSource(draws) && !Invalid(model, messages) && P.ModelChannels(active, model) != []
    ensures var s := Respond(model, messages, stream, active, configuredRounds, order, draws, fetch); var n := |s.log|;
      && (s.answer.Converted? ==>
            && n > 0 && s.log[n - 1] == Call(s.answer.channel, s.log[n - 1].key, P.Answered(s.answer.reply))
            && P.IsOk(s.answer.reply.status) && NoneOk(s.log[..n - 1])
            && s.answer.eventStream == StreamFlag(stream))
      && (!s.answer.Converted? ==> NoneOk(s.log))
      && (s.answer == Error(502, "upstream_unavailable") <==> !s.answer.Converted? && LastReply(s.log).None?)
      && (s.answer.Forwarded? ==> LastReply(s.log) == Some(s.answer.reply))
  {
    var candidates := P.ModelChannels(active, model);
    var r := RoundLoop(order(candidates), P.RetryRounds(configuredRounds), 0, Progress(None, [], 0), draws, fetch);
    assert Respond(model, messages, stream, active, configuredRounds, order, draws, fetch) == Finish(r, stream);
    RoundOutcome(order(candidates), P.RetryRounds(configuredRounds), 0, Progress(None, [], 0), draws, fetch);
    FinishAnswers(r, stream);
  }

  /** What `Finish` answers, from a loop outcome that is settled or won. */
  lemma FinishAnswers(r: RoundsDone, stream: Option<bool>)
    requires r.won.None? ==> Settled(r.progress)
    requires r.won.Some? ==> WonBy(r.progress, r.won.value)
    ensures var s := Finish(r, stream); var n := |s.log|;
      && (s.answer.Converted? ==>
            && n > 0 && s.log[n - 1] == Call(s.answer.channel, s.log[n - 1].key, P.Answered(s.answer.reply))
            && P.IsOk(s.answer.reply.status) && NoneOk(s.log[..n - 1])
            && s.answer.eventStream == StreamFlag(stream))
      && (!s.answer.Converted? ==> NoneOk(s.log))
      && (s.answer == Error(502, "upstream_unavailable") <==> !s.answer.Converted? && LastReply(s.log).None?)
      && (s.answer.Forwarded? ==> LastReply(s.log) == Some(s.answer.reply))
  {
  }

  /** The number of keys over the channels from position `i`. */
  function KeyCount(ordered: seq<P.Channel>, i: nat): nat
    requires i <= |ordered|
    decreases |ordered| - i
  {
    if i == |ordered| then 0 else |ParseApiKeys(ordered[i].apiKey)| + KeyCount(ordered, i + 1)
  }

  /** A round makes at most one call per key of each channel. */
  lemma {:induction false} ChannelCalls(ordered: seq<P.Channel>, i: nat, p: Progress, shouldRetry: bool,
                                        draws: nat -> (nat -> nat), fetch: KeyFetch)
    requires i <= |ordered| && IsDrawSource(draws)
    ensures var c := ChannelLoop(ordered, i, p, shouldRetry, draws, fetch);
      |p.log| <= |c.progress.log| <= |p.log| + KeyCount(ordered, i)
    decreases |ordered| - i
  {
    if i < |ordered| {
      var ch := ordered[i];
      var keys := ChannelKeys(ch, p.shuffles, draws);
      var k := KeyLoop(ch, keys, 0, |p.log|, p.lastResponse, false, fetch);
      var next := Progress(k.lastResponse, p.log + k.calls, p.shuffles + 1);
      ChannelStep(ordered, i, p, shouldRetry, draws, fetch);
      KeyCalls(ch, keys, 0, |p.log|, p.lastResponse, false, fetch);
      assert |keys| == |ParseApiKeys(ch.apiKey)|;
      if k.won.None? {
        ChannelCalls(ordered, i + 1, next, shouldRetry || k.retryable, draws, fetch);
      }
    }
  }

  /** Every round, from any progress, makes at most `total` calls. */
  ghost predicate RoundWithin(ordered: seq<P.Channel>, total: nat, draws: nat -> (nat -> nat), fetch: KeyFetch)
    requires IsDrawSource(draws)
  {
    forall q: Progress :: |ChannelLoop(ordered, 0, q, false, draws, fetch).progress.log| <= |q.log| + total
  }

  /** The rounds from `round` on make at most `total` calls per remaining round, when each round makes at most `total`. */
  lemma {:induction false} RoundCalls(ordered: seq<P.Channel>, retryRounds: nat, round: nat, p: Progress, total: nat,
                                      draws: nat -> (nat -> nat), fetch: KeyFetch)
    requires IsDrawSource(draws) && round <= retryRounds && RoundWithin(ordered, total, draws, fetch)
    ensures |RoundLoop(ordered, retryRounds, round, p, draws, fetch).progress.log|
              <= |p.log| + Times(retryRounds - round, total)
    decreases retryRounds - round, 2
  {
    if round < retryRounds {
      RoundCallsStep(ordered, retryRounds, round, p, total, draws, fetch);
    } else {
      assert RoundLoop(ordered, retryRounds, round, p, draws, fetch).progress == p;
      assert Times(retryRounds - round, total) == 0;
    }
  }

  /** `RoundCalls` for a round that runs: its own calls, then those of the rounds after it. */
  lemma {:induction false} RoundCallsStep(ordered: seq<P.Channel>, retryRounds: nat, round: nat, p: Progress, total: nat,
                                          draws: nat -> (nat -> nat), fetch: KeyFetch)
    requires IsDrawSource(draws) && round < retryRounds && RoundWithin(ordered, total, draws, fetch)
    ensures |RoundLoop(ordered, retryRounds, round, p, draws, fetch).progress.log|
              <= |p.log| + Times(retryRounds - round, total)
    decreases retryRounds - round, 1
  {
    var c := ChannelLoop(ordered, 0, p, false, draws, fetch);
    if c.won.Some? || !c.shouldRetry || round + 1 >= retryRounds {
      RoundCallsLast(ordered, retryRounds, round, p, c, total, draws, fetch);
    } else {
      RoundCallsOnward(ordered, retryRounds, round, p, c, total, draws, fetch);
    }
  }

  /** A round after which the loop stops: its own at most `total` calls. */
  lemma RoundCallsLast(ordered: seq<P.Channel>, retryRounds: nat, round: nat, p: Progress, c: ChannelsDone, total: nat,
                       draws: nat -> (nat -> nat), fetch: KeyFetch)
    requires IsDrawSource(draws) && round < retryRounds && RoundWithin(ordered, total, draws, fetch)
    requires c == ChannelLoop(ordered, 0, p, false, draws, fetch)
    requires c.won.Some? || !c.shouldRetry || round + 1 >= retryRounds
    ensures |RoundLoop(ordered, retryRounds, round, p, draws, fetch).progress.log|
              <= |p.log| + Times(retryRounds - round, total)
  {
    RoundProgressStops(ordered, retryRounds, round, p, c, draws, fetch);
    WithinBudget(|p.log|, |c.progress.log|, |c.progress.log|, retryRounds - round, total);
  }

  /** A round that goes on to the next: its own at most `total` calls, then the budget of the rounds left. */
  lemma {:induction false} RoundCallsOnward(ordered: seq<P.Channel>, retryRounds: nat, round: nat, p: Progress,
                                            c: ChannelsDone, total: nat, draws: nat -> (nat -> nat), fetch: KeyFetch)
    requires IsDrawSource(draws) && round + 1 < retryRounds && RoundWithin(ordered, total, draws, fetch)
    requires c == ChannelLoop(ordered, 0, p, false, draws, fetch) && c.won.None? && c.shouldRetry
    ensures |RoundLoop(ordered, retryRounds, round, p, draws, fetch).progress.log|
              <= |p.log| + Times(retryRounds - round, total)
    decreases retryRounds - round, 0
  {
    RoundCalls(ordered, retryRounds, round + 1, c.progress, total, draws, fetch);
    RoundCallsAfter(ordered, retryRounds, round, p, c, total, draws, fetch);
  }

  /** The budget of a round that goes on, given the budget of the rounds after it. */
  lemma RoundCallsAfter(ordered: seq<P.Channel>, retryRounds: nat, round: nat, p: Progress,
                        c: ChannelsDone, total: nat, draws: nat -> (nat -> nat), fetch: KeyFetch)
    requires IsDrawSource(draws) && round + 1 < retryRounds && RoundWithin(ordered, total, draws, fetch)
    requires c == ChannelLoop(ordered, 0, p, false, draws, fetch) && c.won.None? && c.shouldRetry
    requires |RoundLoop(ordered, retryRounds, round + 1, c.progress, draws, fetch).progress.log|
               <= |c.progress.log| + Times(retryRounds - (round + 1), total)
    ensures |RoundLoop(ordered, retryRounds, round, p, draws, fetch).progress.log|
              <= |p.log| + Times(retryRounds - round, total)
  {
    RoundProgressContinues(ordered, retryRounds, round, p, c, draws, fetch);
    BudgetOneMore(|p.log|, |c.progress.log|, |RoundLoop(ordered, retryRounds, round, p, draws, fetch).progress.log|,
                  retryRounds - (round + 1), total);
  }

  /** One round of at most `t` calls, then at most `a - 1` rounds more, stays within `a` rounds. */
  lemma WithinBudget(before: nat, mid: nat, after: nat, a: nat, t: nat)
    requires a >= 1 && mid <= before + t && after <= mid + Times(a - 1, t)
    ensures after <= before + Times(a, t)
  {
  }

  /** One round of at most `t` calls, then `left` rounds more, stays within `left + 1` rounds. */
  lemma BudgetOneMore(before: nat, mid: nat, after: nat, left: nat, t: nat)
    requires mid <= before + t && after <= mid + Times(left, t)
    ensures after <= before + Times(left + 1, t)
  {
  }

  /** A round that wins, has nothing retryable or is the last leaves the progress of its channel loop. */
  lemma RoundProgressStops(ordered: seq<P.Channel>, retryRounds: nat, round: nat, p: Progress, c: ChannelsDone,
                           draws: nat -> (nat -> nat), fetch: KeyFetch)
    requires IsDrawSource(draws) && round < retryRounds
    requires c == ChannelLoop(ordered, 0, p, false, draws, fetch)
    requires c.won.Some? || !c.shouldRetry || round + 1 >= retryRounds
    ensures |RoundLoop(ordered, retryRounds, round, p, draws, fetch).progress.log| == |c.progress.log|
  {
  }

  /** Otherwise the next round starts from the progress of this round's channel loop. */
  lemma RoundProgressContinues(ordered: seq<P.Channel>, retryRounds: nat, round: nat, p: Progress, c: ChannelsDone,
                               draws: nat -> (nat -> nat), fetch: KeyFetch)
    requires IsDrawSource(draws) && round + 1 < retryRounds
    requires c == ChannelLoop(ordered, 0, p, false, draws, fetch) && c.won.None? && c.shouldRetry
    ensures |RoundLoop(ordered, retryRounds, round, p, draws, fetch).progress.log|
      == |RoundLoop(ordered, retryRounds, round + 1, c.progress, draws, fetch).progress.log|
  {
  }

  /** A whole request makes at most `retryRounds` times as many upstream calls as the candidate channels have keys. */
  lemma CallBudget(ordered: seq<P.Channel>, retryRounds: nat, draws: nat -> (nat -> nat), fetch: KeyFetch)
    requires IsDrawSource(draws)
    ensures |RoundLoop(ordered, retryRounds, 0, Progress(None, [], 0), draws, fetch).progress.log|
      <= retryRounds * KeyCount(ordered, 0)
  {
    forall q: Progress
      ensures |ChannelLoop(ordered, 0, q, false, draws, fetch).progress.log| <= |q.log| + KeyCount(ordered, 0)
    {
      ChannelCalls(ordered, 0, q, false, draws, fetch);
    }
    RoundCalls(ordered, retryRounds, 0, Progress(None, [], 0), KeyCount(ordered, 0), draws, fetch);
    TimesIsProduct(retryRounds, KeyCount(ordered, 0));
  }

  /** `a` rounds of at most `t` calls each. */
  function Times(a: nat, t: nat): nat
  {
    if a == 0 then 0 else t + Times(a - 1, t)
  }

  /** `a` rounds of `t` is the product `a * t`. */
  lemma {:induction false} TimesIsProduct(a: nat, t: nat)
    ensures Times(a, t) == a * t
  {
    if a > 0 {
      TimesIsProduct(a - 1, t);
      assert a * t == t + (a - 1) * t;
    }
  }

  /**
   * The loop runs between one and the remaining rounds, sleeps once between
   * consecutive rounds, starts another round only after a retryable one,
   * and stops early without a 2xx only after a round with nothing retryable.
   */
  lemma {:induction false} RoundRetries(ordered: seq<P.Channel>, retryRounds: nat, round: nat, p: Progress,
                                        draws: nat -> (nat -> nat), fetch: KeyFetch)
    requires IsDrawSource(draws) && round < retryRounds
    ensures var r := RoundLoop(ordered, retryRounds, round, p, draws, fetch);
      && 1 <= |r.retries| <= retryRounds - round
      && r.sleeps == |r.retries| - 1
      && (forall m :: 0 <= m < |r.retries| - 1 ==> r.retries[m])
      && (r.won.None? && |r.retries| < retryRounds - round ==> !r.retries[|r.retries| - 1])
    decreases retryRounds - round
  {
    var c := ChannelLoop(ordered, 0, p, false, draws, fetch);
    var r := RoundLoop(ordered, retryRounds, round, p, draws, fetch);
    RoundStep(ordered, retryRounds, round, p, draws, fetch);
    if !(c.won.Some? || !c.shouldRetry || round + 1 >= retryRounds) {
      RoundRetries(ordered, retryRounds, round + 1, c.progress, draws, fetch);
      var rest := RoundLoop(ordered, retryRounds, round + 1, c.progress, draws, fetch);
      RetriesCons(rest.retries, rest.won.None?, retryRounds - round - 1);
    }
  }

  /** A retryable round in front of a run of rounds that keeps the retry shape keeps it too. */
  lemma RetriesCons(rest: seq<bool>, unwon: bool, left: nat)
    requires 1 <= |rest| <= left
    requires forall m :: 0 <= m < |rest| - 1 ==> rest[m]
    requires unwon && |rest| < left ==> !rest[|rest| - 1]
    ensures var r := [true] + rest;
      && 1 <= |r| <= left + 1
      && (forall m :: 0 <= m < |r| - 1 ==> r[m])
      && (unwon && |r| < left + 1 ==> !r[|r| - 1])
  {
    var r := [true] + rest;
    forall m | 1 <= m < |r| - 1
      ensures r[m]
    {
      assert r[m] == rest[m - 1];
    }
    assert r[|r| - 1] == rest[|rest| - 1];
  }
}

/**
 * The other half of the early stop in the playground's channel loop: a
 * non-retryable status ends only the keys of its own channel, so a round that
 * finds no 2xx has gone through every channel after it, in order.
 */
module PlaygroundSweep {
  import opened Wrappers
  import opened Keys
  import opened PlaygroundRoute
  import P = Proxy

  /**
   * The calls of a round from position `i` of the channel order: for each
   * channel in turn, a block of calls to that channel, at most one per key,
   * and empty exactly when the channel has no keys.
   */
  predicate Swept(calls: seq<Call>, ordered: seq<P.Channel>, i: nat)
    requires i <= |ordered|
    decreases |ordered| - i
  {
    if i == |ordered| then calls == []
    else
      var n := |ParseApiKeys(ordered[i].apiKey)|;
      exists k: nat ::
        && k <= n && k <= |calls| && (k == 0 <==> n == 0)
        && (forall m :: 0 <= m < k ==> calls[m].channel == ordered[i])
        && Swept(calls[k..], ordered, i + 1)
  }

  /** The number of channels from position `i` that have at least one key. */
  function KeyedCount(ordered: seq<P.Channel>, i: nat): nat
    requires i <= |ordered|
    decreases |ordered| - i
  {
    if i == |ordered| then 0
    else (if ParseApiKeys(ordered[i].apiKey) == [] then 0 else 1) + KeyedCount(ordered, i + 1)
  }

  /** A sweep holds at least one call per channel with keys. */
  lemma {:induction false} SweptCallsKeyed(calls: seq<Call>, ordered: seq<P.Channel>, i: nat)
    requires i <= |ordered| && Swept(calls, ordered, i)
    ensures |calls| >= KeyedCount(ordered, i)
    decreases |ordered| - i
  {
    if i < |ordered| {
      var n := |ParseApiKeys(ordered[i].apiKey)|;
      var k: nat :| && k <= n && k <= |calls| && (k == 0 <==> n == 0)
                    && (forall m :: 0 <= m < k ==> calls[m].channel == ordered[i])
                    && Swept(calls[k..], ordered, i + 1);
      SweptCallsKeyed(calls[k..], ordered, i + 1);
    }
  }

  /** A block of calls to the channel at `i`, followed by a sweep from `i + 1`, is a sweep from `i`. */
  lemma SweptCons(block: seq<Call>, rest: seq<Call>, ordered: seq<P.Channel>, i: nat)
    requires i < |ordered| && Swept(rest, ordered, i + 1)
    requires |block| <= |ParseApiKeys(ordered[i].apiKey)|
    requires block == [] <==> ParseApiKeys(ordered[i].apiKey) == []
    requires forall m :: 0 <= m < |block| ==> block[m].channel == ordered[i]
    ensures Swept(block + rest, ordered, i)
  {
    var calls := block + rest;
    var w := |block|;
    assert calls[w..] == rest;
    assert forall m :: 0 <= m < w ==> calls[m].channel == ordered[i];
  }

  /**
   * A non-retryable status stops only the keys of its own channel: a round
   * that ends without a 2xx went on through every later channel, in order,
   * calling each channel with keys at least once.
   */
  lemma {:induction false} UnwonRoundSweepsAll(ordered: seq<P.Channel>, i: nat, p: Progress, shouldRetry: bool,
                                               draws: nat -> (nat -> nat), fetch: KeyFetch)
    requires i <= |ordered| && IsDrawSource(draws)
    ensures var c := ChannelLoop(ordered, i, p, shouldRetry, draws, fetch);
      c.won.None? ==>
        && |p.log| <= |c.progress.log| && c.progress.log[..|p.log|] == p.log
        && Swept(c.progress.log[|p.log|..], ordered, i)
    decreases |ordered| - i
  {
    var c := ChannelLoop(ordered, i, p, shouldRetry, draws, fetch);
    if i == |ordered| {
      assert c.progress.log[|p.log|..] == [];
    } else {
      var ch := ordered[i];
      var k := KeyLoop(ch, ChannelKeys(ch, p.shuffles, draws), 0, |p.log|, p.lastResponse, false, fetch);
      var next := Progress(k.lastResponse, p.log + k.calls, p.shuffles + 1);
      ChannelStep(ordered, i, p, shouldRetry, draws, fetch);
      if k.won.None? {
        var c' := ChannelLoop(ordered, i + 1, next, shouldRetry || k.retryable, draws, fetch);
        UnwonRoundSweepsAll(ordered, i + 1, next, shouldRetry || k.retryable, draws, fetch);
        if c'.won.None? {
          ChannelBlock(ch, p.shuffles, draws, |p.log|, p.lastResponse, fetch);
          SweepExtends(c'.progress.log, p.log, k.calls, ordered, i);
        }
      }
    }
  }

  /** A round that ends without a 2xx called every channel with keys at least once. */
  lemma UnwonRoundCallsKeyed(ordered: seq<P.Channel>, i: nat, p: Progress, shouldRetry: bool,
                             draws: nat -> (nat -> nat), fetch: KeyFetch)
    requires i <= |ordered| && IsDrawSource(draws)
    ensures var c := ChannelLoop(ordered, i, p, shouldRetry, draws, fetch);
      c.won.None? ==> |c.progress.log| >= |p.log| + KeyedCount(ordered, i)
  {
    var c := ChannelLoop(ordered, i, p, shouldRetry, draws, fetch);
    UnwonRoundSweepsAll(ordered, i, p, shouldRetry, draws, fetch);
    if c.won.None? {
      SweptCallsKeyed(c.progress.log[|p.log|..], ordered, i);
    }
  }

  /** A log that holds `before`, then a block for the channel at `i`, then a sweep from `i + 1`, sweeps from `i` after `before`. */
  lemma SweepExtends(log: seq<Call>, before: seq<Call>, block: seq<Call>, ordered: seq<P.Channel>, i: nat)
    requires i < |ordered|
    requires |before + block| <= |log| && log[..|before + block|] == before + block
    requires Swept(log[|before + block|..], ordered, i + 1)
    requires |block| <= |ParseApiKeys(ordered[i].apiKey)|
    requires block == [] <==> ParseApiKeys(ordered[i].apiKey) == []
    requires forall m :: 0 <= m < |block| ==> block[m].channel == ordered[i]
    ensures |before| <= |log| && log[..|before|] == before
    ensures Swept(log[|before|..], ordered, i)
  {
    var rest := log[|before + block|..];
    LogAfterPrefix(log, before, block);
    SweptCons(block, rest, ordered, i);
  }

  /** The calls one channel's key loop makes: a block to that channel, at most one per key, empty iff it has no keys. */
  lemma ChannelBlock(ch: P.Channel, shuffles: nat, draws: nat -> (nat -> nat), base: nat,
                     lastResponse: Option<P.Reply>, fetch: KeyFetch)
    requires IsDrawSource(draws)
    ensures var k := KeyLoop(ch, ChannelKeys(ch, shuffles, draws), 0, base, lastResponse, false, fetch);
      && |k.calls| <= |ParseApiKeys(ch.apiKey)|
      && (k.calls == [] <==> ParseApiKeys(ch.apiKey) == [])
      && (forall m :: 0 <= m < |k.calls| ==> k.calls[m].channel == ch)
  {
    var keys := ChannelKeys(ch, shuffles, draws);
    KeyCalls(ch, keys, 0, base, lastResponse, false, fetch);
    assert |keys| == |ParseApiKeys(ch.apiKey)|;
  }

  /** A log that starts with `a + b` starts with `a`, and continues after `a` with `b`. */
  lemma LogAfterPrefix(log: seq<Call>, a: seq<Call>, b: seq<Call>)
    requires |a + b| <= |log| && log[..|a + b|] == a + b
    ensures |a| <= |log| && log[..|a|] == a && log[|a|..] == b + log[|a + b|..]
  {
    assert log[..|a|] == (a + b)[..|a|];
    assert log[|a|..] == log[|a|..|a + b|] + log[|a + b|..];
    assert log[|a|..|a + b|] == (a + b)[|a|..];
  }
}

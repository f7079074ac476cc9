/**
 * The OpenAI-compatible proxy route (apps/worker/src/routes/proxy.ts): the
 * allow-list and model filters that pick the candidate channels, and the
 * rounds-by-channels retry loop that forwards the request until a channel
 * answers 2xx, followed by the one usage record written per request.
 *
 * The upstream is the oracle `fetch`: the outcome of the n-th upstream
 * call (counting from 0) made to a channel. The weighted channel order is
 * the parameter `weightedOrder`; the sleep between rounds is counted, not
 * timed. `Sweep` and `Rounds` are the reference definitions of one round
 * and of the whole loop, with the attempts they make recorded as `Try`s;
 * the method `Dispatch` runs the loop and is proved to end in their state.
 */
module Proxy {
  import opened Wrappers

  /** The fields of a channel row the route reads; `models` are the ids of the channel's advertised models. */
  datatype Channel = Channel(id: string, baseUrl: string, apiKey: string, models: seq<string>)

  /** `channelSupportsModel`: any channel when no model (or an empty one) is asked for. */
  predicate ChannelSupportsModel(channel: Channel, model: Option<string>)
  {
    model.None? || model.value == "" || model.value in channel.models
  }

  /** The channels whose id is listed, in their original order. */
  function KeepIds(channels: seq<Channel>, ids: seq<string>): (r: seq<Channel>)
    ensures |r| <= |channels|
    ensures forall c :: c in r <==> c in channels && c.id in ids
  {
    if channels == [] then []
    else (if channels[0].id in ids then [channels[0]] else []) + KeepIds(channels[1..], ids)
  }

  /** Filtering distributes over concatenation, so it keeps the channels' relative order. */
  lemma {:induction false} KeepIdsAppend(a: seq<Channel>, b: seq<Channel>, ids: seq<string>)
    ensures KeepIds(a + b, ids) == KeepIds(a, ids) + KeepIds(b, ids)
    decreases |a|
  {
    if a != [] {
      assert (a + b)[1..] == a[1..] + b;
      assert (a + b)[0] == a[0];
      KeepIdsAppend(a[1..], b, ids);
      var head := if a[0].id in ids then [a[0]] else [];
      assert KeepIds(a + b, ids) == head + KeepIds(a[1..] + b, ids);
      assert KeepIds(a, ids) == head + KeepIds(a[1..], ids);
      assert head + (KeepIds(a[1..], ids) + KeepIds(b, ids)) == (head + KeepIds(a[1..], ids)) + KeepIds(b, ids);
    } else {
      assert a + b == b;
    }
  }

  /**
   * `filterAllowedChannels`: the parsed `allowed_channels` of the token;
   * absent (or unparsable) and empty lists allow every channel.
   */
  function FilterAllowed(channels: seq<Channel>, allowed: Option<seq<string>>): (r: seq<Channel>)
    ensures allowed.None? || allowed.value == [] ==> r == channels
    ensures allowed.Some? && allowed.value != [] ==>
      r == KeepIds(channels, allowed.value) && forall c :: c in r <==> c in channels && c.id in allowed.value
  {
    if allowed.None? || allowed.value == [] then channels else KeepIds(channels, allowed.value)
  }

  function ModelChannels(channels: seq<Channel>, model: Option<string>): (r: seq<Channel>)
    ensures forall c :: c in r <==> c in channels && ChannelSupportsModel(c, model)
  {
    if channels == [] then []
    else (if ChannelSupportsModel(channels[0], model) then [channels[0]] else []) + ModelChannels(channels[1..], model)
  }

  /** The channels that support the model, or every allowed channel when none does. */
  function Candidates(allowed: seq<Channel>, model: Option<string>): seq<Channel>
  {
    var m := ModelChannels(allowed, model);
    if |m| > 0 then m else allowed
  }

  /**
   * The candidates are allowed channels; they all support the model
   * unless no allowed channel does, in which case they are all the allowed
   * channels; and there are none only when nothing is allowed.
   */
  lemma CandidatesChoice(allowed: seq<Channel>, model: Option<string>)
    ensures var r := Candidates(allowed, model);
      && (r == [] <==> allowed == [])
      && (forall c :: c in r ==> c in allowed)
      && ((exists c :: c in allowed && ChannelSupportsModel(c, model)) ==>
            forall c :: c in r ==> ChannelSupportsModel(c, model))
      && ((forall c :: c in allowed ==> !ChannelSupportsModel(c, model)) ==> r == allowed)
  {
    var m := ModelChannels(allowed, model);
    if |m| > 0 {
      assert m[0] in m;
    }
  }

  predicate IsOk(status: int) { 200 <= status <= 299 }

  /** `isRetryableStatus`. */
  predicate IsRetryableStatus(status: int) { status == 408 || status == 429 || status >= 500 }

  /** The `usage` object of an upstream JSON body, as far as the usage record reads it. */
  datatype UsagePayload = UsagePayload(totalTokens: Option<int>, promptTokens: Option<int>, completionTokens: Option<int>)

  /** An upstream response: its status and, when its body is JSON, the body's `usage`. */
  datatype Reply = Reply(status: int, usage: Option<UsagePayload>)

  datatype Attempt = Answered(reply: Reply) | TransportError

  predicate Succeeded(a: Attempt) { a.Answered? && IsOk(a.reply.status) }
  predicate Retryable(a: Attempt) { a.TransportError? || IsRetryableStatus(a.reply.status) }

  /** The outcome of the n-th upstream call, made to the given channel. */
  type Fetch = (nat, Channel) -> Attempt

  /** The loop's variables, with the number of upstream calls made so far. */
  datatype Loop = Loop(lastResponse: Option<Reply>, lastChannel: Option<Channel>, selected: Option<Channel>,
                       usagePayload: Option<UsagePayload>, attempts: nat)

  const Start := Loop(None, None, None, None, 0)

  /** One upstream call: the channel and what came back. */
  datatype Try = Try(channel: Channel, attempt: Attempt)

  /** What one round leaves: the loop variables, `shouldRetry`, and the calls it made. */
  datatype Swept = Swept(state: Loop, shouldRetry: bool, tries: seq<Try>)

  /** The `for (const channel of ordered)` loop from position `i`. */
  function Sweep(ordered: seq<Channel>, i: nat, st: Loop, shouldRetry: bool, isStream: bool, fetch: Fetch): Swept
    requires i <= |ordered|
    decreases |ordered| - i
  {
    if i == |ordered| then Swept(st, shouldRetry, [])
    else
      var ch := ordered[i];
      var a := fetch(st.attempts, ch);
      if Succeeded(a) then
        Swept(Loop(Some(a.reply), Some(ch), Some(ch), if isStream then st.usagePayload else a.reply.usage, st.attempts + 1),
              shouldRetry, [Try(ch, a)])
      else
        var rest := Sweep(ordered, i + 1, After(st, ch, a), RetryAfter(shouldRetry, a), isStream, fetch);
        Swept(rest.state, rest.shouldRetry, [Try(ch, a)] + rest.tries)
  }

  /** The loop variables after a call that did not succeed: a transport error clears the last response. */
  function After(st: Loop, ch: Channel, a: Attempt): Loop
  {
    if a.TransportError? then Loop(None, Some(ch), st.selected, st.usagePayload, st.attempts + 1)
    else Loop(Some(a.reply), Some(ch), st.selected, st.usagePayload, st.attempts + 1)
  }

  /** `shouldRetry` after a call that did not succeed. */
  function RetryAfter(shouldRetry: bool, a: Attempt): bool
  {
    if a.TransportError? then true else shouldRetry || IsRetryableStatus(a.reply.status)
  }

  /** What the whole loop leaves: the loop variables, the number of sleeps, and the calls of each round. */
  datatype Dispatched = Dispatched(state: Loop, sleeps: nat, rounds: seq<seq<Try>>)

  /** The `while (round < retryRounds && !selectedChannel)` loop from round `round`. */
  function Rounds(ordered: seq<Channel>, retryRounds: nat, round: nat, st: Loop, isStream: bool, fetch: Fetch): Dispatched
    decreases retryRounds - round
  {
    if round >= retryRounds || st.selected.Some? then Dispatched(st, 0, [])
    else
      var s := Sweep(ordered, 0, st, false, isStream, fetch);
      if s.state.selected.Some? || !s.shouldRetry || round + 1 >= retryRounds then Dispatched(s.state, 0, [s.tries])
      else
        var rest := Rounds(ordered, retryRounds, round + 1, s.state, isStream, fetch);
        Dispatched(rest.state, rest.sleeps + 1, [s.tries] + rest.rounds)
  }

  /** The retry loop of the handler; `attempts` counts the upstream calls. */
  method Dispatch(ordered: seq<Channel>, retryRounds: nat, isStream: bool, fetch: Fetch)
      returns (lastResponse: Option<Reply>, lastChannel: Option<Channel>, selected: Option<Channel>,
               usagePayload: Option<UsagePayload>, attempts: nat, sleeps: nat)
    ensures var d := Rounds(ordered, retryRounds, 0, Start, isStream, fetch);
      Loop(lastResponse, lastChannel, selected, usagePayload, attempts) == d.state && sleeps == d.sleeps
  {
    lastResponse, lastChannel, selected, usagePayload := None, None, None, None;
    attempts, sleeps := 0, 0;
    ghost var goal := Rounds(ordered, retryRounds, 0, Start, isStream, fetch);
    var round := 0;
    while round < retryRounds && selected.None?
      invariant var rest := Rounds(ordered, retryRounds, round, Loop(lastResponse, lastChannel, selected, usagePayload, attempts), isStream, fetch);
        rest.state == goal.state && sleeps + rest.sleeps == goal.sleeps
      decreases retryRounds - round
    {
      var shouldRetry := false;
      ghost var sweep := Sweep(ordered, 0, Loop(lastResponse, lastChannel, selected, usagePayload, attempts), false, isStream, fetch);
      var i := 0;
      while i < |ordered|
        invariant i <= |ordered| && selected.None?
        invariant var s := Sweep(ordered, i, Loop(lastResponse, lastChannel, selected, usagePayload, attempts), shouldRetry, isStream, fetch);
          s.state == sweep.state && s.shouldRetry == sweep.shouldRetry
        decreases |ordered| - i
      {
        var channel := ordered[i];
        lastChannel := Some(channel);
        var response := fetch(attempts, channel);
        attempts := attempts + 1;
        if response.Answered? {
          lastResponse := Some(response.reply);
          if IsOk(response.reply.status) {
            selected := Some(channel);
            if !isStream {
              usagePayload := response.reply.usage;
            }
            break;
          }
          if IsRetryableStatus(response.reply.status) {
            shouldRetry := true;
          }
        } else {
          lastResponse := None;
          shouldRetry := true;
        }
        i := i + 1;
      }
      if selected.Some? || !shouldRetry {
        break;
      }
      round := round + 1;
      if round < retryRounds {
        sleeps := sleeps + 1;
      }
    }
  }

  function ReplyOf(a: Attempt): Option<Reply>
  {
    if a.Answered? then Some(a.reply) else None
  }

  /**
   * A round calls the channels in order from position `i`, one call each,
   * each call answered by the oracle.
   */
  lemma {:induction false} SweepCalls(ordered: seq<Channel>, i: nat, st: Loop, shouldRetry: bool, isStream: bool, fetch: Fetch)
    requires i <= |ordered|
    ensures var s := Sweep(ordered, i, st, shouldRetry, isStream, fetch);
      && |s.tries| <= |ordered| - i
      && s.state.attempts == st.attempts + |s.tries|
      && (forall k :: 0 <= k < |s.tries| ==>
            s.tries[k].channel == ordered[i + k] && s.tries[k].attempt == fetch(st.attempts + k, ordered[i + k]))
    decreases |ordered| - i
  {
    if i < |ordered| {
      var ch := ordered[i];
      var a := fetch(st.attempts, ch);
      var s := Sweep(ordered, i, st, shouldRetry, isStream, fetch);
      if !Succeeded(a) {
        var next := After(st, ch, a);
        var sr := RetryAfter(shouldRetry, a);
        var rest := Sweep(ordered, i + 1, next, sr, isStream, fetch);
        assert s.tries == [Try(ch, a)] + rest.tries;
        SweepCalls(ordered, i + 1, next, sr, isStream, fetch);
        assert next.attempts == st.attempts + 1;
        forall k | 1 <= k < |s.tries|
          ensures s.tries[k].channel == ordered[i + k] && s.tries[k].attempt == fetch(st.attempts + k, ordered[i + k])
        {
          assert s.tries[k] == rest.tries[k - 1];
          assert i + 1 + (k - 1) == i + k;
        }
      } else {
        assert s.tries == [Try(ch, a)] && s.state.attempts == st.attempts + 1;
      }
    }
  }

  /** A round stops early only on a 2xx, and no call but its last one succeeded. */
  lemma {:induction false} SweepStopsAtSuccess(ordered: seq<Channel>, i: nat, st: Loop, shouldRetry: bool, isStream: bool, fetch: Fetch)
    requires i <= |ordered|
    ensures var s := Sweep(ordered, i, st, shouldRetry, isStream, fetch);
      && (forall k :: 0 <= k < |s.tries| - 1 ==> !Succeeded(s.tries[k].attempt))
      && (|s.tries| < |ordered| - i ==> s.tries != [] && Succeeded(s.tries[|s.tries| - 1].attempt))
    decreases |ordered| - i
  {
    if i < |ordered| {
      var ch := ordered[i];
      var a := fetch(st.attempts, ch);
      var s := Sweep(ordered, i, st, shouldRetry, isStream, fetch);
      if !Succeeded(a) {
        var next := After(st, ch, a);
        var sr := RetryAfter(shouldRetry, a);
        var rest := Sweep(ordered, i + 1, next, sr, isStream, fetch);
        assert s.tries == [Try(ch, a)] + rest.tries;
        SweepStopsAtSuccess(ordered, i + 1, next, sr, isStream, fetch);
        forall k | 1 <= k < |s.tries| - 1
          ensures !Succeeded(s.tries[k].attempt)
        {
          assert s.tries[k] == rest.tries[k - 1];
        }
        assert !Succeeded(s.tries[0].attempt);
      }
    }
  }

  /** The state after a round reflects its last call; a round with no calls changes nothing. */
  lemma {:induction false} SweepLast(ordered: seq<Channel>, i: nat, st: Loop, shouldRetry: bool, isStream: bool, fetch: Fetch)
    requires i <= |ordered|
    ensures var s := Sweep(ordered, i, st, shouldRetry, isStream, fetch); var n := |s.tries|;
      && (n == 0 ==> s.state == st && s.shouldRetry == shouldRetry)
      && (n > 0 ==> s.state.lastChannel == Some(s.tries[n - 1].channel)
                    && s.state.lastResponse == ReplyOf(s.tries[n - 1].attempt))
    decreases |ordered| - i
  {
    if i < |ordered| {
      var ch := ordered[i];
      var a := fetch(st.attempts, ch);
      var s := Sweep(ordered, i, st, shouldRetry, isStream, fetch);
      if !Succeeded(a) {
        var next := After(st, ch, a);
        var sr := RetryAfter(shouldRetry, a);
        var rest := Sweep(ordered, i + 1, next, sr, isStream, fetch);
        assert s.tries == [Try(ch, a)] + rest.tries;
        SweepLast(ordered, i + 1, next, sr, isStream, fetch);
        if rest.tries != [] {
          assert s.tries[|s.tries| - 1] == rest.tries[|rest.tries| - 1];
        }
      }
    }
  }

  /**
   * A round that starts unselected ends selected exactly when its last call
   * succeeded; the selected channel is the one last called, and its usage is
   * taken from the reply unless streaming.
   */
  lemma {:induction false} SweepSelected(ordered: seq<Channel>, i: nat, st: Loop, shouldRetry: bool, isStream: bool, fetch: Fetch)
    requires i <= |ordered| && st.selected.None?
    ensures var s := Sweep(ordered, i, st, shouldRetry, isStream, fetch); var n := |s.tries|;
      && (s.state.selected.Some? <==> n > 0 && Succeeded(s.tries[n - 1].attempt))
      && (s.state.selected.Some? ==>
            s.state.selected == s.state.lastChannel
            && s.state.usagePayload == (if isStream then st.usagePayload else s.tries[n - 1].attempt.reply.usage))
      && (s.state.selected.None? ==> s.state.usagePayload == st.usagePayload)
    decreases |ordered| - i
  {
    if i < |ordered| {
      var ch := ordered[i];
      var a := fetch(st.attempts, ch);
      var s := Sweep(ordered, i, st, shouldRetry, isStream, fetch);
      if !Succeeded(a) {
        var next := After(st, ch, a);
        var sr := RetryAfter(shouldRetry, a);
        var rest := Sweep(ordered, i + 1, next, sr, isStream, fetch);
        assert s.tries == [Try(ch, a)] + rest.tries;
        SweepSelected(ordered, i + 1, next, sr, isStream, fetch);
        SweepLast(ordered, i + 1, next, sr, isStream, fetch);
        if rest.tries != [] {
          assert s.tries[|s.tries| - 1] == rest.tries[|rest.tries| - 1];
        }
      }
    }
  }

  /** Some call among `tries` failed in a way worth another round. */
  predicate SomeRetryable(tries: seq<Try>)
  {
    tries != [] && (Retryable(tries[0].attempt) || SomeRetryable(tries[1..]))
  }

  lemma {:induction false} SomeRetryableExists(tries: seq<Try>)
    ensures SomeRetryable(tries) <==> exists k :: 0 <= k < |tries| && Retryable(tries[k].attempt)
  {
    if tries != [] {
      SomeRetryableExists(tries[1..]);
      if exists k :: 0 <= k < |tries| && Retryable(tries[k].attempt) {
        var k :| 0 <= k < |tries| && Retryable(tries[k].attempt);
        if k > 0 {
          assert tries[1..][k - 1] == tries[k];
        }
      }
      if SomeRetryable(tries[1..]) && !Retryable(tries[0].attempt) {
        var k :| 0 <= k < |tries[1..]| && Retryable(tries[1..][k].attempt);
        assert tries[k + 1] == tries[1..][k];
      }
    }
  }

  /** A round ends asking for another exactly when it started so or one of its calls was retryable. */
  lemma {:induction false} SweepRetry(ordered: seq<Channel>, i: nat, st: Loop, shouldRetry: bool, isStream: bool, fetch: Fetch)
    requires i <= |ordered|
    ensures var s := Sweep(ordered, i, st, shouldRetry, isStream, fetch);
      s.shouldRetry <==> shouldRetry || exists k :: 0 <= k < |s.tries| && Retryable(s.tries[k].attempt)
  {
    SweepRetryRec(ordered, i, st, shouldRetry, isStream, fetch);
    SomeRetryableExists(Sweep(ordered, i, st, shouldRetry, isStream, fetch).tries);
  }

  lemma {:induction false} SweepRetryRec(ordered: seq<Channel>, i: nat, st: Loop, shouldRetry: bool, isStream: bool, fetch: Fetch)
    requires i <= |ordered|
    ensures var s := Sweep(ordered, i, st, shouldRetry, isStream, fetch);
      s.shouldRetry == (shouldRetry || SomeRetryable(s.tries))
    decreases |ordered| - i
  {
    if i < |ordered| {
      var ch := ordered[i];
      var a := fetch(st.attempts, ch);
      var s := Sweep(ordered, i, st, shouldRetry, isStream, fetch);
      if !Succeeded(a) {
        var next := After(st, ch, a);
        var sr := RetryAfter(shouldRetry, a);
        var rest := Sweep(ordered, i + 1, next, sr, isStream, fetch);
        assert s.tries == [Try(ch, a)] + rest.tries;
        assert s.tries[1..] == rest.tries;
        SweepRetryRec(ordered, i + 1, next, sr, isStream, fetch);
      } else {
        assert s.tries == [Try(ch, a)];
        assert s.tries[1..] == [];
      }
    }
  }

  /** The number of upstream calls made over the given rounds. */
  function TotalTries(rounds: seq<seq<Try>>): nat
  {
    if rounds == [] then 0 else |rounds[0]| + TotalTries(rounds[1..])
  }

  /** No call among `tries` got a 2xx. */
  predicate NoneSucceeded(tries: seq<Try>)
  {
    forall k :: 0 <= k < |tries| ==> !Succeeded(tries[k].attempt)
  }

  /**
   * The loop runs at least one and at most the remaining rounds, sleeps
   * once between consecutive rounds, makes at most one call per channel in
   * a round, and counts every call.
   */
  lemma {:induction false} RoundsCount(ordered: seq<Channel>, retryRounds: nat, round: nat, st: Loop, isStream: bool, fetch: Fetch)
    requires round < retryRounds && st.selected.None?
    ensures var d := Rounds(ordered, retryRounds, round, st, isStream, fetch);
      && 1 <= |d.rounds| <= retryRounds - round
      && d.sleeps == |d.rounds| - 1
      && d.state.attempts == st.attempts + TotalTries(d.rounds)
      && (forall j :: 0 <= j < |d.rounds| ==> |d.rounds[j]| <= |ordered|)
    decreases retryRounds - round
  {
    var s := Sweep(ordered, 0, st, false, isStream, fetch);
    var d := Rounds(ordered, retryRounds, round, st, isStream, fetch);
    SweepCalls(ordered, 0, st, false, isStream, fetch);
    if s.state.selected.Some? || !s.shouldRetry || round + 1 >= retryRounds {
      assert d.rounds == [s.tries];
      assert TotalTries(d.rounds) == |s.tries| + TotalTries([]);
    } else {
      RoundsCount(ordered, retryRounds, round + 1, s.state, isStream, fetch);
      var rest := Rounds(ordered, retryRounds, round + 1, s.state, isStream, fetch);
      assert d.rounds == [s.tries] + rest.rounds;
      assert d.rounds[1..] == rest.rounds;
      forall j | 1 <= j < |d.rounds|
        ensures |d.rounds[j]| <= |ordered|
      {
        assert d.rounds[j] == rest.rounds[j - 1];
      }
    }
  }

  lemma {:induction false} TotalTriesBound(rounds: seq<seq<Try>>, width: nat)
    requires forall j :: 0 <= j < |rounds| ==> |rounds[j]| <= width
    ensures TotalTries(rounds) <= |rounds| * width
  {
    if rounds != [] {
      assert forall j :: 0 <= j < |rounds[1..]| ==> rounds[1..][j] == rounds[j + 1];
      TotalTriesBound(rounds[1..], width);
    }
  }

  /** The loop makes at most `retryRounds` times as many calls as there are channels. */
  lemma AttemptsBound(ordered: seq<Channel>, retryRounds: nat, isStream: bool, fetch: Fetch)
    ensures Rounds(ordered, retryRounds, 0, Start, isStream, fetch).state.attempts <= retryRounds * |ordered|
  {
    var d := Rounds(ordered, retryRounds, 0, Start, isStream, fetch);
    if retryRounds > 0 {
      RoundsCount(ordered, retryRounds, 0, Start, isStream, fetch);
      TotalTriesBound(d.rounds, |ordered|);
      MulMonotone(|d.rounds|, retryRounds, |ordered|);
    }
  }

  lemma {:induction false} MulMonotone(a: nat, b: nat, c: nat)
    requires a <= b
    ensures a * c <= b * c
  {
    if c > 0 {
      MulMonotone(a, b, c - 1);
      assert a * c == a * (c - 1) + a;
      assert b * c == b * (c - 1) + b;
    }
  }

  /**
   * The loop ends with a channel selected exactly when the last call of its
   * last round got a 2xx, and the selected channel is the one called last.
   */
  lemma {:induction false} RoundsSelected(ordered: seq<Channel>, retryRounds: nat, round: nat, st: Loop, isStream: bool, fetch: Fetch)
    requires round < retryRounds && st.selected.None?
    ensures var d := Rounds(ordered, retryRounds, round, st, isStream, fetch);
      d.rounds != [] &&
      var last := d.rounds[|d.rounds| - 1];
      && (d.state.selected.Some? <==> last != [] && Succeeded(last[|last| - 1].attempt))
      && (d.state.selected.Some? ==> d.state.selected == d.state.lastChannel)
    decreases retryRounds - round
  {
    var s := Sweep(ordered, 0, st, false, isStream, fetch);
    var d := Rounds(ordered, retryRounds, round, st, isStream, fetch);
    SweepSelected(ordered, 0, st, false, isStream, fetch);
    if s.state.selected.Some? || !s.shouldRetry || round + 1 >= retryRounds {
      assert d.rounds == [s.tries];
    } else {
      RoundsSelected(ordered, retryRounds, round + 1, s.state, isStream, fetch);
      var rest := Rounds(ordered, retryRounds, round + 1, s.state, isStream, fetch);
      assert d.rounds == [s.tries] + rest.rounds;
      assert d.rounds[|d.rounds| - 1] == rest.rounds[|rest.rounds| - 1];
    }
  }

  /**
   * The last response and channel are those of the last call of the last
   * round; a last round without calls (no channels at all) leaves the
   * state as it was.
   */
  lemma {:induction false} RoundsLast(ordered: seq<Channel>, retryRounds: nat, round: nat, st: Loop, isStream: bool, fetch: Fetch)
    requires round < retryRounds && st.selected.None?
    ensures var d := Rounds(ordered, retryRounds, round, st, isStream, fetch);
      d.rounds != [] &&
      var last := d.rounds[|d.rounds| - 1];
      && (last != [] ==> d.state.lastChannel == Some(last[|last| - 1].channel)
                         && d.state.lastResponse == ReplyOf(last[|last| - 1].attempt))
      && (last == [] ==> d.state == st)
      && (ordered != [] ==> last != [])
    decreases retryRounds - round
  {
    var s := Sweep(ordered, 0, st, false, isStream, fetch);
    var d := Rounds(ordered, retryRounds, round, st, isStream, fetch);
    SweepLast(ordered, 0, st, false, isStream, fetch);
    if ordered == [] {
      assert s == Swept(st, false, []);
    } else {
      assert s.tries != [];
    }
    if s.state.selected.Some? || !s.shouldRetry || round + 1 >= retryRounds {
      assert d.rounds == [s.tries];
    } else {
      RoundsLast(ordered, retryRounds, round + 1, s.state, isStream, fetch);
      var rest := Rounds(ordered, retryRounds, round + 1, s.state, isStream, fetch);
      assert d.rounds == [s.tries] + rest.rounds;
      assert d.rounds[|d.rounds| - 1] == rest.rounds[|rest.rounds| - 1];
    }
  }

  /** With no channels every round is empty and leaves the state as it was. */
  lemma {:induction false} EmptyLastRound(ordered: seq<Channel>, retryRounds: nat, round: nat, st: Loop, isStream: bool, fetch: Fetch)
    requires round < retryRounds && st.selected.None?
    ensures var d := Rounds(ordered, retryRounds, round, st, isStream, fetch);
      d.rounds != [] && (d.rounds[|d.rounds| - 1] == [] ==> |ordered| == 0)
    decreases retryRounds - round
  {
    var s := Sweep(ordered, 0, st, false, isStream, fetch);
    var d := Rounds(ordered, retryRounds, round, st, isStream, fetch);
    SweepCalls(ordered, 0, st, false, isStream, fetch);
    SweepStopsAtSuccess(ordered, 0, st, false, isStream, fetch);
    SweepSelected(ordered, 0, st, false, isStream, fetch);
    if s.state.selected.Some? || !s.shouldRetry || round + 1 >= retryRounds {
      assert d.rounds == [s.tries];
    } else {
      EmptyLastRound(ordered, retryRounds, round + 1, s.state, isStream, fetch);
      var rest := Rounds(ordered, retryRounds, round + 1, s.state, isStream, fetch);
      assert d.rounds == [s.tries] + rest.rounds;
      assert d.rounds[|d.rounds| - 1] == rest.rounds[|rest.rounds| - 1];
    }
  }

  /** A round that ends unselected called every channel and got no 2xx. */
  lemma UnselectedRoundIsFull(ordered: seq<Channel>, st: Loop, isStream: bool, fetch: Fetch)
    requires st.selected.None?
    ensures var s := Sweep(ordered, 0, st, false, isStream, fetch);
      s.state.selected.None? ==> |s.tries| == |ordered| && NoneSucceeded(s.tries)
  {
    SweepCalls(ordered, 0, st, false, isStream, fetch);
    SweepStopsAtSuccess(ordered, 0, st, false, isStream, fetch);
    SweepSelected(ordered, 0, st, false, isStream, fetch);
  }

  /**
   * Every round but the last called all channels, none with a 2xx, and at
   * least one call was retryable; a loop that stops unselected before its
   * rounds are used up does so because its last round had no retryable call.
   */
  lemma {:induction false} RoundsEarlier(ordered: seq<Channel>, retryRounds: nat, round: nat, st: Loop, isStream: bool, fetch: Fetch)
    requires round < retryRounds && st.selected.None?
    ensures var d := Rounds(ordered, retryRounds, round, st, isStream, fetch);
      && (forall j :: 0 <= j < |d.rounds| - 1 ==>
            |d.rounds[j]| == |ordered| && NoneSucceeded(d.rounds[j]) && SomeRetryable(d.rounds[j]))
      && (d.rounds != [] && d.state.selected.None? && |d.rounds| < retryRounds - round ==>
            !SomeRetryable(d.rounds[|d.rounds| - 1]))
    decreases retryRounds - round
  {
    var s := Sweep(ordered, 0, st, false, isStream, fetch);
    var d := Rounds(ordered, retryRounds, round, st, isStream, fetch);
    SweepRetryRec(ordered, 0, st, false, isStream, fetch);
    if s.state.selected.Some? || !s.shouldRetry || round + 1 >= retryRounds {
      assert d.rounds == [s.tries];
    } else {
      UnselectedRoundIsFull(ordered, st, isStream, fetch);
      RoundsEarlier(ordered, retryRounds, round + 1, s.state, isStream, fetch);
      var rest := Rounds(ordered, retryRounds, round + 1, s.state, isStream, fetch);
      assert d.rounds == [s.tries] + rest.rounds;
      assert |s.tries| == |ordered| && NoneSucceeded(s.tries);
      forall j | 1 <= j < |d.rounds| - 1
        ensures |d.rounds[j]| == |ordered| && NoneSucceeded(d.rounds[j]) && SomeRetryable(d.rounds[j])
      {
        assert d.rounds[j] == rest.rounds[j - 1];
      }
      if rest.rounds != [] {
        assert d.rounds[|d.rounds| - 1] == rest.rounds[|rest.rounds| - 1];
      }
    }
  }

  /** The calls of a round went to the channels in the weighted order, starting from the first. */
  predicate InOrder(tries: seq<Try>, ordered: seq<Channel>)
  {
    |tries| <= |ordered| && forall k :: 0 <= k < |tries| ==> tries[k].channel == ordered[k]
  }

  /** Every round of a sequence of rounds calls the channels in the weighted order. */
  predicate AllInOrder(rounds: seq<seq<Try>>, ordered: seq<Channel>)
  {
    forall j :: 0 <= j < |rounds| ==> InOrder(rounds[j], ordered)
  }

  lemma AllInOrderCons(tries: seq<Try>, rest: seq<seq<Try>>, ordered: seq<Channel>)
    requires InOrder(tries, ordered) && AllInOrder(rest, ordered)
    ensures AllInOrder([tries] + rest, ordered)
  {
    forall j | 0 <= j < |[tries] + rest|
      ensures InOrder(([tries] + rest)[j], ordered)
    {
      if j > 0 {
        assert ([tries] + rest)[j] == rest[j - 1];
      }
    }
  }

  /** A round's calls go to the channels in order, starting from the first. */
  lemma SweepInOrder(ordered: seq<Channel>, st: Loop, isStream: bool, fetch: Fetch)
    ensures InOrder(Sweep(ordered, 0, st, false, isStream, fetch).tries, ordered)
  {
    var s := Sweep(ordered, 0, st, false, isStream, fetch);
    SweepCalls(ordered, 0, st, false, isStream, fetch);
    forall k | 0 <= k < |s.tries|
      ensures s.tries[k].channel == ordered[k]
    {
      assert s.tries[k].channel == ordered[0 + k];
    }
  }

  /** Every round calls the channels in the weighted order, starting again from the first. */
  lemma {:induction false} RoundsCallInOrder(ordered: seq<Channel>, retryRounds: nat, round: nat, st: Loop, isStream: bool, fetch: Fetch)
    requires round < retryRounds && st.selected.None?
    ensures AllInOrder(Rounds(ordered, retryRounds, round, st, isStream, fetch).rounds, ordered)
    decreases retryRounds - round
  {
    var s := Sweep(ordered, 0, st, false, isStream, fetch);
    var d := Rounds(ordered, retryRounds, round, st, isStream, fetch);
    SweepInOrder(ordered, st, isStream, fetch);
    if s.state.selected.Some? || !s.shouldRetry || round + 1 >= retryRounds {
      assert d.rounds == [s.tries];
      AllInOrderCons(s.tries, [], ordered);
    } else {
      RoundsCallInOrder(ordered, retryRounds, round + 1, s.state, isStream, fetch);
      var rest := Rounds(ordered, retryRounds, round + 1, s.state, isStream, fetch);
      assert d.rounds == [s.tries] + rest.rounds;
      AllInOrderCons(s.tries, rest.rounds, ordered);
    }
  }

  datatype RecordStatus = RecordOk | RecordError

  /** A row written by `recordUsage`; a missing channel is a record without `channelId`. */
  datatype UsageRecord = UsageRecord(channelId: Option<string>, model: Option<string>, totalTokens: int,
                                     promptTokens: int, completionTokens: int, status: RecordStatus)

  /** The handler's answer: the last upstream response passed through, or a JSON error. */
  datatype Outcome = Forwarded(reply: Reply) | Failure(status: int, code: string)

  datatype Handled = Handled(outcome: Outcome, records: seq<UsageRecord>)

  /** `Number(usagePayload?.<field> ?? 0)` for a numeric field. */
  function TokenField(usage: Option<UsagePayload>, field: UsagePayload -> Option<int>): int
  {
    if usage.None? then 0 else field(usage.value).GetOr(0)
  }

  /** What follows the loop: the 502 when no response is left, else the usage record and the last response. */
  function Conclude(st: Loop, model: Option<string>): Handled
  {
    if st.lastResponse.None? then
      Handled(Failure(502, "upstream_unavailable"), [UsageRecord(None, model, 0, 0, 0, RecordError)])
    else
      var channelForUsage := if st.selected.Some? then st.selected else st.lastChannel;
      var records :=
        if channelForUsage.None? then []
        else [UsageRecord(Some(channelForUsage.value.id), model,
                          TokenField(st.usagePayload, (u: UsagePayload) => u.totalTokens),
                          TokenField(st.usagePayload, (u: UsagePayload) => u.promptTokens),
                          TokenField(st.usagePayload, (u: UsagePayload) => u.completionTokens),
                          if IsOk(st.lastResponse.value.status) then RecordOk else RecordError)];
      Handled(Forwarded(st.lastResponse.value), records)
  }

  /** `Math.max(1, PROXY_RETRY_ROUNDS)`. */
  function RetryRounds(configured: int): (r: nat)
    ensures r >= 1 && (configured >= 1 ==> r == configured)
  {
    if configured < 1 then 1 else configured
  }

  /**
   * The whole handler after authentication and body parsing: `allowed` is
   * the token's parsed allow-list, `order` the weighted shuffle of the
   * candidates.
   */
  function Handle(active: seq<Channel>, allowed: Option<seq<string>>, model: Option<string>, isStream: bool,
                  configuredRounds: int, order: seq<Channel> -> seq<Channel>, fetch: Fetch): Handled
  {
    var candidates := Candidates(FilterAllowed(active, allowed), model);
    if candidates == [] then Handled(Failure(503, "no_available_channels"), [])
    else Conclude(Rounds(order(candidates), RetryRounds(configuredRounds), 0, Start, isStream, fetch).state, model)
  }

  /** The handler: the candidate filters, the retry loop, then the usage record and the answer. */
  method Serve(active: seq<Channel>, allowed: Option<seq<string>>, model: Option<string>, isStream: bool,
               configuredRounds: int, order: seq<Channel> -> seq<Channel>, fetch: Fetch)
      returns (outcome: Outcome, records: seq<UsageRecord>)
    ensures Handled(outcome, records) == Handle(active, allowed, model, isStream, configuredRounds, order, fetch)
  {
    var allowedChannels := FilterAllowed(active, allowed);
    var modelChannels := ModelChannels(allowedChannels, model);
    var candidates := if |modelChannels| > 0 then modelChannels else allowedChannels;
    if |candidates| == 0 {
      return Failure(503, "no_available_channels"), [];
    }
    var ordered := order(candidates);
    var retryRounds := if configuredRounds < 1 then 1 else configuredRounds;
    var lastResponse, lastChannel, selected, usagePayload, attempts, sleeps := Dispatch(ordered, retryRounds, isStream, fetch);
    records := [];
    if lastResponse.None? {
      records := records + [UsageRecord(None, model, 0, 0, 0, RecordError)];
      return Failure(502, "upstream_unavailable"), records;
    }
    var channelForUsage := if selected.Some? then selected else lastChannel;
    if channelForUsage.Some? {
      var total := if usagePayload.Some? then usagePayload.value.totalTokens.GetOr(0) else 0;
      var prompt := if usagePayload.Some? then usagePayload.value.promptTokens.GetOr(0) else 0;
      var completion := if usagePayload.Some? then usagePayload.value.completionTokens.GetOr(0) else 0;
      var status := if IsOk(lastResponse.value.status) then RecordOk else RecordError;
      records := records + [UsageRecord(Some(channelForUsage.value.id), model, total, prompt, completion, status)];
    }
    outcome := Forwarded(lastResponse.value);
  }

  /** With no allowed channel the handler answers 503 and records nothing. */
  lemma NoChannelsIs503(active: seq<Channel>, allowed: Option<seq<string>>, model: Option<string>, isStream: bool,
                        configuredRounds: int, order: seq<Channel> -> seq<Channel>, fetch: Fetch)
    ensures var h := Handle(active, allowed, model, isStream, configuredRounds, order, fetch);
      (h.outcome == Failure(503, "no_available_channels")) <==> FilterAllowed(active, allowed) == []
    ensures var h := Handle(active, allowed, model, isStream, configuredRounds, order, fetch);
      h.records == [] <==> FilterAllowed(active, allowed) == []
  {
    var candidates := Candidates(FilterAllowed(active, allowed), model);
    CandidatesChoice(FilterAllowed(active, allowed), model);
    if candidates != [] {
      var ordered := order(candidates);
      var R := RetryRounds(configuredRounds);
      RoundsSelected(ordered, R, 0, Start, isStream, fetch);
      RoundsLast(ordered, R, 0, Start, isStream, fetch);
    }
  }

  /**
   * Whatever the ordered channels, the loop is followed by exactly one usage
   * record, and the answer is 502 exactly when no call was made or the last
   * call failed in transport.
   */
  lemma OneRecordPerRequest(ordered: seq<Channel>, retryRounds: nat, isStream: bool, fetch: Fetch, model: Option<string>)
    requires 0 < retryRounds
    ensures var d := Rounds(ordered, retryRounds, 0, Start, isStream, fetch);
      var h := Conclude(d.state, model);
      var last := d.rounds[|d.rounds| - 1];
      && d.rounds != []
      && |h.records| == 1
      && (h.outcome == Failure(502, "upstream_unavailable") <==> last == [] || last[|last| - 1].attempt.TransportError?)
  {
    RoundsLast(ordered, retryRounds, 0, Start, isStream, fetch);
  }

  /**
   * When the last call got an answer, that answer is passed through and
   * recorded against the last channel called, as ok exactly when a channel
   * was selected.
   */
  lemma ForwardedIsLastReply(ordered: seq<Channel>, retryRounds: nat, isStream: bool, fetch: Fetch, model: Option<string>)
    requires 0 < retryRounds
    ensures var d := Rounds(ordered, retryRounds, 0, Start, isStream, fetch);
      var last := d.rounds[|d.rounds| - 1];
      d.rounds != [] &&
      (last != [] && last[|last| - 1].attempt.Answered? ==>
            var h := Conclude(d.state, model);
            && h.outcome == Forwarded(last[|last| - 1].attempt.reply)
            && |h.records| == 1
            && h.records[0].channelId == Some(last[|last| - 1].channel.id)
            && (h.records[0].status == RecordOk <==> d.state.selected.Some?))
  {
    var d := Rounds(ordered, retryRounds, 0, Start, isStream, fetch);
    RoundsSelected(ordered, retryRounds, 0, Start, isStream, fetch);
    RoundsLast(ordered, retryRounds, 0, Start, isStream, fetch);
    var last := d.rounds[|d.rounds| - 1];
    if last != [] && last[|last| - 1].attempt.Answered? {
      ConcludeForwarded(d.state, model);
    }
  }

  /** With some channel allowed, the handler's answer is what follows the loop. */
  lemma HandleConcludes(active: seq<Channel>, allowed: Option<seq<string>>, model: Option<string>, isStream: bool,
                        configuredRounds: int, order: seq<Channel> -> seq<Channel>, fetch: Fetch)
    requires FilterAllowed(active, allowed) != []
    ensures var candidates := Candidates(FilterAllowed(active, allowed), model);
      Handle(active, allowed, model, isStream, configuredRounds, order, fetch)
        == Conclude(Rounds(order(candidates), RetryRounds(configuredRounds), 0, Start, isStream, fetch).state, model)
  {
    CandidatesChoice(FilterAllowed(active, allowed), model);
  }

  /** With a response left, the usage record names the channel called last and is ok exactly for a 2xx. */
  lemma ConcludeForwarded(st: Loop, model: Option<string>)
    requires st.lastResponse.Some? && st.lastChannel.Some?
    requires st.selected.Some? ==> st.selected == st.lastChannel
    ensures var h := Conclude(st, model);
      && h.outcome == Forwarded(st.lastResponse.value)
      && |h.records| == 1
      && h.records[0].channelId == Some(st.lastChannel.value.id)
      && (h.records[0].status == RecordOk <==> IsOk(st.lastResponse.value.status))
  {
  }
}

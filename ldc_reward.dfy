/**
 * The non-presentation logic of the LINUX DO Credit tipping userscript
 * (ldc-reward.user.js): the `pendingRewards` map that stops a tip being
 * sent twice while a request is in flight, its two-minute sweep, the trade
 * number sent with each tip, how the server's answer becomes the callback's
 * verdict, the remark text, and the initials on a contributor card.
 *
 * `Date.now()` and `Math.random()` are parameters (`now`, and the 4-digit
 * draw `random`); the HTTP request itself is the `RewardRequest` value a
 * send yields, and its completion is a separate call.
 */
module LdcReward {
  import opened Wrappers
  import opened Text

  // ---------------------------------------------------------------------
  // Trade numbers
  // ---------------------------------------------------------------------

  /** `Math.floor(Math.random() * 10000).toString().padStart(4, "0")`. */
  function FourDigits(random: nat): string
    requires random < 10000
  {
    PadZeros(NatToString(random), 4)
  }

  predicate AllDigits(s: string) {
    forall i :: 0 <= i < |s| ==> '0' <= s[i] <= '9'
  }

  /** The value of a string of decimal digits. */
  function DigitsValue(s: string): nat
    requires AllDigits(s)
  {
    if s == [] then 0 else DigitsValue(s[..|s| - 1]) * 10 + (s[|s| - 1] as int - '0' as int)
  }

  lemma {:induction false} NatToStringValue(n: nat)
    ensures DigitsValue(NatToString(n)) == n
    ensures n < 10 ==> |NatToString(n)| == 1
    ensures n < 100 ==> |NatToString(n)| <= 2
    ensures n < 1000 ==> |NatToString(n)| <= 3
    ensures n < 10000 ==> |NatToString(n)| <= 4
  {
    if n >= 10 {
      NatToStringValue(n / 10);
      var s := NatToString(n);
      assert s[..|s| - 1] == NatToString(n / 10);
    }
  }

  lemma {:induction false} LeadingZerosValue(z: nat, s: string)
    requires AllDigits(s)
    ensures AllDigits(seq(z, _ => '0') + s)
    ensures DigitsValue(seq(z, _ => '0') + s) == DigitsValue(s)
    decreases |s| + z
  {
    var zeros := seq(z, _ => '0');
    if s == [] {
      assert zeros + s == zeros;
      if z > 0 {
        LeadingZerosValue(z - 1, []);
        assert zeros[..z - 1] == seq(z - 1, _ => '0') + [];
      }
    } else {
      var init := s[..|s| - 1];
      LeadingZerosValue(z, init);
      assert (zeros + s)[..z + |s| - 1] == zeros + init;
    }
  }

  /**
   * The random part is exactly four decimal digits, and reading them back
   * gives the draw: distinct draws give distinct suffixes.
   */
  lemma FourDigitsRoundTrip(random: nat)
    requires random < 10000
    ensures |FourDigits(random)| == 4
    ensures forall i :: 0 <= i < 4 ==> '0' <= FourDigits(random)[i] <= '9'
    ensures DigitsValue(FourDigits(random)) == random
  {
    var s := NatToString(random);
    NatToStringValue(random);
    LeadingZerosValue(4 - |s|, s);
  }

  /** `_${timestamp}_${random}`: what both trade-number forms end with. */
  function Stamp(timestamp: nat, random: nat): string
    requires random < 10000
  {
    "_" + NatToString(timestamp) + "_" + FourDigits(random)
  }

  /** `generateTradeNo(topicId, postId)`: `LDR_T{topic}_P{post}_{ts}_{rrrr}`. */
  function TopicTradeNo(topicId: string, postId: string, timestamp: nat, random: nat): string
    requires random < 10000
  {
    "LDR_T" + topicId + "_P" + postId + Stamp(timestamp, random)
  }

  /** `generateZenApiTradeNo(userId)`: `LDR_Z_{user}_{ts}_{rrrr}`. */
  function ZenApiTradeNo(userId: string, timestamp: nat, random: nat): string
    requires random < 10000
  {
    "LDR_Z_" + userId + Stamp(timestamp, random)
  }

  /** The trade number `sendReward` chooses. */
  function TradeNo(topicId: string, postId: string, userId: string, timestamp: nat, random: nat): string
    requires random < 10000
  {
    if topicId == "zenapi" then ZenApiTradeNo(userId, timestamp, random)
    else TopicTradeNo(topicId, postId, timestamp, random)
  }

  /**
   * The trade number has the ZenAPI form exactly when the topic is
   * "zenapi", and ends in the timestamp's digits and the four-digit draw
   * in both forms.
   */
  lemma TradeNoShape(topicId: string, postId: string, userId: string, timestamp: nat, random: nat)
    requires random < 10000
    ensures StartsWith(TradeNo(topicId, postId, userId, timestamp, random), "LDR_Z_") <==> topicId == "zenapi"
    ensures StartsWith(TradeNo(topicId, postId, userId, timestamp, random), "LDR_T") <==> topicId != "zenapi"
    ensures EndsWith(TradeNo(topicId, postId, userId, timestamp, random), Stamp(timestamp, random))
  {
    var t := TradeNo(topicId, postId, userId, timestamp, random);
    var tail := Stamp(timestamp, random);
    var head: string := if topicId == "zenapi" then "LDR_Z_" + userId else "LDR_T" + topicId + "_P" + postId;
    assert t == head + tail;
    assert t[|t| - |tail|..] == tail;
    assert t[..5] == head[..5];
    if topicId != "zenapi" {
      assert t[4] == 'T';
      assert t[..5] == "LDR_T";
    } else {
      assert t[4] == 'Z';
      assert t[..6] == "LDR_Z_";
    }
  }

  // ---------------------------------------------------------------------
  // The pending-request map
  // ---------------------------------------------------------------------

  /** How long a pending entry is honoured: 2 minutes, in milliseconds. */
  const ExpireMs: int := 120000

  datatype Pending = Pending(tradeNo: string, timestamp: int)

  predicate Expired(p: Pending, now: int) {
    now - p.timestamp > ExpireMs
  }

  /** The map after `cleanupExpiredPendingRewards` at time `now`. */
  function Swept(m: map<string, Pending>, now: int): map<string, Pending>
  {
    map k | k in m && !Expired(m[k], now) :: m[k]
  }

  /**
   * The sweep deletes exactly the expired entries and keeps the others as
   * they were; sweeping twice at the same time changes nothing more, and a
   * later sweep keeps no entry an earlier one removed.
   */
  lemma SweepRule(m: map<string, Pending>, now: int, later: int)
    requires now <= later
    ensures forall k :: k in Swept(m, now) <==> k in m && now - m[k].timestamp <= 120000
    ensures forall k :: k in Swept(m, now) ==> Swept(m, now)[k] == m[k]
    ensures Swept(Swept(m, now), now) == Swept(m, now)
    ensures Swept(m, later).Keys <= Swept(m, now).Keys
  {
  }

  datatype Config = Config(clientId: string, clientSecret: string)

  /** The body of the POST a send issues. */
  datatype RewardRequest = RewardRequest(userId: string, username: string, amount: real, tradeNo: string, remark: string)

  datatype SendOutcome = Rejected(message: string) | Sent(key: string, request: RewardRequest)

  const NoConfigMessage: string := "请先配置 Client ID 和 Client Secret"
  const DuplicateMessage: string := "该打赏请求正在处理中，请勿重复提交"

  /** `${topicId}_${postId}_${userId}`. */
  function RequestKey(topicId: string, postId: string, userId: string): string {
    topicId + "_" + postId + "_" + userId
  }

  /** `sendReward` up to the request: the new map and what it does. */
  function Send(m: map<string, Pending>, config: Option<Config>, userId: string, username: string, amount: real,
                remark: string, topicId: string, postId: string, now: nat, random: nat)
    : (map<string, Pending>, SendOutcome)
    requires random < 10000
  {
    if config.None? then (m, Rejected(NoConfigMessage))
    else
      var key := RequestKey(topicId, postId, userId);
      if key in m then (m, Rejected(DuplicateMessage))
      else
        var tradeNo := TradeNo(topicId, postId, userId, now, random);
        (m[key := Pending(tradeNo, now)], Sent(key, RewardRequest(userId, username, amount, tradeNo, remark)))
  }

  /**
   * Without a configuration, or while the same (topic, post, user) is
   * pending, the send is refused and the map is unchanged; otherwise the
   * key is added with the trade number and time, the request carries that
   * trade number, and every other entry is kept.
   */
  lemma SendRule(m: map<string, Pending>, config: Option<Config>, userId: string, username: string, amount: real,
                 remark: string, topicId: string, postId: string, now: nat, random: nat)
    requires random < 10000
    ensures var (m', out) := Send(m, config, userId, username, amount, remark, topicId, postId, now, random);
      var key := RequestKey(topicId, postId, userId);
      && (config.None? ==> m' == m && out == Rejected("请先配置 Client ID 和 Client Secret"))
      && (config.Some? && key in m ==> m' == m && out == Rejected("该打赏请求正在处理中，请勿重复提交"))
      && (out.Sent? <==> config.Some? && key !in m)
      && (out.Sent? ==>
            && out.key == key && m'.Keys == m.Keys + {key}
            && m'[key] == Pending(out.request.tradeNo, now)
            && out.request.tradeNo == TradeNo(topicId, postId, userId, now, random)
            && forall k :: k in m ==> m'[k] == m[k])
  {
  }

  /** Sending the same tip again before the first completes is refused. */
  lemma SecondSendRefused(m: map<string, Pending>, config: Option<Config>, userId: string, username: string,
                          amount: real, remark: string, topicId: string, postId: string, now: nat, random: nat,
                          later: nat, random2: nat)
    requires random < 10000 && random2 < 10000
    requires Send(m, config, userId, username, amount, remark, topicId, postId, now, random).1.Sent?
    ensures var m' := Send(m, config, userId, username, amount, remark, topicId, postId, now, random).0;
      Send(m', config, userId, username, amount, remark, topicId, postId, later, random2) == (m', Rejected(DuplicateMessage))
  {
  }

  /** How a request ends: `onload` with the server's answer, `onerror`, or `ontimeout`. */
  datatype Completion = Loaded(response: Response) | Failed | TimedOut

  /**
   * The body of the answer: not JSON-parsable (or not an object), or the
   * fields the callback reads. `data` is None when the `data` field is
   * missing or null, so that reading `data.trade_no` throws; otherwise it
   * holds `data.trade_no`, None when that field is absent (`undefined`).
   */
  datatype ResponseBody =
    | Unparsable
    | Parsed(errorMsg: Option<string>, message: Option<string>, data: Option<Option<string>>)

  datatype Response = Response(status: int, isJson: bool, body: ResponseBody)

  predicate Truthy(s: Option<string>) {
    s.Some? && s.value != ""
  }

  const ServerErrorText: string := "服务器返回错误，可能配置错误或者超频次。"
  const ParseFailureText: string := "响应解析失败，服务器可能返回了错误页面"

  /** The `(success, message)` the callback receives; a message of None is `undefined`. */
  function Verdict(c: Completion): (bool, Option<string>)
  {
    match c
    case Failed => (false, Some("网络请求失败"))
    case TimedOut => (false, Some("请求超时"))
    case Loaded(r) =>
      if r.status != 200 then
        var statusText := "HTTP " + IntToString(r.status);
        if r.isJson && r.body.Parsed? then
          (false, Some(statusText + ": " + (if Truthy(r.body.errorMsg) then r.body.errorMsg.value
                                            else if Truthy(r.body.message) then r.body.message.value
                                            else "请求失败")))
        else (false, Some(statusText + ": " + ServerErrorText))
      else if r.body.Unparsable? then (false, Some(ParseFailureText))
      else if Truthy(r.body.errorMsg) then (false, Some(r.body.errorMsg.value))
      // `result.data.trade_no` throws when `data` is missing or null, which the `catch` reports as a parse failure.
      else if r.body.data.None? then (false, Some(ParseFailureText))
      else (true, r.body.data.value)
  }

  /**
   * A tip succeeds exactly on a 200 answer that parses, carries no error
   * message and has a `data` object; the message is then `data.trade_no`,
   * which may be absent. Every failure carries a message: `HTTP <status>: `
   * and a reason for other statuses, the parse-failure text when the body
   * does not parse or `data` is missing, and the fixed texts of a network
   * error or a timeout.
   */
  lemma VerdictRule(c: Completion)
    ensures Verdict(c).0 <==>
      c.Loaded? && c.response.status == 200 && c.response.body.Parsed?
      && !Truthy(c.response.body.errorMsg) && c.response.body.data.Some?
    ensures Verdict(c).0 ==> Verdict(c).1 == c.response.body.data.value
    ensures !Verdict(c).0 ==> Verdict(c).1.Some?
    ensures c.Loaded? && c.response.status != 200 ==>
      StartsWith(Verdict(c).1.value, "HTTP " + IntToString(c.response.status) + ": ")
    ensures c.Loaded? && c.response.status == 200 &&
      (c.response.body.Unparsable? || (!Truthy(c.response.body.errorMsg) && c.response.body.data.None?))
      ==> Verdict(c) == (false, Some(ParseFailureText))
    ensures c == Failed ==> Verdict(c) == (false, Some("网络请求失败"))
    ensures c == TimedOut ==> Verdict(c) == (false, Some("请求超时"))
  {
    match c
    case Loaded(r) =>
      if r.status != 200 {
        var statusText := "HTTP " + IntToString(r.status);
        assert Verdict(c).1.value[..|statusText + ": "|] == statusText + ": ";
      }
    case _ =>
  }

  /** A 200 answer whose `data` has no `trade_no` still counts as a success, with an undefined message. */
  lemma SuccessWithoutTradeNo()
    ensures Verdict(Loaded(Response(200, true, Parsed(None, None, Some(None))))) == (true, None)
  {
  }

  /** The map a completion leaves: the request's key is removed, whatever the outcome. */
  function Completed(m: map<string, Pending>, key: string): (r: map<string, Pending>)
    ensures key !in r
    ensures forall k :: k != key ==> (k in r <==> k in m)
  {
    m - {key}
  }

  /**
   * A sent tip holds its key until it completes or goes stale: after its
   * completion, or a sweep more than two minutes later, the same tip can be
   * sent again.
   */
  lemma PendingUntilReleased(m: map<string, Pending>, config: Config, userId: string, username: string, amount: real,
                             remark: string, topicId: string, postId: string, now: nat, random: nat, later: int)
    requires random < 10000
    requires RequestKey(topicId, postId, userId) !in m
    requires later - now > 120000
    ensures var m' := Send(m, Some(config), userId, username, amount, remark, topicId, postId, now, random).0;
      var key := RequestKey(topicId, postId, userId);
      && key in m'
      && key !in Completed(m', key)
      && key !in Swept(m', later)
      && Send(Completed(m', key), Some(config), userId, username, amount, remark, topicId, postId, now, random).1.Sent?
  {
  }

  // ---------------------------------------------------------------------
  // The map in place
  // ---------------------------------------------------------------------

  class RewardSender {
    var pending: map<string, Pending>

    constructor()
      ensures pending == map[]
    {
      pending := map[];
    }

    /** `cleanupExpiredPendingRewards`: visit every entry and delete the expired ones. */
    method Cleanup(now: int)
      modifies this
      ensures pending == Swept(old(pending), now)
    {
      var toVisit := pending.Keys;
      while toVisit != {}
        invariant toVisit <= old(pending).Keys
        invariant forall k :: k in pending <==> k in old(pending) && (k in toVisit || !Expired(old(pending)[k], now))
        invariant forall k :: k in pending ==> pending[k] == old(pending)[k]
        decreases toVisit
      {
        var key :| key in toVisit;
        if now - pending[key].timestamp > ExpireMs {
          pending := pending - {key};
        }
        toVisit := toVisit - {key};
      }
      assert pending.Keys == Swept(old(pending), now).Keys;
    }

    /** `sendReward` up to issuing the request. */
    method SendReward(config: Option<Config>, userId: string, username: string, amount: real, remark: string,
                      topicId: string, postId: string, now: nat, random: nat) returns (outcome: SendOutcome)
      requires random < 10000
      modifies this
      ensures (pending, outcome) == Send(old(pending), config, userId, username, amount, remark, topicId, postId, now, random)
    {
      if config.None? {
        return Rejected(NoConfigMessage);
      }
      var requestKey := RequestKey(topicId, postId, userId);
      if requestKey in pending {
        return Rejected(DuplicateMessage);
      }
      var tradeNo := if topicId == "zenapi" then ZenApiTradeNo(userId, now, random)
                     else TopicTradeNo(topicId, postId, now, random);
      pending := pending[requestKey := Pending(tradeNo, now)];
      outcome := Sent(requestKey, RewardRequest(userId, username, amount, tradeNo, remark));
    }

    /** `onload`, `onerror` and `ontimeout`: release the key, then report. */
    method Complete(requestKey: string, c: Completion) returns (success: bool, message: Option<string>)
      modifies this
      ensures pending == Completed(old(pending), requestKey)
      ensures (success, message) == Verdict(c)
    {
      pending := pending - {requestKey};
      success, message := Verdict(c).0, Verdict(c).1;
    }
  }

  // ---------------------------------------------------------------------
  // Remark and initials
  // ---------------------------------------------------------------------

  const RemarkSuffix: string := " by @T佬的打赏插件"

  /** The remark sent with a tip, from the text the user typed. */
  function Remark(input: string): string
  {
    var t := Trim(input);
    if t != "" then t + RemarkSuffix else "打赏" + RemarkSuffix
  }

  /**
   * The remark always ends in the plugin's signature; before it stands the
   * trimmed input, or "打赏" when the input is blank.
   */
  lemma RemarkRule(input: string)
    ensures EndsWith(Remark(input), RemarkSuffix)
    ensures var body := Remark(input)[..|Remark(input)| - |RemarkSuffix|];
      body == if Trim(input) != "" then Trim(input) else "打赏"
  {
    var r := Remark(input);
    assert r[|r| - |RemarkSuffix|..] == RemarkSuffix;
  }

  /** A character of the pattern `[\s_-]`. */
  predicate IsSeparator(c: char) {
    IsSpace(c) || c == '_' || c == '-'
  }

  /** `s.split(/[\s_-]+/)`: the pieces between runs of separators. */
  function Pieces(s: string): (r: seq<string>)
    ensures |r| >= 1
    ensures r[|r| - 1] == [] <==> s == [] || IsSeparator(s[|s| - 1])
    decreases |s|
  {
    if s == [] then [""]
    else
      var init := s[..|s| - 1];
      var c := s[|s| - 1];
      var p := Pieces(init);
      if IsSeparator(c) then
        if init != [] && IsSeparator(init[|init| - 1]) then p else p + [""]
      else p[..|p| - 1] + [p[|p| - 1] + [c]]
  }

  /** `.map(w => w[0]).join("")`: the first character of each non-empty piece. */
  function FirstChars(pieces: seq<string>): string
  {
    if pieces == [] then ""
    else FirstChars(pieces[..|pieces| - 1]) + (if pieces[|pieces| - 1] == "" then "" else [pieces[|pieces| - 1][0]])
  }

  /** `.toUpperCase()`, for ASCII letters. */
  function Upper(s: string): (r: string)
    ensures |r| == |s| && forall i :: 0 <= i < |s| ==> r[i] == AsciiUpper(s[i])
  {
    seq(|s|, i requires 0 <= i < |s| => AsciiUpper(s[i]))
  }

  /** The initials shown on a contributor card. */
  function Initials(displayName: string): string
  {
    var letters := Upper(FirstChars(Pieces(displayName)));
    if |letters| <= 2 then letters else letters[..2]
  }

  /** A word starts at `i`: a non-separator at the start or right after a separator. */
  predicate WordStart(s: string, i: int) {
    0 <= i < |s| && !IsSeparator(s[i]) && (i == 0 || IsSeparator(s[i - 1]))
  }

  /** The characters that start a word, in order. */
  function WordStarts(s: string): (r: string)
    decreases |s|
  {
    if s == [] then ""
    else WordStarts(s[..|s| - 1]) + (if WordStart(s, |s| - 1) then [s[|s| - 1]] else "")
  }

  /** A separator adds no first character: it only ends the current piece. */
  lemma SeparatorStep(s: string)
    requires s != [] && IsSeparator(s[|s| - 1])
    ensures FirstChars(Pieces(s)) == FirstChars(Pieces(s[..|s| - 1]))
  {
    var init := s[..|s| - 1];
    var p := Pieces(init);
    if !(init != [] && IsSeparator(init[|init| - 1])) {
      assert (p + [""])[..|p|] == p;
    }
  }

  /** Any other character is the first character of its piece exactly when that piece was empty. */
  lemma LetterStep(s: string)
    requires s != [] && !IsSeparator(s[|s| - 1])
    ensures var p := Pieces(s[..|s| - 1]);
      FirstChars(Pieces(s)) == FirstChars(p) + (if p[|p| - 1] == "" then [s[|s| - 1]] else "")
  {
    var init := s[..|s| - 1];
    var c := s[|s| - 1];
    var p := Pieces(init);
    var q := p[..|p| - 1];
    assert p == q + [p[|p| - 1]];
    assert (q + [p[|p| - 1] + [c]])[..|q|] == q;
    assert FirstChars(p) == FirstChars(q) + (if p[|p| - 1] == "" then "" else [p[|p| - 1][0]]);
  }

  lemma {:induction false} FirstCharsAreWordStarts(s: string)
    ensures FirstChars(Pieces(s)) == WordStarts(s)
    decreases |s|
  {
    if s != [] {
      var init := s[..|s| - 1];
      var c := s[|s| - 1];
      FirstCharsAreWordStarts(init);
      assert WordStarts(s) == WordStarts(init) + (if WordStart(s, |s| - 1) then [c] else "");
      if IsSeparator(c) {
        SeparatorStep(s);
        assert !WordStart(s, |s| - 1);
      } else {
        LetterStep(s);
        LetterStartsWord(s);
      }
    }
  }

  /** A non-separator starts a word exactly when the piece before it is still empty. */
  lemma LetterStartsWord(s: string)
    requires s != [] && !IsSeparator(s[|s| - 1])
    ensures var p := Pieces(s[..|s| - 1]); WordStart(s, |s| - 1) <==> p[|p| - 1] == ""
  {
    var init := s[..|s| - 1];
    assert init != [] ==> s[|s| - 2] == init[|init| - 1];
  }

  lemma {:induction false} WordStartsMembers(s: string, k: nat)
    requires k < |WordStarts(s)|
    ensures exists i :: WordStart(s, i) && WordStarts(s)[k] == s[i]
    decreases |s|
  {
    var init := s[..|s| - 1];
    if k < |WordStarts(init)| {
      WordStartsMembers(init, k);
      var i :| WordStart(init, i) && WordStarts(init)[k] == init[i];
      assert WordStart(s, i);
    } else {
      assert WordStart(s, |s| - 1);
    }
  }

  /**
   * The initials are the upper-cased first characters of the words of the
   * name (the runs between spaces, `_` and `-`), the first two of them at
   * most; a name of a single word gives one letter.
   */
  lemma InitialsRule(displayName: string)
    ensures |Initials(displayName)| <= 2
    ensures FirstChars(Pieces(displayName)) == WordStarts(displayName)
    ensures |Initials(displayName)| == if |WordStarts(displayName)| < 2 then |WordStarts(displayName)| else 2
    ensures forall k :: 0 <= k < |Initials(displayName)| ==>
      Initials(displayName)[k] == AsciiUpper(WordStarts(displayName)[k])
      && exists i :: WordStart(displayName, i) && WordStarts(displayName)[k] == displayName[i]
  {
    FirstCharsAreWordStarts(displayName);
    forall k | 0 <= k < |Initials(displayName)|
      ensures exists i :: WordStart(displayName, i) && WordStarts(displayName)[k] == displayName[i]
    {
      WordStartsMembers(displayName, k);
    }
  }
}

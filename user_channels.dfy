/**
 * Channels contributed by users (apps/worker/src/routes/user-channels.ts):
 * listing with per-channel aliases, contribution with the LDOH admission
 * check (blocked hostnames refused and recorded, hostnames of known sites
 * held for approval), and owner-only update and delete. Every route is
 * open only when the site mode is "shared".
 *
 * The tables are sequences of rows. `extractHostname` (the WHATWG URL
 * parser) is not part of this model: the hostname of the trimmed base URL
 * is an input. `crypto.randomUUID()` and `nowIso()` are inputs too.
 */
module UserChannels {
  import opened Wrappers
  import opened Text
  import opened Url
  import opened ModelAliases
  import opened ChannelCommon
  import Grouping

  /** `AliasConfig` as the listing returns it. */
  datatype AliasConfig = AliasConfig(aliases: seq<string>, aliasOnly: bool)

  /** One value of a request's `model_aliases` object. */
  datatype AliasRequest = AliasRequest(aliases: Option<seq<string>>, aliasOnly: Option<bool>)

  /** A row of `ldoh_blocked_urls` joined with its site's name. */
  datatype BlockedUrl = BlockedUrl(id: string, siteId: string, hostname: string, siteName: string)

  /** A row of `ldoh_sites`: `apiBaseHostname` is a comma-separated list. */
  datatype Site = Site(id: string, apiBaseHostname: string)

  /** A row of `ldoh_violations`. */
  datatype Violation = Violation(id: string, userId: string, userName: string, linuxdoUsername: Option<string>,
                                 attemptedBaseUrl: string, matchedHostname: string, siteId: string,
                                 siteName: string, createdAt: string)

  datatype User = User(id: string, name: string, linuxdoUsername: Option<string>)

  /** A POST or PATCH body; `models` is present only when it is an array. */
  datatype Body = Body(name: Option<string>, baseUrl: Option<string>, apiKey: Option<string>, weight: Option<int>,
                       apiFormat: Option<string>, models: Option<seq<ModelItem>>, customHeaders: Option<string>,
                       chargeEnabled: Option<bool>, modelAliases: Option<seq<(string, AliasRequest)>>)

  /** The tables the routes write: `channels`, `ldoh_violations`, `channel_model_aliases`. */
  datatype State = State(channels: seq<ChannelRow>, violations: seq<Violation>, channelAliases: seq<ChannelAliasRow>)

  datatype Reply =
    | Failure(httpStatus: int, error: string, message: string)
    | Created(id: string, channelStatus: string, note: Option<string>)
    | Done
    | Listed(channels: seq<ChannelRow>, aliasesByChannel: map<string, map<string, AliasConfig>>)
      /** An exception escaped the handler, which the framework answers with 500. */
    | Crashed

  const SharedOnly: Reply := Failure(403, "shared_mode_only", "shared_mode_only")
  const PendingMessage: string := "渠道已创建，等待审批"

  /** JavaScript truthiness of an optional string. */
  predicate Truthy(s: Option<string>) {
    s.Some? && s.value != ""
  }

  // ---------------------------------------------------------------------
  // Admission.
  // ---------------------------------------------------------------------

  /** `blocked.find(row => hostnameMatches(hostname, row.hostname))`, as an index. */
  function FirstBlocked(hostname: string, blocked: seq<BlockedUrl>): (r: Option<nat>)
    ensures r.Some? ==> r.value < |blocked| && HostnameMatches(hostname, blocked[r.value].hostname)
                        && forall j :: 0 <= j < r.value ==> !HostnameMatches(hostname, blocked[j].hostname)
    ensures r.None? ==> forall j :: 0 <= j < |blocked| ==> !HostnameMatches(hostname, blocked[j].hostname)
  {
    if blocked == [] then None
    else if HostnameMatches(hostname, blocked[0].hostname) then Some(0)
    else
      var rest := FirstBlocked(hostname, blocked[1..]);
      if rest.None? then None else Some(rest.value + 1)
  }

  /** A site's hostnames: its list split on ',' with each piece trimmed. */
  function SiteHostnames(site: Site): (r: seq<string>)
    ensures |r| == |Split(site.apiBaseHostname, ',')|
    ensures forall k :: 0 <= k < |r| ==> r[k] == Trim(Split(site.apiBaseHostname, ',')[k])
  {
    var pieces := Split(site.apiBaseHostname, ',');
    seq(|pieces|, k requires 0 <= k < |pieces| => Trim(pieces[k]))
  }

  /** Whether some site lists a hostname that `hostname` matches. */
  predicate MatchesAnySite(hostname: string, sites: seq<Site>) {
    exists s, h :: s in sites && h in SiteHostnames(s) && HostnameMatches(hostname, h)
  }

  datatype Admission = Refused(entry: BlockedUrl) | Admitted(status: string)

  /** The status a contributed channel starts in, or the blocked entry that refuses it. */
  function Admit(hostname: string, blocked: seq<BlockedUrl>, sites: seq<Site>): Admission
  {
    if hostname == "" then Admitted("active")
    else
      match FirstBlocked(hostname, blocked)
      case Some(i) => Refused(blocked[i])
      case None => if MatchesAnySite(hostname, sites) then Admitted("pending") else Admitted("active")
  }

  /**
   * A hostname is refused exactly when it matches a blocked entry (the first
   * such entry is reported); otherwise it is pending exactly when it matches
   * a hostname of some site, and active if not. An empty hostname is active.
   */
  lemma AdmissionRule(hostname: string, blocked: seq<BlockedUrl>, sites: seq<Site>)
    ensures hostname == "" ==> Admit(hostname, blocked, sites) == Admitted("active")
    ensures Admit(hostname, blocked, sites).Refused? <==>
      hostname != "" && exists j :: 0 <= j < |blocked| && HostnameMatches(hostname, blocked[j].hostname)
    ensures Admit(hostname, blocked, sites).Refused? ==>
      exists j :: 0 <= j < |blocked| && blocked[j] == Admit(hostname, blocked, sites).entry
        && HostnameMatches(hostname, blocked[j].hostname)
        && forall i :: 0 <= i < j ==> !HostnameMatches(hostname, blocked[i].hostname)
    ensures Admit(hostname, blocked, sites) == Admitted("pending") <==>
      hostname != "" && (forall j :: 0 <= j < |blocked| ==> !HostnameMatches(hostname, blocked[j].hostname))
      && exists s, h :: s in sites && h in SiteHostnames(s) && HostnameMatches(hostname, h)
    ensures Admit(hostname, blocked, sites).Admitted? ==>
      Admit(hostname, blocked, sites).status == "pending" || Admit(hostname, blocked, sites).status == "active"
  {
    if hostname != "" {
      var first := FirstBlocked(hostname, blocked);
      if first.Some? {
        assert blocked[first.value] == Admit(hostname, blocked, sites).entry;
      }
    }
  }

  // ---------------------------------------------------------------------
  // Per-channel alias saves.
  // ---------------------------------------------------------------------

  /** `aliases.map(a => ({ alias: a }))`: no alias is primary. */
  function AliasInputs(aliases: seq<string>): (r: seq<AliasInput>)
    ensures |r| == |aliases|
    ensures forall k :: 0 <= k < |aliases| ==> r[k] == AliasInput(aliases[k], false)
  {
    seq(|aliases|, k requires 0 <= k < |aliases| => AliasInput(aliases[k], false))
  }

  /**
   * What one `model_aliases` entry saves: nothing for a model the channel
   * does not list; on create, nothing for an absent or empty alias list;
   * otherwise the list (absent read as empty) with its `alias_only` flag.
   */
  function Applied(modelIds: seq<string>, entry: (string, AliasRequest), onCreate: bool): Option<(seq<string>, bool)>
  {
    if entry.0 !in modelIds then None
    else if onCreate && (entry.1.aliases.None? || entry.1.aliases.value == []) then None
    else Some((entry.1.aliases.GetOr([]), entry.1.aliasOnly.GetOr(false)))
  }

  /** The `saveChannelAliases` call for one entry, if it makes one. */
  function SaveStep(table: seq<ChannelAliasRow>, channelId: string, modelIds: seq<string>, entry: (string, AliasRequest),
                    onCreate: bool, aliasId: string -> nat -> string, now: string): seq<ChannelAliasRow>
  {
    match Applied(modelIds, entry, onCreate)
    case None => table
    case Some(v) =>
      WithoutPair(table, channelId, entry.0) + NewChannelAliasRows(channelId, entry.0, AliasInputs(v.0), v.1, aliasId(entry.0), now)
  }

  /** The entries of `model_aliases` saved one after another, in object order. */
  function SaveEntries(table: seq<ChannelAliasRow>, channelId: string, modelIds: seq<string>,
                       entries: seq<(string, AliasRequest)>, onCreate: bool, aliasId: string -> nat -> string,
                       now: string): seq<ChannelAliasRow>
    decreases |entries|
  {
    if entries == [] then table
    else SaveEntries(SaveStep(table, channelId, modelIds, entries[0], onCreate, aliasId, now), channelId, modelIds,
                     entries[1..], onCreate, aliasId, now)
  }

  /** The save the last applied entry for `modelId` makes, if any. */
  function LastApplied(modelIds: seq<string>, entries: seq<(string, AliasRequest)>, modelId: string, onCreate: bool)
    : (r: Option<(seq<string>, bool)>)
    ensures r.Some? ==> modelId in modelIds
    ensures r.Some? && onCreate ==> r.value.0 != []
    ensures !onCreate && modelId in modelIds && modelId in Grouping.KeysOf(entries) ==> r.Some?
    decreases |entries|
  {
    if entries == [] then None
    else
      assert Grouping.KeysOf(entries) == [entries[0].0] + Grouping.KeysOf(entries[1..]);
      var later := LastApplied(modelIds, entries[1..], modelId, onCreate);
      if later.Some? then later
      else if entries[0].0 == modelId then Applied(modelIds, entries[0], onCreate)
      else None
  }

  /** The rows of a (channel, model) pair hold exactly `aliases`, in order, none primary, all flagged `aliasOnly`. */
  predicate Holds(table: seq<ChannelAliasRow>, channelId: string, modelId: string, aliases: seq<string>, aliasOnly: bool)
  {
    var rows := RowsOfPair(table, channelId, modelId);
    |rows| == |aliases|
    && forall k :: 0 <= k < |aliases| ==>
         rows[k].alias == aliases[k] && rows[k].isPrimary != 1 && (rows[k].aliasOnly == 1 <==> aliasOnly)
  }

  /**
   * After the saves, a model's rows on the channel are those of the last
   * entry that saved anything for it, or untouched if none did.
   */
  lemma {:induction false} SaveEntriesEffect(table: seq<ChannelAliasRow>, channelId: string, modelIds: seq<string>,
                                             entries: seq<(string, AliasRequest)>, onCreate: bool,
                                             aliasId: string -> nat -> string, now: string, modelId: string)
    ensures var after := SaveEntries(table, channelId, modelIds, entries, onCreate, aliasId, now);
      match LastApplied(modelIds, entries, modelId, onCreate)
      case None => RowsOfPair(after, channelId, modelId) == RowsOfPair(table, channelId, modelId)
      case Some(v) => Holds(after, channelId, modelId, v.0, v.1)
    decreases |entries|
  {
    if entries != [] {
      var e := entries[0];
      var next := SaveStep(table, channelId, modelIds, e, onCreate, aliasId, now);
      SaveEntriesEffect(next, channelId, modelIds, entries[1..], onCreate, aliasId, now, modelId);
      if LastApplied(modelIds, entries[1..], modelId, onCreate).None? {
        match Applied(modelIds, e, onCreate)
        case None =>
        case Some(v) =>
          SaveChannelAliasesReplaces(table, channelId, e.0, AliasInputs(v.0), v.1, aliasId(e.0), now, channelId, modelId);
      }
    }
  }

  /** The saves touch only the rows of the channel they are for. */
  lemma {:induction false} SaveEntriesKeepsOtherChannels(table: seq<ChannelAliasRow>, channelId: string,
                                                         modelIds: seq<string>, entries: seq<(string, AliasRequest)>,
                                                         onCreate: bool, aliasId: string -> nat -> string, now: string,
                                                         otherChannel: string, modelId: string)
    requires otherChannel != channelId
    ensures RowsOfPair(SaveEntries(table, channelId, modelIds, entries, onCreate, aliasId, now), otherChannel, modelId)
         == RowsOfPair(table, otherChannel, modelId)
    decreases |entries|
  {
    if entries != [] {
      var e := entries[0];
      var next := SaveStep(table, channelId, modelIds, e, onCreate, aliasId, now);
      SaveEntriesKeepsOtherChannels(next, channelId, modelIds, entries[1..], onCreate, aliasId, now, otherChannel, modelId);
      match Applied(modelIds, e, onCreate)
      case None =>
      case Some(v) =>
        SaveChannelAliasesReplaces(table, channelId, e.0, AliasInputs(v.0), v.1, aliasId(e.0), now, otherChannel, modelId);
    }
  }

  // ---------------------------------------------------------------------
  // The routes as functions of the tables.
  // ---------------------------------------------------------------------

  datatype PostRequest = PostRequest(siteMode: string, user: User, body: Option<Body>, hostname: string,
                                     blocked: seq<BlockedUrl>, sites: seq<Site>, channelId: string,
                                     violationId: string, now: string, aliasId: string -> nat -> string)

  /** The `channels` row a contribution inserts; `rate_limit` is not bound and keeps its default, 0. */
  function NewChannel(req: PostRequest, b: Body, status: string): ChannelRow
    requires b.name.Some? && b.baseUrl.Some?
  {
    ChannelRow(req.channelId, Trim(b.name.value), Trim(b.baseUrl.value), Trim(b.apiKey.GetOr("")), b.weight.GetOr(1),
               status, 0, if b.models.Some? then ArrayForm(b.models.value) else Absent, b.apiFormat.GetOr("openai"),
               if Truthy(b.customHeaders) then b.customHeaders else None, Some(req.user.id),
               if b.chargeEnabled == Some(true) then 1 else 0, req.now, req.now)
  }

  function NewViolation(req: PostRequest, b: Body, entry: BlockedUrl): Violation
    requires b.baseUrl.Some?
  {
    Violation(req.violationId, req.user.id, req.user.name,
              if Truthy(req.user.linuxdoUsername) then req.user.linuxdoUsername else None,
              Trim(b.baseUrl.value), req.hostname, entry.siteId, entry.siteName, req.now)
  }

  /** `POST /`. */
  function Post(s: State, req: PostRequest): (State, Reply)
  {
    if req.siteMode != "shared" then (s, SharedOnly)
    else if req.body.None? || !Truthy(req.body.value.name) || !Truthy(req.body.value.baseUrl) then
      (s, Failure(400, "missing_fields", "name, base_url required"))
    else
      var b := req.body.value;
      match Admit(req.hostname, req.blocked, req.sites)
      case Refused(entry) =>
        (s.(violations := s.violations + [NewViolation(req, b, entry)]),
         Failure(403, "hostname_blocked", "该 API 地址已被站点维护者封禁"))
      case Admitted(status) =>
        var aliases := if b.modelAliases.None? then s.channelAliases
                       else SaveEntries(s.channelAliases, req.channelId, ModelIds(b.models.GetOr([])),
                                        b.modelAliases.value, true, req.aliasId, req.now);
        (State(s.channels + [NewChannel(req, b, status)], s.violations, aliases),
         Created(req.channelId, status, if status == "pending" then Some(PendingMessage) else None))
  }

  /** `SELECT … WHERE id = ? AND contributed_by = ?` with `.first()`, as an index. */
  function Owned(channels: seq<ChannelRow>, channelId: string, userId: string): (r: Option<nat>)
    ensures r.Some? ==> r.value < |channels| && channels[r.value].id == channelId
                        && channels[r.value].contributedBy == Some(userId)
    ensures r.None? <==> forall k :: 0 <= k < |channels| ==>
      !(channels[k].id == channelId && channels[k].contributedBy == Some(userId))
  {
    if channels == [] then None
    else if channels[0].id == channelId && channels[0].contributedBy == Some(userId) then Some(0)
    else
      var rest := Owned(channels[1..], channelId, userId);
      assert forall k :: 1 <= k < |channels| ==> channels[1..][k - 1] == channels[k];
      if rest.None? then None else Some(rest.value + 1)
  }

  predicate IsOwned(row: ChannelRow, channelId: string, userId: string) {
    row.id == channelId && row.contributedBy == Some(userId)
  }

  datatype PatchRequest = PatchRequest(siteMode: string, userId: string, channelId: string, body: Option<Body>,
                                       now: string, aliasId: string -> nat -> string)

  /** The values the UPDATE binds, computed from the first owned row and the body. */
  datatype Changes = Changes(name: string, baseUrl: string, apiKey: string, apiFormat: string, modelsJson: ModelsJson,
                             chargeEnabled: int, updatedAt: string)

  function ChangesFor(existing: ChannelRow, b: Body, now: string): Changes
  {
    Changes(if Truthy(b.name) then Trim(b.name.value) else existing.name,
            if Truthy(b.baseUrl) then Trim(b.baseUrl.value) else existing.baseUrl,
            if Truthy(b.apiKey) then Trim(b.apiKey.value) else existing.apiKey,
            b.apiFormat.GetOr(existing.apiFormat),
            if b.models.Some? then ArrayForm(b.models.value) else existing.modelsJson,
            match b.chargeEnabled case Some(c) => (if c then 1 else 0) case None => existing.chargeEnabled,
            now)
  }

  function Apply(row: ChannelRow, c: Changes): ChannelRow {
    row.(name := c.name, baseUrl := c.baseUrl, apiKey := c.apiKey, apiFormat := c.apiFormat, modelsJson := c.modelsJson,
         chargeEnabled := c.chargeEnabled, updatedAt := c.updatedAt)
  }

  /** `UPDATE channels SET … WHERE id = ? AND contributed_by = ?`. */
  function UpdateOwned(channels: seq<ChannelRow>, channelId: string, userId: string, c: Changes): (r: seq<ChannelRow>)
    ensures |r| == |channels|
    ensures forall k :: 0 <= k < |channels| ==>
      r[k] == if IsOwned(channels[k], channelId, userId) then Apply(channels[k], c) else channels[k]
  {
    seq(|channels|, k requires 0 <= k < |channels| =>
      if IsOwned(channels[k], channelId, userId) then Apply(channels[k], c) else channels[k])
  }

  /**
   * The model ids `JSON.parse(modelsJson).map(…)` yields for an alias save,
   * or `None` where it throws: the column holds something other than an array.
   */
  function AliasModelIds(mj: ModelsJson): Option<seq<string>>
  {
    match mj
    case Absent => Some([])
    case ArrayForm(items) => Some(ModelIds(items))
    case _ => None
  }

  /** `PATCH /:id`. */
  function Patch(s: State, req: PatchRequest): (State, Reply)
  {
    if req.siteMode != "shared" then (s, SharedOnly)
    else
      match Owned(s.channels, req.channelId, req.userId)
      case None => (s, Failure(404, "channel_not_found", "channel_not_found"))
      case Some(i) =>
        if req.body.None? then (s, Failure(400, "missing_body", "missing_body"))
        else
          var b := req.body.value;
          var c := ChangesFor(s.channels[i], b, req.now);
          var s1 := s.(channels := UpdateOwned(s.channels, req.channelId, req.userId, c));
          if b.modelAliases.None? then (s1, Done)
          else
            match AliasModelIds(c.modelsJson)
            case None => (s1, Crashed)
            case Some(ids) =>
              (s1.(channelAliases := SaveEntries(s.channelAliases, req.channelId, ids, b.modelAliases.value, false,
                                                 req.aliasId, req.now)), Done)
  }

  /** `DELETE FROM channels WHERE id = ? AND contributed_by = ?`. */
  function DeleteOwned(channels: seq<ChannelRow>, channelId: string, userId: string): (r: seq<ChannelRow>)
    ensures forall row :: row in r <==> row in channels && !IsOwned(row, channelId, userId)
  {
    if channels == [] then []
    else (if IsOwned(channels[0], channelId, userId) then [] else [channels[0]])
         + DeleteOwned(channels[1..], channelId, userId)
  }

  /** `DELETE /:id`. */
  function Delete(s: State, siteMode: string, userId: string, channelId: string): (State, Reply)
  {
    if siteMode != "shared" then (s, SharedOnly)
    else if Owned(s.channels, channelId, userId).None? then (s, Failure(404, "channel_not_found", "channel_not_found"))
    else (s.(channels := DeleteOwned(s.channels, channelId, userId)), Done)
  }

  // ---------------------------------------------------------------------
  // What the routes promise.
  // ---------------------------------------------------------------------

  /** Outside shared mode every route answers 403 `shared_mode_only` and changes nothing. */
  lemma SharedModeOnly(s: State, post: PostRequest, patch: PatchRequest, userId: string, channelId: string)
    requires post.siteMode != "shared" && patch.siteMode != "shared"
    ensures Post(s, post) == (s, Failure(403, "shared_mode_only", "shared_mode_only"))
    ensures Patch(s, patch) == (s, Failure(403, "shared_mode_only", "shared_mode_only"))
    ensures forall mode :: mode != "shared" ==>
      Delete(s, mode, userId, channelId) == (s, Failure(403, "shared_mode_only", "shared_mode_only"))
  {
  }

  /** A contribution without a truthy name or base URL is refused with 400 and changes nothing. */
  lemma MissingFieldsRefused(s: State, req: PostRequest)
    requires req.siteMode == "shared"
    requires req.body.None? || !Truthy(req.body.value.name) || !Truthy(req.body.value.baseUrl)
    ensures Post(s, req).0 == s && Post(s, req).1.Failure? && Post(s, req).1.httpStatus == 400
  {
  }

  /**
   * A blocked hostname records exactly one violation naming the matched
   * entry's site and answers 403; no channel and no alias is written.
   */
  lemma BlockedRecordsOneViolation(s: State, req: PostRequest)
    requires req.siteMode == "shared" && req.body.Some? && Truthy(req.body.value.name) && Truthy(req.body.value.baseUrl)
    requires req.hostname != ""
    requires exists j :: 0 <= j < |req.blocked| && HostnameMatches(req.hostname, req.blocked[j].hostname)
    ensures Post(s, req).0.channels == s.channels
    ensures Post(s, req).0.channelAliases == s.channelAliases
    ensures |Post(s, req).0.violations| == |s.violations| + 1
    ensures Post(s, req).0.violations[..|s.violations|] == s.violations
    ensures var v := Post(s, req).0.violations[|s.violations|];
      v.matchedHostname == req.hostname && v.attemptedBaseUrl == Trim(req.body.value.baseUrl.value)
      && exists j :: 0 <= j < |req.blocked| && v.siteId == req.blocked[j].siteId
                     && HostnameMatches(req.hostname, req.blocked[j].hostname)
    ensures Post(s, req).1 == Failure(403, "hostname_blocked", "该 API 地址已被站点维护者封禁")
  {
    AdmissionRule(req.hostname, req.blocked, req.sites);
    var entry := Admit(req.hostname, req.blocked, req.sites).entry;
    assert Post(s, req).0.violations == s.violations + [NewViolation(req, req.body.value, entry)];
  }

  /**
   * An admitted contribution appends one channel row, owned by the user,
   * with the admitted status, and records no violation; the reply carries
   * the approval message exactly when the status is "pending".
   */
  lemma AdmittedInsertsOneChannel(s: State, req: PostRequest)
    requires req.siteMode == "shared" && req.body.Some? && Truthy(req.body.value.name) && Truthy(req.body.value.baseUrl)
    requires Admit(req.hostname, req.blocked, req.sites).Admitted?
    ensures var status := Admit(req.hostname, req.blocked, req.sites).status;
      && Post(s, req).0.channels == s.channels + [NewChannel(req, req.body.value, status)]
      && Post(s, req).0.violations == s.violations
      && NewChannel(req, req.body.value, status).contributedBy == Some(req.user.id)
      && NewChannel(req, req.body.value, status).status == status
      && (status == "pending" || status == "active")
      && Post(s, req).1 == Created(req.channelId, status, if status == "pending" then Some(PendingMessage) else None)
  {
    AdmissionRule(req.hostname, req.blocked, req.sites);
  }

  /**
   * On contribution, a model's aliases are saved only when the model is in
   * the channel's `models` and its alias list is non-empty: otherwise its
   * rows are untouched. Other channels' rows never change.
   */
  lemma ContributedAliases(s: State, req: PostRequest, modelId: string, otherChannel: string)
    requires req.siteMode == "shared" && req.body.Some? && Truthy(req.body.value.name) && Truthy(req.body.value.baseUrl)
    requires Admit(req.hostname, req.blocked, req.sites).Admitted?
    requires req.body.value.modelAliases.Some?
    ensures var after := Post(s, req).0.channelAliases;
      var l := LastApplied(ModelIds(req.body.value.models.GetOr([])), req.body.value.modelAliases.value, modelId, true);
      && (l.None? ==> RowsOfPair(after, req.channelId, modelId) == RowsOfPair(s.channelAliases, req.channelId, modelId))
      && (l.Some? ==> l.value.0 != [] && Holds(after, req.channelId, modelId, l.value.0, l.value.1))
      && (modelId !in ModelIds(req.body.value.models.GetOr([])) ==> l.None?)
      && (otherChannel != req.channelId ==>
            RowsOfPair(after, otherChannel, modelId) == RowsOfPair(s.channelAliases, otherChannel, modelId))
  {
    var b := req.body.value;
    SaveEntriesEffect(s.channelAliases, req.channelId, ModelIds(b.models.GetOr([])), b.modelAliases.value, true,
                      req.aliasId, req.now, modelId);
    if otherChannel != req.channelId {
      SaveEntriesKeepsOtherChannels(s.channelAliases, req.channelId, ModelIds(b.models.GetOr([])),
                                    b.modelAliases.value, true, req.aliasId, req.now, otherChannel, modelId);
    }
  }

  /** Updating or deleting a channel the user does not own answers 404 and changes nothing. */
  lemma NotOwnedIsNotFound(s: State, req: PatchRequest, siteMode: string, userId: string, channelId: string)
    requires req.siteMode == "shared" && siteMode == "shared"
    requires forall k :: 0 <= k < |s.channels| ==> !IsOwned(s.channels[k], req.channelId, req.userId)
    requires forall k :: 0 <= k < |s.channels| ==> !IsOwned(s.channels[k], channelId, userId)
    ensures Patch(s, req) == (s, Failure(404, "channel_not_found", "channel_not_found"))
    ensures Delete(s, siteMode, userId, channelId) == (s, Failure(404, "channel_not_found", "channel_not_found"))
  {
  }

  /**
   * An update rewrites only the user's rows with that id; every other row
   * stays as it was.
   */
  lemma UpdateTouchesOnlyOwned(s: State, req: PatchRequest, k: nat)
    requires k < |s.channels| && !IsOwned(s.channels[k], req.channelId, req.userId)
    ensures |Patch(s, req).0.channels| == |s.channels|
    ensures Patch(s, req).0.channels[k] == s.channels[k]
  {
  }

  /**
   * On update, every entry for a model the channel lists replaces that
   * model's rows, an absent or empty list clearing them; the last such
   * entry wins. Models not listed keep their rows.
   */
  lemma UpdatedAliases(s: State, req: PatchRequest, modelId: string)
    requires req.siteMode == "shared" && req.body.Some? && req.body.value.modelAliases.Some?
    requires Owned(s.channels, req.channelId, req.userId).Some?
    requires AliasModelIds(ChangesFor(s.channels[Owned(s.channels, req.channelId, req.userId).value], req.body.value,
                                      req.now).modelsJson).Some?
    ensures var ids := AliasModelIds(ChangesFor(s.channels[Owned(s.channels, req.channelId, req.userId).value],
                                                req.body.value, req.now).modelsJson).value;
      var entries := req.body.value.modelAliases.value;
      var after := Patch(s, req).0.channelAliases;
      var l := LastApplied(ids, entries, modelId, false);
      && (modelId in ids && modelId in Grouping.KeysOf(entries) ==> l.Some? && Holds(after, req.channelId, modelId, l.value.0, l.value.1))
      && (modelId !in ids ==> RowsOfPair(after, req.channelId, modelId) == RowsOfPair(s.channelAliases, req.channelId, modelId))
  {
    var c := ChangesFor(s.channels[Owned(s.channels, req.channelId, req.userId).value], req.body.value, req.now);
    SaveEntriesEffect(s.channelAliases, req.channelId, AliasModelIds(c.modelsJson).value,
                      req.body.value.modelAliases.value, false, req.aliasId, req.now, modelId);
  }

  /**
   * Deleting removes exactly the user's rows with that id and keeps every
   * other row; the channel's alias rows are not deleted.
   */
  lemma DeleteRemovesOnlyOwned(s: State, userId: string, channelId: string)
    requires Owned(s.channels, channelId, userId).Some?
    ensures var after := Delete(s, "shared", userId, channelId).0;
      && (forall row :: row in after.channels <==> row in s.channels && !IsOwned(row, channelId, userId))
      && after.channelAliases == s.channelAliases && after.violations == s.violations
  {
  }

  // ---------------------------------------------------------------------
  // The listing.
  // ---------------------------------------------------------------------

  /** `SELECT … FROM channels WHERE contributed_by = ?`, in table order. */
  function Contributed(channels: seq<ChannelRow>, userId: string): (r: seq<ChannelRow>)
    ensures forall row :: row in r <==> row in channels && row.contributedBy == Some(userId)
  {
    if channels == [] then []
    else (if channels[0].contributedBy == Some(userId) then [channels[0]] else []) + Contributed(channels[1..], userId)
  }

  function Ids(channels: seq<ChannelRow>): (r: seq<string>)
    ensures |r| == |channels| && forall k :: 0 <= k < |channels| ==> r[k] == channels[k].id
  {
    seq(|channels|, k requires 0 <= k < |channels| => channels[k].id)
  }

  /** `… FROM channel_model_aliases WHERE channel_id IN (batch)`, in table order. */
  function InBatch(table: seq<ChannelAliasRow>, batch: seq<string>): seq<ChannelAliasRow>
  {
    if table == [] then []
    else (if table[0].channelId in batch then [table[0]] else []) + InBatch(table[1..], batch)
  }

  lemma {:induction false} InBatchRows(table: seq<ChannelAliasRow>, batch: seq<string>, channelId: string, modelId: string)
    ensures RowsOfPair(InBatch(table, batch), channelId, modelId)
         == if channelId in batch then RowsOfPair(table, channelId, modelId) else []
  {
    if table != [] {
      InBatchRows(table[1..], batch, channelId, modelId);
      var head := if table[0].channelId in batch then [table[0]] else [];
      RowsOfPairAppend(head, InBatch(table[1..], batch), channelId, modelId);
    }
  }

  function AliasTexts(rows: seq<ChannelAliasRow>): (r: seq<string>)
    ensures |r| == |rows| && forall k :: 0 <= k < |rows| ==> r[k] == rows[k].alias
  {
    seq(|rows|, k requires 0 <= k < |rows| => rows[k].alias)
  }

  predicate AnyAliasOnly(rows: seq<ChannelAliasRow>) {
    exists k :: 0 <= k < |rows| && rows[k].aliasOnly == 1
  }

  /** An entry after pushing `rows` onto it (creating it if absent). */
  function Merge(entry: Option<AliasConfig>, rows: seq<ChannelAliasRow>): Option<AliasConfig>
  {
    if rows == [] then entry
    else
      var c := entry.GetOr(AliasConfig([], false));
      Some(AliasConfig(c.aliases + AliasTexts(rows), c.aliasOnly || AnyAliasOnly(rows)))
  }

  lemma AnyAliasOnlySnoc(rows: seq<ChannelAliasRow>, row: ChannelAliasRow)
    ensures AnyAliasOnly(rows + [row]) <==> AnyAliasOnly(rows) || AnyAliasOnly([row])
  {
    var all := rows + [row];
    if AnyAliasOnly(all) {
      var k :| 0 <= k < |all| && all[k].aliasOnly == 1;
      if k < |rows| {
        assert rows[k] == all[k];
      } else {
        assert [row][0] == all[k];
      }
    }
    if AnyAliasOnly(rows) {
      var k :| 0 <= k < |rows| && rows[k].aliasOnly == 1;
      assert all[k] == rows[k];
    }
    if AnyAliasOnly([row]) {
      assert all[|rows|] == [row][0];
    }
  }

  lemma MergeSnoc(entry: Option<AliasConfig>, rows: seq<ChannelAliasRow>, row: ChannelAliasRow)
    ensures Merge(entry, rows + [row]) == Merge(Merge(entry, rows), [row])
  {
    AnyAliasOnlySnoc(rows, row);
    if rows == [] {
      assert rows + [row] == [row];
    } else {
      var c := entry.GetOr(AliasConfig([], false));
      assert AliasTexts(rows + [row]) == AliasTexts(rows) + AliasTexts([row]);
      assert Merge(entry, rows).value == AliasConfig(c.aliases + AliasTexts(rows), c.aliasOnly || AnyAliasOnly(rows));
      assert c.aliases + AliasTexts(rows + [row]) == (c.aliases + AliasTexts(rows)) + AliasTexts([row]);
    }
  }

  /** One row pushed onto the nested map, as the loop body does it. */
  function Pushed(m: map<string, map<string, AliasConfig>>, row: ChannelAliasRow): map<string, map<string, AliasConfig>>
  {
    var chMap := if row.channelId in m then m[row.channelId] else map[];
    var cfg := if row.modelId in chMap then chMap[row.modelId] else AliasConfig([], false);
    m[row.channelId := chMap[row.modelId := AliasConfig(cfg.aliases + [row.alias], cfg.aliasOnly || row.aliasOnly == 1)]]
  }

  lemma PushedLookup(m: map<string, map<string, AliasConfig>>, row: ChannelAliasRow, ch: string, md: string)
    ensures Lookup(Pushed(m, row), ch, md) == Merge(Lookup(m, ch, md), if OfPair(row, ch, md) then [row] else [])
  {
    if OfPair(row, ch, md) {
      assert AliasTexts([row]) == [row.alias];
      assert AnyAliasOnly([row]) <==> [row][0].aliasOnly == 1;
    }
  }

  lemma RowsOfPairSnoc(rows: seq<ChannelAliasRow>, row: ChannelAliasRow, channelId: string, modelId: string)
    ensures RowsOfPair(rows + [row], channelId, modelId)
         == RowsOfPair(rows, channelId, modelId) + (if OfPair(row, channelId, modelId) then [row] else [])
  {
    RowsOfPairAppend(rows, [row], channelId, modelId);
    assert [row][1..] == [];
  }

  function Lookup(m: map<string, map<string, AliasConfig>>, channelId: string, modelId: string): Option<AliasConfig>
  {
    if channelId in m && modelId in m[channelId] then Some(m[channelId][modelId]) else None
  }

  /** The body of the alias-row loop: push each row's alias under its channel and model. */
  method GroupRows(m0: map<string, map<string, AliasConfig>>, rows: seq<ChannelAliasRow>)
    returns (m: map<string, map<string, AliasConfig>>)
    requires forall ch :: ch in m0 ==> m0[ch] != map[]
    ensures forall ch, md :: Lookup(m, ch, md) == Merge(Lookup(m0, ch, md), RowsOfPair(rows, ch, md))
    ensures forall ch :: ch in m ==> m[ch] != map[]
  {
    m := m0;
    for j := 0 to |rows|
      invariant forall ch, md :: Lookup(m, ch, md) == Merge(Lookup(m0, ch, md), RowsOfPair(rows[..j], ch, md))
      invariant forall ch :: ch in m ==> m[ch] != map[]
    {
      var row := rows[j];
      var chMap := if row.channelId in m then m[row.channelId] else map[];
      var cfg := if row.modelId in chMap then chMap[row.modelId] else AliasConfig([], false);
      cfg := cfg.(aliases := cfg.aliases + [row.alias]);
      if row.aliasOnly == 1 {
        cfg := cfg.(aliasOnly := true);
      }
      ghost var before := m;
      m := m[row.channelId := chMap[row.modelId := cfg]];
      assert m == Pushed(before, row);
      assert rows[..j + 1] == rows[..j] + [row];
      forall ch, md
        ensures Lookup(m, ch, md) == Merge(Lookup(m0, ch, md), RowsOfPair(rows[..j + 1], ch, md))
      {
        RowsOfPairSnoc(rows[..j], row, ch, md);
        PushedLookup(before, row, ch, md);
        if OfPair(row, ch, md) {
          MergeSnoc(Lookup(m0, ch, md), RowsOfPair(rows[..j], ch, md), row);
        } else {
          assert RowsOfPair(rows[..j + 1], ch, md) == RowsOfPair(rows[..j], ch, md) + [];
          assert RowsOfPair(rows[..j], ch, md) + [] == RowsOfPair(rows[..j], ch, md);
        }
      }
    }
    assert rows[..|rows|] == rows;
  }

  /**
   * The batch loop of `GET /`: query the alias rows of up to 80 channels at a
   * time and group them. The result is as if all rows of the channels had
   * been grouped at once: each (channel, model) pair with rows gets its
   * aliases in row order, `alias_only` set iff some row is flagged.
   */
  method ListChannelAliases(table: seq<ChannelAliasRow>, channelIds: seq<string>)
    returns (m: map<string, map<string, AliasConfig>>)
    requires Grouping.Distinct(channelIds)
    ensures forall ch, md ::
              Lookup(m, ch, md) == if ch in channelIds then Merge(None, RowsOfPair(table, ch, md)) else None
    ensures forall ch :: ch in m ==> m[ch] != map[]
  {
    m := map[];
    if |channelIds| > 0 {
      var i := 0;
      while i < |channelIds|
        invariant 0 <= i
        invariant forall ch, md ::
                    Lookup(m, ch, md)
                    == if ch in channelIds[..Min(i, |channelIds|)] then Merge(None, RowsOfPair(table, ch, md)) else None
        invariant forall ch :: ch in m ==> m[ch] != map[]
        decreases |channelIds| - i
      {
        var end := Min(i + BatchSize, |channelIds|);
        var batch := channelIds[i..end];
        ghost var before := m;
        m := GroupRows(m, InBatch(table, batch));
        assert channelIds[..end] == channelIds[..i] + batch;
        forall ch, md
          ensures Lookup(m, ch, md) == if ch in channelIds[..end] then Merge(None, RowsOfPair(table, ch, md)) else None
        {
          InBatchRows(table, batch, ch, md);
          if ch in batch {
            var p :| i <= p < end && channelIds[p] == ch;
            assert ch !in channelIds[..i];
          }
        }
        i := i + BatchSize;
      }
      assert channelIds[..Min(i, |channelIds|)] == channelIds;
    }
  }

  /**
   * `GET /`: the user's own channels, and their aliases grouped per
   * (channel, model). Channel ids are the table's primary key.
   */
  method ListUserChannels(s: State, siteMode: string, userId: string) returns (reply: Reply)
    requires Grouping.Distinct(Ids(Contributed(s.channels, userId)))
    ensures siteMode != "shared" ==> reply == SharedOnly
    ensures siteMode == "shared" ==> reply.Listed? && reply.channels == Contributed(s.channels, userId)
    ensures siteMode == "shared" ==>
              forall ch, md ::
                Lookup(reply.aliasesByChannel, ch, md)
                == if ch in Ids(Contributed(s.channels, userId)) then Merge(None, RowsOfPair(s.channelAliases, ch, md))
                   else None
    ensures siteMode == "shared" ==> forall ch :: ch in reply.aliasesByChannel ==> reply.aliasesByChannel[ch] != map[]
  {
    if siteMode != "shared" {
      return SharedOnly;
    }
    var channels := Contributed(s.channels, userId);
    var grouped := ListChannelAliases(s.channelAliases, Ids(channels));
    reply := Listed(channels, grouped);
  }

  /** A listed entry holds the pair's aliases in row order and is alias-only iff some row is. */
  lemma ListedEntryMeaning(rows: seq<ChannelAliasRow>)
    requires rows != []
    ensures Merge(None, rows).Some?
    ensures |Merge(None, rows).value.aliases| == |rows|
    ensures forall k :: 0 <= k < |rows| ==> Merge(None, rows).value.aliases[k] == rows[k].alias
    ensures Merge(None, rows).value.aliasOnly <==> exists k :: 0 <= k < |rows| && rows[k].aliasOnly == 1
  {
  }

  // ---------------------------------------------------------------------
  // The tables, changed in place.
  // ---------------------------------------------------------------------

  class Registry {
    var channels: seq<ChannelRow>
    var violations: seq<Violation>
    const aliases: AliasTables

    constructor(channels: seq<ChannelRow>, violations: seq<Violation>, aliases: AliasTables)
      ensures this.channels == channels && this.violations == violations && this.aliases == aliases
    {
      this.channels := channels;
      this.violations := violations;
      this.aliases := aliases;
    }

    function Snapshot(): State
      reads this, aliases
    {
      State(channels, violations, aliases.channelAliases)
    }

    /** The `for … of Object.entries(body.model_aliases)` loop of POST (`onCreate`) or PATCH. */
    method SaveAliasEntries(channelId: string, modelIds: seq<string>, entries: seq<(string, AliasRequest)>,
                            onCreate: bool, aliasId: string -> nat -> string, now: string)
      modifies aliases
      ensures aliases.channelAliases
           == SaveEntries(old(aliases.channelAliases), channelId, modelIds, entries, onCreate, aliasId, now)
      ensures aliases.modelAliases == old(aliases.modelAliases)
    {
      for j := 0 to |entries|
        invariant SaveEntries(aliases.channelAliases, channelId, modelIds, entries[j..], onCreate, aliasId, now)
               == SaveEntries(old(aliases.channelAliases), channelId, modelIds, entries, onCreate, aliasId, now)
        invariant aliases.modelAliases == old(aliases.modelAliases)
      {
        var modelId := entries[j].0;
        var cfg := entries[j].1;
        assert entries[j..][0] == entries[j] && entries[j..][1..] == entries[j + 1..];
        if modelId in modelIds {
          if !onCreate || (cfg.aliases.Some? && |cfg.aliases.value| > 0) {
            aliases.SaveChannelAliases(channelId, modelId, AliasInputs(cfg.aliases.GetOr([])),
                                       cfg.aliasOnly.GetOr(false), aliasId(modelId), now);
          }
        }
      }
    }

    /** `POST /`. */
    method Contribute(req: PostRequest) returns (reply: Reply)
      modifies this, aliases
      ensures (Snapshot(), reply) == Post(old(Snapshot()), req)
      ensures aliases.modelAliases == old(aliases.modelAliases)
    {
      if req.siteMode != "shared" {
        return SharedOnly;
      }
      if req.body.None? || !Truthy(req.body.value.name) || !Truthy(req.body.value.baseUrl) {
        return Failure(400, "missing_fields", "name, base_url required");
      }
      var b := req.body.value;
      var channelStatus := "active";
      if req.hostname != "" {
        var blocked := FirstBlocked(req.hostname, req.blocked);
        if blocked.Some? {
          violations := violations + [NewViolation(req, b, req.blocked[blocked.value])];
          return Failure(403, "hostname_blocked", "该 API 地址已被站点维护者封禁");
        }
        if MatchesAnySite(req.hostname, req.sites) {
          channelStatus := "pending";
        }
      }
      channels := channels + [NewChannel(req, b, channelStatus)];
      if b.modelAliases.Some? {
        SaveAliasEntries(req.channelId, ModelIds(b.models.GetOr([])), b.modelAliases.value, true, req.aliasId, req.now);
      }
      reply := Created(req.channelId, channelStatus, if channelStatus == "pending" then Some(PendingMessage) else None);
    }

    /** `PATCH /:id`. */
    method Update(req: PatchRequest) returns (reply: Reply)
      modifies this, aliases
      ensures (Snapshot(), reply) == Patch(old(Snapshot()), req)
      ensures aliases.modelAliases == old(aliases.modelAliases)
    {
      if req.siteMode != "shared" {
        return SharedOnly;
      }
      var existing := Owned(channels, req.channelId, req.userId);
      if existing.None? {
        return Failure(404, "channel_not_found", "channel_not_found");
      }
      if req.body.None? {
        return Failure(400, "missing_body", "missing_body");
      }
      var b := req.body.value;
      var c := ChangesFor(channels[existing.value], b, req.now);
      channels := UpdateOwned(channels, req.channelId, req.userId, c);
      if b.modelAliases.Some? {
        var ids := AliasModelIds(c.modelsJson);
        if ids.None? {
          return Crashed;
        }
        SaveAliasEntries(req.channelId, ids.value, b.modelAliases.value, false, req.aliasId, req.now);
      }
      reply := Done;
    }

    /** `DELETE /:id`. */
    method Remove(siteMode: string, userId: string, channelId: string) returns (reply: Reply)
      modifies this
      ensures (Snapshot(), reply) == Delete(old(Snapshot()), siteMode, userId, channelId)
    {
      if siteMode != "shared" {
        return SharedOnly;
      }
      if Owned(channels, channelId, userId).None? {
        return Failure(404, "channel_not_found", "channel_not_found");
      }
      channels := DeleteOwned(channels, channelId, userId);
      reply := Done;
    }
  }
}

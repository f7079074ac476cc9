/**
 * The admin channel routes (apps/worker/src/routes/channels.ts): listing
 * every channel with the global aliases of the models they advertise,
 * creation with an optional requested id, update, delete, and the
 * connectivity test that may fill in an empty model list.
 *
 * The tables are sequences of rows; `ORDER BY` clauses are not modelled,
 * so query results come in table order. The helpers of
 * services/channel-repo.ts and services/channel-testing.ts are not part of
 * this model: `channelExists` and `getChannelById` are read as lookups by
 * id, `insertChannel` as an append, `updateChannel` and `deleteChannel` as
 * rewriting and removing the rows with that id, `fetchChannelModels` is a
 * function parameter and the record passed to `updateChannelTestResult`
 * is returned. `safeJsonParse(x, fallback)` is read as `JSON.parse` with
 * the fallback for a null or malformed column.
 */
module Channels {
  import opened Wrappers
  import opened Text
  import opened Url
  import opened ModelAliases
  import opened ChannelCommon
  import Grouping
  import Token
  import Keys

  /** A JSON id field: a string or a number. */
  datatype IdValue = StrId(s: string) | NumId(n: int)

  /** `custom_headers`: absent, `null`, or a string. */
  datatype HeaderField = Unset | NullValue | Given(text: string)

  /** One value of `model_aliases`: `aliases` and `alias_only`, each possibly absent. */
  datatype AliasConfigIn = AliasConfigIn(aliases: Option<seq<AliasInput>>, aliasOnly: Option<bool>)

  /** `ChannelPayload`; `models` is present only when it is an array. */
  datatype ChannelPayload = ChannelPayload(
    id: Option<IdValue>, channelIdSnake: Option<IdValue>, channelIdCamel: Option<IdValue>,
    name: Option<string>, baseUrl: Option<string>, apiKey: Option<string>, weight: Option<int>,
    status: Option<string>, rateLimit: Option<int>, models: Option<seq<ModelItem>>, apiFormat: Option<string>,
    customHeaders: HeaderField, modelAliases: Option<seq<(string, AliasConfigIn)>>)

  /** The tables the routes write: `channels` and `model_aliases`. */
  datatype State = State(channels: seq<ChannelRow>, modelAliases: seq<AliasRow>)

  /** The `AliasConfig` the listing returns for a model. */
  datatype ModelAliasConfig = ModelAliasConfig(aliases: seq<AliasInput>, aliasOnly: bool)

  /** The models the test route answers with: the upstream's names, or the stored column parsed. */
  datatype TestModels = Reported(names: seq<string>) | Stored(value: ModelsJson)

  datatype Reply =
    | Failure(httpStatus: int, error: string, message: string)
    | Created(id: string)
    | Done
    | TestResult(models: TestModels)

  // ---------------------------------------------------------------------
  // resolveChannelId
  // ---------------------------------------------------------------------

  /** `a ?? b ?? c`. */
  function FirstPresent(a: Option<IdValue>, b: Option<IdValue>, c: Option<IdValue>): Option<IdValue>
  {
    if a.Some? then a else if b.Some? then b else c
  }

  /** JavaScript falsiness of a string or a number: `""` and `0`. */
  predicate Falsy(v: IdValue) {
    match v
    case StrId(s) => s == ""
    case NumId(n) => n == 0
  }

  /** `String(v)`. */
  function Stringify(v: IdValue): string {
    match v
    case StrId(s) => s
    case NumId(n) => IntToString(n)
  }

  /** `resolveChannelId`. */
  function ResolveChannelId(body: ChannelPayload): (r: Option<string>)
    ensures r.Some? ==> r.value != "" && !IsSpace(r.value[0]) && !IsSpace(r.value[|r.value| - 1])
  {
    var candidate := FirstPresent(body.id, body.channelIdSnake, body.channelIdCamel);
    if candidate.None? || Falsy(candidate.value) then None
    else
      var normalized := Trim(Stringify(candidate.value));
      if |normalized| > 0 then Some(normalized) else None
  }

  /**
   * The id is read from the first of `id`, `channel_id`, `channelId` that is
   * present, even when that one is empty: an empty or blank first field
   * yields no id whatever the later fields hold. A present id is the
   * trimmed text of that field.
   */
  lemma ResolveChannelIdRule(body: ChannelPayload)
    ensures body.id == Some(StrId("")) ==> ResolveChannelId(body).None?
    ensures body.id == Some(NumId(0)) ==> ResolveChannelId(body).None?
    ensures body.id.None? && body.channelIdSnake.Some? ==>
      ResolveChannelId(body) == ResolveChannelId(body.(channelIdCamel := None))
    ensures body.id.Some? ==>
      ResolveChannelId(body) == ResolveChannelId(body.(channelIdSnake := None, channelIdCamel := None))
    ensures body.id.None? && body.channelIdSnake.None? && body.channelIdCamel.None? ==> ResolveChannelId(body).None?
    ensures ResolveChannelId(body).Some? ==>
      exists v :: v in [body.id, body.channelIdSnake, body.channelIdCamel] && v.Some? && !Falsy(v.value)
                  && ResolveChannelId(body).value == Trim(Stringify(v.value))
  {
    var candidate := FirstPresent(body.id, body.channelIdSnake, body.channelIdCamel);
    if ResolveChannelId(body).Some? {
      assert candidate in [body.id, body.channelIdSnake, body.channelIdCamel];
    }
  }

  // ---------------------------------------------------------------------
  // GET /: model ids, batches and alias grouping.
  // ---------------------------------------------------------------------

  /** The array the collection loop walks for one row's `models_json`: the array, or the object's `data`. */
  function ListedItems(mj: ModelsJson): seq<ModelItem>
  {
    match mj
    case ArrayForm(items) => items
    case ObjectForm(data) => data.GetOr([])
    case _ => []
  }

  /** Every model id the rows advertise, row after row, with repeats. */
  function AllModelIds(rows: seq<ChannelRow>): seq<string>
  {
    if rows == [] then []
    else AllModelIds(rows[..|rows| - 1]) + ModelIds(ListedItems(rows[|rows| - 1].modelsJson))
  }

  lemma {:induction false} ModelIdsAppend(a: seq<ModelItem>, b: seq<ModelItem>)
    ensures ModelIds(a + b) == ModelIds(a) + ModelIds(b)
    decreases |a|
  {
    if a == [] {
      assert a + b == b;
    } else {
      assert (a + b)[0] == a[0];
      assert (a + b)[1..] == a[1..] + b;
      ModelIdsAppend(a[1..], b);
    }
  }

  lemma AllModelIdsSnoc(rows: seq<ChannelRow>, i: nat)
    requires i < |rows|
    ensures AllModelIds(rows[..i + 1]) == AllModelIds(rows[..i]) + ModelIds(ListedItems(rows[i].modelsJson))
  {
    assert rows[..i + 1][..i] == rows[..i];
  }

  lemma ModelIdsSnoc(items: seq<ModelItem>, j: nat)
    requires j < |items|
    ensures ModelIds(items[..j + 1])
         == ModelIds(items[..j]) + (if ItemId(items[j]) != "" then [ItemId(items[j])] else [])
  {
    ModelIdsAppend(items[..j], [items[j]]);
    assert items[..j + 1] == items[..j] + [items[j]];
    assert [items[j]][1..] == [];
  }

  /**
   * The collection loop: the distinct non-empty ids of every row's array (or
   * its object's `data`), in order of first appearance, as the `Set` keeps
   * them; rows without a column or with malformed JSON add nothing.
   */
  method CollectModelIds(rows: seq<ChannelRow>) returns (ids: seq<string>)
    ensures ids == Grouping.Dedup(AllModelIds(rows))
  {
    ids := [];
    for i := 0 to |rows|
      invariant ids == Grouping.Dedup(AllModelIds(rows[..i]))
    {
      AllModelIdsSnoc(rows, i);
      var mj := rows[i].modelsJson;
      if mj.Absent? || mj.Malformed? {
        assert AllModelIds(rows[..i]) + [] == AllModelIds(rows[..i]);
        continue;
      }
      ids := AddModelIds(ids, AllModelIds(rows[..i]), ListedItems(mj));
    }
    assert rows[..|rows|] == rows;
  }

  /** The inner loop over one row's array: each non-empty id not yet seen is added. */
  method AddModelIds(seen: seq<string>, prefix: seq<string>, arr: seq<ModelItem>) returns (ids: seq<string>)
    requires seen == Grouping.Dedup(prefix)
    ensures ids == Grouping.Dedup(prefix + ModelIds(arr))
  {
    ids := seen;
    assert prefix + ModelIds(arr[..0]) == prefix;
    for j := 0 to |arr|
      invariant ids == Grouping.Dedup(prefix + ModelIds(arr[..j]))
    {
      var id := ItemId(arr[j]);
      ModelIdsSnoc(arr, j);
      if id != "" {
        assert prefix + ModelIds(arr[..j + 1]) == (prefix + ModelIds(arr[..j])) + [id];
        Grouping.DedupSnoc(prefix + ModelIds(arr[..j]), id);
        if id !in ids {
          ids := ids + [id];
        }
      } else {
        assert prefix + ModelIds(arr[..j + 1]) == prefix + ModelIds(arr[..j]);
      }
    }
    assert arr[..|arr|] == arr;
  }

  /** Some row's array (or object `data`) has an element naming `x`. */
  predicate Advertised(rows: seq<ChannelRow>, x: string) {
    exists k, i :: 0 <= k < |rows| && 0 <= i < |ListedItems(rows[k].modelsJson)|
                   && ItemId(ListedItems(rows[k].modelsJson)[i]) == x
  }

  predicate Names(items: seq<ModelItem>, x: string) {
    exists i :: 0 <= i < |items| && ItemId(items[i]) == x
  }

  lemma AdvertisedSnoc(rows: seq<ChannelRow>, x: string)
    requires rows != []
    ensures Advertised(rows, x) <==>
      Advertised(rows[..|rows| - 1], x) || Names(ListedItems(rows[|rows| - 1].modelsJson), x)
  {
    var init := rows[..|rows| - 1];
    if Advertised(rows, x) {
      var k, i :| 0 <= k < |rows| && 0 <= i < |ListedItems(rows[k].modelsJson)|
                  && ItemId(ListedItems(rows[k].modelsJson)[i]) == x;
      if k < |init| {
        assert init[k] == rows[k];
      }
    }
    if Advertised(init, x) {
      var k, i :| 0 <= k < |init| && 0 <= i < |ListedItems(init[k].modelsJson)|
                  && ItemId(ListedItems(init[k].modelsJson)[i]) == x;
      assert rows[k] == init[k];
    }
  }

  lemma {:induction false} AllModelIdsMembers(rows: seq<ChannelRow>, x: string)
    ensures x in AllModelIds(rows) <==> x != "" && Advertised(rows, x)
    decreases |rows|
  {
    if rows != [] {
      AllModelIdsMembers(rows[..|rows| - 1], x);
      AdvertisedSnoc(rows, x);
    }
  }

  /**
   * A model id is collected exactly when it is non-empty and some row's
   * array (or object `data`) has an element naming it; none is collected
   * twice.
   */
  lemma CollectedIds(rows: seq<ChannelRow>, x: string)
    ensures Grouping.Distinct(Grouping.Dedup(AllModelIds(rows)))
    ensures x in Grouping.Dedup(AllModelIds(rows)) <==>
      x != "" && exists k, i :: 0 <= k < |rows| && 0 <= i < |ListedItems(rows[k].modelsJson)|
                                && ItemId(ListedItems(rows[k].modelsJson)[i]) == x
  {
    AllModelIdsMembers(rows, x);
  }

  /** `{ alias, is_primary: is_primary === 1 }` for each row. */
  function AliasEntries(rows: seq<AliasRow>): (r: seq<AliasInput>)
    ensures |r| == |rows|
    ensures forall k :: 0 <= k < |rows| ==> r[k] == AliasInput(rows[k].alias, rows[k].isPrimary == 1)
  {
    seq(|rows|, k requires 0 <= k < |rows| => AliasInput(rows[k].alias, rows[k].isPrimary == 1))
  }

  predicate AnyAliasOnly(rows: seq<AliasRow>) {
    exists k :: 0 <= k < |rows| && rows[k].aliasOnly == 1
  }

  /** A model's entry after pushing `rows` onto it (creating it if absent). */
  function Merge(entry: Option<ModelAliasConfig>, rows: seq<AliasRow>): Option<ModelAliasConfig>
  {
    if rows == [] then entry
    else
      var c := entry.GetOr(ModelAliasConfig([], false));
      Some(ModelAliasConfig(c.aliases + AliasEntries(rows), c.aliasOnly || AnyAliasOnly(rows)))
  }

  lemma AnyAliasOnlySnoc(rows: seq<AliasRow>, row: AliasRow)
    ensures AnyAliasOnly(rows + [row]) <==> AnyAliasOnly(rows) || row.aliasOnly == 1
  {
    var all := rows + [row];
    if AnyAliasOnly(all) {
      var k :| 0 <= k < |all| && all[k].aliasOnly == 1;
      if k < |rows| {
        assert rows[k] == all[k];
      }
    }
    if AnyAliasOnly(rows) {
      var k :| 0 <= k < |rows| && rows[k].aliasOnly == 1;
      assert all[k] == rows[k];
    }
    if row.aliasOnly == 1 {
      assert all[|rows|] == row;
    }
  }

  lemma MergeSnoc(entry: Option<ModelAliasConfig>, rows: seq<AliasRow>, row: AliasRow)
    ensures Merge(entry, rows + [row]) == Merge(Merge(entry, rows), [row])
  {
    AnyAliasOnlySnoc(rows, row);
    AnyAliasOnlySnoc([], row);
    assert [] + [row] == [row];
    if rows == [] {
      assert rows + [row] == [row];
    } else {
      var c := entry.GetOr(ModelAliasConfig([], false));
      assert AliasEntries(rows + [row]) == AliasEntries(rows) + AliasEntries([row]);
      assert Merge(entry, rows).value == ModelAliasConfig(c.aliases + AliasEntries(rows), c.aliasOnly || AnyAliasOnly(rows));
      assert c.aliases + AliasEntries(rows + [row]) == (c.aliases + AliasEntries(rows)) + AliasEntries([row]);
    }
  }

  function Lookup(m: map<string, ModelAliasConfig>, modelId: string): Option<ModelAliasConfig>
  {
    if modelId in m then Some(m[modelId]) else None
  }

  /** One row pushed onto the record, as the loop body does it. */
  function Pushed(m: map<string, ModelAliasConfig>, row: AliasRow): map<string, ModelAliasConfig>
  {
    var c := if row.modelId in m then m[row.modelId] else ModelAliasConfig([], false);
    m[row.modelId := ModelAliasConfig(c.aliases + [AliasInput(row.alias, row.isPrimary == 1)],
                                      c.aliasOnly || row.aliasOnly == 1)]
  }

  lemma PushedLookup(m: map<string, ModelAliasConfig>, row: AliasRow, modelId: string)
    ensures Lookup(Pushed(m, row), modelId) == Merge(Lookup(m, modelId), if row.modelId == modelId then [row] else [])
  {
    if row.modelId == modelId {
      assert AliasEntries([row]) == [AliasInput(row.alias, row.isPrimary == 1)];
      AnyAliasOnlySnoc([], row);
      assert [] + [row] == [row];
    }
  }

  lemma RowsOfModelSnoc(rows: seq<AliasRow>, row: AliasRow, modelId: string)
    ensures RowsOfModel(rows + [row], modelId)
         == RowsOfModel(rows, modelId) + (if row.modelId == modelId then [row] else [])
  {
    RowsOfModelAppend(rows, [row], modelId);
    assert [row][1..] == [];
  }

  /** The row loop of one batch: push each alias onto its model's entry. */
  method GroupRows(m0: map<string, ModelAliasConfig>, rows: seq<AliasRow>) returns (m: map<string, ModelAliasConfig>)
    ensures forall md :: Lookup(m, md) == Merge(Lookup(m0, md), RowsOfModel(rows, md))
  {
    m := m0;
    for j := 0 to |rows|
      invariant forall md :: Lookup(m, md) == Merge(Lookup(m0, md), RowsOfModel(rows[..j], md))
    {
      var row := rows[j];
      var c := if row.modelId in m then m[row.modelId] else ModelAliasConfig([], false);
      c := c.(aliases := c.aliases + [AliasInput(row.alias, row.isPrimary == 1)]);
      if row.aliasOnly == 1 {
        c := c.(aliasOnly := true);
      }
      ghost var before := m;
      m := m[row.modelId := c];
      assert m == Pushed(before, row);
      assert rows[..j + 1] == rows[..j] + [row];
      forall md
        ensures Lookup(m, md) == Merge(Lookup(m0, md), RowsOfModel(rows[..j + 1], md))
      {
        RowsOfModelSnoc(rows[..j], row, md);
        PushedLookup(before, row, md);
        if row.modelId == md {
          MergeSnoc(Lookup(m0, md), RowsOfModel(rows[..j], md), row);
        } else {
          assert RowsOfModel(rows[..j], md) + [] == RowsOfModel(rows[..j], md);
        }
      }
    }
    assert rows[..|rows|] == rows;
  }

  /** `… FROM model_aliases WHERE model_id IN (batch)`, in table order. */
  function InBatch(table: seq<AliasRow>, batch: seq<string>): seq<AliasRow>
  {
    if table == [] then []
    else (if table[0].modelId in batch then [table[0]] else []) + InBatch(table[1..], batch)
  }

  lemma {:induction false} InBatchRows(table: seq<AliasRow>, batch: seq<string>, modelId: string)
    ensures RowsOfModel(InBatch(table, batch), modelId) == if modelId in batch then RowsOfModel(table, modelId) else []
  {
    if table != [] {
      InBatchRows(table[1..], batch, modelId);
      var head := if table[0].modelId in batch then [table[0]] else [];
      RowsOfModelAppend(head, InBatch(table[1..], batch), modelId);
    }
  }

  /**
   * The batch loop: query the aliases of up to 80 model ids at a time and
   * group them. Each listed id with alias rows gets its aliases in row
   * order, `alias_only` set iff one of its rows is flagged; ids without
   * rows and ids not listed get no entry.
   */
  method ListModelAliases(table: seq<AliasRow>, ids: seq<string>) returns (m: map<string, ModelAliasConfig>)
    requires Grouping.Distinct(ids)
    ensures forall md :: Lookup(m, md) == if md in ids then Merge(None, RowsOfModel(table, md)) else None
  {
    m := map[];
    if |ids| > 0 {
      var i := 0;
      while i < |ids|
        invariant 0 <= i
        invariant forall md ::
                    Lookup(m, md) == if md in ids[..Min(i, |ids|)] then Merge(None, RowsOfModel(table, md)) else None
        decreases |ids| - i
      {
        var end := Min(i + BatchSize, |ids|);
        var batch := ids[i..end];
        m := GroupRows(m, InBatch(table, batch));
        assert ids[..end] == ids[..i] + batch;
        forall md
          ensures Lookup(m, md) == if md in ids[..end] then Merge(None, RowsOfModel(table, md)) else None
        {
          InBatchRows(table, batch, md);
          if md in batch {
            var p :| i <= p < end && ids[p] == md;
            assert md !in ids[..i];
          }
        }
        i := i + BatchSize;
      }
      assert ids[..Min(i, |ids|)] == ids;
    }
  }

  /** What the listing holds for a model: its aliases if some channel lists it. */
  function AliasListing(channels: seq<ChannelRow>, table: seq<AliasRow>, modelId: string): Option<ModelAliasConfig>
  {
    if modelId in AllModelIds(channels) then Merge(None, RowsOfModel(table, modelId)) else None
  }

  /** `GET /`: every channel, and the aliases of every model they advertise. */
  method ListChannels(s: State) returns (channels: seq<ChannelRow>, aliases: map<string, ModelAliasConfig>)
    ensures channels == s.channels
    ensures forall md :: Lookup(aliases, md) == AliasListing(s.channels, s.modelAliases, md)
  {
    channels := s.channels;
    var ids := CollectModelIds(channels);
    aliases := ListModelAliases(s.modelAliases, ids);
  }

  /** A listed entry holds the model's aliases in row order, and is alias-only iff one of its rows is. */
  lemma ListedEntryMeaning(rows: seq<AliasRow>)
    ensures Merge(None, rows).Some? <==> rows != []
    ensures rows != [] ==> Merge(None, rows).value.aliases == AliasEntries(rows)
    ensures rows != [] ==> (Merge(None, rows).value.aliasOnly <==> exists k :: 0 <= k < |rows| && rows[k].aliasOnly == 1)
  {
  }

  // ---------------------------------------------------------------------
  // Alias saves for POST and PATCH.
  // ---------------------------------------------------------------------

  /** The `saveAliasesForModel` call one entry makes: none for a model the channel does not list. */
  function SaveStep(table: seq<AliasRow>, modelIds: seq<string>, entry: (string, AliasConfigIn),
                    aliasId: string -> nat -> string, now: string): seq<AliasRow>
  {
    if entry.0 !in modelIds then table
    else WithoutModel(table, entry.0)
         + NewAliasRows(entry.0, entry.1.aliases.GetOr([]), entry.1.aliasOnly.GetOr(false), aliasId(entry.0), now)
  }

  /** The entries of `model_aliases` saved one after another, in object order. */
  function SaveEntries(table: seq<AliasRow>, modelIds: seq<string>, entries: seq<(string, AliasConfigIn)>,
                       aliasId: string -> nat -> string, now: string): seq<AliasRow>
    decreases |entries|
  {
    if entries == [] then table
    else SaveEntries(SaveStep(table, modelIds, entries[0], aliasId, now), modelIds, entries[1..], aliasId, now)
  }

  /** What the last entry for `modelId` saves, if the channel lists the model and some entry names it. */
  function LastSaved(modelIds: seq<string>, entries: seq<(string, AliasConfigIn)>, modelId: string)
    : (r: Option<(seq<AliasInput>, bool)>)
    ensures r.Some? <==> modelId in modelIds && modelId in Grouping.KeysOf(entries)
    decreases |entries|
  {
    if entries == [] then None
    else
      assert Grouping.KeysOf(entries) == [entries[0].0] + Grouping.KeysOf(entries[1..]);
      var later := LastSaved(modelIds, entries[1..], modelId);
      if later.Some? then later
      else if entries[0].0 == modelId && modelId in modelIds then
        Some((entries[0].1.aliases.GetOr([]), entries[0].1.aliasOnly.GetOr(false)))
      else None
  }

  /** The model's rows hold exactly `aliases`, in order, each flagged `aliasOnly`. */
  predicate Holds(table: seq<AliasRow>, modelId: string, aliases: seq<AliasInput>, aliasOnly: bool)
  {
    var rows := RowsOfModel(table, modelId);
    |rows| == |aliases|
    && forall k :: 0 <= k < |aliases| ==>
         rows[k].alias == aliases[k].alias && (rows[k].isPrimary == 1 <==> aliases[k].isPrimary)
         && (rows[k].aliasOnly == 1 <==> aliasOnly)
  }

  /**
   * After the saves, a model's rows are those of the last entry naming it
   * when the channel lists it, and untouched otherwise: entries for models
   * the channel does not list are ignored.
   */
  lemma {:induction false} SaveEntriesEffect(table: seq<AliasRow>, modelIds: seq<string>,
                                             entries: seq<(string, AliasConfigIn)>, aliasId: string -> nat -> string,
                                             now: string, modelId: string)
    ensures var after := SaveEntries(table, modelIds, entries, aliasId, now);
      match LastSaved(modelIds, entries, modelId)
      case None => RowsOfModel(after, modelId) == RowsOfModel(table, modelId)
      case Some(v) => Holds(after, modelId, v.0, v.1)
    decreases |entries|
  {
    if entries != [] {
      var e := entries[0];
      var next := SaveStep(table, modelIds, e, aliasId, now);
      SaveEntriesEffect(next, modelIds, entries[1..], aliasId, now, modelId);
      if e.0 in modelIds {
        SaveAliasesReplaces(table, e.0, e.1.aliases.GetOr([]), e.1.aliasOnly.GetOr(false), aliasId(e.0), now, modelId);
      }
    }
  }

  /** Rows holding a non-empty alias list are listed back as that list with its flag. */
  lemma {:induction false} HoldsListsBack(table: seq<AliasRow>, modelId: string, aliases: seq<AliasInput>, aliasOnly: bool)
    requires Holds(table, modelId, aliases, aliasOnly)
    ensures aliases == [] ==> Merge(None, RowsOfModel(table, modelId)).None?
    ensures aliases != [] ==> Merge(None, RowsOfModel(table, modelId)) == Some(ModelAliasConfig(aliases, aliasOnly))
  {
    var rows := RowsOfModel(table, modelId);
    if aliases != [] {
      assert AliasEntries(rows) == aliases;
      assert [] + AliasEntries(rows) == aliases;
      assert AnyAliasOnly(rows) <==> aliasOnly by {
        if aliasOnly {
          assert rows[0].aliasOnly == 1;
        }
        if AnyAliasOnly(rows) {
          var k :| 0 <= k < |rows| && rows[k].aliasOnly == 1;
        }
      }
      assert Merge(None, rows) == Some(ModelAliasConfig([] + AliasEntries(rows), false || AnyAliasOnly(rows)));
    }
  }

  // ---------------------------------------------------------------------
  // POST, PATCH, DELETE.
  // ---------------------------------------------------------------------

  /** The `base_url` stored: normalised for the anthropic format, else trimmed without trailing slashes. */
  function StoredBaseUrl(apiFormat: string, baseUrl: string): (r: string)
    ensures |r| <= |Trim(baseUrl)| && r == Trim(baseUrl)[..|r|]
    ensures apiFormat != "anthropic" ==> r == StripTrailingSlashes(Trim(baseUrl))
  {
    if apiFormat == "anthropic" then NormalizeBaseUrl(baseUrl) else StripTrailingSlashes(Trim(baseUrl))
  }

  /**
   * The stored URL is the trimmed input with only a run of trailing slashes
   * removed, and, for the anthropic format only, at most one "/v1" before
   * that run. When only slashes go, all of them go; for the anthropic format
   * a "/v1" left at the end once the slashes are gone is removed as well.
   */
  lemma StoredBaseUrlRule(apiFormat: string, baseUrl: string)
    ensures var t := Trim(baseUrl); var removed := t[|StoredBaseUrl(apiFormat, baseUrl)|..];
      || AllSlashes(removed)
      || (apiFormat == "anthropic" && |removed| >= 3 && EndsWithV1(removed[..3]) && AllSlashes(removed[3..]))
    ensures apiFormat != "anthropic" ==>
              (StoredBaseUrl(apiFormat, baseUrl) == []
               || StoredBaseUrl(apiFormat, baseUrl)[|StoredBaseUrl(apiFormat, baseUrl)| - 1] != '/')
    ensures var t := Trim(baseUrl); var r := StoredBaseUrl(apiFormat, baseUrl); var removed := t[|r|..];
      && (AllSlashes(removed) ==> r == [] || r[|r| - 1] != '/')
      && (apiFormat == "anthropic" && EndsWithV1(StripTrailingSlashes(t)) ==> !AllSlashes(removed))
  {
    if apiFormat == "anthropic" {
      NormalizeRemovesSlashesThenV1(baseUrl);
    }
  }

  /** `custom_headers?.trim() || null`. */
  function TrimmedHeaders(h: HeaderField): (r: Option<string>)
    ensures r.Some? ==> h.Given? && r.value == Trim(h.text) && r.value != ""
    ensures r.None? ==> !h.Given? || Trim(h.text) == ""
  {
    match h
    case Given(t) => if Trim(t) != "" then Some(Trim(t)) else None
    case _ => None
  }

  predicate HasId(channels: seq<ChannelRow>, id: string) {
    exists k :: 0 <= k < |channels| && channels[k].id == id
  }

  datatype PostRequest = PostRequest(body: Option<ChannelPayload>, random: seq<Token.Byte>, now: string,
                                     aliasId: string -> nat -> string)

  /**
   * The row `insertChannel` writes. The columns it is not given keep their
   * defaults: no contributor and charging off.
   */
  function NewChannel(id: string, b: ChannelPayload, now: string): ChannelRow
    requires b.name.Some? && b.baseUrl.Some?
  {
    var apiFormat := b.apiFormat.GetOr("openai");
    ChannelRow(id, b.name.value, StoredBaseUrl(apiFormat, b.baseUrl.value), b.apiKey.GetOr(""), b.weight.GetOr(1),
               b.status.GetOr("active"), b.rateLimit.GetOr(0), ArrayForm(b.models.GetOr([])), apiFormat,
               TrimmedHeaders(b.customHeaders), None, 0, now, now)
  }

  /** The id a successful POST uses: the requested one, or `generateToken("ch_")`. */
  function NewId(b: ChannelPayload, random: seq<Token.Byte>): string
    requires |random| == 24
  {
    var requested := ResolveChannelId(b);
    if requested.Some? then requested.value else Token.GenerateToken("ch_", random)
  }

  /** `POST /`. */
  function Post(s: State, req: PostRequest): (State, Reply)
    requires |req.random| == 24
  {
    if req.body.None? || req.body.value.name.None? || req.body.value.name.value == ""
       || req.body.value.baseUrl.None? || req.body.value.baseUrl.value == "" then
      (s, Failure(400, "missing_fields", "missing_fields"))
    else
      var b := req.body.value;
      var requested := ResolveChannelId(b);
      if requested.Some? && HasId(s.channels, requested.value) then
        (s, Failure(409, "channel_id_exists", "channel_id_exists"))
      else
        var id := NewId(b, req.random);
        var aliases := if b.modelAliases.None? then s.modelAliases
                       else SaveEntries(s.modelAliases, ModelIds(b.models.GetOr([])), b.modelAliases.value,
                                        req.aliasId, req.now);
        (State(s.channels + [NewChannel(id, b, req.now)], aliases), Created(id))
  }

  /** `getChannelById`: the first row with the id. */
  function FirstWithId(channels: seq<ChannelRow>, id: string): (r: Option<nat>)
    ensures r.Some? ==> r.value < |channels| && channels[r.value].id == id
                        && forall k :: 0 <= k < r.value ==> channels[k].id != id
    ensures r.None? <==> !HasId(channels, id)
  {
    if channels == [] then None
    else if channels[0].id == id then Some(0)
    else
      var rest := FirstWithId(channels[1..], id);
      assert forall k :: 1 <= k < |channels| ==> channels[1..][k - 1] == channels[k];
      if rest.None? then None else Some(rest.value + 1)
  }

  /** `safeJsonParse(models_json, [])`. */
  function ParsedModels(mj: ModelsJson): (r: ModelsJson)
    ensures !r.Absent? && !r.Malformed?
  {
    if mj.Absent? || mj.Malformed? then ArrayForm([]) else mj
  }

  /** The model ids of a value that is an array, else none. */
  function ArrayModelIds(mj: ModelsJson): seq<string>
  {
    if mj.ArrayForm? then ModelIds(mj.items) else []
  }

  datatype PatchRequest = PatchRequest(id: string, body: Option<ChannelPayload>, now: string,
                                       aliasId: string -> nat -> string)

  /** The row `updateChannel` writes, from the current row and the body. */
  function Updated(current: ChannelRow, b: ChannelPayload, now: string): ChannelRow
  {
    var apiFormat := b.apiFormat.GetOr(current.apiFormat);
    current.(name := b.name.GetOr(current.name),
             baseUrl := StoredBaseUrl(apiFormat, b.baseUrl.GetOr(current.baseUrl)),
             apiKey := b.apiKey.GetOr(current.apiKey),
             weight := b.weight.GetOr(current.weight),
             status := b.status.GetOr(current.status),
             rateLimit := b.rateLimit.GetOr(current.rateLimit),
             modelsJson := if b.models.Some? then ArrayForm(b.models.value) else ParsedModels(current.modelsJson),
             apiFormat := apiFormat,
             customHeaders := if b.customHeaders.Unset? then current.customHeaders else TrimmedHeaders(b.customHeaders),
             updatedAt := now)
  }

  /** `UPDATE channels SET … WHERE id = ?`. */
  function ReplaceWithId(channels: seq<ChannelRow>, id: string, row: ChannelRow): (r: seq<ChannelRow>)
    ensures |r| == |channels|
    ensures forall k :: 0 <= k < |channels| ==> r[k] == if channels[k].id == id then row else channels[k]
  {
    seq(|channels|, k requires 0 <= k < |channels| => if channels[k].id == id then row else channels[k])
  }

  /** `PATCH /:id`. */
  function Patch(s: State, req: PatchRequest): (State, Reply)
  {
    if req.body.None? then (s, Failure(400, "missing_body", "missing_body"))
    else
      match FirstWithId(s.channels, req.id)
      case None => (s, Failure(404, "channel_not_found", "channel_not_found"))
      case Some(i) =>
        var b := req.body.value;
        var row := Updated(s.channels[i], b, req.now);
        var aliases := if b.modelAliases.None? then s.modelAliases
                       else SaveEntries(s.modelAliases, ArrayModelIds(row.modelsJson), b.modelAliases.value,
                                        req.aliasId, req.now);
        (State(ReplaceWithId(s.channels, req.id, row), aliases), Done)
  }

  /** `deleteChannel`: the rows with the id are removed. */
  function WithoutId(channels: seq<ChannelRow>, id: string): (r: seq<ChannelRow>)
    ensures forall row :: row in r <==> row in channels && row.id != id
  {
    if channels == [] then []
    else (if channels[0].id != id then [channels[0]] else []) + WithoutId(channels[1..], id)
  }

  /** `DELETE /:id`. */
  function Delete(s: State, id: string): (State, Reply)
  {
    (s.(channels := WithoutId(s.channels, id)), Done)
  }

  // ---------------------------------------------------------------------
  // POST /:id/test
  // ---------------------------------------------------------------------

  /** The arguments of `fetchChannelModels`. */
  datatype Probe = Probe(baseUrl: string, apiKey: string, apiFormat: string, customHeaders: Option<string>)

  /** `result.payload`: absent, an array, or an object with or without an array `data`. */
  datatype ProbePayload = NoPayload | ArrayPayload(items: seq<ModelItem>) | ObjectPayload(data: Option<seq<ModelItem>>)

  datatype FetchResult = Unreachable(elapsed: int) | Reachable(elapsed: int, models: seq<string>, payload: ProbePayload)

  /** The record passed to `updateChannelTestResult`. */
  datatype TestUpdate = TestUpdate(ok: bool, elapsed: int, modelsJson: Option<ModelsJson>,
                                   existingModelsJson: Option<ModelsJson>, defaultShared: bool)

  /** `parseApiKeys(api_key)[0] ?? api_key`: the key the probe uses. */
  function ProbeKey(apiKey: string): string
  {
    var keys := Keys.ParseApiKeys(apiKey);
    if keys == [] then apiKey else keys[0]
  }

  /** For a newline-separated list of clean keys, the probe uses the first. */
  lemma ProbeUsesFirstKey(keys: seq<string>)
    requires keys != []
    requires forall i :: 0 <= i < |keys| ==> Keys.IsCleanKey(keys[i]) && '\n' !in keys[i]
    ensures ProbeKey(Join(keys, "\n")) == keys[0]
  {
    Keys.ParseJoinedKeys(keys);
  }

  /** `payload` if an array, else `payload.data ?? []`. */
  function PayloadItems(p: ProbePayload): seq<ModelItem>
  {
    match p
    case ArrayPayload(items) => items
    case ObjectPayload(data) => data.GetOr([])
    case NoPayload => []
  }

  /** `channelHasModels`: the parsed column is a non-empty array. */
  predicate HasModels(mj: ModelsJson) {
    ParsedModels(mj).ArrayForm? && |ParsedModels(mj).items| > 0
  }

  /** The record written after a successful probe. */
  function AfterProbe(channel: ChannelRow, siteMode: string, elapsed: int, models: seq<string>, payload: ProbePayload)
    : TestUpdate
  {
    if |models| > 0 && !payload.NoPayload? && !HasModels(channel.modelsJson) then
      TestUpdate(true, elapsed, Some(ArrayForm(PayloadItems(payload))), Some(channel.modelsJson), siteMode == "shared")
    else TestUpdate(true, elapsed, None, None, false)
  }

  /** `POST /:id/test`: the record written, if any, and the reply. */
  function Test(channels: seq<ChannelRow>, id: string, siteMode: string, fetch: Probe -> FetchResult)
    : (Option<TestUpdate>, Reply)
  {
    match FirstWithId(channels, id)
    case None => (None, Failure(404, "channel_not_found", "channel_not_found"))
    case Some(i) =>
      var ch := channels[i];
      match fetch(Probe(ch.baseUrl, ProbeKey(ch.apiKey), ch.apiFormat, ch.customHeaders))
      case Unreachable(e) =>
        (Some(TestUpdate(false, e, None, None, false)), Failure(502, "channel_unreachable", "channel_unreachable"))
      case Reachable(e, models, payload) =>
        (Some(AfterProbe(ch, siteMode, e, models, payload)),
         TestResult(if |models| > 0 then Reported(models) else Stored(ParsedModels(ch.modelsJson))))
  }

  /**
   * The model list is overwritten exactly when the probe returned models and
   * a payload and the channel had none; the old column is then kept beside
   * it, and the models default to shared exactly in shared mode. The probe
   * uses the channel's first key, and an unreachable channel answers 502.
   */
  lemma TestOverwriteRule(channels: seq<ChannelRow>, id: string, siteMode: string, fetch: Probe -> FetchResult)
    ensures FirstWithId(channels, id).None? ==> Test(channels, id, siteMode, fetch).0.None?
                                                && Test(channels, id, siteMode, fetch).1.Failure?
                                                && Test(channels, id, siteMode, fetch).1.httpStatus == 404
    ensures FirstWithId(channels, id).Some? ==>
      var ch := channels[FirstWithId(channels, id).value];
      var result := fetch(Probe(ch.baseUrl, ProbeKey(ch.apiKey), ch.apiFormat, ch.customHeaders));
      var t := Test(channels, id, siteMode, fetch);
      && t.0.Some?
      && (result.Unreachable? <==> !t.0.value.ok)
      && (result.Unreachable? ==> t.1 == Failure(502, "channel_unreachable", "channel_unreachable"))
      && (t.0.value.modelsJson.Some? <==>
            result.Reachable? && |result.models| > 0 && !result.payload.NoPayload? && !HasModels(ch.modelsJson))
      && (t.0.value.modelsJson.Some? ==>
            t.0.value.modelsJson == Some(ArrayForm(PayloadItems(result.payload)))
            && t.0.value.existingModelsJson == Some(ch.modelsJson))
      && (t.0.value.defaultShared <==> t.0.value.modelsJson.Some? && siteMode == "shared")
  {
  }

  // ---------------------------------------------------------------------
  // What the routes promise.
  // ---------------------------------------------------------------------

  /** A requested id that is already taken answers 409 and changes nothing. */
  lemma TakenIdIsConflict(s: State, req: PostRequest)
    requires |req.random| == 24
    requires req.body.Some? && req.body.value.name.Some? && req.body.value.name.value != ""
             && req.body.value.baseUrl.Some? && req.body.value.baseUrl.value != ""
    requires ResolveChannelId(req.body.value).Some? && HasId(s.channels, ResolveChannelId(req.body.value).value)
    ensures Post(s, req) == (s, Failure(409, "channel_id_exists", "channel_id_exists"))
  {
  }

  /**
   * A created channel is appended with the id the reply names; an id that
   * was requested is kept, and since it was not taken, distinct ids stay
   * distinct.
   */
  lemma CreatedChannel(s: State, req: PostRequest)
    requires |req.random| == 24
    requires Post(s, req).1.Created?
    ensures var id := Post(s, req).1.id;
      && |Post(s, req).0.channels| == |s.channels| + 1
      && Post(s, req).0.channels[..|s.channels|] == s.channels
      && Post(s, req).0.channels[|s.channels|].id == id
      && (ResolveChannelId(req.body.value).Some? ==>
            id == ResolveChannelId(req.body.value).value && !HasId(s.channels, id))
      && (ResolveChannelId(req.body.value).None? ==> |id| == 35 && id[..3] == "ch_")
  {
    var id := Post(s, req).1.id;
    var after := Post(s, req).0.channels;
    assert after == s.channels + [after[|s.channels|]];
  }

  /**
   * What a save leaves for a model is what the listing then reports: after
   * a create or update whose last `model_aliases` entry for a model the
   * channel lists has a non-empty alias list, listing returns exactly that
   * list and flag; an empty list leaves the model without an entry. Entries
   * for models the channel does not list change nothing.
   */
  lemma SavedAliasesAreListed(s: State, req: PostRequest, modelId: string)
    requires |req.random| == 24
    requires Post(s, req).1.Created? && req.body.value.modelAliases.Some?
    ensures var b := req.body.value;
      var after := Post(s, req).0;
      match LastSaved(ModelIds(b.models.GetOr([])), b.modelAliases.value, modelId)
      case None => RowsOfModel(after.modelAliases, modelId) == RowsOfModel(s.modelAliases, modelId)
      case Some(v) =>
        AliasListing(after.channels, after.modelAliases, modelId)
        == if v.0 == [] then None else Some(ModelAliasConfig(v.0, v.1))
  {
    var b := req.body.value;
    var ids := ModelIds(b.models.GetOr([]));
    var row := NewChannel(NewId(b, req.random), b, req.now);
    var table := SaveEntries(s.modelAliases, ids, b.modelAliases.value, req.aliasId, req.now);
    assert Post(s, req).0 == State(s.channels + [row], table);
    SaveEntriesEffect(s.modelAliases, ids, b.modelAliases.value, req.aliasId, req.now, modelId);
    var l := LastSaved(ids, b.modelAliases.value, modelId);
    if l.Some? {
      HoldsListsBack(table, modelId, l.value.0, l.value.1);
      AdvertisedByNewRow(s.channels, row, modelId);
    }
  }

  /** A model the appended row lists is in the listing's ids. */
  lemma AdvertisedByNewRow(channels: seq<ChannelRow>, row: ChannelRow, modelId: string)
    requires row.modelsJson.ArrayForm? && modelId in ModelIds(row.modelsJson.items)
    ensures modelId in AllModelIds(channels + [row])
  {
    assert (channels + [row])[..|channels|] == channels;
  }

  /** PATCH checks the body before the id: a missing body answers 400 even for an unknown id. */
  lemma PatchChecksBodyFirst(s: State, req: PatchRequest)
    requires req.body.None?
    ensures Patch(s, req) == (s, Failure(400, "missing_body", "missing_body"))
  {
  }

  /**
   * An update of an unknown id answers 404 and changes nothing; an update of
   * a known id rewrites exactly the rows with that id, keeps the fields the
   * body leaves out, and keeps the stored model list when the body has none.
   */
  lemma PatchRule(s: State, req: PatchRequest, k: nat)
    requires req.body.Some? && k < |s.channels|
    ensures !HasId(s.channels, req.id) ==> Patch(s, req) == (s, Failure(404, "channel_not_found", "channel_not_found"))
    ensures HasId(s.channels, req.id) ==>
      var after := Patch(s, req).0.channels;
      var b := req.body.value;
      && |after| == |s.channels|
      && (s.channels[k].id != req.id ==> after[k] == s.channels[k])
      && (s.channels[k].id == req.id ==>
            var cur := s.channels[FirstWithId(s.channels, req.id).value];
            && after[k].id == req.id
            && (b.name.None? ==> after[k].name == cur.name)
            && (b.apiKey.None? ==> after[k].apiKey == cur.apiKey)
            && (b.status.None? ==> after[k].status == cur.status)
            && (b.customHeaders.Unset? ==> after[k].customHeaders == cur.customHeaders)
            && (b.models.None? && cur.modelsJson.ArrayForm? ==> after[k].modelsJson == cur.modelsJson)
            && after[k].updatedAt == req.now)
  {
  }

  /** Deleting removes exactly the rows with the id and answers ok, known id or not. */
  lemma DeleteRule(s: State, id: string)
    ensures Delete(s, id).1 == Done
    ensures forall row :: row in Delete(s, id).0.channels <==> row in s.channels && row.id != id
    ensures Delete(s, id).0.modelAliases == s.modelAliases
  {
  }

  // ---------------------------------------------------------------------
  // The tables, changed in place.
  // ---------------------------------------------------------------------

  class ChannelStore {
    var channels: seq<ChannelRow>
    const aliases: AliasTables

    constructor(channels: seq<ChannelRow>, aliases: AliasTables)
      ensures this.channels == channels && this.aliases == aliases
    {
      this.channels := channels;
      this.aliases := aliases;
    }

    function Snapshot(): State
      reads this, aliases
    {
      State(channels, aliases.modelAliases)
    }

    /** The `for … of Object.entries(body.model_aliases)` loop of POST and PATCH. */
    method SaveAliasEntries(modelIds: seq<string>, entries: seq<(string, AliasConfigIn)>,
                            aliasId: string -> nat -> string, now: string)
      modifies aliases
      ensures aliases.modelAliases == SaveEntries(old(aliases.modelAliases), modelIds, entries, aliasId, now)
      ensures aliases.channelAliases == old(aliases.channelAliases)
    {
      for j := 0 to |entries|
        invariant SaveEntries(aliases.modelAliases, modelIds, entries[j..], aliasId, now)
               == SaveEntries(old(aliases.modelAliases), modelIds, entries, aliasId, now)
        invariant aliases.channelAliases == old(aliases.channelAliases)
      {
        var modelId := entries[j].0;
        var config := entries[j].1;
        assert entries[j..][0] == entries[j] && entries[j..][1..] == entries[j + 1..];
        if modelId !in modelIds {
          continue;
        }
        aliases.SaveAliasesForModel(modelId, config.aliases.GetOr([]), config.aliasOnly.GetOr(false),
                                    aliasId(modelId), now);
      }
    }

    /** `POST /`. */
    method Create(req: PostRequest) returns (reply: Reply)
      requires |req.random| == 24
      modifies this, aliases
      ensures (Snapshot(), reply) == Post(old(Snapshot()), req)
      ensures aliases.channelAliases == old(aliases.channelAliases)
    {
      if req.body.None? || req.body.value.name.None? || req.body.value.name.value == ""
         || req.body.value.baseUrl.None? || req.body.value.baseUrl.value == "" {
        return Failure(400, "missing_fields", "missing_fields");
      }
      var body := req.body.value;
      var requestedId := ResolveChannelId(body);
      if requestedId.Some? {
        var taken := FirstWithId(channels, requestedId.value).Some?;
        if taken {
          return Failure(409, "channel_id_exists", "channel_id_exists");
        }
      }
      var id := if requestedId.Some? then requestedId.value else Token.GenerateToken("ch_", req.random);
      channels := channels + [NewChannel(id, body, req.now)];
      if body.modelAliases.Some? {
        SaveAliasEntries(ModelIds(body.models.GetOr([])), body.modelAliases.value, req.aliasId, req.now);
      }
      reply := Created(id);
    }

    /** `PATCH /:id`. */
    method Update(req: PatchRequest) returns (reply: Reply)
      modifies this, aliases
      ensures (Snapshot(), reply) == Patch(old(Snapshot()), req)
      ensures aliases.channelAliases == old(aliases.channelAliases)
    {
      if req.body.None? {
        return Failure(400, "missing_body", "missing_body");
      }
      var current := FirstWithId(channels, req.id);
      if current.None? {
        return Failure(404, "channel_not_found", "channel_not_found");
      }
      var body := req.body.value;
      var row := Updated(channels[current.value], body, req.now);
      channels := ReplaceWithId(channels, req.id, row);
      if body.modelAliases.Some? {
        SaveAliasEntries(ArrayModelIds(row.modelsJson), body.modelAliases.value, req.aliasId, req.now);
      }
      reply := Done;
    }

    /** `DELETE /:id`. */
    method Remove(id: string) returns (reply: Reply)
      modifies this
      ensures (Snapshot(), reply) == Delete(old(Snapshot()), id)
    {
      channels := WithoutId(channels, id);
      reply := Done;
    }
  }
}

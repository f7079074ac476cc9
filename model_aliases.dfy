/**
 * Model aliases (apps/worker/src/services/model-aliases.ts): name
 * resolution, the loaders that fold alias rows into maps and sets, and the
 * replace-all saves of the `model_aliases` and `channel_model_aliases`
 * tables.
 *
 * A table is the sequence of its rows; a query's result is the rows its
 * WHERE clause keeps, in table order. `crypto.randomUUID()` is the
 * parameter `newId` (the id of the k-th inserted row) and the timestamp
 * is the parameter `now`.
 */
module ModelAliases {
  import opened Wrappers

  /** A `model_aliases` row; `isPrimary` and `aliasOnly` are the integer columns. */
  datatype AliasRow = AliasRow(id: string, modelId: string, alias: string, isPrimary: int, aliasOnly: int,
                               createdAt: string, updatedAt: string)

  /** A `channel_model_aliases` row. */
  datatype ChannelAliasRow = ChannelAliasRow(id: string, channelId: string, modelId: string, alias: string,
                                             isPrimary: int, aliasOnly: int, createdAt: string, updatedAt: string)

  /** `AliasInput`. */
  datatype AliasInput = AliasInput(alias: string, isPrimary: bool)

  /** An alias as the listing functions return it, with the integer flags read as `=== 1`. */
  datatype AliasView = AliasView(alias: string, isPrimary: bool, aliasOnly: bool)

  /** `SELECT model_id FROM model_aliases WHERE alias = ?` with `.first()`: the first matching row. */
  function FirstWithAlias(table: seq<AliasRow>, name: string): (r: Option<AliasRow>)
    ensures r.Some? ==> r.value in table && r.value.alias == name
    ensures r.None? ==> forall k :: 0 <= k < |table| ==> table[k].alias != name
  {
    if table == [] then None
    else if table[0].alias == name then Some(table[0])
    else FirstWithAlias(table[1..], name)
  }

  /** `resolveModelNames`: the name itself, then the model it aliases when that is a different name. */
  function ResolveModelNames(table: seq<AliasRow>, name: string): (names: seq<string>)
    ensures 1 <= |names| <= 2 && names[0] == name
    ensures |names| == 2 ==> names[1] != name && exists row :: row in table && row.alias == name && row.modelId == names[1]
  {
    var row := FirstWithAlias(table, name);
    if row.Some? && row.value.modelId != name then [name, row.value.modelId] else [name]
  }

  /**
   * The second name comes from the first row whose alias is the name; with
   * no such row, or when that row names the model itself, the name alone.
   */
  lemma ResolveUsesFirstRow(table: seq<AliasRow>, name: string)
    ensures (forall k :: 0 <= k < |table| ==> table[k].alias != name) ==> ResolveModelNames(table, name) == [name]
    ensures forall k ::
              0 <= k < |table| && table[k].alias == name && (forall j :: 0 <= j < k ==> table[j].alias != name)
              ==> ResolveModelNames(table, name) == if table[k].modelId != name then [name, table[k].modelId] else [name]
  {
    FirstWithAliasIsFirst(table, name);
  }

  /** The row `FirstWithAlias` returns is the matching row with the smallest index. */
  lemma {:induction false} FirstWithAliasIsFirst(table: seq<AliasRow>, name: string)
    ensures var r := FirstWithAlias(table, name);
      r.Some? <==> exists k :: 0 <= k < |table| && table[k].alias == name
    ensures var r := FirstWithAlias(table, name);
      forall k :: 0 <= k < |table| && table[k].alias == name && (forall j :: 0 <= j < k ==> table[j].alias != name)
        ==> r == Some(table[k])
  {
    if table != [] && table[0].alias != name {
      FirstWithAliasIsFirst(table[1..], name);
      forall k | 0 <= k < |table| && table[k].alias == name
        ensures 0 <= k - 1 < |table[1..]| && table[1..][k - 1].alias == name
      {
        assert k != 0;
      }
      forall k | 0 <= k < |table| && table[k].alias == name && (forall j :: 0 <= j < k ==> table[j].alias != name)
        ensures FirstWithAlias(table, name) == Some(table[k])
      {
        assert table[1..][k - 1] == table[k];
        forall j | 0 <= j < k - 1
          ensures table[1..][j].alias != name
        {
          assert table[1..][j] == table[j + 1];
        }
      }
    }
  }

  // ---------------------------------------------------------------------
  // Loaders: a later row overwrites (`map.set`), or the first row stays
  // (`if (!map.has(..))`).
  // ---------------------------------------------------------------------

  /** Folding `map.set(k, v)` over the pairs in order. */
  function LastWins(pairs: seq<(string, string)>): map<string, string>
  {
    if pairs == [] then map[] else LastWins(pairs[..|pairs| - 1])[pairs[|pairs| - 1].0 := pairs[|pairs| - 1].1]
  }

  /** Folding `if (!map.has(k)) map.set(k, v)` over the pairs in order. */
  function FirstWins(pairs: seq<(string, string)>): map<string, string>
  {
    if pairs == [] then map[]
    else
      var m := FirstWins(pairs[..|pairs| - 1]);
      if pairs[|pairs| - 1].0 in m then m else m[pairs[|pairs| - 1].0 := pairs[|pairs| - 1].1]
  }

  /**
   * With `map.set`, a key is present exactly when some pair has it, and its
   * value is that of the LAST pair with that key.
   */
  lemma {:induction false} LastWinsLookup(pairs: seq<(string, string)>, key: string)
    ensures key in LastWins(pairs) <==> exists i :: 0 <= i < |pairs| && pairs[i].0 == key
    ensures forall i ::
              0 <= i < |pairs| && pairs[i].0 == key && (forall j :: i < j < |pairs| ==> pairs[j].0 != key)
              ==> key in LastWins(pairs) && LastWins(pairs)[key] == pairs[i].1
  {
    if pairs != [] {
      var init := pairs[..|pairs| - 1];
      LastWinsLookup(init, key);
      forall i | 0 <= i < |init| && init[i].0 == key
        ensures pairs[i].0 == key
      {
      }
      forall i | 0 <= i < |pairs| - 1 && pairs[i].0 == key
        ensures init[i].0 == key
      {
      }
    }
  }

  /**
   * With `if (!map.has(..))`, a key is present exactly when some pair has it,
   * and its value is that of the FIRST pair with that key.
   */
  lemma {:induction false} FirstWinsLookup(pairs: seq<(string, string)>, key: string)
    ensures key in FirstWins(pairs) <==> exists i :: 0 <= i < |pairs| && pairs[i].0 == key
    ensures forall i ::
              0 <= i < |pairs| && pairs[i].0 == key && (forall j :: 0 <= j < i ==> pairs[j].0 != key)
              ==> key in FirstWins(pairs) && FirstWins(pairs)[key] == pairs[i].1
  {
    if pairs != [] {
      var init := pairs[..|pairs| - 1];
      FirstWinsLookup(init, key);
      forall i | 0 <= i < |init| && init[i].0 == key
        ensures pairs[i].0 == key
      {
      }
      forall i | 0 <= i < |pairs| - 1 && pairs[i].0 == key
        ensures init[i].0 == key
      {
      }
    }
  }

  /** `(model_id, alias)` of the rows with `is_primary = 1`, in table order. */
  function PrimaryPairs(table: seq<AliasRow>): (r: seq<(string, string)>)
    ensures |r| <= |table|
  {
    if table == [] then []
    else
      var last := table[|table| - 1];
      PrimaryPairs(table[..|table| - 1]) + (if last.isPrimary == 1 then [(last.modelId, last.alias)] else [])
  }

  /** `(alias, model_id)` of every row, in table order. */
  function AliasPairs(table: seq<AliasRow>): (r: seq<(string, string)>)
    ensures |r| == |table|
    ensures forall i :: 0 <= i < |table| ==> r[i] == (table[i].alias, table[i].modelId)
  {
    if table == [] then [] else AliasPairs(table[..|table| - 1]) + [(table[|table| - 1].alias, table[|table| - 1].modelId)]
  }

  /** `(alias, model_id)` of every per-channel row, in table order. */
  function ChannelAliasPairs(table: seq<ChannelAliasRow>): (r: seq<(string, string)>)
    ensures |r| == |table|
    ensures forall i :: 0 <= i < |table| ==> r[i] == (table[i].alias, table[i].modelId)
  {
    if table == [] then []
    else ChannelAliasPairs(table[..|table| - 1]) + [(table[|table| - 1].alias, table[|table| - 1].modelId)]
  }

  /** `loadPrimaryNameMap`: model id to its primary alias; the last primary row of a model wins. */
  method LoadPrimaryNameMap(table: seq<AliasRow>) returns (m: map<string, string>)
    ensures m == LastWins(PrimaryPairs(table))
  {
    m := map[];
    for i := 0 to |table|
      invariant m == LastWins(PrimaryPairs(table[..i]))
    {
      var row := table[i];
      assert table[..i + 1][..i] == table[..i];
      assert table[..i + 1][i] == row;
      assert PrimaryPairs(table[..i + 1])
        == PrimaryPairs(table[..i]) + (if row.isPrimary == 1 then [(row.modelId, row.alias)] else []);
      assert PrimaryPairs(table[..i]) + [] == PrimaryPairs(table[..i]);
      if row.isPrimary == 1 {
        var grown := PrimaryPairs(table[..i]) + [(row.modelId, row.alias)];
        assert grown[..|grown| - 1] == PrimaryPairs(table[..i]);
        m := m[row.modelId := row.alias];
      }
    }
    assert table[..|table|] == table;
  }

  /** `loadAliasMap`: alias to model id; the last row of an alias wins. */
  method LoadAliasMap(table: seq<AliasRow>) returns (m: map<string, string>)
    ensures m == LastWins(AliasPairs(table))
  {
    m := map[];
    for i := 0 to |table|
      invariant m == LastWins(AliasPairs(table[..i]))
    {
      assert table[..i + 1][..i] == table[..i];
      m := m[table[i].alias := table[i].modelId];
    }
    assert table[..|table|] == table;
  }

  /** `loadAllChannelAliasMap`: alias to model id over all channels; the first row of an alias wins. */
  method LoadAllChannelAliasMap(table: seq<ChannelAliasRow>) returns (m: map<string, string>)
    ensures m == FirstWins(ChannelAliasPairs(table))
  {
    m := map[];
    for i := 0 to |table|
      invariant m == FirstWins(ChannelAliasPairs(table[..i]))
    {
      assert table[..i + 1][..i] == table[..i];
      if table[i].alias !in m {
        m := m[table[i].alias := table[i].modelId];
      }
    }
    assert table[..|table|] == table;
  }

  /** The alias map holds, for each alias, the model of its last row. */
  lemma AliasMapLastRowWins(table: seq<AliasRow>, k: nat)
    requires k < |table| && forall j :: k < j < |table| ==> table[j].alias != table[k].alias
    ensures table[k].alias in LastWins(AliasPairs(table))
    ensures LastWins(AliasPairs(table))[table[k].alias] == table[k].modelId
  {
    LastWinsLookup(AliasPairs(table), table[k].alias);
  }

  /** The per-channel alias map holds, for each alias, the model of its first row, whatever rows follow. */
  lemma ChannelAliasMapFirstRowWins(table: seq<ChannelAliasRow>, k: nat)
    requires k < |table| && forall j :: 0 <= j < k ==> table[j].alias != table[k].alias
    ensures table[k].alias in FirstWins(ChannelAliasPairs(table))
    ensures FirstWins(ChannelAliasPairs(table))[table[k].alias] == table[k].modelId
  {
    FirstWinsLookup(ChannelAliasPairs(table), table[k].alias);
  }

  /** The primary pairs of a table one row longer: the last row adds its pair when it is primary. */
  lemma PrimaryPairsSnoc(table: seq<AliasRow>)
    requires table != []
    ensures var init, last := table[..|table| - 1], table[|table| - 1];
      LastWins(PrimaryPairs(table))
        == if last.isPrimary == 1 then LastWins(PrimaryPairs(init))[last.modelId := last.alias]
           else LastWins(PrimaryPairs(init))
  {
    var init, last := table[..|table| - 1], table[|table| - 1];
    if last.isPrimary == 1 {
      var grown := PrimaryPairs(init) + [(last.modelId, last.alias)];
      assert PrimaryPairs(table) == grown;
      assert grown[..|grown| - 1] == PrimaryPairs(init);
    } else {
      assert PrimaryPairs(table) == PrimaryPairs(init) + [] == PrimaryPairs(init);
    }
  }

  /** The primary-name map has an entry for a model exactly when some row of it is primary. */
  lemma {:induction false} PrimaryMapKeys(table: seq<AliasRow>, id: string)
    ensures id in LastWins(PrimaryPairs(table)) <==>
      exists k :: 0 <= k < |table| && table[k].isPrimary == 1 && table[k].modelId == id
    decreases |table|
  {
    if table != [] {
      var init, last := table[..|table| - 1], table[|table| - 1];
      PrimaryMapKeys(init, id);
      PrimaryPairsSnoc(table);
      if id in LastWins(PrimaryPairs(table)) {
        if id in LastWins(PrimaryPairs(init)) {
          var k :| 0 <= k < |init| && init[k].isPrimary == 1 && init[k].modelId == id;
          assert table[k] == init[k];
        } else {
          assert table[|table| - 1].isPrimary == 1 && table[|table| - 1].modelId == id;
        }
      }
      if exists k :: 0 <= k < |table| && table[k].isPrimary == 1 && table[k].modelId == id {
        var k :| 0 <= k < |table| && table[k].isPrimary == 1 && table[k].modelId == id;
        if k < |init| {
          assert init[k] == table[k];
        }
      }
    }
  }

  /** The primary-name map holds, for each model, the alias of its last primary row. */
  lemma {:induction false} PrimaryMapLastRowWins(table: seq<AliasRow>, k: nat)
    requires k < |table| && table[k].isPrimary == 1
    requires forall j :: k < j < |table| && table[j].isPrimary == 1 ==> table[j].modelId != table[k].modelId
    ensures table[k].modelId in LastWins(PrimaryPairs(table))
    ensures LastWins(PrimaryPairs(table))[table[k].modelId] == table[k].alias
    decreases |table|
  {
    var init := table[..|table| - 1];
    PrimaryPairsSnoc(table);
    if k < |init| {
      assert init[k] == table[k];
      assert forall j :: k < j < |init| ==> init[j] == table[j];
      PrimaryMapLastRowWins(init, k);
    }
  }

  /** `loadAliasOnlySet`: the models with some `alias_only = 1` row. */
  function AliasOnlySet(table: seq<AliasRow>): (s: set<string>)
    ensures forall m :: m in s <==> exists k :: 0 <= k < |table| && table[k].modelId == m && table[k].aliasOnly == 1
  {
    set k | 0 <= k < |table| && table[k].aliasOnly == 1 :: table[k].modelId
  }

  /** `loadChannelAliasOnlyMap`: channel id to the models it has `alias_only = 1` rows for. */
  method LoadChannelAliasOnlyMap(table: seq<ChannelAliasRow>) returns (m: map<string, set<string>>)
    ensures forall c :: c in m <==> exists k :: 0 <= k < |table| && table[k].channelId == c && table[k].aliasOnly == 1
    ensures forall c :: c in m ==> forall x :: x in m[c] <==>
      exists k :: 0 <= k < |table| && table[k].channelId == c && table[k].aliasOnly == 1 && table[k].modelId == x
  {
    m := map[];
    for i := 0 to |table|
      invariant forall c :: c in m <==> exists k :: 0 <= k < i && table[k].channelId == c && table[k].aliasOnly == 1
      invariant forall c :: c in m ==> forall x :: x in m[c] <==>
        exists k :: 0 <= k < i && table[k].channelId == c && table[k].aliasOnly == 1 && table[k].modelId == x
    {
      var row := table[i];
      if row.aliasOnly == 1 {
        var existing := if row.channelId in m then m[row.channelId] else {};
        m := m[row.channelId := existing + {row.modelId}];
      }
    }
  }

  /** An alias row as the listings show it. */
  function View(r: AliasRow): (v: AliasView)
    ensures v.alias == r.alias && (v.isPrimary <==> r.isPrimary == 1) && (v.aliasOnly <==> r.aliasOnly == 1)
  {
    AliasView(r.alias, r.isPrimary == 1, r.aliasOnly == 1)
  }

  /** The views of a model's rows, in table order. */
  function ViewsOf(table: seq<AliasRow>, modelId: string): seq<AliasView>
  {
    if table == [] then []
    else
      var last := table[|table| - 1];
      ViewsOf(table[..|table| - 1], modelId) + (if last.modelId == modelId then [View(last)] else [])
  }

  /** The views of some rows, one per row, in order. */
  function Views(rows: seq<AliasRow>): (r: seq<AliasView>)
    ensures |r| == |rows| && forall i :: 0 <= i < |rows| ==> r[i] == View(rows[i])
  {
    seq(|rows|, i requires 0 <= i < |rows| => View(rows[i]))
  }

  /** The views of a concatenation are the concatenated views. */
  lemma ViewsAppend(a: seq<AliasRow>, b: seq<AliasRow>)
    ensures Views(a + b) == Views(a) + Views(b)
  {
    var l, r := Views(a + b), Views(a) + Views(b);
    assert |l| == |r|;
    forall i | 0 <= i < |l| ensures l[i] == r[i] {
      if i < |a| { assert (a + b)[i] == a[i]; } else { assert (a + b)[i] == b[i - |a|]; }
    }
  }

  /** The views accumulated row by row are the views of the model's rows. */
  lemma {:induction false} ViewsOfRows(table: seq<AliasRow>, modelId: string)
    ensures ViewsOf(table, modelId) == Views(RowsOfModel(table, modelId))
    decreases |table|
  {
    if table != [] {
      var init, last := table[..|table| - 1], table[|table| - 1];
      ViewsOfRows(init, modelId);
      assert init + [last] == table;
      RowsOfModelAppend(init, [last], modelId);
      var tail := if last.modelId == modelId then [last] else [];
      assert RowsOfModel([last], modelId) == tail + RowsOfModel([], modelId) by {
        assert [last][1..] == [];
      }
      assert Views(tail) == if last.modelId == modelId then [View(last)] else [];
      ViewsAppend(RowsOfModel(init, modelId), tail);
    }
  }

  /** `getAliasesForModel`: the views of the model's rows, in table order. */
  function GetAliasesForModel(table: seq<AliasRow>, modelId: string): (r: seq<AliasView>)
    ensures |r| <= |table|
    ensures r == Views(RowsOfModel(table, modelId))
  {
    ViewsOfLength(table, modelId);
    ViewsOfRows(table, modelId);
    ViewsOf(table, modelId)
  }

  lemma {:induction false} ViewsOfLength(table: seq<AliasRow>, modelId: string)
    ensures |ViewsOf(table, modelId)| <= |table|
    ensures ViewsOf(table, modelId) == [] <==> forall k :: 0 <= k < |table| ==> table[k].modelId != modelId
  {
    if table != [] {
      var init := table[..|table| - 1];
      ViewsOfLength(init, modelId);
      assert forall k :: 0 <= k < |init| ==> init[k] == table[k];
    }
  }

  /** One more row extends the views of its own model only. */
  lemma ViewsOfStep(table: seq<AliasRow>, i: nat, id: string)
    requires i < |table|
    ensures ViewsOf(table[..i + 1], id)
      == ViewsOf(table[..i], id) + (if table[i].modelId == id then [View(table[i])] else [])
  {
    assert table[..i + 1][..i] == table[..i];
  }

  /** `m` lists exactly the model ids of the first `n` rows, each with the views of its rows in row order. */
  ghost predicate IndexesViews(table: seq<AliasRow>, n: nat, m: map<string, seq<AliasView>>)
    requires n <= |table|
  {
    && (forall id :: id in m <==> exists k :: 0 <= k < n && table[k].modelId == id)
    && (forall id :: id in m ==> m[id] == ViewsOf(table[..n], id))
  }

  /** Appending the view of row `i` to its model's entry extends the index by that row. */
  lemma IndexesViewsStep(table: seq<AliasRow>, i: nat, m: map<string, seq<AliasView>>)
    requires i < |table| && IndexesViews(table, i, m)
    ensures var row := table[i];
      IndexesViews(table, i + 1, m[row.modelId := (if row.modelId in m then m[row.modelId] else []) + [View(row)]])
  {
    var row := table[i];
    var existing := if row.modelId in m then m[row.modelId] else [];
    if row.modelId !in m {
      ViewsOfLength(table[..i], row.modelId);
      assert ViewsOf(table[..i], row.modelId) == [] by {
        forall k | 0 <= k < |table[..i]|
          ensures table[..i][k].modelId != row.modelId
        {
          assert table[..i][k] == table[k];
        }
      }
    }
    var m' := m[row.modelId := existing + [View(row)]];
    forall id | id in m'
      ensures m'[id] == ViewsOf(table[..i + 1], id)
    {
      ViewsOfStep(table, i, id);
    }
    forall id | id in m'
      ensures exists k :: 0 <= k < i + 1 && table[k].modelId == id
    {
      if id == row.modelId {
        assert table[i].modelId == id;
      }
    }
    forall k | 0 <= k < i + 1
      ensures table[k].modelId in m'
    {
      if k < i {
        assert table[k].modelId in m;
      }
    }
  }

  /** `listAllAliases`: each model id maps to the views of its rows, every row once, in row order. */
  method ListAllAliases(table: seq<AliasRow>) returns (m: map<string, seq<AliasView>>)
    ensures forall id :: id in m <==> exists k :: 0 <= k < |table| && table[k].modelId == id
    ensures forall id :: id in m ==> m[id] == ViewsOf(table, id)
  {
    m := map[];
    for i := 0 to |table|
      invariant IndexesViews(table, i, m)
    {
      var row := table[i];
      var existing := if row.modelId in m then m[row.modelId] else [];
      IndexesViewsStep(table, i, m);
      m := m[row.modelId := existing + [View(row)]];
    }
    assert table[..|table|] == table;
  }

  /** `loadChannelAliasesByAlias`: the channel rows of an alias, with the flag read as `=== 1`. */
  function ChannelAliasesByAlias(table: seq<ChannelAliasRow>, alias: string): (r: seq<(string, string, bool)>)
    ensures |r| <= |table|
  {
    if table == [] then []
    else
      var rest := ChannelAliasesByAlias(table[1..], alias);
      if table[0].alias == alias then [(table[0].channelId, table[0].modelId, table[0].aliasOnly == 1)] + rest
      else rest
  }

  /** The entry of a per-channel row: channel, model, and whether `alias_only` is 1. */
  function ChannelEntry(row: ChannelAliasRow): (string, string, bool)
  {
    (row.channelId, row.modelId, row.aliasOnly == 1)
  }

  /** The lookup lists exactly the entries of the rows whose alias matches. */
  lemma {:induction false} ChannelAliasesMembers(table: seq<ChannelAliasRow>, alias: string)
    ensures forall x :: x in ChannelAliasesByAlias(table, alias) <==>
      exists k :: 0 <= k < |table| && table[k].alias == alias && x == ChannelEntry(table[k])
    decreases |table|
  {
    if table != [] {
      ChannelAliasesMembers(table[1..], alias);
      var r, rest := ChannelAliasesByAlias(table, alias), ChannelAliasesByAlias(table[1..], alias);
      forall x | x in r
        ensures exists k :: 0 <= k < |table| && table[k].alias == alias && x == ChannelEntry(table[k])
      {
        if x in rest {
          var k :| 0 <= k < |table[1..]| && table[1..][k].alias == alias && x == ChannelEntry(table[1..][k]);
          assert table[k + 1] == table[1..][k];
        } else {
          assert table[0].alias == alias && x == ChannelEntry(table[0]);
        }
      }
      forall k | 0 <= k < |table| && table[k].alias == alias
        ensures ChannelEntry(table[k]) in r
      {
        if k > 0 {
          assert table[1..][k - 1] == table[k];
        }
      }
    }
  }

  /** One row gives its entry when its alias matches, and nothing otherwise. */
  lemma ChannelAliasesOfRow(row: ChannelAliasRow, alias: string)
    ensures ChannelAliasesByAlias([row], alias)
      == if row.alias == alias then [(row.channelId, row.modelId, row.aliasOnly == 1)] else []
  {
    assert [row][1..] == [];
  }

  /** The entries of a concatenation are the concatenated entries: the rows' order is kept. */
  lemma {:induction false} ChannelAliasesAppend(a: seq<ChannelAliasRow>, b: seq<ChannelAliasRow>, alias: string)
    ensures ChannelAliasesByAlias(a + b, alias) == ChannelAliasesByAlias(a, alias) + ChannelAliasesByAlias(b, alias)
    decreases |a|
  {
    if a == [] {
      assert a + b == b;
    } else {
      var ab := a + b;
      assert ab[0] == a[0] && ab[1..] == a[1..] + b;
      var head := if a[0].alias == alias then [(a[0].channelId, a[0].modelId, a[0].aliasOnly == 1)] else [];
      var x, y := ChannelAliasesByAlias(a[1..], alias), ChannelAliasesByAlias(b, alias);
      ChannelAliasesAppend(a[1..], b, alias);
      assert ChannelAliasesByAlias(ab, alias) == head + (x + y);
      assert ChannelAliasesByAlias(a, alias) == head + x;
      assert head + (x + y) == (head + x) + y;
    }
  }

  // ---------------------------------------------------------------------
  // Replace-all saves.
  // ---------------------------------------------------------------------

  /** The rows `saveAliasesForModel` inserts, with `newId(k)` for the k-th. */
  function NewAliasRows(modelId: string, aliases: seq<AliasInput>, aliasOnly: bool, newId: nat -> string,
                        now: string): (r: seq<AliasRow>)
    ensures |r| == |aliases|
    ensures forall k :: 0 <= k < |aliases| ==>
      r[k] == AliasRow(newId(k), modelId, aliases[k].alias, if aliases[k].isPrimary then 1 else 0,
                       if aliasOnly then 1 else 0, now, now)
  {
    seq(|aliases|, k requires 0 <= k < |aliases| =>
      AliasRow(newId(k), modelId, aliases[k].alias, if aliases[k].isPrimary then 1 else 0,
               if aliasOnly then 1 else 0, now, now))
  }

  /** `DELETE FROM model_aliases WHERE model_id = ?`. */
  function WithoutModel(table: seq<AliasRow>, modelId: string): (r: seq<AliasRow>)
    ensures forall row :: row in r <==> row in table && row.modelId != modelId
  {
    if table == [] then []
    else (if table[0].modelId != modelId then [table[0]] else []) + WithoutModel(table[1..], modelId)
  }

  /** The rows of the given model, in table order. */
  function RowsOfModel(table: seq<AliasRow>, modelId: string): (r: seq<AliasRow>)
    ensures forall row :: row in r ==> row in table && row.modelId == modelId
  {
    if table == [] then []
    else (if table[0].modelId == modelId then [table[0]] else []) + RowsOfModel(table[1..], modelId)
  }

  lemma {:induction false} RowsOfModelAppend(a: seq<AliasRow>, b: seq<AliasRow>, modelId: string)
    ensures RowsOfModel(a + b, modelId) == RowsOfModel(a, modelId) + RowsOfModel(b, modelId)
    decreases |a|
  {
    if a == [] {
      assert a + b == b;
    } else {
      assert (a + b)[0] == a[0];
      assert (a + b)[1..] == a[1..] + b;
      RowsOfModelAppend(a[1..], b, modelId);
    }
  }

  lemma {:induction false} RowsOfModelAll(rows: seq<AliasRow>, modelId: string)
    requires forall k :: 0 <= k < |rows| ==> rows[k].modelId == modelId
    ensures RowsOfModel(rows, modelId) == rows
  {
    if rows != [] {
      RowsOfModelAll(rows[1..], modelId);
    }
  }

  lemma {:induction false} RowsOfModelNone(rows: seq<AliasRow>, modelId: string)
    requires forall k :: 0 <= k < |rows| ==> rows[k].modelId != modelId
    ensures RowsOfModel(rows, modelId) == []
  {
    if rows != [] {
      RowsOfModelNone(rows[1..], modelId);
    }
  }

  /** The rows of any other model are untouched, in order, by deleting one model's rows. */
  lemma {:induction false} WithoutModelKeepsOthers(table: seq<AliasRow>, modelId: string, other: string)
    requires other != modelId
    ensures RowsOfModel(WithoutModel(table, modelId), other) == RowsOfModel(table, other)
  {
    if table != [] {
      WithoutModelKeepsOthers(table[1..], modelId, other);
      var head := if table[0].modelId != modelId then [table[0]] else [];
      RowsOfModelAppend(head, WithoutModel(table[1..], modelId), other);
    }
  }

  /**
   * After `saveAliasesForModel`, the model's rows are exactly the inputs in
   * order, all with the one `alias_only` flag, and every other model's rows
   * are as before.
   */
  lemma SaveAliasesReplaces(table: seq<AliasRow>, modelId: string, aliases: seq<AliasInput>, aliasOnly: bool,
                            newId: nat -> string, now: string, other: string)
    ensures var after := WithoutModel(table, modelId) + NewAliasRows(modelId, aliases, aliasOnly, newId, now);
      && |RowsOfModel(after, modelId)| == |aliases|
      && (forall k :: 0 <= k < |aliases| ==>
            RowsOfModel(after, modelId)[k].alias == aliases[k].alias
            && (RowsOfModel(after, modelId)[k].isPrimary == 1 <==> aliases[k].isPrimary)
            && (RowsOfModel(after, modelId)[k].aliasOnly == 1 <==> aliasOnly))
      && (other != modelId ==> RowsOfModel(after, other) == RowsOfModel(table, other))
  {
    var kept := WithoutModel(table, modelId);
    var added := NewAliasRows(modelId, aliases, aliasOnly, newId, now);
    RowsOfModelAppend(kept, added, modelId);
    assert forall k :: 0 <= k < |kept| ==> kept[k] in kept;
    RowsOfModelNone(kept, modelId);
    RowsOfModelAll(added, modelId);
    assert [] + added == added;
    if other != modelId {
      RowsOfModelAppend(kept, added, other);
      RowsOfModelNone(added, other);
      WithoutModelKeepsOthers(table, modelId, other);
      assert RowsOfModel(kept, other) + [] == RowsOfModel(kept, other);
    }
  }

  /** The per-channel rows that `saveChannelAliases` inserts. */
  function NewChannelAliasRows(channelId: string, modelId: string, aliases: seq<AliasInput>, aliasOnly: bool,
                               newId: nat -> string, now: string): (r: seq<ChannelAliasRow>)
    ensures |r| == |aliases|
    ensures forall k :: 0 <= k < |aliases| ==>
      r[k] == ChannelAliasRow(newId(k), channelId, modelId, aliases[k].alias, if aliases[k].isPrimary then 1 else 0,
                              if aliasOnly then 1 else 0, now, now)
  {
    seq(|aliases|, k requires 0 <= k < |aliases| =>
      ChannelAliasRow(newId(k), channelId, modelId, aliases[k].alias, if aliases[k].isPrimary then 1 else 0,
                      if aliasOnly then 1 else 0, now, now))
  }

  predicate OfPair(r: ChannelAliasRow, channelId: string, modelId: string)
  {
    r.channelId == channelId && r.modelId == modelId
  }

  /** `DELETE FROM channel_model_aliases WHERE channel_id = ? AND model_id = ?`. */
  function WithoutPair(table: seq<ChannelAliasRow>, channelId: string, modelId: string): (r: seq<ChannelAliasRow>)
    ensures forall row :: row in r <==> row in table && !OfPair(row, channelId, modelId)
  {
    if table == [] then []
    else (if !OfPair(table[0], channelId, modelId) then [table[0]] else []) + WithoutPair(table[1..], channelId, modelId)
  }

  /** The rows of one (channel, model) pair, in table order. */
  function RowsOfPair(table: seq<ChannelAliasRow>, channelId: string, modelId: string): (r: seq<ChannelAliasRow>)
    ensures forall row :: row in r ==> row in table && OfPair(row, channelId, modelId)
  {
    if table == [] then []
    else (if OfPair(table[0], channelId, modelId) then [table[0]] else []) + RowsOfPair(table[1..], channelId, modelId)
  }

  lemma {:induction false} RowsOfPairAppend(a: seq<ChannelAliasRow>, b: seq<ChannelAliasRow>, channelId: string, modelId: string)
    ensures RowsOfPair(a + b, channelId, modelId) == RowsOfPair(a, channelId, modelId) + RowsOfPair(b, channelId, modelId)
    decreases |a|
  {
    if a == [] {
      assert a + b == b;
    } else {
      assert (a + b)[0] == a[0];
      assert (a + b)[1..] == a[1..] + b;
      RowsOfPairAppend(a[1..], b, channelId, modelId);
    }
  }

  lemma {:induction false} RowsOfPairAll(rows: seq<ChannelAliasRow>, channelId: string, modelId: string)
    requires forall k :: 0 <= k < |rows| ==> OfPair(rows[k], channelId, modelId)
    ensures RowsOfPair(rows, channelId, modelId) == rows
  {
    if rows != [] {
      RowsOfPairAll(rows[1..], channelId, modelId);
    }
  }

  lemma {:induction false} RowsOfPairNone(rows: seq<ChannelAliasRow>, channelId: string, modelId: string)
    requires forall k :: 0 <= k < |rows| ==> !OfPair(rows[k], channelId, modelId)
    ensures RowsOfPair(rows, channelId, modelId) == []
  {
    if rows != [] {
      RowsOfPairNone(rows[1..], channelId, modelId);
    }
  }

  lemma {:induction false} WithoutPairKeepsOthers(table: seq<ChannelAliasRow>, channelId: string, modelId: string,
                                                  otherChannel: string, otherModel: string)
    requires otherChannel != channelId || otherModel != modelId
    ensures RowsOfPair(WithoutPair(table, channelId, modelId), otherChannel, otherModel)
      == RowsOfPair(table, otherChannel, otherModel)
  {
    if table != [] {
      WithoutPairKeepsOthers(table[1..], channelId, modelId, otherChannel, otherModel);
      var head := if !OfPair(table[0], channelId, modelId) then [table[0]] else [];
      RowsOfPairAppend(head, WithoutPair(table[1..], channelId, modelId), otherChannel, otherModel);
    }
  }

  /**
   * After `saveChannelAliases`, the pair's rows are exactly the inputs in
   * order with the one `alias_only` flag; the rows of every other
   * (channel, model) pair are as before.
   */
  lemma SaveChannelAliasesReplaces(table: seq<ChannelAliasRow>, channelId: string, modelId: string,
                                   aliases: seq<AliasInput>, aliasOnly: bool, newId: nat -> string, now: string,
                                   otherChannel: string, otherModel: string)
    ensures var after := WithoutPair(table, channelId, modelId) + NewChannelAliasRows(channelId, modelId, aliases, aliasOnly, newId, now);
      && |RowsOfPair(after, channelId, modelId)| == |aliases|
      && (forall k :: 0 <= k < |aliases| ==>
            RowsOfPair(after, channelId, modelId)[k].alias == aliases[k].alias
            && (RowsOfPair(after, channelId, modelId)[k].isPrimary == 1 <==> aliases[k].isPrimary)
            && (RowsOfPair(after, channelId, modelId)[k].aliasOnly == 1 <==> aliasOnly))
      && (otherChannel != channelId || otherModel != modelId ==>
            RowsOfPair(after, otherChannel, otherModel) == RowsOfPair(table, otherChannel, otherModel))
  {
    var kept := WithoutPair(table, channelId, modelId);
    var added := NewChannelAliasRows(channelId, modelId, aliases, aliasOnly, newId, now);
    RowsOfPairAppend(kept, added, channelId, modelId);
    assert forall k :: 0 <= k < |kept| ==> kept[k] in kept;
    RowsOfPairNone(kept, channelId, modelId);
    RowsOfPairAll(added, channelId, modelId);
    assert [] + added == added;
    if otherChannel != channelId || otherModel != modelId {
      RowsOfPairAppend(kept, added, otherChannel, otherModel);
      RowsOfPairNone(added, otherChannel, otherModel);
      WithoutPairKeepsOthers(table, channelId, modelId, otherChannel, otherModel);
      assert RowsOfPair(kept, otherChannel, otherModel) + [] == RowsOfPair(kept, otherChannel, otherModel);
    }
  }

  /** The two alias tables, changed in place by the saves and the delete. */
  class AliasTables {
    var modelAliases: seq<AliasRow>
    var channelAliases: seq<ChannelAliasRow>

    constructor(modelAliases: seq<AliasRow>, channelAliases: seq<ChannelAliasRow>)
      ensures this.modelAliases == modelAliases && this.channelAliases == channelAliases
    {
      this.modelAliases := modelAliases;
      this.channelAliases := channelAliases;
    }

    /** `saveAliasesForModel`: one batch that deletes the model's rows and inserts the new ones. */
    method SaveAliasesForModel(modelId: string, aliases: seq<AliasInput>, aliasOnly: bool, newId: nat -> string, now: string)
      modifies this
      ensures modelAliases == WithoutModel(old(modelAliases), modelId) + NewAliasRows(modelId, aliases, aliasOnly, newId, now)
      ensures channelAliases == old(channelAliases)
    {
      var inserts: seq<AliasRow> := [];
      for k := 0 to |aliases|
        invariant inserts == NewAliasRows(modelId, aliases[..k], aliasOnly, newId, now)
      {
        var a := aliases[k];
        inserts := inserts + [AliasRow(newId(k), modelId, a.alias, if a.isPrimary then 1 else 0, if aliasOnly then 1 else 0, now, now)];
      }
      assert aliases[..|aliases|] == aliases;
      modelAliases := WithoutModel(modelAliases, modelId) + inserts;
    }

    /** `deleteAliasesForModel`. */
    method DeleteAliasesForModel(modelId: string)
      modifies this
      ensures modelAliases == WithoutModel(old(modelAliases), modelId)
      ensures channelAliases == old(channelAliases)
    {
      modelAliases := WithoutModel(modelAliases, modelId);
    }

    /** `saveChannelAliases`: the same replace-all, scoped to one (channel, model) pair. */
    method SaveChannelAliases(channelId: string, modelId: string, aliases: seq<AliasInput>, aliasOnly: bool,
                              newId: nat -> string, now: string)
      modifies this
      ensures channelAliases == WithoutPair(old(channelAliases), channelId, modelId)
                                + NewChannelAliasRows(channelId, modelId, aliases, aliasOnly, newId, now)
      ensures modelAliases == old(modelAliases)
    {
      var inserts: seq<ChannelAliasRow> := [];
      for k := 0 to |aliases|
        invariant inserts == NewChannelAliasRows(channelId, modelId, aliases[..k], aliasOnly, newId, now)
      {
        var a := aliases[k];
        inserts := inserts + [ChannelAliasRow(newId(k), channelId, modelId, a.alias, if a.isPrimary then 1 else 0,
                                              if aliasOnly then 1 else 0, now, now)];
      }
      assert aliases[..|aliases|] == aliases;
      channelAliases := WithoutPair(channelAliases, channelId, modelId) + inserts;
    }
  }
}

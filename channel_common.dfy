/**
 * What the two channel route files share (apps/worker/src/routes/channels.ts
 * and apps/worker/src/routes/user-channels.ts): a `channels` row, the
 * parsed `models` array with the rule that reads model ids out of it, and
 * the split of an id list into query batches of at most 80 (D1 binds at
 * most 100 parameters per statement).
 */
module ChannelCommon {
  import opened Wrappers

  /**
   * One element of a `models` array: a bare model id, an object with or
   * without a string `id`, or anything else (null, a number).
   */
  datatype ModelItem = Named(name: string) | Described(id: Option<string>) | Unusable

  /**
   * The `models_json` column after `JSON.parse`: absent (`null` or the empty
   * string), not JSON, an array, an object (with `data` when its `data` is an
   * array), or another JSON value.
   */
  datatype ModelsJson =
    | Absent
    | Malformed
    | ArrayForm(items: seq<ModelItem>)
    | ObjectForm(data: Option<seq<ModelItem>>)
    | OtherValue

  /**
   * A `channels` row. Columns the routes here never read or write (type,
   * group, priority, metadata, test results) are not modelled.
   */
  datatype ChannelRow = ChannelRow(
    id: string, name: string, baseUrl: string, apiKey: string, weight: int, status: string,
    rateLimit: int, modelsJson: ModelsJson, apiFormat: string, customHeaders: Option<string>,
    contributedBy: Option<string>, chargeEnabled: int, createdAt: string, updatedAt: string)

  /** `typeof m === "string" ? m : m?.id ?? ""`: the id an element names, or "". */
  function ItemId(m: ModelItem): string
  {
    match m
    case Named(n) => n
    case Described(id) => id.GetOr("")
    case Unusable => ""
  }

  /** `models.map(ItemId).filter(Boolean)`: the non-empty ids, in array order. */
  function ModelIds(items: seq<ModelItem>): (r: seq<string>)
    ensures forall x :: x in r <==> x != "" && exists i :: 0 <= i < |items| && ItemId(items[i]) == x
  {
    if items == [] then []
    else
      var rest := ModelIds(items[1..]);
      assert forall i :: 1 <= i < |items| ==> items[1..][i - 1] == items[i];
      (if ItemId(items[0]) != "" then [ItemId(items[0])] else []) + rest
  }

  /** The most ids one alias query binds. */
  const BatchSize: nat := 80

  function Min(a: int, b: int): int { if a < b then a else b }

  /** `ids.slice(i, i + 80)` for `i = 0, 80, 160, …` while `i < ids.length`. */
  function Batches<T>(ids: seq<T>): seq<seq<T>>
    decreases |ids|
  {
    if ids == [] then []
    else [ids[..Min(BatchSize, |ids|)]] + Batches(ids[Min(BatchSize, |ids|)..])
  }

  function Flatten<T>(parts: seq<seq<T>>): seq<T>
  {
    if parts == [] then [] else parts[0] + Flatten(parts[1..])
  }

  /**
   * The batches are consecutive, non-empty, hold at most 80 ids each and
   * together are the id list: every id is queried in exactly one batch.
   */
  lemma {:induction false} BatchesPartition<T>(ids: seq<T>)
    ensures Flatten(Batches(ids)) == ids
    ensures forall k :: 0 <= k < |Batches(ids)| ==> 0 < |Batches(ids)[k]| <= BatchSize
    ensures |Batches(ids)| == (|ids| + BatchSize - 1) / BatchSize
    decreases |ids|
  {
    if ids != [] {
      var n := Min(BatchSize, |ids|);
      BatchesPartition(ids[n..]);
      assert ids[..n] + ids[n..] == ids;
    }
  }

  /** The k-th batch is the slice the source loop takes at `i = 80 * k`. */
  lemma {:induction false} BatchAt<T>(ids: seq<T>, k: nat)
    requires k < |Batches(ids)|
    ensures k * BatchSize < |ids|
    ensures Batches(ids)[k] == ids[k * BatchSize..Min(k * BatchSize + BatchSize, |ids|)]
    decreases |ids|
  {
    var n := Min(BatchSize, |ids|);
    if k > 0 {
      BatchAt(ids[n..], k - 1);
      assert n == BatchSize;
      assert ids[n..][(k - 1) * BatchSize..Min((k - 1) * BatchSize + BatchSize, |ids| - n)]
          == ids[k * BatchSize..Min(k * BatchSize + BatchSize, |ids|)];
    }
  }
}

/**
 * The model catalogue of the admin API (apps/worker/src/routes/models.ts):
 * the model entries of the active channels, grouped by model id with the
 * channels that offer each model.
 *
 * `extractModels` is not part of this model: its output, the entries of
 * every active channel in channel order, is the input here.
 */
module Models {
  import opened Grouping

  /** A model entry as `extractModels` yields it. */
  datatype Entry = Entry(id: string, channelId: string, channelName: string)

  /** `{ id, name }` of a channel offering a model. */
  datatype ChannelRef = ChannelRef(id: string, name: string)

  /** Each entry as the key it is grouped under and the reference it pushes. */
  function Pairs(entries: seq<Entry>): (r: seq<(string, ChannelRef)>)
    ensures |r| == |entries|
    ensures forall i :: 0 <= i < |entries| ==>
      r[i].0 == entries[i].id && r[i].1 == ChannelRef(entries[i].channelId, entries[i].channelName)
  {
    seq(|entries|, i requires 0 <= i < |entries| => (entries[i].id, ChannelRef(entries[i].channelId, entries[i].channelName)))
  }

  /**
   * `GET /`: the `Map` loop over the entries, then `Array.from(map.values())`;
   * each result is a model id with its channel references.
   */
  method ListModels(entries: seq<Entry>) returns (models: seq<(string, seq<ChannelRef>)>)
    ensures models == Entries(Pairs(entries))
  {
    models := GroupEntries(Pairs(entries));
  }

  /**
   * Each entry's channel is listed under its own model, the listing names
   * each model once, and it references as many channels as there are entries.
   */
  lemma ListingAccountsForEveryEntry(entries: seq<Entry>, n: nat)
    requires n < |entries|
    ensures exists i :: 0 <= i < |Entries(Pairs(entries))| && Entries(Pairs(entries))[i].0 == entries[n].id
                        && ChannelRef(entries[n].channelId, entries[n].channelName) in Entries(Pairs(entries))[i].1
    ensures forall i, j :: 0 <= i < j < |Entries(Pairs(entries))| ==>
      Entries(Pairs(entries))[i].0 != Entries(Pairs(entries))[j].0
    ensures TotalValues(Entries(Pairs(entries))) == |entries|
  {
    EntriesHoldEachPair(Pairs(entries), n);
    EntriesKeys(Pairs(entries));
    EntriesTotal(Pairs(entries));
  }
}

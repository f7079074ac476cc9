/**
 * The public model listing (apps/worker/src/routes/public.ts): closed in
 * personal mode; otherwise every pricing entry of every active channel
 * becomes one channel reference under its model id, with the channel's
 * name and prices masked in shared mode.
 *
 * `listActiveChannels` and `extractModelPricings` are not part of this
 * model: each active channel arrives with its pricing entries already
 * extracted. A JSON `null` price is `None`.
 */
module PublicModels {
  import opened Wrappers
  import opened Grouping

  datatype Pricing = Pricing(id: string, inputPrice: Option<real>, outputPrice: Option<real>)

  /** An active channel with the pricing entries extracted from it. */
  datatype Channel = Channel(id: string, name: string, pricings: seq<Pricing>)

  /** `{ id, name, input_price, output_price }`. */
  datatype Ref = Ref(id: string, name: string, inputPrice: Option<real>, outputPrice: Option<real>)

  datatype Reply =
    | Forbidden(error: string)
    | Listing(models: seq<(string, seq<Ref>)>, siteMode: string)

  /** The name every channel is listed under in shared mode. */
  const SharedName: string := "共享渠道"

  /** The reference one pricing entry pushes. */
  function RefFor(siteMode: string, c: Channel, p: Pricing): Ref
  {
    if siteMode == "shared" then Ref(c.id, SharedName, None, None)
    else Ref(c.id, c.name, p.inputPrice, p.outputPrice)
  }

  /** The pricing entries of all channels. */
  function PricingCount(channels: seq<Channel>): nat
  {
    if channels == [] then 0 else PricingCount(channels[..|channels| - 1]) + |channels[|channels| - 1].pricings|
  }

  /** Whether `r` is the reference pricing entry `p` of channel `c` pushes under `modelId`. */
  predicate PushedBy(siteMode: string, channels: seq<Channel>, modelId: string, r: Ref)
  {
    exists ci, pi ::
      0 <= ci < |channels| && 0 <= pi < |channels[ci].pricings|
      && channels[ci].pricings[pi].id == modelId && r == RefFor(siteMode, channels[ci], channels[ci].pricings[pi])
  }

  /** The pushes of the nested loop, channel by channel and, within a channel, pricing by pricing. */
  function Pushes(siteMode: string, channels: seq<Channel>): (r: seq<(string, Ref)>)
    ensures |r| == PricingCount(channels)
    ensures forall k :: 0 <= k < |r| ==> PushedBy(siteMode, channels, r[k].0, r[k].1)
  {
    if channels == [] then []
    else
      var init := channels[..|channels| - 1];
      var c := channels[|channels| - 1];
      var own := seq(|c.pricings|, j requires 0 <= j < |c.pricings| => (c.pricings[j].id, RefFor(siteMode, c, c.pricings[j])));
      var r := Pushes(siteMode, init) + own;
      assert forall k :: 0 <= k < |Pushes(siteMode, init)| ==> r[k] == Pushes(siteMode, init)[k];
      assert forall k :: |Pushes(siteMode, init)| <= k < |r| ==>
        r[k] == own[k - |Pushes(siteMode, init)|] && channels[|channels| - 1] == c;
      forall k | 0 <= k < |Pushes(siteMode, init)|
        ensures PushedBy(siteMode, channels, r[k].0, r[k].1)
      {
        var ci, pi :| 0 <= ci < |init| && 0 <= pi < |init[ci].pricings|
          && init[ci].pricings[pi].id == r[k].0 && r[k].1 == RefFor(siteMode, init[ci], init[ci].pricings[pi]);
        assert channels[ci] == init[ci];
      }
      r
  }

  /** The response of `GET /models` for a site mode and the active channels. */
  function Response(siteMode: string, channels: seq<Channel>): (r: Reply)
    ensures r.Forbidden? <==> siteMode == "personal"
    ensures r.Listing? ==> r.siteMode == siteMode
  {
    if siteMode == "personal" then Forbidden("模型信息不公开")
    else Listing(Entries(Pushes(siteMode, channels)), siteMode)
  }

  /** `GET /models`. */
  method ListPublicModels(siteMode: string, channels: seq<Channel>) returns (reply: Reply)
    ensures reply == Response(siteMode, channels)
  {
    if siteMode == "personal" {
      return Forbidden("模型信息不公开");
    }
    var models := GroupEntries(Pushes(siteMode, channels));
    reply := Listing(models, siteMode);
  }

  /** Every reference listed under a model comes from a pricing entry for that model. */
  lemma ListedRefsArePushed(siteMode: string, channels: seq<Channel>, i: nat, r: Ref)
    requires siteMode != "personal"
    requires i < |Response(siteMode, channels).models|
    requires r in Response(siteMode, channels).models[i].1
    ensures PushedBy(siteMode, channels, Response(siteMode, channels).models[i].0, r)
  {
    var pairs := Pushes(siteMode, channels);
    var k := Response(siteMode, channels).models[i].0;
    assert (k, r) in pairs;
  }

  /** In shared mode every reference is masked: the shared name and no prices. */
  lemma SharedModeMasks(channels: seq<Channel>, i: nat, r: Ref)
    requires i < |Response("shared", channels).models|
    requires r in Response("shared", channels).models[i].1
    ensures r.name == SharedName && r.inputPrice == None && r.outputPrice == None
  {
    ListedRefsArePushed("shared", channels, i, r);
  }

  /**
   * In any other open mode a reference carries the channel's own id and
   * name and the pricing entry's prices, an absent price staying absent.
   */
  lemma OtherModesExpose(siteMode: string, channels: seq<Channel>, i: nat, r: Ref)
    requires siteMode != "personal" && siteMode != "shared"
    requires i < |Response(siteMode, channels).models|
    requires r in Response(siteMode, channels).models[i].1
    ensures exists ci, pi ::
              0 <= ci < |channels| && 0 <= pi < |channels[ci].pricings|
              && channels[ci].pricings[pi].id == Response(siteMode, channels).models[i].0
              && r == Ref(channels[ci].id, channels[ci].name, channels[ci].pricings[pi].inputPrice, channels[ci].pricings[pi].outputPrice)
  {
    ListedRefsArePushed(siteMode, channels, i, r);
  }

  /** One reference per (channel, pricing entry), and each model id listed once. */
  lemma OneRefPerPricing(siteMode: string, channels: seq<Channel>)
    requires siteMode != "personal"
    ensures TotalValues(Response(siteMode, channels).models) == PricingCount(channels)
    ensures forall i, j :: 0 <= i < j < |Response(siteMode, channels).models| ==>
      Response(siteMode, channels).models[i].0 != Response(siteMode, channels).models[j].0
  {
    EntriesTotal(Pushes(siteMode, channels));
    EntriesKeys(Pushes(siteMode, channels));
  }
}

/** The comprehensive ad report: ads and ad-level insight rows, as returned upstream, are keyed
    into dictionaries, joined on the ad id (ads without an insight row are dropped) and flattened
    into one record per ad. */
module Report {
  import opened Wrappers
  import opened Text
  import opened Actions
  import opened OrderedDict

  // ---------------------------------------------------------------------------
  // Upstream entities
  // ---------------------------------------------------------------------------

  /** The `campaign{id,name}` or `adset{id,name}` object nested in an ad. */
  datatype ParentRef = ParentRef(id: Option<string>, name: Option<string>)

  /** `object_story_spec.video_data`; `hasOtherKeys` stands for any key besides `video_id`. */
  datatype VideoData = VideoData(videoId: Option<string>, hasOtherKeys: bool)

  /** `object_story_spec`; `hasOtherKeys` stands for any key besides `video_data`. */
  datatype StorySpec = StorySpec(videoData: Option<VideoData>, hasOtherKeys: bool)

  /** The `creative{id,asset_feed_spec,image_url,video_id,thumbnail_url,object_story_spec}` object;
      only the presence of `asset_feed_spec` matters to the report. */
  datatype Creative = Creative(
    id: Option<string>,
    hasAssetFeedSpec: bool,
    imageUrl: Option<string>,
    videoId: Option<string>,
    thumbnailUrl: Option<string>,
    objectStorySpec: Option<StorySpec>)

  /** One element of the ads response's `data` list. */
  datatype Ad = Ad(
    id: string,
    name: Option<string>,
    status: Option<string>,
    effectiveStatus: Option<string>,
    campaignId: Option<string>,
    campaign: Option<ParentRef>,
    adsetId: Option<string>,
    adset: Option<ParentRef>,
    creative: Option<Creative>)

  /** One element of the ad-level insights response's `data` list. Metric values are kept as
      the strings the upstream API sends; the report never parses them. */
  datatype InsightRow = InsightRow(
    adId: string,
    reach: Option<string>,
    impressions: Option<string>,
    frequency: Option<string>,
    spend: Option<string>,
    clicks: Option<string>,
    uniqueClicks: Option<string>,
    ctr: Option<string>,
    uniqueCtr: Option<string>,
    cpc: Option<string>,
    cpm: Option<string>,
    actions: seq<Action<string>>,
    costPerActionType: seq<Action<string>>,
    videoPlayActions: seq<Action<string>>,
    videoThruplayWatched: seq<Action<string>>,
    videoP25Watched: seq<Action<string>>,
    videoP50Watched: seq<Action<string>>,
    videoP75Watched: seq<Action<string>>,
    videoP100Watched: seq<Action<string>>,
    videoContinuous2SecWatched: seq<Action<string>>)

  /** One flattened record of the report's `data` list. */
  datatype FlatRecord = FlatRecord(
    adCreativeId: Option<string>,
    adId: string,
    adName: Option<string>,
    campaignId: Option<string>,
    campaignName: Option<string>,
    adSetId: Option<string>,
    adSetName: Option<string>,
    adStatus: Option<string>,
    delivery: Option<string>,
    assetUrl: Option<string>,
    reach: Option<string>,
    impressions: Option<string>,
    frequency: Option<string>,
    purchases: Option<string>,
    costPerPurchase: Option<string>,
    clicksAll: Option<string>,
    uniqueClicksAll: Option<string>,
    ctrAll: Option<string>,
    uniqueCtrAll: Option<string>,
    cpcAll: Option<string>,
    cpm: Option<string>,
    video3SecPlays: Option<string>,
    videoPlays25Percent: Option<string>,
    videoPlays50Percent: Option<string>,
    videoPlays75Percent: Option<string>,
    videoPlays100Percent: Option<string>,
    videoPlays: Option<string>,
    thruPlays: Option<string>,
    addsToCart: Option<string>,
    contentViews: Option<string>,
    checkoutsInitiated: Option<string>,
    landingPageViews: Option<string>,
    linkClicks: Option<string>,
    outboundClicks: Option<string>,
    postReactions: Option<string>,
    postComments: Option<string>,
    postSaves: Option<string>,
    postShares: Option<string>,
    postEngagement: Option<string>,
    pageLikes: Option<string>,
    amountSpent: Option<string>)

  // ---------------------------------------------------------------------------
  // Truthiness of the nested objects (a dict is truthy when it has a key)
  // ---------------------------------------------------------------------------

  predicate ParentTruthy(p: Option<ParentRef>) {
    p.Some? && (p.value.id.Some? || p.value.name.Some?)
  }

  predicate VideoTruthy(v: Option<VideoData>) {
    v.Some? && (v.value.videoId.Some? || v.value.hasOtherKeys)
  }

  predicate StoryTruthy(s: Option<StorySpec>) {
    s.Some? && (s.value.videoData.Some? || s.value.hasOtherKeys)
  }

  predicate CreativeTruthy(c: Option<Creative>) {
    && c.Some?
    && (|| c.value.id.Some? || c.value.hasAssetFeedSpec || c.value.imageUrl.Some?
        || c.value.videoId.Some? || c.value.thumbnailUrl.Some? || c.value.objectStorySpec.Some?)
  }

  /** The creative's story spec is truthy and carries non-empty `video_data`. */
  predicate HasVideo(c: Creative) {
    StoryTruthy(c.objectStorySpec) && VideoTruthy(c.objectStorySpec.value.videoData)
  }

  // ---------------------------------------------------------------------------
  // Field derivations
  // ---------------------------------------------------------------------------

  const VideoLabelPrefix: string := "Video ID: "

  /** The asset URL of an ad: the thumbnail, else the image, else a video label when the story
      spec carries video data; `None` when the ad has no creative. */
  function AssetUrl(creative: Option<Creative>): (r: Option<string>)
    ensures !CreativeTruthy(creative) ==> r == None
    ensures CreativeTruthy(creative) && Truthy(creative.value.thumbnailUrl) ==> r == creative.value.thumbnailUrl
    ensures CreativeTruthy(creative) && !Truthy(creative.value.thumbnailUrl) && Truthy(creative.value.imageUrl)
      ==> r == creative.value.imageUrl
    ensures
      && CreativeTruthy(creative) && !Truthy(creative.value.thumbnailUrl) && !Truthy(creative.value.imageUrl)
      && !HasVideo(creative.value)
      ==> r == creative.value.imageUrl
    ensures Truthy(r) <==>
      && CreativeTruthy(creative)
      && (Truthy(creative.value.thumbnailUrl) || Truthy(creative.value.imageUrl) || HasVideo(creative.value))
    ensures
      && CreativeTruthy(creative) && !Truthy(creative.value.thumbnailUrl) && !Truthy(creative.value.imageUrl)
      && HasVideo(creative.value)
      ==> r == Some(VideoLabelPrefix + creative.value.objectStorySpec.value.videoData.value.videoId.GetOr("N/A"))
    ensures
      && r.Some? && CreativeTruthy(creative) && r != creative.value.thumbnailUrl && r != creative.value.imageUrl
      ==> HasVideo(creative.value) && VideoLabelPrefix <= r.value
  {
    if !CreativeTruthy(creative) then None
    else
      var c := creative.value;
      var url := Or(c.thumbnailUrl, c.imageUrl);
      if !Truthy(url) && StoryTruthy(c.objectStorySpec) then
        var video := c.objectStorySpec.value.videoData;
        if VideoTruthy(video) then Some(VideoLabelPrefix + video.value.videoId.GetOr("N/A"))
        else url
      else url
  }

  /** Id and name of an ad's campaign or ad set: from the nested object when it is truthy,
      else the flat id and no name. */
  function ParentOf(nested: Option<ParentRef>, flatId: Option<string>): (r: (Option<string>, Option<string>))
    ensures ParentTruthy(nested) ==> r == (nested.value.id, nested.value.name)
    ensures !ParentTruthy(nested) ==> r == (flatId, None)
  {
    if ParentTruthy(nested) then (nested.value.id, nested.value.name) else (flatId, None)
  }

  /** One report record for the ad keyed `adId` and its insight row. */
  function Flatten(adId: string, ad: Ad, row: InsightRow): (r: FlatRecord)
    ensures r.adId == adId
    ensures (r.campaignId, r.campaignName) == ParentOf(ad.campaign, ad.campaignId)
    ensures (r.adSetId, r.adSetName) == ParentOf(ad.adset, ad.adsetId)
    ensures r.assetUrl == AssetUrl(ad.creative)
    ensures r.adCreativeId == if CreativeTruthy(ad.creative) then ad.creative.value.id else None
    ensures (r.adName, r.adStatus, r.delivery) == (ad.name, ad.status, ad.effectiveStatus)
    ensures r.purchases == AliasChain(row.actions, PurchaseAliases)
    ensures r.costPerPurchase == AliasChain(row.costPerActionType, PurchaseAliases)
    ensures Truthy(r.purchases) <==> exists k :: 0 <= k < |PurchaseAliases| && Truthy(ActionValue(row.actions, PurchaseAliases[k]))
    ensures Truthy(r.costPerPurchase)
      <==> exists k :: 0 <= k < |PurchaseAliases| && Truthy(ActionValue(row.costPerActionType, PurchaseAliases[k]))
    ensures r.addsToCart == AliasChain(row.actions, AddToCartAliases)
    ensures r.contentViews == AliasChain(row.actions, ViewContentAliases)
    ensures r.checkoutsInitiated == AliasChain(row.actions, CheckoutAliases)
    ensures
      && r.video3SecPlays == ActionValue(row.videoContinuous2SecWatched, "video_view")
      && r.videoPlays25Percent == ActionValue(row.videoP25Watched, "video_view")
      && r.videoPlays50Percent == ActionValue(row.videoP50Watched, "video_view")
      && r.videoPlays75Percent == ActionValue(row.videoP75Watched, "video_view")
      && r.videoPlays100Percent == ActionValue(row.videoP100Watched, "video_view")
      && r.videoPlays == ActionValue(row.videoPlayActions, "video_view")
      && r.thruPlays == ActionValue(row.videoThruplayWatched, "video_view")
    ensures
      && r.landingPageViews == ActionValue(row.actions, "landing_page_view")
      && r.linkClicks == ActionValue(row.actions, "link_click")
      && r.outboundClicks == ActionValue(row.actions, "outbound_click")
      && r.postReactions == ActionValue(row.actions, "post_reaction")
      && r.postComments == ActionValue(row.actions, "comment")
      && r.postSaves == ActionValue(row.actions, "post_save")
      && r.postShares == ActionValue(row.actions, "post_share")
      && r.postEngagement == ActionValue(row.actions, "post_engagement")
      && r.pageLikes == ActionValue(row.actions, "like")
    ensures
      && (r.reach, r.impressions, r.frequency) == (row.reach, row.impressions, row.frequency)
      && (r.clicksAll, r.uniqueClicksAll, r.ctrAll, r.uniqueCtrAll) == (row.clicks, row.uniqueClicks, row.ctr, row.uniqueCtr)
      && (r.cpcAll, r.cpm, r.amountSpent) == (row.cpc, row.cpm, row.spend)
  {
    var campaign := ParentOf(ad.campaign, ad.campaignId);
    var adset := ParentOf(ad.adset, ad.adsetId);
    FlatRecord(
      adCreativeId := if CreativeTruthy(ad.creative) then ad.creative.value.id else None,
      adId := adId,
      adName := ad.name,
      campaignId := campaign.0,
      campaignName := campaign.1,
      adSetId := adset.0,
      adSetName := adset.1,
      adStatus := ad.status,
      delivery := ad.effectiveStatus,
      assetUrl := AssetUrl(ad.creative),
      reach := row.reach,
      impressions := row.impressions,
      frequency := row.frequency,
      purchases := AliasChain(row.actions, PurchaseAliases),
      costPerPurchase := AliasChain(row.costPerActionType, PurchaseAliases),
      clicksAll := row.clicks,
      uniqueClicksAll := row.uniqueClicks,
      ctrAll := row.ctr,
      uniqueCtrAll := row.uniqueCtr,
      cpcAll := row.cpc,
      cpm := row.cpm,
      video3SecPlays := ActionValue(row.videoContinuous2SecWatched, "video_view"),
      videoPlays25Percent := ActionValue(row.videoP25Watched, "video_view"),
      videoPlays50Percent := ActionValue(row.videoP50Watched, "video_view"),
      videoPlays75Percent := ActionValue(row.videoP75Watched, "video_view"),
      videoPlays100Percent := ActionValue(row.videoP100Watched, "video_view"),
      videoPlays := ActionValue(row.videoPlayActions, "video_view"),
      thruPlays := ActionValue(row.videoThruplayWatched, "video_view"),
      addsToCart := AliasChain(row.actions, AddToCartAliases),
      contentViews := AliasChain(row.actions, ViewContentAliases),
      checkoutsInitiated := AliasChain(row.actions, CheckoutAliases),
      landingPageViews := ActionValue(row.actions, "landing_page_view"),
      linkClicks := ActionValue(row.actions, "link_click"),
      outboundClicks := ActionValue(row.actions, "outbound_click"),
      postReactions := ActionValue(row.actions, "post_reaction"),
      postComments := ActionValue(row.actions, "comment"),
      postSaves := ActionValue(row.actions, "post_save"),
      postShares := ActionValue(row.actions, "post_share"),
      postEngagement := ActionValue(row.actions, "post_engagement"),
      pageLikes := ActionValue(row.actions, "like"),
      amountSpent := row.spend)
  }

  /** `cost_per_purchase` is resolved from the cost list alone: whatever the actions list says,
      and so whichever alias produced `purchases`, the same cost list gives the same value. */
  lemma CostPerPurchaseIgnoresActions(adId: string, ad: Ad, row1: InsightRow, row2: InsightRow)
    requires row1.costPerActionType == row2.costPerActionType
    ensures Flatten(adId, ad, row1).costPerPurchase == Flatten(adId, ad, row2).costPerPurchase
  {
  }

  // ---------------------------------------------------------------------------
  // The join
  // ---------------------------------------------------------------------------

  function AdKey(ad: Ad): string {
    ad.id
  }

  function RowKey(row: InsightRow): string {
    row.adId
  }

  /** The ad keys, in order, that have an insight row (`if ad_id in insights_dict`). */
  function Matched(keys: seq<string>, rows: map<string, InsightRow>): (m: seq<string>)
    ensures |m| <= |keys|
    ensures forall i :: 0 <= i < |m| ==> m[i] in keys && m[i] in rows
  {
    if |keys| == 0 then []
    else
      var init := keys[..|keys| - 1];
      var k := keys[|keys| - 1];
      var prev := Matched(init, rows);
      assert forall i :: 0 <= i < |prev| ==> prev[i] in keys;
      if k in rows then prev + [k] else prev
  }

  /** Walk the ad keys in order and flatten each ad that has an insight row; skip the others. */
  function JoinAds(keys: seq<string>, ads: map<string, Ad>, rows: map<string, InsightRow>): (data: seq<FlatRecord>)
    requires forall k :: k in keys ==> k in ads
    ensures |data| == |Matched(keys, rows)|
    ensures forall i :: 0 <= i < |data| ==> data[i].adId == Matched(keys, rows)[i]
    ensures forall i :: 0 <= i < |data| ==>
      data[i] == Flatten(data[i].adId, ads[data[i].adId], rows[data[i].adId])
  {
    var m := Matched(keys, rows);
    seq(|m|, i requires 0 <= i < |m| => Flatten(m[i], ads[m[i]], rows[m[i]]))
  }

  /** Every key that has an insight row is kept. */
  lemma {:induction false} MatchedComplete(keys: seq<string>, rows: map<string, InsightRow>)
    ensures forall k :: k in keys && k in rows ==> k in Matched(keys, rows)
  {
    if |keys| > 0 {
      var init := keys[..|keys| - 1];
      MatchedComplete(init, rows);
      forall k | k in keys && k in rows
        ensures k in Matched(keys, rows)
      {
        if k in init {
          assert Matched(init, rows) <= Matched(keys, rows);
        }
      }
    }
  }

  /** With distinct keys, the kept keys come in key order. */
  lemma {:induction false} MatchedOrder(keys: seq<string>, rows: map<string, InsightRow>)
    requires forall i, j :: 0 <= i < j < |keys| ==> keys[i] != keys[j]
    ensures forall i, j :: 0 <= i < j < |Matched(keys, rows)| ==>
      Find(keys, Matched(keys, rows)[i]).value < Find(keys, Matched(keys, rows)[j]).value
  {
    if |keys| > 0 {
      var n := |keys| - 1;
      var init := keys[..n];
      MatchedOrder(init, rows);
      var prev := Matched(init, rows);
      var m := Matched(keys, rows);
      assert prev <= m;
      PrefixPositions(keys, prev);
      forall i, j | 0 <= i < j < |m|
        ensures Find(keys, m[i]).value < Find(keys, m[j]).value
      {
        assert m[i] == prev[i];
        if j < |prev| {
          assert m[j] == prev[j];
        } else {
          assert m[j] == keys[n];
        }
      }
    }
  }

  /** Positions of keys from the prefix without the last key are unchanged in the whole key
      list, and come before the last key's position. */
  lemma PrefixPositions(keys: seq<string>, xs: seq<string>)
    requires |keys| > 0
    requires forall i, j :: 0 <= i < j < |keys| ==> keys[i] != keys[j]
    requires forall i :: 0 <= i < |xs| ==> xs[i] in keys[..|keys| - 1]
    ensures Find(keys, keys[|keys| - 1]) == Some(|keys| - 1)
    ensures forall i :: 0 <= i < |xs| ==>
      Find(keys, xs[i]) == Find(keys[..|keys| - 1], xs[i])
      && Find(keys, xs[i]).value < |keys| - 1
  {
    var n := |keys| - 1;
    assert keys[n] !in keys[..n];
    FindUnique(keys, keys[n], n);
    forall i | 0 <= i < |xs|
      ensures Find(keys, xs[i]) == Find(keys[..n], xs[i])
    {
      PrefixPosition(keys, n, xs[i]);
    }
  }

  /** A key of a prefix is found at the same place in the whole list. */
  lemma PrefixPosition(keys: seq<string>, n: nat, x: string)
    requires n <= |keys| && x in keys[..n]
    ensures Find(keys, x) == Find(keys[..n], x)
  {
    var a := Find(keys[..n], x).value;
    assert keys[..n][..a] == keys[..a];
    FindUnique(keys, x, a);
  }

  // ---------------------------------------------------------------------------
  // The report
  // ---------------------------------------------------------------------------

  /** The arguments of `get_comprehensive_ad_report`, echoed in the summary. */
  datatype ReportQuery = ReportQuery(
    actId: string,
    datePreset: Option<string>,
    timeRange: Option<map<string, string>>,
    campaignId: Option<string>,
    limit: Option<int>,
    minSpend: Option<real>)

  /** The report's `summary`: the record count and the query arguments it echoes (the page
      size is not among them). */
  datatype ReportSummary = ReportSummary(
    totalAds: nat,
    datePreset: Option<string>,
    timeRange: Option<map<string, string>>,
    accountId: string,
    campaignId: Option<string>,
    minSpendFilter: Option<real>)

  datatype AdReport = AdReport(data: seq<FlatRecord>, summary: ReportSummary)

  /** The report's records for the given ads and insight rows: every record is for an id that
      some ad and some insight row carry, and there are no more records than ads. */
  function ReportRecords(ads: seq<Ad>, rows: seq<InsightRow>): (data: seq<FlatRecord>)
    ensures |data| <= |ads|
    ensures forall i :: 0 <= i < |data| ==>
      data[i].adId in KeysOf(ads, AdKey) && data[i].adId in KeysOf(rows, RowKey)
  {
    var adDict := FromSeq(ads, AdKey);
    var rowDict := FromSeq(rows, RowKey);
    FromSeqKeys(ads, AdKey);
    FromSeqKeys(rows, RowKey);
    FromSeqSize(ads, AdKey);
    assert forall k :: k in adDict.keys ==> k in adDict.entries;
    JoinAds(adDict.keys, adDict.entries, rowDict.entries)
  }

  /** `get_comprehensive_ad_report` given the two upstream responses. A failed ads call aborts
      before insights are requested; a failed insights call aborts the report. */
  function ComprehensiveReport(query: ReportQuery, ads: Result<seq<Ad>, string>, rows: Result<seq<InsightRow>, string>)
    : (r: Result<AdReport, string>)
    ensures ads.Failure? ==> r == Failure(ads.error)
    ensures ads.Success? && rows.Failure? ==> r == Failure(rows.error)
    ensures ads.Success? && rows.Success? ==> r.Success? && r.value.data == ReportRecords(ads.value, rows.value)
    ensures r.Success? ==> r.value.summary.totalAds == |r.value.data|
    ensures r.Success? ==>
      && (r.value.summary.datePreset, r.value.summary.timeRange) == (query.datePreset, query.timeRange)
      && (r.value.summary.accountId, r.value.summary.campaignId) == (query.actId, query.campaignId)
      && r.value.summary.minSpendFilter == query.minSpend
  {
    match ads
    case Failure(e) => Failure(e)
    case Success(adList) =>
      match rows
      case Failure(e) => Failure(e)
      case Success(rowList) =>
        var data := ReportRecords(adList, rowList);
        Success(AdReport(data, ReportSummary(
          |data|, query.datePreset, query.timeRange, query.actId, query.campaignId, query.minSpend)))
  }

  // ---------------------------------------------------------------------------
  // Properties of the join
  // ---------------------------------------------------------------------------

  /** Some ad carries this id. */
  predicate HasAd(ads: seq<Ad>, id: string) {
    exists i :: 0 <= i < |ads| && ads[i].id == id
  }

  /** Some insight row carries this ad id. */
  predicate HasRow(rows: seq<InsightRow>, id: string) {
    exists i :: 0 <= i < |rows| && rows[i].adId == id
  }

  lemma KeysOfMembership<V>(items: seq<V>, key: V -> string, k: string)
    ensures k in KeysOf(items, key) <==> exists i :: 0 <= i < |items| && key(items[i]) == k
  {
    var ks := KeysOf(items, key);
    if i :| 0 <= i < |items| && key(items[i]) == k {
      assert ks[i] == k;
    }
  }

  /** An id is reported exactly when some ad and some insight row carry it: ads without an
      insight row are dropped, and nothing else is. */
  lemma ReportKeepsExactlyMatchedAds(ads: seq<Ad>, rows: seq<InsightRow>, id: string)
    ensures var data := ReportRecords(ads, rows);
      (exists i :: 0 <= i < |data| && data[i].adId == id) <==> HasAd(ads, id) && HasRow(rows, id)
  {
    var adDict := FromSeq(ads, AdKey);
    var rowDict := FromSeq(rows, RowKey);
    assert forall k :: k in adDict.keys ==> k in adDict.entries;
    var data := ReportRecords(ads, rows);
    var m := Matched(adDict.keys, rowDict.entries);
    assert data == JoinAds(adDict.keys, adDict.entries, rowDict.entries);
    FromSeqKeys(ads, AdKey);
    FromSeqKeys(rows, RowKey);
    KeysOfMembership(ads, AdKey, id);
    KeysOfMembership(rows, RowKey, id);
    assert id in adDict.keys <==> id in adDict.entries;
    MatchedComplete(adDict.keys, rowDict.entries);
    if id in m {
      var i :| 0 <= i < |m| && m[i] == id;
      assert data[i].adId == id;
    }
  }

  /** When an ad and an insight row share an id, and neither is followed by another carrying
      that id, the report holds a record built from exactly these two (a later duplicate
      overwrites an earlier one in the source's dict comprehensions). */
  lemma ReportRecordsUseLastDuplicates(ads: seq<Ad>, rows: seq<InsightRow>, a: nat, w: nat)
    requires a < |ads| && w < |rows| && ads[a].id == rows[w].adId
    requires forall j :: a < j < |ads| ==> ads[j].id != ads[a].id
    requires forall j :: w < j < |rows| ==> rows[j].adId != rows[w].adId
    ensures var data := ReportRecords(ads, rows);
      exists i :: 0 <= i < |data| && data[i] == Flatten(ads[a].id, ads[a], rows[w])
  {
    var id := ads[a].id;
    ReportKeepsExactlyMatchedAds(ads, rows, id);
    assert HasAd(ads, id) && HasRow(rows, id);
    var data := ReportRecords(ads, rows);
    var i :| 0 <= i < |data| && data[i].adId == id;
    FromSeqLastWins(ads, AdKey, a);
    FromSeqLastWins(rows, RowKey, w);
    assert data[i] == Flatten(id, ads[a], rows[w]);
  }

  /** The campaign and ad-set columns of a reported ad: id and name from the nested object when
      it is truthy, else the flat id and no name, taken from the last ad carrying the id. */
  lemma ReportParentFallback(ads: seq<Ad>, rows: seq<InsightRow>, a: nat)
    requires a < |ads| && HasRow(rows, ads[a].id)
    requires forall j :: a < j < |ads| ==> ads[j].id != ads[a].id
    ensures var data := ReportRecords(ads, rows);
      exists i :: 0 <= i < |data| && data[i].adId == ads[a].id
    ensures var data := ReportRecords(ads, rows);
      forall i :: 0 <= i < |data| && data[i].adId == ads[a].id ==>
        && (data[i].campaignId, data[i].campaignName)
           == (if ParentTruthy(ads[a].campaign) then (ads[a].campaign.value.id, ads[a].campaign.value.name)
               else (ads[a].campaignId, None))
        && (data[i].adSetId, data[i].adSetName)
           == (if ParentTruthy(ads[a].adset) then (ads[a].adset.value.id, ads[a].adset.value.name)
               else (ads[a].adsetId, None))
  {
    var id := ads[a].id;
    ReportKeepsExactlyMatchedAds(ads, rows, id);
    assert HasAd(ads, id);
    var data := ReportRecords(ads, rows);
    ReportRecordFromLastAd(ads, rows, a);
    forall i | 0 <= i < |data| && data[i].adId == id
      ensures (data[i].campaignId, data[i].campaignName) == ParentOf(ads[a].campaign, ads[a].campaignId)
      ensures (data[i].adSetId, data[i].adSetName) == ParentOf(ads[a].adset, ads[a].adsetId)
    {
      var row :| data[i] == Flatten(id, ads[a], row);
    }
  }

  /** A record for the id of the last ad carrying it is that ad, flattened with some row. */
  lemma ReportRecordFromLastAd(ads: seq<Ad>, rows: seq<InsightRow>, a: nat)
    requires a < |ads|
    requires forall j :: a < j < |ads| ==> ads[j].id != ads[a].id
    ensures var data := ReportRecords(ads, rows);
      forall i :: 0 <= i < |data| && data[i].adId == ads[a].id ==> exists row :: data[i] == Flatten(ads[a].id, ads[a], row)
  {
    var adDict := FromSeq(ads, AdKey);
    var rowDict := FromSeq(rows, RowKey);
    assert forall k :: k in adDict.keys ==> k in adDict.entries;
    var data := ReportRecords(ads, rows);
    assert data == JoinAds(adDict.keys, adDict.entries, rowDict.entries);
    FromSeqLastWins(ads, AdKey, a);
    forall i | 0 <= i < |data| && data[i].adId == ads[a].id
      ensures exists row :: data[i] == Flatten(ads[a].id, ads[a], row)
    {
      assert data[i] == Flatten(ads[a].id, ads[a], rowDict.entries[ads[a].id]);
    }
  }

  /** The ids of the report's records, in record order. */
  function ReportIds(ads: seq<Ad>, rows: seq<InsightRow>): (ids: seq<string>)
    ensures |ids| == |ReportRecords(ads, rows)|
    ensures forall i :: 0 <= i < |ids| ==> ReportRecords(ads, rows)[i].adId == ids[i]
  {
    var adDict := FromSeq(ads, AdKey);
    assert forall k :: k in adDict.keys ==> k in adDict.entries;
    Matched(adDict.keys, FromSeq(rows, RowKey).entries)
  }

  /** Records follow the order in which their ads first appear, so their ids are distinct. */
  lemma ReportFollowsAdOrder(ads: seq<Ad>, rows: seq<InsightRow>)
    ensures var data := ReportRecords(ads, rows);
      forall i :: 0 <= i < |data| ==> data[i].adId in KeysOf(ads, AdKey)
    ensures var data := ReportRecords(ads, rows);
      forall i, j :: 0 <= i < j < |data| ==> FirstIndex(ads, AdKey, data[i].adId) < FirstIndex(ads, AdKey, data[j].adId)
    ensures var data := ReportRecords(ads, rows);
      forall i, j :: 0 <= i < j < |data| ==> data[i].adId != data[j].adId
  {
    var ids := ReportIds(ads, rows);
    var keys := FromSeq(ads, AdKey).keys;
    MatchedOrder(keys, FromSeq(rows, RowKey).entries);
    FromSeqOrder(ads, AdKey);
    IdsFollowAdOrder(ads, keys, ids);
  }

  /** A list of dictionary keys ordered by position in the dictionary is ordered by first
      occurrence among the items. */
  lemma IdsFollowAdOrder(ads: seq<Ad>, keys: seq<string>, ids: seq<string>)
    requires forall k :: k in keys ==> k in KeysOf(ads, AdKey)
    requires forall p, q :: 0 <= p < q < |keys| ==>
      FirstIndex(ads, AdKey, keys[p]) < FirstIndex(ads, AdKey, keys[q])
    requires forall i :: 0 <= i < |ids| ==> ids[i] in keys
    requires forall i, j :: 0 <= i < j < |ids| ==> Find(keys, ids[i]).value < Find(keys, ids[j]).value
    ensures forall i :: 0 <= i < |ids| ==> ids[i] in KeysOf(ads, AdKey)
    ensures forall i, j :: 0 <= i < j < |ids| ==> FirstIndex(ads, AdKey, ids[i]) < FirstIndex(ads, AdKey, ids[j])
  {
    forall i, j | 0 <= i < j < |ids|
      ensures FirstIndex(ads, AdKey, ids[i]) < FirstIndex(ads, AdKey, ids[j])
    {
      var p := Find(keys, ids[i]).value;
      var q := Find(keys, ids[j]).value;
      assert keys[p] == ids[i] && keys[q] == ids[j];
    }
  }

  /** There are at most as many records as distinct ad ids, and so at most as many as ads. */
  lemma ReportSizeBound(ads: seq<Ad>, rows: seq<InsightRow>)
    ensures |ReportRecords(ads, rows)| <= |(set k | k in KeysOf(ads, AdKey))|
    ensures |ReportRecords(ads, rows)| <= |ads|
  {
    var adDict := FromSeq(ads, AdKey);
    FromSeqKeys(ads, AdKey);
    FromSeqSize(ads, AdKey);
    assert (set k | k in adDict.keys) == (set k | k in KeysOf(ads, AdKey));
    DistinctCardinality(adDict.keys);
  }

  lemma {:induction false} DistinctCardinality<T>(s: seq<T>)
    requires forall i, j :: 0 <= i < j < |s| ==> s[i] != s[j]
    ensures |(set x | x in s)| == |s|
  {
    if |s| > 0 {
      var init := s[..|s| - 1];
      DistinctCardinality(init);
      assert (set x | x in s) == (set x | x in init) + {s[|s| - 1]};
      assert s[|s| - 1] !in init;
    }
  }
}

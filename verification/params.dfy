/** The Graph API requests the tools send: the endpoint, and the query parameters built from the
    tool's arguments — a default field list when none is given, otherwise the given fields joined
    with commas; a page size for list tools; and the reporting window, where a custom time range
    takes precedence over a date preset. */
module Params {
  import opened Wrappers
  import opened Text

  const GraphUrl: string := "https://graph.facebook.com/v22.0"

  /** A query parameter value. JSON encodings are kept structured: `RangeJson` stands for
      `json.dumps(time_range)`, `FiltersJson` for `json.dumps(filtering)` (one text per filter
      object), and `SpendAbove` for the spend `GREATER_THAN` filter. */
  datatype ParamValue =
    | Str(text: string)
    | Limit(limit: Option<int>)
    | RangeJson(range: map<string, string>)
    | FiltersJson(filters: seq<string>)
    | SpendAbove(threshold: Option<real>)

  datatype Request = Request(url: string, params: map<string, ParamValue>)

  // ---------------------------------------------------------------------------
  // Field lists
  // ---------------------------------------------------------------------------

  /** The default field lists, sent comma-joined. */
  const AccountListFields: seq<string> := ["name", "account_id", "account_status", "currency"]
  const AccountDetailsFields: seq<string> := ["name", "account_status", "amount_spent", "balance", "currency"]
  const CampaignFields: seq<string> :=
    ["name", "objective", "status", "effective_status", "daily_budget", "lifetime_budget"]
  const AdSetFields: seq<string> := ["name", "effective_status", "daily_budget", "lifetime_budget", "targeting"]
  const AdFields: seq<string> := ["name", "effective_status", "creative"]
  const CampaignInsightFields: seq<string> := ["impressions", "clicks", "spend", "cpc", "cpm", "ctr", "reach"]
  const InsightFields: seq<string> := ["impressions", "clicks", "spend", "cpc", "ctr"]
  const SummaryFields: seq<string> := [
    "ad_id", "ad_name", "campaign_id", "campaign_name", "adset_id", "adset_name", "spend",
    "impressions", "clicks", "ctr", "cpc", "cpm", "actions", "cost_per_action_type"]

  /** The ad fields requested by the comprehensive report. Three of them carry nested field lists
      in braces, which themselves contain commas. */
  const ReportAdFields: seq<string> := [
    "id", "name", "status", "effective_status", "campaign_id", "campaign{id,name}", "adset_id",
    "adset{id,name}", "creative{id,asset_feed_spec,image_url,video_id,thumbnail_url,object_story_spec}"]

  /** The insight metrics requested by the comprehensive report. */
  const ReportInsightFields: seq<string> := [
    "reach", "impressions", "frequency", "spend", "clicks", "unique_clicks", "ctr", "unique_ctr",
    "cpc", "cpm", "video_play_actions", "video_thruplay_watched_actions", "video_p25_watched_actions",
    "video_p50_watched_actions", "video_p75_watched_actions", "video_p100_watched_actions",
    "video_continuous_2_sec_watched_actions", "actions", "action_values", "cost_per_action_type"]

  /** The `fields` value: the given fields joined with commas when the list is non-empty,
      otherwise the tool's default (some tools have none and then send no `fields`). */
  function FieldsValue(fields: seq<string>, default: Option<seq<string>>): Option<string> {
    if |fields| > 0 then Some(Join(fields, ','))
    else if default.Some? then Some(Join(default.value, ','))
    else None
  }

  /** The `fields` entry of a parameter map. */
  function FieldsPart(fields: seq<string>, default: Option<seq<string>>): (p: map<string, ParamValue>)
    ensures p.Keys <= {"fields"}
    ensures "fields" in p <==> |fields| > 0 || default.Some?
    ensures "fields" in p ==> p["fields"] == Str(FieldsValue(fields, default).value)
  {
    match FieldsValue(fields, default)
    case None => map[]
    case Some(f) => map["fields" := Str(f)]
  }

  // ---------------------------------------------------------------------------
  // Reporting window
  // ---------------------------------------------------------------------------

  /** A time range is truthy when it is present and has at least one key. */
  predicate RangeTruthy(timeRange: Option<map<string, string>>) {
    timeRange.Some? && |timeRange.value| > 0
  }

  /** The window parameters agree with the precedence rule: a truthy time range is sent and the
      preset then is not; a truthy preset is sent only when the range is falsy; the values are
      the arguments. */
  predicate WindowAgrees(params: map<string, ParamValue>, timeRange: Option<map<string, string>>, datePreset: Option<string>) {
    && ("time_range" in params <==> RangeTruthy(timeRange))
    && ("date_preset" in params <==> !RangeTruthy(timeRange) && Truthy(datePreset))
    && ("time_range" in params ==> params["time_range"] == RangeJson(timeRange.value))
    && ("date_preset" in params ==> params["date_preset"] == Str(datePreset.value))
  }

  /** `if time_range: ... elif date_preset: ...`. */
  function Window(timeRange: Option<map<string, string>>, datePreset: Option<string>): (w: map<string, ParamValue>)
    ensures w.Keys <= {"time_range", "date_preset"}
    ensures WindowAgrees(w, timeRange, datePreset)
  {
    if RangeTruthy(timeRange) then map["time_range" := RangeJson(timeRange.value)]
    else if Truthy(datePreset) then map["date_preset" := Str(datePreset.value)]
    else map[]
  }

  /** `if date_preset: ...`, for the insights tools that take no time range. */
  function PresetOnly(datePreset: Option<string>): (w: map<string, ParamValue>)
    ensures w.Keys <= {"date_preset"}
    ensures WindowAgrees(w, None, datePreset)
  {
    if Truthy(datePreset) then map["date_preset" := Str(datePreset.value)] else map[]
  }

  // ---------------------------------------------------------------------------
  // Tool requests
  // ---------------------------------------------------------------------------

  /** The list-, lookup- and insights-tools and their arguments. A `fields` argument of `None`
      is the empty list, which the tools treat alike. */
  datatype ToolCall =
    | ListAdAccounts
    | AdAccountDetails(actId: string, fields: seq<string>)
    | CampaignsByAccount(actId: string, fields: seq<string>, limit: Option<int>, filtering: seq<string>)
    | CampaignById(campaignId: string, fields: seq<string>)
    | AdSetsByCampaign(campaignId: string, fields: seq<string>, limit: Option<int>)
    | AdSetById(adsetId: string, fields: seq<string>)
    | AdsByAdSet(adsetId: string, fields: seq<string>, limit: Option<int>)
    | AdById(adId: string, fields: seq<string>)
    | CampaignInsights(campaignId: string, fields: seq<string>, datePreset: Option<string>, timeRange: Option<map<string, string>>)
    | AdSetInsights(adsetId: string, fields: seq<string>, datePreset: Option<string>)
    | AdInsights(adId: string, fields: seq<string>, datePreset: Option<string>)

  /** The fields the caller asked for. */
  function FieldsOf(call: ToolCall): seq<string> {
    match call
    case ListAdAccounts => []
    case AdAccountDetails(_, f) => f
    case CampaignsByAccount(_, f, _, _) => f
    case CampaignById(_, f) => f
    case AdSetsByCampaign(_, f, _) => f
    case AdSetById(_, f) => f
    case AdsByAdSet(_, f, _) => f
    case AdById(_, f) => f
    case CampaignInsights(_, f, _, _) => f
    case AdSetInsights(_, f, _) => f
    case AdInsights(_, f, _) => f
  }

  /** The field list a tool sends when the caller gives none; the single-object lookups of a
      campaign, ad set or ad have none. */
  function DefaultFieldsOf(call: ToolCall): Option<seq<string>> {
    match call
    case ListAdAccounts => Some(AccountListFields)
    case AdAccountDetails(_, _) => Some(AccountDetailsFields)
    case CampaignsByAccount(_, _, _, _) => Some(CampaignFields)
    case AdSetsByCampaign(_, _, _) => Some(AdSetFields)
    case AdsByAdSet(_, _, _) => Some(AdFields)
    case CampaignInsights(_, _, _, _) => Some(CampaignInsightFields)
    case AdSetInsights(_, _, _) => Some(InsightFields)
    case AdInsights(_, _, _) => Some(InsightFields)
    case CampaignById(_, _) => None
    case AdSetById(_, _) => None
    case AdById(_, _) => None
  }

  /** Tools that page through a list and so send a `limit`. */
  predicate IsListing(call: ToolCall) {
    call.CampaignsByAccount? || call.AdSetsByCampaign? || call.AdsByAdSet?
  }

  /** Tools that send a reporting window. */
  predicate IsInsights(call: ToolCall) {
    call.CampaignInsights? || call.AdSetInsights? || call.AdInsights?
  }

  /** The graph node (path below the API root) a tool calls. */
  function NodeOf(call: ToolCall): string {
    match call
    case ListAdAccounts => "me/adaccounts"
    case AdAccountDetails(a, _) => a
    case CampaignsByAccount(a, _, _, _) => a + "/campaigns"
    case CampaignById(c, _) => c
    case AdSetsByCampaign(c, _, _) => c + "/adsets"
    case AdSetById(s, _) => s
    case AdsByAdSet(s, _, _) => s + "/ads"
    case AdById(d, _) => d
    case CampaignInsights(c, _, _, _) => c + "/insights"
    case AdSetInsights(s, _, _) => s + "/insights"
    case AdInsights(d, _, _) => d + "/insights"
  }

  /** The parameters a tool adds besides the token and the fields: page size and filters for
      listings, the reporting window for insights. */
  function ExtraPart(call: ToolCall): (e: map<string, ParamValue>)
    ensures e.Keys <= {"limit", "filtering", "time_range", "date_preset"}
    ensures "limit" in e <==> IsListing(call)
    ensures IsListing(call) ==> e["limit"] == Limit(call.limit)
    ensures "filtering" in e <==> call.CampaignsByAccount? && |call.filtering| > 0
    ensures call.CampaignsByAccount? && |call.filtering| > 0 ==> e["filtering"] == FiltersJson(call.filtering)
    ensures call.CampaignInsights? ==> WindowAgrees(e, call.timeRange, call.datePreset)
    ensures call.AdSetInsights? || call.AdInsights? ==> WindowAgrees(e, None, call.datePreset)
    ensures !IsInsights(call) ==> "time_range" !in e && "date_preset" !in e
  {
    match call
    case CampaignsByAccount(_, _, limit, filtering) =>
      map["limit" := Limit(limit)] + (if |filtering| > 0 then map["filtering" := FiltersJson(filtering)] else map[])
    case AdSetsByCampaign(_, _, limit) => map["limit" := Limit(limit)]
    case AdsByAdSet(_, _, limit) => map["limit" := Limit(limit)]
    case CampaignInsights(_, _, preset, range) => Window(range, preset)
    case AdSetInsights(_, _, preset) => PresetOnly(preset)
    case AdInsights(_, _, preset) => PresetOnly(preset)
    case _ => map[]
  }

  /** Adding parameters other than the window ones keeps the window rule. */
  lemma WindowAgreesUnion(base: map<string, ParamValue>, e: map<string, ParamValue>,
                          timeRange: Option<map<string, string>>, datePreset: Option<string>)
    requires "time_range" !in base && "date_preset" !in base
    requires WindowAgrees(e, timeRange, datePreset)
    ensures WindowAgrees(base + e, timeRange, datePreset)
  {
  }

  /** The request a tool sends with the given access token. */
  function BuildRequest(token: string, call: ToolCall): (r: Request)
    ensures r.url == GraphUrl + "/" + NodeOf(call)
    ensures "access_token" in r.params && r.params["access_token"] == Str(token)
    ensures "fields" in r.params <==> |FieldsOf(call)| > 0 || DefaultFieldsOf(call).Some?
    ensures |FieldsOf(call)| > 0 ==> r.params["fields"] == Str(Join(FieldsOf(call), ','))
    ensures |FieldsOf(call)| == 0 && DefaultFieldsOf(call).Some?
      ==> r.params["fields"] == Str(Join(DefaultFieldsOf(call).value, ','))
    ensures "limit" in r.params <==> IsListing(call)
    ensures IsListing(call) ==> r.params["limit"] == Limit(call.limit)
    ensures "filtering" in r.params <==> call.CampaignsByAccount? && |call.filtering| > 0
    ensures call.CampaignsByAccount? && |call.filtering| > 0 ==> r.params["filtering"] == FiltersJson(call.filtering)
    ensures call.CampaignInsights? ==> WindowAgrees(r.params, call.timeRange, call.datePreset)
    ensures call.AdSetInsights? || call.AdInsights? ==> WindowAgrees(r.params, None, call.datePreset)
    ensures !IsInsights(call) ==> "time_range" !in r.params && "date_preset" !in r.params
    ensures r.params.Keys <= {"access_token", "fields", "limit", "filtering", "time_range", "date_preset"}
  {
    var base := map["access_token" := Str(token)] + FieldsPart(FieldsOf(call), DefaultFieldsOf(call));
    var extra := ExtraPart(call);
    assert "time_range" !in base && "date_preset" !in base;
    if call.CampaignInsights? then
      WindowAgreesUnion(base, extra, call.timeRange, call.datePreset);
      Request(GraphUrl + "/" + NodeOf(call), base + extra)
    else if call.AdSetInsights? || call.AdInsights? then
      WindowAgreesUnion(base, extra, None, call.datePreset);
      Request(GraphUrl + "/" + NodeOf(call), base + extra)
    else
      Request(GraphUrl + "/" + NodeOf(call), base + extra)
  }

  // ---------------------------------------------------------------------------
  // Requests of the two reports
  // ---------------------------------------------------------------------------

  /** The ads request of the comprehensive report: the campaign's ads when a campaign id is
      given, else the account's. */
  function ReportAdsRequest(token: string, actId: string, campaignId: Option<string>, limit: Option<int>): (r: Request)
    ensures Truthy(campaignId) ==> r.url == GraphUrl + "/" + campaignId.value + "/ads"
    ensures !Truthy(campaignId) ==> r.url == GraphUrl + "/" + actId + "/ads"
    ensures r.params.Keys == {"access_token", "fields", "limit"}
    ensures r.params["access_token"] == Str(token)
    ensures r.params["fields"] == Str(Join(ReportAdFields, ','))
    ensures r.params["limit"] == Limit(limit)
  {
    var node := if Truthy(campaignId) then campaignId.value else actId;
    Request(GraphUrl + "/" + node + "/ads",
      map["access_token" := Str(token), "fields" := Str(Join(ReportAdFields, ',')), "limit" := Limit(limit)])
  }

  /** The ad-level insights request shared by both reports, with the spend filter. */
  function AdLevelInsights(token: string, actId: string, fields: string, limit: Option<int>, minSpend: Option<real>,
                           datePreset: Option<string>, timeRange: Option<map<string, string>>): (r: Request)
    ensures r.url == GraphUrl + "/" + actId + "/insights"
    ensures {"access_token", "level", "fields", "limit", "filtering"} <= r.params.Keys
    ensures r.params["access_token"] == Str(token)
    ensures r.params["level"] == Str("ad")
    ensures r.params["fields"] == Str(fields)
    ensures r.params["limit"] == Limit(limit)
    ensures r.params["filtering"] == SpendAbove(minSpend)
    ensures WindowAgrees(r.params, timeRange, datePreset)
    ensures r.params.Keys <= {"access_token", "level", "fields", "limit", "filtering", "time_range", "date_preset"}
  {
    var base := map[
      "access_token" := Str(token), "level" := Str("ad"), "fields" := Str(fields),
      "limit" := Limit(limit), "filtering" := SpendAbove(minSpend)];
    WindowAgreesUnion(base, Window(timeRange, datePreset), timeRange, datePreset);
    Request(GraphUrl + "/" + actId + "/insights", base + Window(timeRange, datePreset))
  }

  /** The insights request of the comprehensive report. */
  function ReportInsightsRequest(token: string, actId: string, limit: Option<int>, minSpend: Option<real>,
                                 datePreset: Option<string>, timeRange: Option<map<string, string>>): (r: Request)
    ensures "fields" in r.params && r.params["fields"].Str? && Split(r.params["fields"].text, ',') == ReportInsightFields
    ensures "filtering" in r.params && r.params["filtering"] == SpendAbove(minSpend)
    ensures WindowAgrees(r.params, timeRange, datePreset)
  {
    SplitJoin(ReportInsightFields, ',');
    AdLevelInsights(token, actId, Join(ReportInsightFields, ','), limit, minSpend, datePreset, timeRange)
  }

  /** The insights request of the summary report, which filters on spend above 0. */
  function SummaryInsightsRequest(token: string, actId: string, limit: Option<int>,
                                  datePreset: Option<string>, timeRange: Option<map<string, string>>): (r: Request)
    ensures "fields" in r.params && r.params["fields"].Str? && Split(r.params["fields"].text, ',') == SummaryFields
    ensures "filtering" in r.params && r.params["filtering"] == SpendAbove(Some(0.0))
    ensures WindowAgrees(r.params, timeRange, datePreset)
  {
    SplitJoin(SummaryFields, ',');
    AdLevelInsights(token, actId, Join(SummaryFields, ','), limit, Some(0.0), datePreset, timeRange)
  }

  // ---------------------------------------------------------------------------
  // Properties
  // ---------------------------------------------------------------------------

  /** Never both window parameters. */
  lemma WindowNeverBoth(params: map<string, ParamValue>, timeRange: Option<map<string, string>>, datePreset: Option<string>)
    requires WindowAgrees(params, timeRange, datePreset)
    ensures !("time_range" in params && "date_preset" in params)
  {
  }

  /** A truthy time range makes the preset irrelevant. */
  lemma RangeOverridesPreset(timeRange: Option<map<string, string>>, p1: Option<string>, p2: Option<string>)
    requires RangeTruthy(timeRange)
    ensures Window(timeRange, p1) == Window(timeRange, p2)
  {
  }

  /** No field name in the list contains a comma. */
  predicate CommaFree(fields: seq<string>) {
    forall k :: 0 <= k < |fields| ==> ',' !in fields[k]
  }

  /** The `fields` text splits back into the field list it was built from — the caller's when
      given, else the tool's default — provided no field name holds a comma. */
  lemma FieldsRoundTrip(token: string, call: ToolCall)
    requires CommaFree(FieldsOf(call))
    requires |FieldsOf(call)| > 0 || DefaultFieldsOf(call).Some?
    ensures "fields" in BuildRequest(token, call).params
    ensures Split(BuildRequest(token, call).params["fields"].text, ',')
         == if |FieldsOf(call)| > 0 then FieldsOf(call) else DefaultFieldsOf(call).value
  {
    if |FieldsOf(call)| > 0 {
      SplitJoin(FieldsOf(call), ',');
    } else {
      DefaultsCommaFree(call);
      SplitJoin(DefaultFieldsOf(call).value, ',');
    }
  }

  /** Every default list is non-empty and its names hold no comma. */
  lemma DefaultsCommaFree(call: ToolCall)
    requires DefaultFieldsOf(call).Some?
    ensures |DefaultFieldsOf(call).value| > 0 && CommaFree(DefaultFieldsOf(call).value)
  {
  }
}

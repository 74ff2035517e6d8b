/** The lightweight summary report (`get_summary_report`): one record per ad-level insight row,
    with purchase conversions and cost per acquisition read from the action lists, and totals
    accumulated over the rows. Numbers arrive already parsed; rounding to cents is not modelled. */
module Summary {
  import opened Wrappers
  import opened Text
  import opened Actions

  // ---------------------------------------------------------------------------
  // Input and output records
  // ---------------------------------------------------------------------------

  /** One element of the insights response's `data` list. `None` stands for a missing key, read
      with the source's defaults (0 for numbers, `None` for ids and names). */
  datatype SummaryRow = SummaryRow(
    adId: Option<string>,
    adName: Option<string>,
    campaignId: Option<string>,
    campaignName: Option<string>,
    adsetId: Option<string>,
    adsetName: Option<string>,
    spend: Option<real>,
    impressions: Option<int>,
    clicks: Option<int>,
    ctr: Option<real>,
    cpc: Option<real>,
    cpm: Option<real>,
    actions: seq<Action<real>>,
    costPerActionType: seq<Action<real>>)

  /** One element of the summary's `data` list. */
  datatype SummaryRecord = SummaryRecord(
    adId: Option<string>,
    adName: Option<string>,
    campaignId: Option<string>,
    campaignName: Option<string>,
    adsetId: Option<string>,
    adsetName: Option<string>,
    spend: real,
    impressions: int,
    clicks: int,
    ctr: real,
    cpc: real,
    cpm: real,
    conversions: int,
    cpa: Option<real>)

  /** The `date_range` text of the error result: `f"{date_preset or time_range}"`, i.e. the preset
      when it is truthy, otherwise the rendering of the time range (which may be `None`). */
  datatype DateRangeEcho = PresetText(preset: string) | RangeText(range: Option<map<string, string>>)

  datatype SummaryTotals = SummaryTotals(
    totalAds: nat,
    totalSpend: real,
    totalConversions: int,
    averageCpa: real,
    datePreset: Option<string>,
    timeRange: Option<map<string, string>>,
    accountId: string)

  datatype SummaryOutcome =
    | SummaryReport(data: seq<SummaryRecord>, summary: SummaryTotals)
    | SummaryError(error: string, dateRange: DateRangeEcho)

  /** The action type whose first match counts as a conversion. */
  const ConversionEvent: string := "purchase"

  const FetchFailedPrefix: string := "Failed to fetch insights: "

  // ---------------------------------------------------------------------------
  // Per-row helpers
  // ---------------------------------------------------------------------------

  /** Python's `int(x)` on a float: truncation toward zero. */
  function Trunc(x: real): (n: int)
    ensures 0.0 <= x ==> 0 <= n && n as real <= x < n as real + 1.0
    ensures x < 0.0 ==> n <= 0 && n as real - 1.0 < x <= n as real
  {
    if x >= 0.0 then x.Floor else -((-x).Floor)
  }

  /** `get_conversions(actions)`: the truncated value of the first entry whose action type
      contains "purchase" (a missing value counts as 0), else 0. */
  function Conversions(actions: seq<Action<real>>): (n: int)
    ensures (forall j :: 0 <= j < |actions| ==> !Matches(actions[j], ConversionEvent)) ==> n == 0
    ensures forall k ::
      && 0 <= k < |actions| && Matches(actions[k], ConversionEvent)
      && (forall j :: 0 <= j < k ==> !Matches(actions[j], ConversionEvent))
      ==> n == Trunc(actions[k].value.GetOr(0.0))
  {
    if |actions| == 0 then 0
    else if Matches(actions[0], ConversionEvent) then Trunc(actions[0].value.GetOr(0.0))
    else Conversions(actions[1..])
  }

  /** `get_cpa(cost_per_actions)`: the value of the first entry whose action type contains
      "purchase" (a missing value counts as 0), else `None`. */
  function Cpa(costs: seq<Action<real>>): (c: Option<real>)
    ensures c.None? <==> FirstMatch(costs, ConversionEvent).None?
    ensures c.Some? ==> c.value == costs[FirstMatch(costs, ConversionEvent).value].value.GetOr(0.0)
  {
    if |costs| == 0 then None
    else if Matches(costs[0], ConversionEvent) then Some(costs[0].value.GetOr(0.0))
    else Cpa(costs[1..])
  }

  /** The record for one row. `cpa` is dropped when it is falsy, i.e. absent or zero. */
  function Summarize(row: SummaryRow): (r: SummaryRecord)
    ensures (r.adId, r.adName) == (row.adId, row.adName)
    ensures (r.campaignId, r.campaignName, r.adsetId, r.adsetName)
         == (row.campaignId, row.campaignName, row.adsetId, row.adsetName)
    ensures r.spend == row.spend.GetOr(0.0)
    ensures (r.impressions, r.clicks) == (row.impressions.GetOr(0), row.clicks.GetOr(0))
    ensures (r.ctr, r.cpc, r.cpm) == (row.ctr.GetOr(0.0), row.cpc.GetOr(0.0), row.cpm.GetOr(0.0))
    ensures r.conversions == Conversions(row.actions)
    ensures r.cpa.Some? <==> Cpa(row.costPerActionType).Some? && Cpa(row.costPerActionType).value != 0.0
    ensures r.cpa.Some? ==> r.cpa == Cpa(row.costPerActionType)
  {
    var cpa := Cpa(row.costPerActionType);
    SummaryRecord(
      adId := row.adId,
      adName := row.adName,
      campaignId := row.campaignId,
      campaignName := row.campaignName,
      adsetId := row.adsetId,
      adsetName := row.adsetName,
      spend := row.spend.GetOr(0.0),
      impressions := row.impressions.GetOr(0),
      clicks := row.clicks.GetOr(0),
      ctr := row.ctr.GetOr(0.0),
      cpc := row.cpc.GetOr(0.0),
      cpm := row.cpm.GetOr(0.0),
      conversions := Conversions(row.actions),
      cpa := if cpa.Some? && cpa.value != 0.0 then cpa else None)
  }

  // ---------------------------------------------------------------------------
  // Totals
  // ---------------------------------------------------------------------------

  /** Sum of the records' spends, added in record order. */
  function TotalSpend(records: seq<SummaryRecord>): real {
    if |records| == 0 then 0.0 else TotalSpend(records[..|records| - 1]) + records[|records| - 1].spend
  }

  /** Sum of the records' conversions, added in record order. */
  function TotalConversions(records: seq<SummaryRecord>): int {
    if |records| == 0 then 0
    else TotalConversions(records[..|records| - 1]) + records[|records| - 1].conversions
  }

  /** Sum of the rows' spends, a missing spend counting as 0. */
  function RowSpend(rows: seq<SummaryRow>): real {
    if |rows| == 0 then 0.0 else RowSpend(rows[..|rows| - 1]) + rows[|rows| - 1].spend.GetOr(0.0)
  }

  /** Sum of the rows' purchase conversions. */
  function RowConversions(rows: seq<SummaryRow>): int {
    if |rows| == 0 then 0 else RowConversions(rows[..|rows| - 1]) + Conversions(rows[|rows| - 1].actions)
  }

  /** `total_spend / total_conversions` when there are conversions, else 0. */
  function AverageCpa(totalSpend: real, totalConversions: int): (a: real)
    ensures totalConversions > 0 ==> a * (totalConversions as real) == totalSpend
    ensures totalConversions <= 0 ==> a == 0.0
  {
    if totalConversions > 0 then totalSpend / (totalConversions as real) else 0.0
  }

  /** The error result's `date_range`. */
  function DateRangeOf(datePreset: Option<string>, timeRange: Option<map<string, string>>): (e: DateRangeEcho)
    ensures e.PresetText? <==> Truthy(datePreset)
    ensures e.PresetText? ==> Some(e.preset) == datePreset
    ensures e.RangeText? ==> e.range == timeRange
  {
    if Truthy(datePreset) then PresetText(datePreset.value) else RangeText(timeRange)
  }

  /** The loop of `get_summary_report`: one record per row, with the running totals. */
  method BuildSummary(rows: seq<SummaryRow>) returns (records: seq<SummaryRecord>, totalSpend: real, totalConversions: int)
    ensures |records| == |rows|
    ensures forall i :: 0 <= i < |rows| ==> records[i] == Summarize(rows[i])
    ensures totalSpend == TotalSpend(records)
    ensures totalConversions == TotalConversions(records)
  {
    records := [];
    totalSpend := 0.0;
    totalConversions := 0;
    var i := 0;
    while i < |rows|
      invariant 0 <= i <= |rows|
      invariant |records| == i
      invariant forall j :: 0 <= j < i ==> records[j] == Summarize(rows[j])
      invariant totalSpend == TotalSpend(records)
      invariant totalConversions == TotalConversions(records)
    {
      var record := Summarize(rows[i]);
      totalSpend := totalSpend + record.spend;
      totalConversions := totalConversions + record.conversions;
      assert (records + [record])[..i] == records;
      records := records + [record];
      i := i + 1;
    }
  }

  /** `get_summary_report` given the insights response: the fetch error is reported with the
      date range; otherwise the records and their totals, echoing the query. */
  method SummaryReportOf(
    actId: string, datePreset: Option<string>, timeRange: Option<map<string, string>>,
    response: Result<seq<SummaryRow>, string>)
    returns (r: SummaryOutcome)
    ensures response.Failure? ==>
      r == SummaryError(FetchFailedPrefix + response.error, DateRangeOf(datePreset, timeRange))
    ensures response.Success? ==> r.SummaryReport?
    ensures response.Success? ==>
      && |r.data| == |response.value|
      && (forall i :: 0 <= i < |r.data| ==> r.data[i] == Summarize(response.value[i]))
    ensures r.SummaryReport? ==>
      && r.summary.totalAds == |r.data|
      && r.summary.totalSpend == TotalSpend(r.data)
      && r.summary.totalConversions == TotalConversions(r.data)
    ensures response.Success? && r.SummaryReport? ==>
      r.summary.totalSpend == RowSpend(response.value) && r.summary.totalConversions == RowConversions(response.value)
      && r.summary.averageCpa == AverageCpa(r.summary.totalSpend, r.summary.totalConversions)
      && (r.summary.datePreset, r.summary.timeRange, r.summary.accountId) == (datePreset, timeRange, actId)
  {
    match response
    case Failure(e) =>
      r := SummaryError(FetchFailedPrefix + e, DateRangeOf(datePreset, timeRange));
    case Success(rows) =>
      var records, spend, conversions := BuildSummary(rows);
      TotalsOverRows(rows, records);
      r := SummaryReport(records, SummaryTotals(
        |records|, spend, conversions, AverageCpa(spend, conversions), datePreset, timeRange, actId));
  }

  // ---------------------------------------------------------------------------
  // Properties
  // ---------------------------------------------------------------------------

  /** `get_conversions` is the substring lookup of the report, followed by truncation. */
  lemma {:induction false} ConversionsViaLookup(actions: seq<Action<real>>)
    ensures Conversions(actions) == Trunc(ActionValue(actions, ConversionEvent).GetOr(0.0))
  {
    if |actions| > 0 && !Matches(actions[0], ConversionEvent) {
      ConversionsViaLookup(actions[1..]);
      LookupSkipsNonMatch(actions);
    }
  }

  /** `get_cpa` is the substring lookup of the report, with a missing value read as 0. */
  lemma {:induction false} CpaViaLookup(costs: seq<Action<real>>)
    ensures Cpa(costs) == if FirstMatch(costs, ConversionEvent).None? then None
                          else Some(ActionValue(costs, ConversionEvent).GetOr(0.0))
  {
    if |costs| > 0 && !Matches(costs[0], ConversionEvent) {
      CpaViaLookup(costs[1..]);
      LookupSkipsNonMatch(costs);
    }
  }

  /** A leading entry that does not match drops out of the lookup. */
  lemma LookupSkipsNonMatch(actions: seq<Action<real>>)
    requires |actions| > 0 && !Matches(actions[0], ConversionEvent)
    ensures ActionValue(actions, ConversionEvent) == ActionValue(actions[1..], ConversionEvent)
    ensures FirstMatch(actions, ConversionEvent).None? <==> FirstMatch(actions[1..], ConversionEvent).None?
  {
    var tail := actions[1..];
    var m := FirstMatch(tail, ConversionEvent);
    assert FirstMatch(actions, ConversionEvent) == if m.None? then None else Some(m.value + 1);
    if m.Some? {
      assert actions[m.value + 1] == tail[m.value];
    }
  }

  /** The totals over the records are the sums over the input rows: each row's spend with a
      missing value read as 0, and each row's purchase conversions. */
  lemma {:induction false} TotalsOverRows(rows: seq<SummaryRow>, records: seq<SummaryRecord>)
    requires |records| == |rows|
    requires forall i :: 0 <= i < |rows| ==> records[i] == Summarize(rows[i])
    ensures TotalSpend(records) == RowSpend(rows)
    ensures TotalConversions(records) == RowConversions(rows)
    decreases |rows|
  {
    if |rows| > 0 {
      var n := |rows| - 1;
      TotalsOverRows(rows[..n], records[..n]);
      assert records[n] == Summarize(rows[n]);
    }
  }

  /** Totals over a concatenation are the sums of the totals of the parts. */
  lemma {:induction false} TotalsAppend(a: seq<SummaryRecord>, b: seq<SummaryRecord>)
    ensures TotalSpend(a + b) == TotalSpend(a) + TotalSpend(b)
    ensures TotalConversions(a + b) == TotalConversions(a) + TotalConversions(b)
    decreases |b|
  {
    if |b| > 0 {
      var b' := b[..|b| - 1];
      assert (a + b)[..|a + b| - 1] == a + b';
      TotalsAppend(a, b');
    } else {
      assert a + b == a;
    }
  }

  /** When no row reports a purchase, there are no conversions and the average CPA is 0. */
  lemma {:induction false} NoPurchasesNoConversions(rows: seq<SummaryRow>, records: seq<SummaryRecord>)
    requires |records| == |rows|
    requires forall i :: 0 <= i < |rows| ==> records[i] == Summarize(rows[i])
    requires forall i, j :: 0 <= i < |rows| && 0 <= j < |rows[i].actions| ==>
      !Matches(rows[i].actions[j], ConversionEvent)
    ensures TotalConversions(records) == 0
    ensures AverageCpa(TotalSpend(records), TotalConversions(records)) == 0.0
    decreases |rows|
  {
    if |rows| > 0 {
      var n := |rows| - 1;
      NoPurchasesNoConversions(rows[..n], records[..n]);
      assert records[n].conversions == Conversions(rows[n].actions);
    }
  }

  /** Non-negative spends give a non-negative total, and non-negative conversions a
      non-negative average. */
  lemma {:induction false} TotalsNonNegative(records: seq<SummaryRecord>)
    requires forall i :: 0 <= i < |records| ==> records[i].spend >= 0.0 && records[i].conversions >= 0
    ensures TotalSpend(records) >= 0.0 && TotalConversions(records) >= 0
    ensures AverageCpa(TotalSpend(records), TotalConversions(records)) >= 0.0
  {
    if |records| > 0 {
      TotalsNonNegative(records[..|records| - 1]);
    }
  }
}

# fb-ads-mcp-server: a Dafny model of the report and request logic

The server exposes Facebook Graph API reads as MCP tools. Almost every tool is a thin HTTP
wrapper. The logic worth modelling is the data shaping inside `server.py`, and this project
models four parts of it as pure functions over immutable data:

- **The comprehensive ad report** (`get_comprehensive_ad_report`).
  - Ads and ad-level insight rows are keyed into insertion-ordered dictionaries.
  - The ads are walked in dictionary order. Ads without an insight row are dropped.
  - Every remaining ad is flattened into one record. This covers the campaign/ad-set fallback, the asset-URL choice and the substring action lookups.
  - `purchases` and `cost_per_purchase` come from a four-alias `or` chain.
- **The summary report** (`get_summary_report`).
  - Each row gets purchase conversions and a cost per acquisition.
  - Spend and conversion totals are accumulated, and `average_cpa` is guarded against zero conversions.
  - A failed fetch becomes the error result.
- **Request parameters** of every tool.
  - A default field list is used when the caller gives none. Otherwise the given fields are comma-joined.
  - List tools add a page size.
  - Insights requests add a reporting window, where `time_range` takes precedence over `date_preset`.
- **Token resolution** (`_get_fb_access_token`).
  - The cache wins. Then a truthy environment value. Then the argument after `--fb-token`.
  - The function is modelled twice: once as written and once as evidently intended (see Findings).

Modules:

| file | module | contents |
|---|---|---|
| `wrappers.dfy` | `Wrappers` | `Option` and `Result` |
| `text.dfy` | `Text` | `needle in hay`, Python truthiness and `or`, `list.index`, `','.join`/`split`, `str.strip` |
| `ordered_dict.dfy` | `OrderedDict` | `{key(x): x for x in items}`: first position, last value |
| `actions.dfy` | `Actions` | `get_action_value` / `get_cost_per_action`, the alias chains |
| `report.dfy` | `Report` | entities, flattening, the join, the comprehensive report |
| `summary.dfy` | `Summary` | per-row conversions and CPA, totals, the summary report |
| `params.dfy` | `Params` | request URLs and query parameters of all tools and both reports |
| `token.dfy` | `Token` | token resolution, as written and corrected |

Python semantics are modelled as follows:

- **Truthiness.** A value is truthy when it is present and non-empty. The string `"0"` is truthy. A dict is truthy when it has a key.
- **Missing keys and JSON `null`.** Both read as `None`.
- **Missing `action_type`.** It reads as `""`, as the source's default does.
- **Action matching** is substring containment, not equality.

The comprehensive report keeps metric values as the strings the API sends, because it never parses them. The summary report receives them already parsed: `real` for floats and `int` for counts. `int(float(x))` is modelled as truncation toward zero.

Points where the code's behaviour is easy to misread:

- The alias chain picks the first *truthy* lookup. Its values are the strings the API sends, so an upstream `"0"` is truthy and wins over a later alias.
- The video label is `"Video ID: " + video_data.get('video_id', 'N/A')`. A present but empty `video_id` gives `"Video ID: "`. `"N/A"` appears only when the key is missing.
- With no truthy thumbnail, an empty-string `image_url` and no video data, the asset URL is `""`, not `None`.
- The `min_spend` threshold is never applied locally. It is sent upstream as a `GREATER_THAN` filter (server.py:548), so the model only carries it in the request. The source's own docstrings disagree on the bound: server.py:491 says "spend > this value", and the example at server.py:500 says "at least $100".

## Model

| member | source | states |
|---|---|---|
| `Text.ContainsIffOccurs` | server.py:586 | `action_type in action.get('action_type', '')` holds exactly when the query occurs at some offset of the action type |
| `Text.OrChain` | server.py:603-611 | a Python `or` chain yields the first truthy operand, or the last operand when none is truthy; its result is truthy exactly when some operand is |
| `Text.StripEmptyIffBlank` | server.py:68-69 | `tok.strip() == ''` holds exactly when every character of the token is whitespace |
| `OrderedDict.FromSeq` | server.py:537 | the dictionary built by a comprehension lists each key once, in a key list that holds exactly the mapping's keys |
| `OrderedDict.FromSeqKeys` | server.py:537 | the id-keyed dictionary of ads holds an id exactly when some ad carries it |
| `OrderedDict.FromSeqLastWins` | server.py:559-562 | under a duplicated key the dictionary keeps the last item carrying it |
| `OrderedDict.FromSeqOrder` | server.py:537 | dictionary iteration order is the order of first occurrence of each key |
| `Actions.FirstMatch` | server.py:585-587 | the position found is the first entry whose action type contains the query; none is found exactly when no entry matches |
| `Actions.ActionValue` | server.py:582-588 | the lookup is `None` for an empty list or when nothing matches, else the value of the first matching entry |
| `Actions.AliasChain` | server.py:603-611 | `purchases`/`cost_per_purchase` is the lookup of the first alias whose value is truthy, else the last alias's falsy lookup; truthy exactly when some alias lookup is |
| `Actions.FirstMatchSubsumed` | server.py:586 | a query contained in another finds an entry no later than the longer query does |
| `Actions.PixelPurchaseShadowed` | server.py:603-604 | because `purchase` is a substring of the pixel alias, the pixel alias never finds an entry the first alias misses |
| `Actions.PurchasesWithoutPurchaseEvent` | server.py:603-606 | with no action type mentioning "purchase", `purchases` is decided by the offsite and onsite aliases alone |
| `Actions.ZeroPurchaseStringWins` | server.py:603-606 | a standard purchase reported as "0" wins over a non-zero pixel purchase |
| `Actions.PixelOnlyPurchaseResolved` | server.py:603-606 | a row reporting only the pixel purchase resolves `purchases` to its value |
| `Report.AssetUrl` | server.py:573-580 | the thumbnail if truthy, else the image URL, else `"Video ID: "` followed by the video id (`"N/A"` when absent) when the story spec has video data; `None` without a creative; truthy exactly when one of those sources is |
| `Report.Flatten` | server.py:613-660 | a record carries the ad id, name and statuses, the campaign/ad-set fallback, the asset URL and the creative id; `purchases`/`cost_per_purchase` follow the four-alias chain in source order and are truthy exactly when some alias lookup is; add-to-cart, view-content and checkout follow their two-alias chains; the video columns are the `video_view` lookups of their lists; the engagement columns are single lookups in `actions`; the plain metrics are copied from the row |
| `Report.CostPerPurchaseIgnoresActions` | server.py:608-611 | `cost_per_purchase` depends on the cost list only, not on which alias produced `purchases` |
| `Report.Matched` | server.py:565-570 | the kept ad keys are keys that have an insight row, no more of them than ads |
| `Report.JoinAds` | server.py:565-661 | one record per kept key, in order, each the flattening of that key's ad and insight row |
| `Report.MatchedComplete` | server.py:566-570 | every ad key with an insight row is kept |
| `Report.MatchedOrder` | server.py:565 | kept keys appear in ad-dictionary order |
| `Report.ReportRecords` | server.py:537-570 | every record is for an id that some ad and some insight row carry, and there are no more records than ads |
| `Report.ComprehensiveReport` | server.py:536-673 | a failed ads call or insights call is the error; otherwise the records, and a summary of `total_ads` (their count), `date_preset`, `time_range`, `account_id`, `campaign_id` and `min_spend_filter` echoed from the arguments, with no page size |
| `Report.ReportKeepsExactlyMatchedAds` | server.py:537-570 | an id is reported exactly when some ad and some insight row carry it |
| `Report.ReportRecordsUseLastDuplicates` | server.py:537-566 | an ad and an insight row that are the last to carry their shared id yield a record built from exactly these two |
| `Report.ReportParentFallback` | server.py:617-620 | a reported ad's campaign and ad-set columns come from the nested object of the last ad carrying the id when it is truthy, else from its flat id with no name |
| `Report.ReportFollowsAdOrder` | server.py:537-570 | records follow the first appearance of their ads, so their ids are pairwise distinct |
| `Report.ReportSizeBound` | server.py:537-570 | there are no more records than distinct ad ids, and no more than ads |
| `Summary.Trunc` | server.py:814 | `int(x)` truncates toward zero: the result has the sign of `x` and lies within 1 of it |
| `Summary.Conversions` | server.py:809-815 | conversions are the truncated value of the first entry mentioning "purchase", 0 for a missing value, and 0 when nothing matches |
| `Summary.Cpa` | server.py:818-824 | CPA is absent exactly when no entry mentions "purchase", else the first match's value, 0 when missing |
| `Summary.Summarize` | server.py:831-854 | a record copies ids and names, carries the row's spend and metrics with 0 for a missing value, carries the row's conversions, and keeps the CPA exactly when it is present and non-zero |
| `Summary.AverageCpa` | server.py:862 | with conversions, average times conversions is total spend; without, the average is 0 |
| `Summary.BuildSummary` | server.py:827-854 | one record per row in order; the running totals equal the sums of the records' spends and conversions |
| `Summary.TotalsOverRows` | server.py:831-837 | with one record per row, total spend is the sum of the rows' spends (0 when missing) and total conversions the sum of their purchase conversions |
| `Summary.SummaryReportOf` | server.py:799-866 | a fetch failure gives the prefixed error and the preset (when truthy) or the time range; otherwise the records, `total_ads`, the totals summed over the input rows, the guarded average and the echoed query |
| `Summary.ConversionsViaLookup` | server.py:809-815 | `get_conversions` is the report's substring lookup followed by truncation |
| `Summary.CpaViaLookup` | server.py:818-824 | `get_cpa` is the report's substring lookup, with a missing value read as 0 |
| `Summary.TotalsAppend` | server.py:836-837 | totals over a concatenation of rows are the sums of the parts' totals |
| `Summary.NoPurchasesNoConversions` | server.py:809-815 | rows with no purchase actions give zero conversions and an average CPA of 0 |
| `Summary.TotalsNonNegative` | server.py:828-862 | non-negative spends and conversions give non-negative totals and average |
| `Params.FieldsPart` | server.py:153-156 | `fields` is sent exactly when the caller gives fields or the tool has a default |
| `Params.Window` | server.py:379-382 | a truthy `time_range` is sent and `date_preset` omitted; the preset is sent only when the range is falsy and the preset truthy |
| `Params.PresetOnly` | server.py:414-415 | the ad-set and ad insights tools send the preset when truthy and never a time range |
| `Params.ExtraPart` | server.py:188-199 | list tools add the caller's `limit`; the campaign listing adds the caller's `filtering` exactly when it is non-empty; insights tools add the window |
| `Params.BuildRequest` | server.py:127-449 | every tool's URL, token, fields (caller's joined, else the default), the caller's `limit` for list tools, the caller's non-empty `filtering` for the campaign listing, the window for insights tools, and no other parameter |
| `Params.ReportAdsRequest` | server.py:530-535 | the report lists a campaign's ads when a campaign id is truthy, else the account's, sending exactly the access token, its fixed field list and the caller's `limit` |
| `Params.AdLevelInsights` | server.py:540-556 | the ad-level insights request carries level `ad`, the fields, the page size, the spend filter and the window |
| `Params.ReportInsightsRequest` | server.py:540-556 | the report's insights fields split back into its metric list; spend filter on `min_spend`; window precedence |
| `Params.SummaryInsightsRequest` | server.py:782-797 | the summary's fields split back into its list; spend filter above 0; window precedence |
| `Params.FieldsRoundTrip` | server.py:193-196 | the `fields` text splits back into the caller's list, or the tool's default, when no name holds a comma |
| `Params.WindowNeverBoth` | server.py:794-797 | `time_range` and `date_preset` are never both sent |
| `Params.RangeOverridesPreset` | server.py:553-556 | with a truthy time range, the preset does not affect the window |
| `Token.Rewrap` | server.py:59-65 | the handler re-raises both errors the `try` block can raise, since both mention `--fb-token`; an error without the flag in its text becomes "not provided" |
| `Token.FromArgs` | server.py:53-58 | the token is the argument after the first `--fb-token`; it is an error when the flag is last or absent |
| `Token.ResolveAsWritten` | server.py:47-71 | a cached token is returned unchanged |
| `Token.AsWrittenCachesRejectedToken` | server.py:47-71 | a whitespace-only environment token is rejected once, stays cached, and is returned by the next call |
| `Token.AsWrittenBlankTokenSecondCall` | server.py:47-71 | with `FB_ACCESS_TOKEN=" "`, the first call fails and the second returns `" "` |
| `Token.AsWrittenNeverNotProvided` | server.py:59-66 | the "not provided" error is never raised; without the flag the `list.index` error surfaces |
| `Token.Resolve` | server.py:47-71 | only a usable token is cached; a cached token is returned unchanged; success leaves the token cached, failure leaves nothing |
| `Token.ResolvePriority` | server.py:47-71 | a usable environment token wins; then the argument after the flag; flag last, flag absent and blank token are the three errors |
| `Token.ResolveIdempotent` | server.py:47-71 | after a success every later call returns the same token; after a failure the next call retries from scratch |
| `Token.FirstCallAgreement` | server.py:47-71 | on a first call both versions return the same result, except that a missing flag is "not provided" in the corrected one |

## Left out

- HTTP I/O (`_make_graph_api_call`, `fetch_pagination_url`). Upstream responses are inputs, either a list of entities or an error message.
- Rewrapping of `requests` exceptions into messages. This is behaviour of a foreign library.
- MCP tool registration, the transport, and the `argparse`/`mcp.run` entry point. `get_summary_report` is defined at server.py:751, after the `__main__` block, whose `mcp.run()` (server.py:743) blocks. So `python server.py` never registers the summary tool; it exists only when an MCP host imports the module. Reading the code suggests this; it was not executed.
- Filtering by `min_spend`. The server sends it upstream and never applies it itself. The model carries it in the insights request as `SpendAbove`.
- `json.dumps` of `time_range` and `filtering`. These are kept structured in `Params.ParamValue`.
- The text rendering of the summary's error `date_range` (server.py:805). The source sends `f"{date_preset or time_range}"`, Python's `str()` of a string, a dict or `None` (for example `"None"`), not JSON. `Summary.DateRangeEcho` keeps the value structured.
- Float parsing and `round(…, 2)`:
  - The summary receives numbers already parsed.
  - Its record keeps the unrounded spend. The source shows `round(spend, 2)` per record but sums the unrounded spends.
  - Exact `real` arithmetic stands in for floating point.
- Summary.BuildSummary: the totals are also stated as sums of the records' spends. This agrees with the source's sum of unrounded spends only because the model's records keep the unrounded spend.
- JSON `null` versus a missing key. Both are `None`. The source treats some of them differently:
  - `f"Video ID: {None}"` gives `"Video ID: None"`.
  - `float(None)` and `'purchase' in None` raise. The second is the substring test at server.py:586, 594, 813 and 822 when an entry's `action_type` is JSON `null`.
  - The model does not follow those crash paths.
- An ad without `id`, which raises `KeyError` at `ad['id']` (server.py:537). `Report.Ad.id` is a plain string, so the model has no such path.
- An insight row without `ad_id`, which raises `KeyError` in the source. Every modelled row has an id. The report's insight field list (server.py:519-527) does not ask for `ad_id`, unlike the summary's (server.py:785). The model assumes the upstream API returns `ad_id` on ad-level rows anyway. If it does not, the `KeyError` path is the normal outcome of the report. This is an unverified assumption about the upstream API.
- `action_values` is requested in the report's insight fields but never read, so it has no field in `Report.InsightRow`.
- Default argument values are not modelled: `date_preset="last_30d"` (server.py:352, 391, 424, 460, 754), `limit` of 25 for the list tools (server.py:169, 234, 293), 100 for the report (server.py:463) and 50 for the summary (server.py:757), and `min_spend=0` (server.py:464). Every argument is an explicit input of the model.
- Token: the process environment and `sys.argv` are parameters, and the global cache is passed in and returned. Concurrent calls are not modelled.

## Findings

| source | as written | input that shows it | evidently intended | confidence | as-written member | corrected member |
|---|---|---|---|---|---|---|
| server.py:47-71 | `FB_ACCESS_TOKEN` is assigned before validation, so a rejected token stays in the cache; the next call skips validation and returns it | environment `FB_ACCESS_TOKEN=" "`: the first call raises "cannot be empty", the second returns `" "` | only a usable token is cached, and every later call returns a usable token | high, not executed | `Token.AsWrittenCachesRejectedToken` | `Token.Resolve` |
| server.py:53-66 | the `ValueError` of `sys.argv.index('--fb-token')` reads "'--fb-token' is not in list", which contains `--fb-token`, so the handler re-raises it and the "not provided" message is unreachable | no environment token and no `--fb-token` argument: the caller sees "'--fb-token' is not in list" | a missing flag reports "Facebook access token not provided …" | high, not executed | `Token.AsWrittenNeverNotProvided` | `Token.ResolvePriority` |

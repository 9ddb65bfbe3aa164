# Triple Whale growth-metrics pipeline, modelled in Dafny

This project models the data-ingestion core of a Shopify brand's data platform.

- **Hourly fusion.** The Triple Whale SQL loader fuses order rows and ad-spend rows (Facebook and Google) into one metrics record per (region, UTC hour).
- **Daily and hourly aggregation.** The aggregator rolls those records up into per-region local-day reports with KPI ratios, or lays them out as an hourly table with local and Chicago time columns.
- **Supporting pieces.** The region time-zone table and the record types sit underneath.
- **Small helpers.** Five helpers surround the pipeline:
  - the legacy client's metric collapsing, payload normalisation, request guard and URL joining;
  - the backfill script's window splitting;
  - the Shopify order processor's subscription classification and order enrichment;
  - the bulk downloader's JSON Lines parsing and record flattening;
  - the refresh trigger's payload merging, date defaulting and responses.

Modules, one per source file, plus shared helpers:

| module | models |
|---|---|
| `Timezones` | `timezones.py`: the four regions and their zones, `to_local_date`, `to_local_datetime` |
| `Models` | `models.py`: `HourlyRegionMetrics` (wide, as its callers use it), `DailyRegionReport.as_dict` |
| `SqlLoader` | `sql_loader.py`: region resolution, `_hour_to_utc`, `_expand_fetch_window`, the bucket loops and finalisation of `fetch_hourly_metrics` |
| `Aggregator` | `aggregator.py`: `build_daily_report`, `safe_div`, `to_daily_reports`, `build_hourly_table` |
| `TripleWhaleClient` | `triple_whale_client.py`: `_collapse_metrics`, `normalise_marketing_performance`, the `fetch_summary_metrics` guard, `_base_url` |
| `Backfill` | `scripts/run_backfill.py`: `iter_windows` and the loop of `main` |
| `OrderProcessor` | the order processor Lambda: subscription tests, `enrich_order`, `_decimal`, `is_recent_order` |
| `BulkDownload` | the bulk download Lambda: `parse_jsonl`, `flatten_record`, the empty check of `convert_to_parquet` |
| `RefreshTrigger` | the refresh trigger Lambda: `_parse_payload`, `_resolve_dates`, `_response`, `lambda_handler` |
| `Wrappers`, `Json`, `Text`, `Calendar`, `Keys` | Python's exceptions as `Result`, JSON values and ordered dicts, ASCII string functions, civil dates, `(str, int)` keys and stable sorting |

How the model represents the source:

- **Time.** Instants are integer seconds since the epoch (UTC). Dates are epoch-day numbers.
- **Time zones.** The tz database is a parameter, `Timezones.TzDatabase`, which gives the offset in force for a zone at an instant. `Timezones.Valid` pins UTC at zero and America/Regina at UTC-6 all year.
- **Numbers.** Money and counts are `real`; pandas' NA and Python's None are `Option`.
- **Foreign library calls.** `json.loads`/`json.dumps`, `Decimal(str(..))` and `datetime.fromisoformat` are parameters (`Json.Codec`, `TripleWhaleClient.Parsers`, a `parseIso` function). So are the clock (`now`, `today`) and the SQL engine that returns the fetched rows.
- **Loops.** Where the source loops and mutates (the bucket loops, `_expand_fetch_window`, `_collapse_metrics`, `iter_windows`, the subscription scans, `parse_jsonl`, `flatten_record`, `_parse_payload`, the row loops of the aggregator), the model is a `method` with a `while` loop. Each such method is proved equal to a specification function. The properties are proved about that function as lemmas.

## Model

| member | source | states |
|---|---|---|
| Timezones.KnownRegions | data-ingestion/triplewhale/src/triplewhale_ingestion/timezones.py:21-26 | exactly US, CA, UK and AU have a zone |
| Timezones.ToLocalDatetime | data-ingestion/triplewhale/src/triplewhale_ingestion/timezones.py:42-51 | an unknown region fails with a `KeyError` carrying that region (the model's `KeyError` holds the missing key, not Python's message text); otherwise the result keeps the instant and carries the region's zone |
| Timezones.ToLocalDate | data-ingestion/triplewhale/src/triplewhale_ingestion/timezones.py:29-39 | an unknown region fails with a `KeyError` carrying that region (the model's `KeyError` holds the missing key, not Python's message text) |
| Timezones.InZone | data-ingestion/triplewhale/src/triplewhale_ingestion/timezones.py:51 | `astimezone` keeps the instant and reads the wall clock at the zone's offset |
| Timezones.LocalDateIsDatePart | data-ingestion/triplewhale/src/triplewhale_ingestion/timezones.py:38-51 | `to_local_date` is the date part of `to_local_datetime`, and the conversion keeps the instant |
| Timezones.NaiveIsUtc | data-ingestion/triplewhale/src/triplewhale_ingestion/timezones.py:35-49 | a naive timestamp converts exactly as the aware UTC one with the same reading |
| Timezones.CanadaIsFixedOffset | data-ingestion/triplewhale/src/triplewhale_ingestion/timezones.py:23 | Canada's local date is always the UTC-6 date |
| Timezones.ExampleConversions | tests/triplewhale/test_aggregator.py:83-86 | 2024-10-13T10:00Z is 21:00 on 2024-10-13 in Sydney, 05:00 in Chicago, and 2024-10-13 in London |
| Timezones.ExampleLondon | tests/triplewhale/test_aggregator.py:33 | the UK date of that instant is 2024-10-13 |
| Models.TotalSpendIsSpendSum | data-ingestion/triplewhale/src/triplewhale_ingestion/models.py:21-23 | `total_spend` is meta plus google spend for every record |
| Models.NewHourly | data-ingestion/triplewhale/src/triplewhale_ingestion/models.py:8-19 | a record built from region and timestamp has every amount 0.0, every share 0.0, every pacing text empty, 0 orders and currency USD |
| Models.RoundHalfEven | data-ingestion/triplewhale/src/triplewhale_ingestion/sql_loader.py:239 | `round(x)` is within one half of x, and a tie goes to the even integer |
| Models.RoundTo | data-ingestion/triplewhale/src/triplewhale_ingestion/models.py:48-57 | `round(x, d)` is a whole number of units 10^-d, namely `round(x · 10^d)` (nearest integer, ties to even), and lies within half a unit of the last kept digit |
| Models.RoundToNearest | data-ingestion/triplewhale/src/triplewhale_ingestion/models.py:48-57 | no multiple of 10^-d is nearer to x than `round(x, d)` |
| Models.RoundOpt | data-ingestion/triplewhale/src/triplewhale_ingestion/models.py:54-57 | None stays None, and a present value becomes `round(v, d)`: on the 10^-d grid, nearest, ties to even |
| Models.Money | data-ingestion/triplewhale/src/triplewhale_ingestion/models.py:48-53 | a money cell is a whole number of cents, `round(100 x)` of them, within half a cent of the amount |
| Models.AsDictKeysInOrder | data-ingestion/triplewhale/src/triplewhale_ingestion/models.py:44-59 | `as_dict` has exactly the 13 keys in order; the date is ISO text; region, orders and currency pass through unchanged |
| Models.AsDictMoneyRounding | data-ingestion/triplewhale/src/triplewhale_ingestion/models.py:48-53 | the five money fields are rounded to whole cents |
| Models.AsDictRatioRounding | data-ingestion/triplewhale/src/triplewhale_ingestion/models.py:54-57 | aov and cpp are rounded onto the grid of hundredths, the roas values onto thousandths, and absent ratios stay None |
| SqlLoader.RegionFromCountry | data-ingestion/triplewhale/src/triplewhale_ingestion/sql_loader.py:425-428 | a resolved region is always one of the four regions |
| SqlLoader.CountryLookupIgnoresCase | data-ingestion/triplewhale/src/triplewhale_ingestion/sql_loader.py:428 | the country lookup gives the same result for any case of the code |
| SqlLoader.CountryExamples | tests/triplewhale/test_sql_loader.py:13-18 | GB and UK give UK, `au` gives AU; LV, the empty code and None give None |
| SqlLoader.Normalize | data-ingestion/triplewhale/src/triplewhale_ingestion/sql_loader.py:450 | each character is upper-cased, or replaced by a space if it is not alphanumeric; the length is kept |
| SqlLoader.PresentParts | data-ingestion/triplewhale/src/triplewhale_ingestion/sql_loader.py:449 | only present, non-empty name parts are joined |
| SqlLoader.Tokenize | data-ingestion/triplewhale/src/triplewhale_ingestion/sql_loader.py:448-451 | every token is a non-empty run of upper-case letters and digits |
| SqlLoader.TokenizeAppend | data-ingestion/triplewhale/src/triplewhale_ingestion/sql_loader.py:448-451 | tokenizing goes part by part: one more part adds exactly its own tokens |
| SqlLoader.TokenOfDelimitedWord | data-ingestion/triplewhale/src/triplewhale_ingestion/sql_loader.py:448-451 | an alphanumeric word delimited by non-alphanumerics is a token, upper-cased |
| SqlLoader.MatchRegion | data-ingestion/triplewhale/src/triplewhale_ingestion/sql_loader.py:441-443 | the result is the first region in priority order whose token set meets the tokens; it is None exactly when none does |
| SqlLoader.RegionFromAdRow | data-ingestion/triplewhale/src/triplewhale_ingestion/sql_loader.py:431-445 | the region is never empty; a string account id mapped to a non-empty region wins |
| SqlLoader.AdRegionByTokens | data-ingestion/triplewhale/src/triplewhale_ingestion/sql_loader.py:438-445 | without a mapping, the region is the first of AU, UK, CA, US whose tokens occur, and US when none does |
| SqlLoader.TokenizerExample | tests/triplewhale/test_sql_loader.py:21-24 | CA and SCALE are tokens of the campaign name in the test |
| SqlLoader.AdRegionExamples | tests/triplewhale/test_sql_loader.py:27-44 | the mapped account gives UK; the AU names give AU |
| SqlLoader.HourToUtc | data-ingestion/triplewhale/src/triplewhale_ingestion/sql_loader.py:413-422 | it fails exactly on an unreadable hour; an aware hour keeps its instant |
| SqlLoader.NaiveHourRoundTrip | data-ingestion/triplewhale/src/triplewhale_ingestion/sql_loader.py:418-422 | outside a DST gap, the UTC hour of a naive hour reads back as that wall time in the store zone |
| SqlLoader.ChicagoHourExample | tests/triplewhale/test_sql_loader.py:47-52 | 2025-10-14 23:00 in Chicago is 04:00 or 05:00 UTC |
| SqlLoader.RegionZonesAreTheTable | data-ingestion/triplewhale/src/triplewhale_ingestion/sql_loader.py:293-294 | the loop visits exactly the zones of the region table |
| SqlLoader.WindowOver | data-ingestion/triplewhale/src/triplewhale_ingestion/sql_loader.py:285-302 | the window never narrows; it covers every listed zone's local day containing the start; each bound is either the original bound or some zone's day bound |
| SqlLoader.ExpandFetchWindow | data-ingestion/triplewhale/src/triplewhale_ingestion/sql_loader.py:285-302 | the loop over the four region zones computes `WindowOver` |
| SqlLoader.WidenOver | data-ingestion/triplewhale/src/triplewhale_ingestion/sql_loader.py:293-300 | the loop's running min/max is the widened window of the zones visited |
| SqlLoader.EndDayNotCovered | data-ingestion/triplewhale/src/triplewhale_ingestion/sql_loader.py:295-300 | over an eleven-day range the end is not widened, though Canada's local day containing the end runs past it |
| SqlLoader.MakeBucket | data-ingestion/triplewhale/src/triplewhale_ingestion/sql_loader.py:65-100 | a fresh bucket has every amount and weighted share 0.0, every pacing text empty, and currency USD |
| SqlLoader.SpendGoesToItsChannel | data-ingestion/triplewhale/src/triplewhale_ingestion/sql_loader.py:192-196 | facebook-ads spend goes only to meta_spend, google-ads spend only to google_spend |
| SqlLoader.AddOrder | data-ingestion/triplewhale/src/triplewhale_ingestion/sql_loader.py:161-177 | an order row adds its amounts and leaves shares and pacing alone; a non-empty row currency replaces the bucket's |
| SqlLoader.AddAd | data-ingestion/triplewhale/src/triplewhale_ingestion/sql_loader.py:190-221 | an ad row adds its amounts, adds share × impressions, fills only empty pacing texts, and never replaces a non-empty currency |
| SqlLoader.AdWeighted | data-ingestion/triplewhale/src/triplewhale_ingestion/sql_loader.py:211-213 | each weighted numerator grows by the row's share times its impressions |
| SqlLoader.AdPacing | data-ingestion/triplewhale/src/triplewhale_ingestion/sql_loader.py:218-221 | a pacing text is set only while the bucket's is empty |
| SqlLoader.AdCurrency | data-ingestion/triplewhale/src/triplewhale_ingestion/sql_loader.py:208-209 | an ad row never replaces a non-empty currency |
| SqlLoader.Buckets.Put | data-ingestion/triplewhale/src/triplewhale_ingestion/sql_loader.py:152 | storing a bucket keeps the key table and the key list consistent |
| SqlLoader.RouteOrder | data-ingestion/triplewhale/src/triplewhale_ingestion/sql_loader.py:154-160 | an order row is skipped exactly without a known country; it fails exactly when the country is known and the hour unreadable; otherwise it goes to its region's bucket |
| SqlLoader.RouteAd | data-ingestion/triplewhale/src/triplewhale_ingestion/sql_loader.py:179-189 | an ad row is skipped exactly when its lower-cased channel is unsupported; it fails on an unreadable hour; otherwise it goes to the bucket of its resolved region |
| SqlLoader.FoldFails | data-ingestion/triplewhale/src/triplewhale_ingestion/sql_loader.py:154-221 | a row loop raises exactly the error of its first raising row |
| SqlLoader.FoldPerKey | data-ingestion/triplewhale/src/triplewhale_ingestion/sql_loader.py:152-221 | each bucket is its start updated with exactly the rows routed to it, in order; a key exists exactly when it did before or some row goes to it |
| SqlLoader.OrderTotal | data-ingestion/triplewhale/src/triplewhale_ingestion/sql_loader.py:162-174 | order rows add nothing to an amount that is not an order column |
| SqlLoader.AdTotal | data-ingestion/triplewhale/src/triplewhale_ingestion/sql_loader.py:192-216 | ad rows add nothing to an amount that is neither an ad column nor a spend |
| SqlLoader.FirstPacing | data-ingestion/triplewhale/src/triplewhale_ingestion/sql_loader.py:218-221 | the result is the first non-empty pacing text offered, and empty exactly when none is |
| SqlLoader.LastCurrency | data-ingestion/triplewhale/src/triplewhale_ingestion/sql_loader.py:175-177 | the result is the currency of the last order row naming one, and None exactly when none does |
| SqlLoader.OrdersApplied | data-ingestion/triplewhale/src/triplewhale_ingestion/sql_loader.py:154-177 | folding order rows adds their totals, keeps shares and pacing, and leaves the last named currency |
| SqlLoader.AdsApplied | data-ingestion/triplewhale/src/triplewhale_ingestion/sql_loader.py:179-221 | folding ad rows adds their totals and weighted shares, fills empty pacing with the first offered text, and keeps a non-empty currency |
| SqlLoader.WeightedMean | data-ingestion/triplewhale/src/triplewhale_ingestion/sql_loader.py:227-231 | the share is 0.0 without positive impressions; otherwise share × impressions is the weighted total |
| SqlLoader.Finalise | data-ingestion/triplewhale/src/triplewhale_ingestion/sql_loader.py:233-281 | the record has the bucket's key, amounts, shares, pacing and currency, with new-customer orders rounded half to even |
| SqlLoader.Emit | data-ingestion/triplewhale/src/triplewhale_ingestion/sql_loader.py:223-224 | one record per bucket key, in ascending key order |
| SqlLoader.HourlyMetricsFails | data-ingestion/triplewhale/src/triplewhale_ingestion/sql_loader.py:154-190 | the pipeline raises exactly when a row that is not skipped has an unreadable hour, and raises the first such error, order rows first |
| SqlLoader.GroupedBucket | data-ingestion/triplewhale/src/triplewhale_ingestion/sql_loader.py:152-221 | each bucket after both loops is built from exactly the order rows and then the ad rows routed to it, and exists exactly when some row is |
| SqlLoader.HourlyMetricsKeys | data-ingestion/triplewhale/src/triplewhale_ingestion/sql_loader.py:223-224 | records come strictly ascending by (region, hour), one per key that some row goes to |
| SqlLoader.BucketTotal | data-ingestion/triplewhale/src/triplewhale_ingestion/sql_loader.py:162-216 | each bucket amount is the order total plus the ad total |
| SqlLoader.BucketWeighted | data-ingestion/triplewhale/src/triplewhale_ingestion/sql_loader.py:211-213 | each weighted numerator is the ad rows' sum of share × impressions |
| SqlLoader.BucketTexts | data-ingestion/triplewhale/src/triplewhale_ingestion/sql_loader.py:175-221 | pacing texts are the first offered by the ad rows; currency is the last named by the order rows, or USD |
| SqlLoader.FinalisedAmounts | data-ingestion/triplewhale/src/triplewhale_ingestion/sql_loader.py:237-257 | a finalised record keeps the bucket totals, with new-customer orders rounded half to even |
| SqlLoader.BucketShareOfRows | data-ingestion/triplewhale/src/triplewhale_ingestion/sql_loader.py:211-231 | a bucket's share is the impression-weighted mean of its ad rows' shares |
| SqlLoader.RecordOfKey | data-ingestion/triplewhale/src/triplewhale_ingestion/sql_loader.py:223-281 | each record is the finalised bucket of its own key, and that key received at least one row |
| SqlLoader.HourlyMetricsAmounts | data-ingestion/triplewhale/src/triplewhale_ingestion/sql_loader.py:154-257 | each record's amounts are the totals of its key's order and ad rows, with orders rounded half to even |
| SqlLoader.HourlyMetricsShares | data-ingestion/triplewhale/src/triplewhale_ingestion/sql_loader.py:211-264 | each record's search shares are Σ(share × impressions) / Σimpressions over its ad rows, or 0.0 without impressions |
| SqlLoader.HourlyMetricsTexts | data-ingestion/triplewhale/src/triplewhale_ingestion/sql_loader.py:175-279 | each record's pacing texts are the first its ad rows offer; its currency is the last order-row currency, or USD |
| SqlLoader.StoreZone | data-ingestion/triplewhale/src/triplewhale_ingestion/sql_loader.py:117-118 | the store zone is a known zone or UTC; a given, known zone name is used as is |
| SqlLoader.FetchPreconditions | data-ingestion/triplewhale/src/triplewhale_ingestion/sql_loader.py:111-122 | in this order: a missing shop domain raises RuntimeError, a naive bound raises ValueError, and a start after the end raises ValueError; success implies none of these |
| SqlLoader.FetchHourlyMetrics | data-ingestion/triplewhale/src/triplewhale_ingestion/sql_loader.py:103-283 | the method (checks, widened window, order loop, ad loop over Facebook then Google rows, emission) computes `FetchSpec` |
| SqlLoader.GroupOrders | data-ingestion/triplewhale/src/triplewhale_ingestion/sql_loader.py:154-177 | the order loop is the fold of `RouteOrder`/`AddOrder` from empty buckets |
| SqlLoader.GroupAds | data-ingestion/triplewhale/src/triplewhale_ingestion/sql_loader.py:179-221 | the ad loop is the fold of `RouteAd`/`AddAd` over the buckets the orders built |
| SqlLoader.EmitRecords | data-ingestion/triplewhale/src/triplewhale_ingestion/sql_loader.py:223-283 | the emission loop yields `Emit` of the buckets |
| Aggregator.SafeDiv | data-ingestion/triplewhale/src/triplewhale_ingestion/aggregator.py:132-139 | the result is present exactly when both operands are and the denominator is non-zero, and then times the denominator gives the numerator |
| Aggregator.Ratio | data-ingestion/triplewhale/src/triplewhale_ingestion/aggregator.py:251-258 | division by a column whose zeros became NA is the quotient, absent on a zero denominator |
| Aggregator.OrdersOfIsAmountSum | data-ingestion/triplewhale/src/triplewhale_ingestion/aggregator.py:107 | the integer order sum equals the summed order amount |
| Aggregator.DeriveMeaning | data-ingestion/triplewhale/src/triplewhale_ingestion/aggregator.py:130-184 | spend = meta + google; returning orders = max(0, total − new); returning and net sales and gross profit are what remains of total sales; every ratio KPI is the quotient of the sums it names, cpm with spend × 1000 |
| Aggregator.FirstUnknown | data-ingestion/triplewhale/src/triplewhale_ingestion/aggregator.py:98-100 | the first record whose region has no zone, or None exactly when every region is known |
| Aggregator.DayKey | data-ingestion/triplewhale/src/triplewhale_ingestion/aggregator.py:98-100 | a record's group key is its region and its `to_local_date` |
| Aggregator.Members | data-ingestion/triplewhale/src/triplewhale_ingestion/aggregator.py:102-104 | a group holds exactly the records with its key |
| Aggregator.GroupsOf | data-ingestion/triplewhale/src/triplewhale_ingestion/aggregator.py:102-128 | one group per key, in the order of the keys |
| Aggregator.DailyReportOutcome | data-ingestion/triplewhale/src/triplewhale_ingestion/aggregator.py:94-100 | empty input gives an empty table with the report columns; an unknown region fails with KeyError for the first one; a success has exactly the report columns |
| Aggregator.DailyRowsGroups | data-ingestion/triplewhale/src/triplewhale_ingestion/aggregator.py:102-128 | one non-empty row per (region, local date) some record falls on, in strictly ascending key order, each holding exactly the records of its key |
| Aggregator.GroupsOfConserve | data-ingestion/triplewhale/src/triplewhale_ingestion/aggregator.py:105-125 | over distinct keys that cover every record, the row sums add up to the record sum |
| Aggregator.DailySumsConserved | data-ingestion/triplewhale/src/triplewhale_ingestion/aggregator.py:105-125 | for every amount, the daily rows add up to the sum over all records: nothing lost or counted twice |
| Aggregator.MembersHead | data-ingestion/triplewhale/src/triplewhale_ingestion/aggregator.py:126 | the first member of a group is the first record in input order with that key |
| Aggregator.DailyCurrencyIsFirst | data-ingestion/triplewhale/src/triplewhale_ingestion/aggregator.py:126 | a row's currency is that of its group's earliest record |
| Aggregator.ColumnNames | data-ingestion/triplewhale/src/triplewhale_ingestion/aggregator.py:13-54 | the table's columns are exactly `DAILY_REPORT_COLUMNS` in order, and each but `total_orders` is passed on to the report |
| Aggregator.ColumnsReported | data-ingestion/triplewhale/src/triplewhale_ingestion/aggregator.py:195-235 | every daily column but `total_orders` is a report field |
| Aggregator.BuildDailyReport | data-ingestion/triplewhale/src/triplewhale_ingestion/aggregator.py:91-187 | the method (local dates record by record, stopping at the first unknown region, then grouping) computes `DailyReport` |
| Aggregator.ReportReadsColumns | data-ingestion/triplewhale/src/triplewhale_ingestion/aggregator.py:195-235 | every reported column reaches the report under its own name; `total_orders` does not |
| Aggregator.ReportLacksTotalOrders | data-ingestion/triplewhale/src/triplewhale_ingestion/aggregator.py:195-235 | the report has no `total_orders` field |
| Aggregator.ReportsOf | data-ingestion/triplewhale/src/triplewhale_ingestion/aggregator.py:193-236 | one report per daily row, in order |
| Aggregator.ToDailyReports | data-ingestion/triplewhale/src/triplewhale_ingestion/aggregator.py:190-237 | the method computes `DailyReports`: the daily table's failure, or one report per row |
| Aggregator.ReportRows | data-ingestion/triplewhale/src/triplewhale_ingestion/aggregator.py:192-237 | the append loop yields `ReportsOf` the rows |
| Aggregator.Unsorted | data-ingestion/triplewhale/src/triplewhale_ingestion/aggregator.py:245-289 | one row per record, in input order, each derived from its own record |
| Aggregator.BuildHourlyTable | data-ingestion/triplewhale/src/triplewhale_ingestion/aggregator.py:240-291 | the method computes `HourlyTable` |
| Aggregator.AddColumns | data-ingestion/triplewhale/src/triplewhale_ingestion/aggregator.py:249-289 | the column loop fails exactly when time columns are asked for and some region is unknown, with that first region's KeyError; otherwise it gives the unsorted rows |
| Aggregator.AppendRow | data-ingestion/triplewhale/src/triplewhale_ingestion/aggregator.py:277-289 | one more record's row is appended after the rows before it |
| Aggregator.HourlyTableOutcome | data-ingestion/triplewhale/src/triplewhale_ingestion/aggregator.py:245-281 | empty input gives an empty table; with time columns the first unknown region fails with KeyError; without them nothing fails |
| Aggregator.HourlyTableRows | data-ingestion/triplewhale/src/triplewhale_ingestion/aggregator.py:249-291 | the rows are a permutation of the unsorted rows (one per record), sorted by (region, UTC timestamp); each has its own record's derived fields and time columns exactly when asked |
| Aggregator.HourlyTableStable | data-ingestion/triplewhale/src/triplewhale_ingestion/aggregator.py:291 | for every (region, UTC timestamp) key, the hourly table's rows with that key are the unsorted rows with that key, in input order (a stable sort) |
| Aggregator.HourlyKpis | data-ingestion/triplewhale/src/triplewhale_ingestion/aggregator.py:249-275 | per row, spend = meta + google and each ratio is the record's quotient, NA on a zero denominator |
| Aggregator.TimeColumns | data-ingestion/triplewhale/src/triplewhale_ingestion/aggregator.py:277-289 | the local datetime keeps the instant in the region's zone; its date is `to_local_date`; the central datetime is the same instant in Chicago |
| Aggregator.DailyExample | tests/triplewhale/test_aggregator.py:7-39 | two UK hours on 2024-10-13 make one row holding both records |
| Aggregator.DailyExampleSums | tests/triplewhale/test_aggregator.py:29-44 | that row sums meta 130, google 70, 15 orders, new sales 1800, total sales 2900, currency USD |
| Aggregator.DailyExampleKpis | tests/triplewhale/test_aggregator.py:36-43 | spend 200, aov 120, new-customer roas 9, blended roas 14.5, cpp 200/15 |
| Aggregator.HourlyExample | tests/triplewhale/test_aggregator.py:47-92 | one AU record gives one row: local 2024-10-13 21:00, central 05:00, spend 15, cpp 15, aov 100, roas 100/15 and 10 |
| TripleWhaleClient.BaseUrl | data-ingestion/triplewhale/src/triplewhale_ingestion/triple_whale_client.py:34-36 | the URL is the base without trailing slashes, exactly one slash, then the path without leading slashes |
| TripleWhaleClient.BaseUrlIgnoresJoinSlashes | data-ingestion/triplewhale/src/triplewhale_ingestion/triple_whale_client.py:34-36 | extra slashes at the join do not change the URL |
| TripleWhaleClient.SummaryRequest | data-ingestion/triplewhale/src/triplewhale_ingestion/triple_whale_client.py:66-86 | it fails with ValueError exactly when `today_hour` is outside 1..25, before any request; otherwise it posts to `summary-page/get-data` with the shop domain, the hour, and a `period` of the ISO dates of the start and end |
| TripleWhaleClient.FloatOf | data-ingestion/triplewhale/src/triplewhale_ingestion/triple_whale_client.py:165 | `float` keeps ints and floats and fails on None, lists and dicts |
| TripleWhaleClient.Truncate | data-ingestion/triplewhale/src/triplewhale_ingestion/triple_whale_client.py:172 | `int` of a number truncates toward zero |
| TripleWhaleClient.IntOf | data-ingestion/triplewhale/src/triplewhale_ingestion/triple_whale_client.py:172 | `int` keeps ints and fails on None, lists and dicts |
| TripleWhaleClient.CollapseStep | data-ingestion/triplewhale/src/triplewhale_ingestion/triple_whale_client.py:163-175 | the loop body computes `Step` |
| TripleWhaleClient.CollapseMetrics | data-ingestion/triplewhale/src/triplewhale_ingestion/triple_whale_client.py:154-176 | the loop computes `CollapseTotals` |
| TripleWhaleClient.CollapseFailureStays | data-ingestion/triplewhale/src/triplewhale_ingestion/triple_whale_client.py:163-175 | once a prefix raises, the whole collapse raises the same exception |
| TripleWhaleClient.CollapseSpend | data-ingestion/triplewhale/src/triplewhale_ingestion/triple_whale_client.py:163-169 | each metric was read; META/FACEBOOK spend sums into META and GOOGLE/GOOGLE_ADS into GOOGLE; other sources add nothing |
| TripleWhaleClient.CollapseReadable | data-ingestion/triplewhale/src/triplewhale_ingestion/triple_whale_client.py:164-165 | a successful collapse read every metric's source and spend |
| TripleWhaleClient.CollapseChannels | data-ingestion/triplewhale/src/triplewhale_ingestion/triple_whale_client.py:163-169 | each spend total is its channel's spend over all metrics |
| TripleWhaleClient.StepSpend | data-ingestion/triplewhale/src/triplewhale_ingestion/triple_whale_client.py:164-169 | one step adds the metric's spend to its own channel only |
| TripleWhaleClient.StepCounts | data-ingestion/triplewhale/src/triplewhale_ingestion/triple_whale_client.py:171-175 | the first total-type metric while the flag is down sets the counts and raises the flag; anything else leaves them |
| TripleWhaleClient.CollapseFlag | data-ingestion/triplewhale/src/triplewhale_ingestion/triple_whale_client.py:162-175 | the flag is up exactly when some metric is of a total type |
| TripleWhaleClient.CollapseFirstTotal | data-ingestion/triplewhale/src/triplewhale_ingestion/triple_whale_client.py:155-175 | the counts come from the first TOTAL/ALL/empty-source metric only; with none they stay 0 |
| TripleWhaleClient.CollapseFirstTotalAt | data-ingestion/triplewhale/src/triplewhale_ingestion/triple_whale_client.py:171-175 | the counts are those of the first total-type metric |
| TripleWhaleClient.CollapseNoTotal | data-ingestion/triplewhale/src/triplewhale_ingestion/triple_whale_client.py:155-161 | without a total-type metric the counts keep their zero defaults |
| TripleWhaleClient.CountryToRegion | data-ingestion/triplewhale/src/triplewhale_ingestion/triple_whale_client.py:15-20 | exactly US, CA, GB and AU resolve (not UK, and case matters); GB gives UK |
| TripleWhaleClient.NormaliseNode | data-ingestion/triplewhale/src/triplewhale_ingestion/triple_whale_client.py:126-151 | an emitted record has its node's country region, an aware UTC timestamp and currency USD |
| TripleWhaleClient.NormaliseEdges | data-ingestion/triplewhale/src/triplewhale_ingestion/triple_whale_client.py:125-151 | at most one record per edge, each in a known region with a UTC timestamp |
| TripleWhaleClient.NormaliseMarketingPerformance | data-ingestion/triplewhale/src/triplewhale_ingestion/triple_whale_client.py:121-151 | falsy data gives no records |
| TripleWhaleClient.NormaliseEdgesAppend | data-ingestion/triplewhale/src/triplewhale_ingestion/triple_whale_client.py:125-151 | normalisation streams: two runs of edges give the records of the first then the second, and an exception in the first run ends it |
| TripleWhaleClient.NodeSkipped | data-ingestion/triplewhale/src/triplewhale_ingestion/triple_whale_client.py:127-134 | a node is skipped exactly when its country is not a key, or it has one and no datetime |
| TripleWhaleClient.EmittedRecord | data-ingestion/triplewhale/src/triplewhale_ingestion/triple_whale_client.py:136-151 | an emitted record has the parsed instant in UTC, the channel spends summed over its metrics, and the counts of its first total-type metric (zero without one) |
| TripleWhaleClient.NodeEmits | data-ingestion/triplewhale/src/triplewhale_ingestion/triple_whale_client.py:140-151 | the emitted record holds the collapsed totals of its metrics |
| TripleWhaleClient.TrailingZuluIsUtc | data-ingestion/triplewhale/src/triplewhale_ingestion/triple_whale_client.py:136 | a trailing `Z` is read as `+00:00` |
| Backfill.NextEnd | scripts/run_backfill.py:38 | the next end is the earlier of `end` and one window past `current` |
| Backfill.WindowsTile | scripts/run_backfill.py:32-41 | none when start ≥ end; otherwise indices run consecutively, the first window starts at `start`, each starts where the previous ended, none is empty, longer than the window or past `end`, all but the last are full, and the last ends at `end` |
| Backfill.NoProgressWithoutPositiveWindow | scripts/run_backfill.py:37-41 | with window_days ≤ 0 the loop never advances toward `end`, and with 0 `current` stays put |
| Backfill.IterWindows | scripts/run_backfill.py:32-41 | the loop yields `Windows`, and nothing when start ≥ end |
| Backfill.ExecutionInput | scripts/run_backfill.py:60-64 | the input has exactly three keys: export type orders, and the window bounds as ISO instants ending in Z |
| Backfill.Executions | scripts/run_backfill.py:56-58 | one execution per window of the range ending the day after the end date |
| Backfill.RunBackfill | scripts/run_backfill.py:54-66 | the loop of `main` starts `Executions`, and none when the start date is after the end date |
| Backfill.ExecutionsCoverRange | scripts/run_backfill.py:54-58 | the executions start at midnight of the start date and end at midnight after the end date (inclusive end), with consecutive windows meeting |
| Backfill.SingleDayExample | scripts/run_backfill.py:54-58 | backfilling one day with 7-day windows starts one execution covering that day |
| Backfill.SingleDayName | scripts/run_backfill.py:59 | that execution is named `backfill-20241013-20241014` |
| OrderProcessor.ConfiguredSkus | lambdas/shopify-order-processor/index.py:22-25 | one configured SKU per comma-separated piece of the setting, each as long as its piece |
| OrderProcessor.ConfiguredSkusRoundTrip | lambdas/shopify-order-processor/index.py:22-25 | joined back with commas, the SKUs give the lower-cased setting; none holds a comma or an upper-case letter |
| OrderProcessor.IsSubscriptionOrder | lambdas/shopify-order-processor/index.py:184-194 | the tag test then the item scan computes `IsSubscription` |
| OrderProcessor.SubscriptionByItemsMeaning | lambdas/shopify-order-processor/index.py:189-194 | the scan answers True exactly when some item is the first match, and False exactly when every SKU is readable and none matches |
| OrderProcessor.IsSubscriptionMeaning | lambdas/shopify-order-processor/index.py:184-194 | subscription exactly when the lower-cased tags mention subscription or recurring, or some lower-cased SKU contains a configured SKU; not a subscription exactly when neither holds and every SKU was read |
| OrderProcessor.EmptySkuMatchesAll | lambdas/shopify-order-processor/index.py:189-192 | an empty configured SKU makes any order with a readable line item a subscription |
| OrderProcessor.GetSubscriptionType | lambdas/shopify-order-processor/index.py:197-208 | the method computes `SubscriptionType` |
| OrderProcessor.SubscriptionTypeNone | lambdas/shopify-order-processor/index.py:197-199 | the kind is None exactly for orders that are not subscriptions |
| OrderProcessor.KindByItemsMeaning | lambdas/shopify-order-processor/index.py:201-208 | the kind is monthly or quarterly: that of the first item whose SKU names one (monthly tested first), and monthly when none does |
| OrderProcessor.DecimalOf | lambdas/shopify-order-processor/index.py:99-104 | None and other falsy non-bools give 0; numbers keep their value; a bool fails |
| OrderProcessor.QuantitySumOfInts | lambdas/shopify-order-processor/index.py:175 | with integer or missing quantities, `sum` is their integer total |
| OrderProcessor.EvalAll | lambdas/shopify-order-processor/index.py:106-179 | the dict literal succeeds exactly when every entry evaluates, and then holds each key of the layout, in order, with its value; otherwise it raises the error of the first entry that fails |
| OrderProcessor.DropNone | lambdas/shopify-order-processor/index.py:181 | the comprehension keeps exactly the pairs whose value is not None |
| OrderProcessor.EnrichOrder | lambdas/shopify-order-processor/index.py:94-181 | the enriched dict holds no None value |
| OrderProcessor.CountEntries | lambdas/shopify-order-processor/index.py:174-175 | `line_item_count` is the number of items and `total_quantity` their quantity total |
| OrderProcessor.SubscriptionEntries | lambdas/shopify-order-processor/index.py:169-170 | the flag entry is the subscription test; the kind entry is the kind for subscriptions and None otherwise |
| OrderProcessor.EnrichedCounts | lambdas/shopify-order-processor/index.py:174-181 | the enriched record counts the items and totals their quantities, missing counting 0 |
| OrderProcessor.EnrichedSubscription | lambdas/shopify-order-processor/index.py:169-181 | the flag is always stored, and the kind exactly for subscriptions |
| OrderProcessor.IsRecent | lambdas/shopify-order-processor/index.py:211-222 | an order without a truthy `created_at`, or whose `created_at` (with `Z` read as `+00:00`) `fromisoformat` rejects, is recent; an aware creation time is recent exactly when it is no earlier than `now` minus the TTL in days; a naive one raises `TypeError` against the aware clock, and a non-string raises `AttributeError` on `.replace` |
| OrderProcessor.RecentWindow | lambdas/shopify-order-processor/index.py:211-222 | recency only gets harder to meet as the clock advances or the TTL shrinks |
| BulkDownload.SplitLines | lambdas/shopify-bulk-download/index.py:58 | `splitlines` gives no more lines than characters |
| BulkDownload.SplitLinesNoBreaks | lambdas/shopify-bulk-download/index.py:58 | no line holds a line break |
| BulkDownload.SplitLinesOfUnlines | lambdas/shopify-bulk-download/index.py:58 | splitting newline-terminated lines gives the lines back |
| BulkDownload.Parsed | lambdas/shopify-bulk-download/index.py:56-65 | no more records than lines |
| BulkDownload.ParsedMeaning | lambdas/shopify-bulk-download/index.py:56-65 | the records are exactly the decoded non-blank valid lines, in line order; blank and malformed lines are skipped |
| BulkDownload.ParseJsonl | lambdas/shopify-bulk-download/index.py:56-65 | the loop computes `Parsed` of the split text |
| BulkDownload.Spread | lambdas/shopify-bulk-download/index.py:82-84 | a dict value spreads into `key_subkey` entries holding the sub-values, in order |
| BulkDownload.FlattenGet | lambdas/shopify-bulk-download/index.py:79-89 | every flattened key holds its last assigned value, and only assigned keys exist |
| BulkDownload.FlattenScalars | lambdas/shopify-bulk-download/index.py:87-88 | a record without dict or list values flattens to itself |
| BulkDownload.FlattenExample | lambdas/shopify-bulk-download/index.py:79-89 | a nested customer becomes `customer_id`, and a list becomes its JSON text |
| BulkDownload.FlattenEntry | lambdas/shopify-bulk-download/index.py:81-88 | one pair's assignments are applied to the flat dict |
| BulkDownload.SpreadInto | lambdas/shopify-bulk-download/index.py:83-84 | the inner loop applies the `key_subkey` assignments |
| BulkDownload.FlattenRecord | lambdas/shopify-bulk-download/index.py:79-89 | the loop computes `Flatten` |
| BulkDownload.FlattenedRows | lambdas/shopify-bulk-download/index.py:68-72 | an empty list raises ValueError exactly; success exactly when every record is a dict, then one flattened row per record |
| RefreshTrigger.PairsOf | lambdas/triplewhale/ingestion/refresh_trigger.py:24 | a list given to `update` yields one pair per element |
| RefreshTrigger.UpdateSource | lambdas/triplewhale/ingestion/refresh_trigger.py:24 | a decoded dict contributes its pairs; a scalar is not iterable and raises |
| RefreshTrigger.ParsePayload | lambdas/triplewhale/ingestion/refresh_trigger.py:18-35 | the method computes `Payload` |
| RefreshTrigger.MergeBody | lambdas/triplewhale/ingestion/refresh_trigger.py:19-28 | a valid string body or a dict body is merged into the empty payload |
| RefreshTrigger.MergeQuery | lambdas/triplewhale/ingestion/refresh_trigger.py:30-33 | the query-string dates fill only absent keys |
| RefreshTrigger.PayloadDate | lambdas/triplewhale/ingestion/refresh_trigger.py:21-33 | a date the body sets keeps the body's last value; one it leaves unset comes from the query string, None when missing there |
| RefreshTrigger.InvalidJsonBodyIgnored | lambdas/triplewhale/ingestion/refresh_trigger.py:22-26 | a body that is not valid JSON is ignored |
| RefreshTrigger.ResolveDatesMeaning | lambdas/triplewhale/ingestion/refresh_trigger.py:38-47 | two non-empty string dates are returned as given; if either is missing, both are yesterday's ISO date |
| RefreshTrigger.ResolveDatesExample | lambdas/triplewhale/ingestion/refresh_trigger.py:45-47 | on 2024-10-14 a request without dates refreshes 2024-10-13 |
| RefreshTrigger.Response | lambdas/triplewhale/ingestion/refresh_trigger.py:60-68 | exactly three keys: the status, the JSON and CORS headers, and the JSON body |
| RefreshTrigger.HandleStatus | lambdas/triplewhale/ingestion/refresh_trigger.py:71-88 | 202 exactly when the execution started, 500 exactly when starting raised; headers always present; a started refresh reports the resolved dates, and a failed start has the body `{"error": str(exc)}` |
| Json.Get | lambdas/triplewhale/ingestion/refresh_trigger.py:39-40 | `d.get(k)` is present exactly when the key is, and is a stored pair |
| Json.GetOr | lambdas/shopify-order-processor/index.py:185 | `d.get(k, default)` is the stored value or the default |
| Json.Or | data-ingestion/triplewhale/src/triplewhale_ingestion/triple_whale_client.py:126 | `v or default` is `v` when truthy, the default otherwise |
| Json.SetDefault | lambdas/triplewhale/ingestion/refresh_trigger.py:32-33 | `setdefault` stores only an absent key |
| Json.Put | lambdas/shopify-bulk-download/index.py:84 | after `d[k] = v`, k holds v and every other key is unchanged |
| Json.GetOfUpdate | lambdas/triplewhale/ingestion/refresh_trigger.py:24-28 | after `update`, a key holds its last new value, or its old one |
| Json.Iterate | lambdas/shopify-order-processor/index.py:189 | only lists, dicts and strings can be iterated; a list yields its items |
| Text.TrimRight | data-ingestion/triplewhale/src/triplewhale_ingestion/triple_whale_client.py:35 | `rstrip` drops exactly the trailing run of the character |
| Text.TrimLeft | data-ingestion/triplewhale/src/triplewhale_ingestion/triple_whale_client.py:36 | `lstrip` drops exactly the leading run of the character |
| Text.JoinOfSplit | lambdas/shopify-order-processor/index.py:22-25 | joining the pieces of `split(c)` with `c` gives the string back |
| Text.UpperOfLower | data-ingestion/triplewhale/src/triplewhale_ingestion/sql_loader.py:428 | upper-casing ignores the case the input was written in |
| Text.WordsOfJoin | data-ingestion/triplewhale/src/triplewhale_ingestion/sql_loader.py:449-451 | the words of a space-joined pair are the words of each side |
| Text.LexLessTotal | data-ingestion/triplewhale/src/triplewhale_ingestion/sql_loader.py:224 | Python's string order is total on distinct strings |
| Keys.SortKeys | data-ingestion/triplewhale/src/triplewhale_ingestion/sql_loader.py:224 | `sorted` of the bucket keys is strictly ascending and holds exactly the keys |
| Keys.SortBy | data-ingestion/triplewhale/src/triplewhale_ingestion/aggregator.py:291 | the sort is ordered by key and a permutation of its input |
| Keys.SortByStable | data-ingestion/triplewhale/src/triplewhale_ingestion/aggregator.py:291 | the sort is stable: the rows with any one key come out in their input order |
| Calendar.ExampleDay | tests/triplewhale/test_aggregator.py:33 | day 20009 is 2024-10-13 |

## Left out

- **HTTP and the clock.** HTTP transport (`_post`, `_headers`, `execute_sql`) and the legacy `fetch_hourly_metrics` stub that only raises are left out. So are `_detect_shop_timezone` (a SQL call reading the clock) and the boto3, S3, DynamoDB and Step Functions calls. Their results are parameters where the core uses them: the detected zone, the start outcome in `RefreshTrigger.Handle`, `now` and `today`.
- **SQL.** The SQL text of `_fetch_orders_hourly` and `_fetch_ads_hourly` is evaluated by an external engine. The rows it returns are inputs (`orderSource`, `adSource`).
- **Row column types.** `SqlLoader.OrderRow` and `SqlLoader.AdRow` type each fetched column as the SELECT lists it: every amount, spend, impression and share column is a number, and the hour is a timestamp or ISO text. Codes, names and currencies are strings. So these errors are not modelled: `float(...)` raising `ValueError` or `TypeError` on a non-numeric value (`sql_loader.py:162-174`, `191-216`), and `.lower()` on a non-string channel or `.upper()` on a non-string country code raising `AttributeError` (`sql_loader.py:180`, `428`).
- **Time zones.** The IANA time-zone database and DST rules are a parameter (`TzDatabase`). Only the fixed Regina offset and UTC are pinned. Example offsets appear as preconditions of the example lemmas.
- **Floating point.** Numbers are exact reals. So float rounding error, the exact IEEE result of `round`, and NaN are not modelled: pandas NA and None are the absent case of `Option`.
- **pandas.** Frames are sequences of rows; a column is computed row by row.
- **JSON and ISO parsing.** `json.loads`/`json.dumps`, `Decimal(str(..))` and `datetime.fromisoformat` are parameters. Their own behaviour is not modelled.
- **Case mapping.** Case mapping (`upper`, `lower`) and `isalnum` cover ASCII only. `isspace` (`Text.IsSpace`) covers all of Python's whitespace characters.
- **Text encoding.** UTF-8 decoding in `parse_jsonl` is left out; the model starts from the decoded text.
- **Bulk downloader I/O.** `download_file` (HTTP, gzip), Parquet writing and `upload_to_s3` are left out.
- **Logging.** Logging and `print` are left out.
- **Order processor I/O.** The order processor's `handler`, `store_raw_event` and `store_in_dynamodb` are I/O. The `_ingested_at` and `_brand` entries of `enrich_order` come from the clock and the environment, so they are a parameter (`Env`).
- **Environment variables.** Settings from the environment are parameters: `SUBSCRIPTION_SKUS`, `ORDERS_TTL_DAYS`, the account-region map and the shop domain.
- **Window size.** Backfill.IterWindows: requires a positive window (or an empty range). With `window_days <= 0` the source loops forever on a non-empty range; `NoProgressWithoutPositiveWindow` states that instead.
- **Argument parsing.** Backfill.RunBackfill starts from day numbers. Argument parsing and `strptime` of the dates are left out.
- **Pacing values.** SqlLoader.Encoded: a non-string pacing value is JSON-encoded through the codec parameter. The codec's output is not modelled.
- **Dict-update pairs.** RefreshTrigger.PairOf: list elements given to `dict.update` are modelled with string keys only. A pair with a non-string hashable key (a number) is treated as unhashable.
- **`json.dumps(..., default=str)`.** For the `line_items` entry of `enrich_order` this goes through the codec parameter like every other `json.dumps`.
- Aggregator.HourKey: mixed timestamps. It reads a naive timestamp as UTC when sorting the hourly table. pandas cannot order a column mixing naive and aware datetimes: it raises `TypeError`, or keeps an object column whose order depends on its version. The model sorts such a table as if every timestamp were UTC.
- **Field names.** Models.AsDictKeysInOrder: the lemma states key order and text fields. The rounding of the numeric fields is stated separately by `AsDictMoneyRounding` and `AsDictRatioRounding`.

### Where the model departs from the code

- **Width of `HourlyRegionMetrics`.** `HourlyRegionMetrics` (`models.py:8-23`) is a `@dataclass(slots=True)` with eight fields, but its callers build and read about forty. As declared, the constructor call of `fetch_hourly_metrics` (`sql_loader.py:234-280`) raises `TypeError` on the unexpected keyword `total_orders`. `_records_to_dataframe` (`aggregator.py:57-88`) raises `AttributeError` on the eight-field records that `tests/triplewhale/test_aggregator.py:8-27` builds, since it reads `record.total_orders`. The model gives the record every field its callers use, with 0.0 defaults, so neither error arises.
- **Width of `DailyRegionReport`.** `to_daily_reports` passes `DailyRegionReport` 26 keyword arguments the declared dataclass lacks, so as declared that call would raise `TypeError`. The model gives the report the fields its caller passes, so that call succeeds.

### Behaviour the model keeps as written

- **Hour truncation.** `_hour_to_utc` (`sql_loader.py:413-422`) converts an hour to UTC without truncating it. The SQL's `toStartOfHour` already truncates the fetched hours.
- **Fetch-window end.** `_expand_fetch_window` (`sql_loader.py:295-300`) widens the window's end only to each region's local day containing the window's *start*. `SqlLoader.EndDayNotCovered` shows that over a longer range Canada's local day containing the end is cut short.
- **Search shares in the daily report.** `_records_to_dataframe` (`aggregator.py:57-88`) drops the share fields, so the daily report has none.
- **Currency.** An order row overwrites the bucket's currency with any non-empty code (`sql_loader.py:175-177`), so the last one wins. An ad row sets it only when the bucket's is empty, which the USD default of `_make_bucket` prevents.
- **Region of ad rows.** An account-map value (`sql_loader.py:431-436`) is used as the region as it stands, even outside US, CA, UK and AU. The daily report later fails with `KeyError` on such a region.

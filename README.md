# Powerplugs dashboard refresh — a Dafny model of the reshaping engine

`refresh_dashboard.py` pulls query rows from a reporting service and reshapes
them into the per-plug, per-country, per-month series that a dashboard
template shows. This project models that reshaping and proves what it
guarantees. It covers:

- the label tables (`PP_MAP`, `PLUGS`, `COUNTRY_MAP`, `DASHBOARD_COUNTRIES`)
  and the three different lookups that use them;
- the two date-window loops (calendar months for trials, 15-day windows for
  country revenue);
- the trial grouping, which is last-write-wins, and the dense, zero-filled
  day series built from it;
- the country-revenue grouping, which is additive, and the per-country
  bucketing into parallel per-plug lists;
- `derive_revenue_from_country_data`, which sums the per-country series into
  the global one over the sorted union of their days;
- `build_purchase_data`;
- the active-user arithmetic of `fetch_user_data` and
  `fetch_country_user_data`;
- the plan-mix grouping;
- the overlap and cumulative-user row parsers, with their fallbacks.

Every input from outside is a parameter:

- A query is a function from its window (or its label and trial length) to
  `Option<seq<Row>>`, where `None` means the request raised.
- `datetime.now()` is a date `today`.
- A `NULL` cell is `None`.

Revenue is an integer amount (cents), and `round(x, 2)` is the identity.
Dates are `Calendar.Date(year, month, day)`, restricted to real Gregorian
days. A date's month key is `MonthOf(d)`: the first seven characters of the
ISO string.

Imperative code is modelled by methods with loops:

- the `while` loops;
- the `defaultdict` accumulators;
- the `append` loops;
- the in-place `+=` on preallocated lists, which is a pair of `array2<int>`
  in `ShardAggregator`;
- the parsers.

Each method is proved against a reference function, which is a recursive
fold over the rows or a sum. The properties are then proved about that
function.

Modules, by file:

| file | module | models |
|---|---|---|
| wrappers.dfy | `Wrappers` | `Option`, and the rows of a query that may have failed |
| dicts.dfy | `Dicts` | insertion-ordered Python dicts |
| sums.dfy | `Sums` | sums over sequences, their order independence |
| ordering.dfy | `Ordering` | sortedness, `sorted(set)`, Python string order |
| nested.dfy | `Nested` | three-level `defaultdict` writes |
| calendar.dfy | `Calendar`, `DateOrder` | Gregorian days, month keys, ISO-string order |
| labels.dfy | `Labels` | the tables and the plug/country lookups |
| chunking.dfy | `Chunking` | the monthly and two-week window loops |
| trial_series.dfy | `TrialSeries` | `fetch_trial_data` grouping and densification |
| country_revenue.dfy | `CountryRevenue` | `fetch_country_revenue` grouping and bucketing |
| shard_aggregator.dfy | `ShardAggregator` | `derive_revenue_from_country_data` |
| purchases.dfy | `Purchases` | `build_purchase_data` |
| users.dfy | `ActiveUsers` | `fetch_user_data`, `fetch_country_user_data` |
| plan_mix.dfy | `PlanMix` | `fetch_plan_mix` |
| overlap.dfy | `UserOverlap` | `fetch_user_overlap` and `_hardcoded_user_overlap` |
| cumulative.dfy | `CumulativeUsers` | `fetch_cumulative_users` and its fallback |

## Model

A few small functions are plain definitions of a single Python expression and have no row: `Labels.Lower` (`str.lower()`, whose meaning `Labels.LowerFolds` and `Labels.LowerIdempotent` state), `Labels.Lookup` (`table.get(key)`), `CountryRevenue.EmptyColumns` (`{p: [] for p in PLUGS}`), `ShardAggregator.ValueAt` (`lst[ci] if ci < len(lst) else 0`), `ShardAggregator.Rows` (a 2D buffer read back as lists), and `ActiveUsers.PaidEntries` and `ActiveUsers.TrialEntries` (a row reduced to bucket, plug and value). What they mean is stated by the lemmas and methods that use them, such as `ActiveUsers.PaidSeenIffRow`, `ActiveUsers.TrialSeenIffRow` and `ShardAggregator.MonthShareAbsent`.

| member | source | states |
|---|---|---|
| Dicts.Dict.Put | refresh_dashboard.py:1045 | `d[k] = v` maps `k` to `v` and keeps every other entry; the key list stays free of duplicates and equal to the mapped keys |
| Dicts.PutKeyOrder | refresh_dashboard.py:1045 | `d[k] = v` puts a new key at the end of the key order and leaves an existing key in its place (the order `json.dumps` writes) |
| Labels.LowerFolds | refresh_dashboard.py:303 | `str.lower()` leaves no upper-case letter, keeps every other character, and turns each upper-case letter into its lower-case form |
| Labels.LowerIdempotent | refresh_dashboard.py:303 | lower-casing an already lower-cased label changes nothing |
| Labels.StripLeft | refresh_dashboard.py:1243 | the result is a suffix, all removed characters are whitespace, and it does not start with whitespace |
| Labels.StripRight | refresh_dashboard.py:1243 | the result is a prefix, all removed characters are whitespace, and it does not end with whitespace |
| Labels.LowerCommutesWithStrip | refresh_dashboard.py:658-659 | stripping then lower-casing (user path) gives the same key as lower-casing then stripping (revenue path, line 1243) |
| Labels.TrialPlug | refresh_dashboard.py:303-305 | the trial-path plug is one of `PLUGS`, and it is absent (the row is skipped) exactly when the lower-cased, unstripped label misses `PP_MAP` |
| Labels.RevenueCountry | refresh_dashboard.py:1242-1245 | the revenue-path country is a dashboard country or "Other", and it is "Other" exactly when the lower-cased, stripped label misses `COUNTRY_MAP` |
| Labels.UserCountry | refresh_dashboard.py:658-659 | the user-path lookup of `(raw or 'Unknown').strip().lower()` gives a dashboard country, or nothing exactly when it misses |
| Labels.DisplayNameFallback | refresh_dashboard.py:1250-1253 | the scan finds a `PP_MAP` value whose lower-cased form is the key, and finds nothing exactly when no value has it |
| Labels.RevenuePlug | refresh_dashboard.py:1247-1255 | the revenue-path plug always equals the plain `PP_MAP` lookup, so the display-name fallback never changes the outcome; a found plug is in `PLUGS` |
| Labels.TablesMapIntoVocabulary | refresh_dashboard.py:52-116 | every `PP_MAP` value is in `PLUGS` and every `COUNTRY_MAP` value is in `DASHBOARD_COUNTRIES` |
| Labels.OtherIsNoDashboardCountry | refresh_dashboard.py:112-116 | "Other" is not a dashboard country, so a bucketed miss never merges with a listed country |
| Labels.PlugRenormalises | refresh_dashboard.py:52-73 | for every canonical plug `v`, `PP_MAP[v.lower()] == v` |
| Labels.PlugNameUnspaced | refresh_dashboard.py:73 | a canonical plug name survives the revenue path's strip unchanged |
| Labels.ValuesAreKeysWhenLowered | refresh_dashboard.py:52-64 | every `PP_MAP` value, lower-cased, is a key that maps back to that value |
| Labels.PlugNamesFoldApart | refresh_dashboard.py:73 | no two plug names lower-case alike, so the first-match scan at 1250-1253 cannot depend on order |
| Labels.CountryRenormalises | refresh_dashboard.py:76-116 | every dashboard country except "UK + IR" re-normalises to itself on the revenue path |
| Labels.DashboardCountriesUnspaced | refresh_dashboard.py:112-116 | every dashboard country name is non-empty with no surrounding whitespace |
| Labels.UkIrelandRenormalisesToOther | refresh_dashboard.py:83-86 | "UK + IR" is not a key of `COUNTRY_MAP` (lower-cased it is "uk + ir"), so re-normalising it gives "Other" |
| Calendar.DaysInMonth | refresh_dashboard.py:323-327 | a month has 28 to 31 days, and 29 exactly in a leap February |
| Calendar.SubtractionIsDaysInMonth | refresh_dashboard.py:323-327 | the source's "first of next month minus first of this month" equals the month's length, December included |
| Calendar.YearHasItsLength | refresh_dashboard.py:323-325 | the twelve months of a year add up to its length |
| Calendar.LastOfMonth | refresh_dashboard.py:275-280 | `next_month - 1 day` is the last day of the same month, that many days after `d` |
| Calendar.FirstOfNextMonth | refresh_dashboard.py:275-278 | both `replace` branches give day 1 of next month, the day after this month's last |
| Calendar.Next | refresh_dashboard.py:1220 | `+ timedelta(days=1)` is the next day number, in the same month or on a first |
| Calendar.AddDays | refresh_dashboard.py:1183 | `+ timedelta(days=n)` moves the day number by exactly `n` |
| Calendar.Fortnight | refresh_dashboard.py:1183 | `current + timedelta(days=14)` is 14 days later |
| DateOrder.DateLessIsChronological | refresh_dashboard.py:182 | sorting ISO date strings orders days chronologically |
| DateOrder.DateLessIsStrictTotalOrder | refresh_dashboard.py:1271 | ISO date order is a strict total order, so `sorted(set)` has one answer |
| DateOrder.MonthLessIsStrictTotalOrder | refresh_dashboard.py:181 | month-key order is a strict total order |
| Ordering.SortSet | refresh_dashboard.py:181-182 | `sorted(s)` lists every element of the set once, ascending |
| Ordering.SortedUnique | refresh_dashboard.py:1270-1271 | a set has exactly one sorted listing |
| Ordering.SortedDistinct | refresh_dashboard.py:1271 | a strictly sorted list has no duplicates |
| Ordering.StrLessIsStrictTotalOrder | refresh_dashboard.py:1263 | Python string order is a strict total order |
| Sums.SumByPermutation | refresh_dashboard.py:188 | the sum over the countries does not depend on the order they are visited in |
| Chunking.EarlierOf | refresh_dashboard.py:280 | `min(a, b)` on dates is one of the two and no later than either |
| Chunking.FirstMonthlyWindow | refresh_dashboard.py:273-289 | one iteration emits `[current, min(month end, today)]` inside one month, then moves to the first of next month |
| Chunking.MonthlyWindowsTile | refresh_dashboard.py:273-290 | the monthly windows start at the start date, each starts the day after the last ended, and the last ends today |
| Chunking.MonthlyWindowsShaped | refresh_dashboard.py:275-280 | every monthly window lies in one calendar month and ends at its month end or at today |
| Chunking.FirstTwoWeekWindow | refresh_dashboard.py:1182-1220 | one iteration emits `[current, min(current + 14, today)]` and moves to the day after it |
| Chunking.TwoWeekWindowsTile | refresh_dashboard.py:1181-1220 | the two-week windows tile `[start, today]` with no gap and no overlap |
| Chunking.TwoWeekWindowsShaped | refresh_dashboard.py:1183 | every two-week window spans at most 15 days inclusive, ending at `current + 14` or at today |
| Chunking.TilesAscend | refresh_dashboard.py:289 | a later window starts after an earlier one ends, so the windows are disjoint |
| Chunking.TilesCoverDay | refresh_dashboard.py:273-290 | every day of `[start, today]` lies in some window |
| Chunking.TilesCoverEachDayOnce | refresh_dashboard.py:1181-1220 | every day of `[start, today]` lies in exactly one window |
| Chunking.TilesStayInRange | refresh_dashboard.py:280 | no window reaches before the start or after today |
| Chunking.FetchAllFailsOnAnyFailure | refresh_dashboard.py:285-287 | the trial fetch fails as a whole (the exception propagates) exactly when one window's query fails |
| Chunking.FetchAllExtends | refresh_dashboard.py:285-287 | once a window has failed, the later windows cannot undo the failure |
| Chunking.FailedWindowContributesNothing | refresh_dashboard.py:1212-1220 | a failed two-week window adds exactly what a missing window would, and the loop still advances |
| Chunking.FetchMonthly | refresh_dashboard.py:272-290 | the monthly loop ends, and its rows are those of every monthly window, in order, or a failure |
| Chunking.FetchTwoWeekly | refresh_dashboard.py:1181-1220 | the two-week loop ends, and its rows are those of every window that answered, in order |
| TrialSeries.EntryOf | refresh_dashboard.py:297-306 | a trial row is kept exactly when its plug is known and it has a day; it keeps its counts, and NULL counts are 0 |
| TrialSeries.RecordCell | refresh_dashboard.py:308-311 | an assignment sets the cell for its (plug, day) and leaves every other cell alone |
| TrialSeries.RecordKeepsRepresents | refresh_dashboard.py:297-311 | after one more row, the grouping still holds the latest counts of every (plug, day) |
| TrialSeries.GroupTrialRows | refresh_dashboard.py:295-311 | the grouping holds, for each (plug, day), the counts of the last row for it; only plugs of `PLUGS` and real months appear |
| TrialSeries.LatestIsSomeIffRow | refresh_dashboard.py:303-311 | a (plug, day) has counts exactly when some kept row is for it |
| TrialSeries.LatestIsLastRow | refresh_dashboard.py:308-311 | last write wins: the counts are those of the last row for that (plug, day) |
| TrialSeries.GroupMonthsComeFromRows | refresh_dashboard.py:307-308 | a month of a plug is present exactly when some kept row falls in it |
| TrialSeries.GroupPlugsComeFromRows | refresh_dashboard.py:315-317 | a plug is present exactly when some row normalises to it |
| TrialSeries.AliasRowsOverwrite | refresh_dashboard.py:308-311 | a "cardio" row followed by a "cardio adaptability" row for the same day keeps only the second row's counts |
| TrialSeries.MaxDayIsTodayOrMonthLength | refresh_dashboard.py:329-334 | `max_day` is today's day in today's month and the month's length otherwise, so between 1 and the month's length |
| TrialSeries.DenseMonth | refresh_dashboard.py:336-351 | the day loop builds three parallel lists, each one entry per day `01 .. max_day` |
| TrialSeries.DenseDatesAreContiguous | refresh_dashboard.py:340-345 | the dates start on the first, advance one day at a time, ascend, reach today in the current month and the month end otherwise, and include every listed day |
| TrialSeries.DenseCellsAreRecordedCounts | refresh_dashboard.py:343-345 | each day shows its recorded counts, and a day with no row shows 0/0 |
| TrialSeries.PresentInOrder | refresh_dashboard.py:315-317 | keeps exactly the plugs of `PLUGS` that are present (membership only; the order is stated next) |
| TrialSeries.PresentInOrderKeepsOrder | refresh_dashboard.py:315-317 | two plugs listed in the output appear in the same order in `PLUGS` |
| TrialSeries.BuildPlugMonths | refresh_dashboard.py:319-351 | a plug's months appear once each, ascending, and each is densified from its cells |
| TrialSeries.BuildTrialData | refresh_dashboard.py:314-353 | the output lists the present plugs in `PLUGS` order, each with its densified months |
| TrialSeries.FetchTrialData | refresh_dashboard.py:250-361 | fails exactly when a monthly query fails; otherwise it is the output built from the grouping of all fetched rows |
| TrialSeries.PlugsDistinct | refresh_dashboard.py:73 | the plugs are pairwise distinct |
| CountryRevenue.RevEntryOf | refresh_dashboard.py:1232-1255 | a revenue row is kept exactly when it has a day and a known plug; its country is bucketed, its plug is in `PLUGS`, and NULL amounts are 0 |
| CountryRevenue.Parse | refresh_dashboard.py:1232-1255 | one entry, or a skip, per row; every kept entry is on a plug of `PLUGS` and in a dashboard country or "Other", whatever the labels; a row without a day is skipped |
| CountryRevenue.NormaliseRow | refresh_dashboard.py:1233-1255 | the per-row normalisation, including the fallback scan, gives `RevEntryOf` |
| CountryRevenue.AddRowCell | refresh_dashboard.py:1257-1259 | `+=` adds the row's cell to its own (country, day, plug) and changes no other cell |
| CountryRevenue.AddRowKeepsRepresents | refresh_dashboard.py:1232-1259 | after one more row, every cell is still the sum of the rows for it |
| CountryRevenue.GroupRevenueRows | refresh_dashboard.py:1230-1259 | every (country, day, plug) cell is the sum of the cells of all entries for it, and a day is present exactly when some entry is for it |
| CountryRevenue.SeenDayIffRow | refresh_dashboard.py:1266-1267 | a country lists a day exactly when some kept row of that country has that day |
| CountryRevenue.RowSumSplits | refresh_dashboard.py:1258-1259 | the sum over two batches of rows is the sum of their sums |
| CountryRevenue.TwoRowsAdd | refresh_dashboard.py:1258-1259 | two rows for the same (country, day, plug) add up rather than overwrite |
| CountryRevenue.CardioEntries | refresh_dashboard.py:1240-1255 | "cardio" and "Cardio Adaptability" rows with no country both become "Cardio" entries of "Other" |
| CountryRevenue.NoCountryIsOther | refresh_dashboard.py:1233 | a NULL country is bucketed as "Other" |
| CountryRevenue.AppendDay | refresh_dashboard.py:1275-1279 | one day appends each plug's cell to its revenue and subscription lists |
| CountryRevenue.BucketMonth | refresh_dashboard.py:1270-1285 | a month's dates are the country's days in it, sorted and distinct, with no gap-filling; each plug has two lists as long as the dates, holding that day's cells |
| CountryRevenue.BucketCountry | refresh_dashboard.py:1263-1287 | a country's months are its months with days, ascending, each bucketed |
| CountryRevenue.BuildCountryRevenue | refresh_dashboard.py:1262-1287 | the countries appear in string order, each with its buckets |
| CountryRevenue.FetchCountryRevenue | refresh_dashboard.py:1154-1300 | the output buckets the grouping of the rows of every window that answered; no rows gives `{}` |
| CountryRevenue.CountryCellIsRowSum | refresh_dashboard.py:1257-1279 | the value at date `i` for plug `p` is the sum of all that country's rows for (date, plug), and that date lies in the month |
| CountryRevenue.CountriesComeFromRows | refresh_dashboard.py:1263 | a country is listed exactly when some kept row was bucketed to it |
| ShardAggregator.AddMonthDays | refresh_dashboard.py:176-177 | adding a month's dates to `month_dates` adds exactly those days under that month |
| ShardAggregator.AddCountryDays | refresh_dashboard.py:175-177 | one country adds exactly the days it lists, month by month |
| ShardAggregator.CollectMonthDates | refresh_dashboard.py:173-177 | `month_dates` has exactly the months some country lists a day for, each with the union of the countries' days |
| ShardAggregator.CollectedDays | refresh_dashboard.py:173-177 | days gathered country by country are the union over all countries |
| ShardAggregator.IndexMap | refresh_dashboard.py:186 | `date_idx_map` maps each date to its position in `dates` |
| ShardAggregator.AddDay | refresh_dashboard.py:195-197 | `rev_by_pp[p][gi] += ...` adds at column `gi` for every plug and nowhere else |
| ShardAggregator.AddCountryDay | refresh_dashboard.py:192-197 | a country's day is added at the global position of the same date, and only there |
| ShardAggregator.AddCountry | refresh_dashboard.py:188-197 | one country adds, at every global date, its share for that date |
| ShardAggregator.SumCountries | refresh_dashboard.py:188-197 | every global cell, starting from zero, ends as the total over the input's countries |
| ShardAggregator.SumMonth | refresh_dashboard.py:182-204 | a month's dates are the sorted union of the days, and each plug's value is the total over countries |
| ShardAggregator.DeriveRevenue | refresh_dashboard.py:157-213 | the output months are the months with days, ascending, and each is summed over all countries |
| ShardAggregator.TotalIsSum | refresh_dashboard.py:188-197 | the country loop computes the sum over the countries of what each contributes |
| ShardAggregator.TotalPermutationInvariant | refresh_dashboard.py:188 | the result does not depend on the order the countries are visited in |
| ShardAggregator.MonthShareAbsent | refresh_dashboard.py:191-192 | a day a country's month does not list gets nothing from it |
| ShardAggregator.MonthShareAtIndex | refresh_dashboard.py:192-197 | a country listing each day once contributes its `i`-th value to its `i`-th day |
| ShardAggregator.ContributionListed | refresh_dashboard.py:189-197 | a country adds, on a day its month lists, the value it lists for that day |
| ShardAggregator.ContributionUnlisted | refresh_dashboard.py:189-191 | a country without the month, or without the day, adds nothing |
| ShardAggregator.OutputMonthsAreUnion | refresh_dashboard.py:173-181 | the output months are the union of all countries' months |
| ShardAggregator.CountrySumsArePlugDaySum | refresh_dashboard.py:188-197 | summing per-country row sums over countries that cover every row gives the total over all rows |
| ShardAggregator.ResultDayInMonth | refresh_dashboard.py:181-182 | every day of an output month lies in that month |
| ShardAggregator.ContributionIsRowSum | refresh_dashboard.py:1257-1279 | what a country contributes on a day is the sum of its rows for that day |
| ShardAggregator.OutputCoversEntries | refresh_dashboard.py:1263 | the countries of the bucketed output, "Other" included, cover every kept row |
| ShardAggregator.ResultIsRowSum | refresh_dashboard.py:181-207 | end to end, a global value for (day, plug) is the sum of the cells of all kept rows of every country for that day and plug |
| ShardAggregator.TotalIsRowSum | refresh_dashboard.py:188-198 | the total over the output's countries is the total over all rows |
| ShardAggregator.TwoCountriesDays | refresh_dashboard.py:173-177 | USA {09-01, 09-02} and India {09-02, 09-03} give the days {09-01, 09-02, 09-03} |
| ShardAggregator.TwoCountriesTotals | refresh_dashboard.py:188-197 | USA [10, 20] and India [5, 5] sum to 10, 25 and 5 on those days |
| ShardAggregator.TwoCountriesMerge | refresh_dashboard.py:181-207 | the two countries merge into dates [09-01, 09-02, 09-03] with AFib revenue [10, 25, 5] |
| Purchases.BuildPurchaseData | refresh_dashboard.py:365-378 | the month keys and their order are kept, each month keeps its dates, and its purchases are the subscription lists |
| Purchases.PurchasesAreRowCounts | refresh_dashboard.py:372-376 | end to end, a purchase count is the total subscription count of every kept revenue row, of every country, for that day and plug |
| Purchases.PurchasesHaveColumns | refresh_dashboard.py:372-376 | purchase days ascend, and there is one list per plug, each one value per day |
| ActiveUsers.OnTrial | refresh_dashboard.py:500 | `max(0, trials - converted)` is non-negative, at least `trials - converted`, and equal to one of the two |
| ActiveUsers.PlugsDistinct | refresh_dashboard.py:73 | the plugs are distinct and neither `_total` nor "Other" is one of them |
| ActiveUsers.TrialWindowPlug | refresh_dashboard.py:461-473 | `PP_MAP.get(pp_raw)` finds the plug of every trial window, so `if not pp: continue` never skips one |
| ActiveUsers.WindowOf | refresh_dashboard.py:461-467 | each plug names the trial window that is for it |
| ActiveUsers.WindowsMatchPlugs | refresh_dashboard.py:461-467 | the windows are for distinct plugs of `PLUGS`, one window per plug |
| ActiveUsers.LastPaidExists | refresh_dashboard.py:449-452 | a plug has a paid count exactly when some row is for it |
| ActiveUsers.LastPaidIsLastRow | refresh_dashboard.py:449-452 | a later paid row for the same plug overwrites an earlier one |
| ActiveUsers.ParsePaid | refresh_dashboard.py:449-452 | the paid map has exactly the plugs some row names, each with its last row's count |
| ActiveUsers.FirstOnTrial | refresh_dashboard.py:495-501 | a window yields users on trial exactly when its query answered with rows, and never a negative count |
| ActiveUsers.CollectOnTrial | refresh_dashboard.py:469-503 | each plug's users on trial come from its window's first row, or are absent when the query raised or came back empty |
| ActiveUsers.BuildUserData | refresh_dashboard.py:552-578 | one cell per plug in `PLUGS` order with `users = paid + on_trial` (absent counts 0), then `_total` with 0 users |
| ActiveUsers.FetchUserData | refresh_dashboard.py:384-582 | end to end, each plug's cell is its last paid count plus its window's users on trial |
| ActiveUsers.UserBucketIsDashboard | refresh_dashboard.py:658-666 | a user-path bucket is a dashboard country, or "Other" exactly when the lookup misses |
| ActiveUsers.Add2 | refresh_dashboard.py:662-666 | `m[c][p] += v` adds `v` to that one cell and adds `c` to the countries |
| ActiveUsers.GroupCountryPaid | refresh_dashboard.py:657-666 | each (country, plug) count is the sum of the counts of all paid rows bucketed there whose plug is in `PLUGS`; a country appears exactly when such a row went under it |
| ActiveUsers.PaidStep | refresh_dashboard.py:662-666 | one more paid row keeps the counts equal to the sums so far |
| ActiveUsers.PaidSeenIffEntry | refresh_dashboard.py:662-666 | a country appears in the paid counts exactly when some counted entry went under it |
| ActiveUsers.PaidSeenIffRow | refresh_dashboard.py:657-666 | stated on the query rows: the row has a plug in `PLUGS` and a country that buckets there |
| ActiveUsers.PaidUnseenIsZero | refresh_dashboard.py:777 | a country no counted row went under has 0 paid users |
| ActiveUsers.AddWindowTrials | refresh_dashboard.py:708-716 | a window's rows add, under its plug only, each country's users on trial |
| ActiveUsers.TrialStep | refresh_dashboard.py:713-716 | one more trial row keeps the counts equal to the base plus the sums so far |
| ActiveUsers.TrialSeenIffEntry | refresh_dashboard.py:713-716 | a country appears under a window exactly when one of its entries went there |
| ActiveUsers.TrialSeenIffRow | refresh_dashboard.py:708-716 | a country appears under a window exactly when one of the window's rows buckets to it |
| ActiveUsers.TrialUnseenIsZero | refresh_dashboard.py:778 | a country with no row in a window has nobody on trial there |
| ActiveUsers.GroupCountryTrials | refresh_dashboard.py:679-719 | each (country, plug) on-trial count is the sum over that plug's window; other plugs stay 0; a country appears exactly when it was seen in some window; a failed window adds nothing |
| ActiveUsers.CountryCells | refresh_dashboard.py:775-789 | one cell per plug in `PLUGS` order, `users = paid + on_trial` |
| ActiveUsers.UsersAdd | refresh_dashboard.py:772-776 | a country other than "Other" goes after every earlier country, keeping the output sorted |
| ActiveUsers.UsersSkip | refresh_dashboard.py:773-774 | "Other" is skipped and leaves the output as it was |
| ActiveUsers.BuildCountryUsers | refresh_dashboard.py:770-789 | the countries of either map except "Other", in string order, each with its plug cells |
| ActiveUsers.TrialSeenInIsDashboard | refresh_dashboard.py:709-716 | any country other than "Other" seen in a trial window is a dashboard country |
| ActiveUsers.FetchCountryUserData | refresh_dashboard.py:585-796 | end to end: the listed countries are the dashboard countries with a counted paid row or a trial row, in string order; each has a cell for every plug holding its summed paid users and summed users on trial |
| PlanMix.RowPlugIsTrialPlug | refresh_dashboard.py:1118-1120 | falling back to the raw label keeps exactly the rows the plain lowered lookup keeps, under the same plug |
| PlanMix.LastMixIsLastRow | refresh_dashboard.py:1124-1127 | last write wins: the cell of a (month, plug, plan type) is the last kept row's |
| PlanMix.LastMixNone | refresh_dashboard.py:1119-1120 | a triple with no kept row has no cell |
| PlanMix.MixStep | refresh_dashboard.py:1116-1128 | one more row keeps the result equal to the reference, with no empty level and only plugs of `PLUGS` |
| PlanMix.FetchPlanMix | refresh_dashboard.py:1100-1148 | every cell is the last kept row's for its triple; no month or plug level is empty; plugs are in `PLUGS`; a failed or empty query gives `{}` |
| PlanMix.MonthListed | refresh_dashboard.py:1121-1122 | a month is listed exactly when some row of it was kept |
| PlanMix.LastOf | refresh_dashboard.py:1124-1127 | a triple with a kept row has a last kept row |
| UserOverlap.Keyed | refresh_dashboard.py:917-920 | the `per_pp` and `overlap` dicts are well formed whatever the rows |
| UserOverlap.Combos | refresh_dashboard.py:921-922 | no more combos than rows |
| UserOverlap.ParseOverlap | refresh_dashboard.py:906-922 | the parse loop computes the reference: last `total`, keyed `pp_unique` and `overlap` dicts, and the `combo` rows in order |
| UserOverlap.FetchUserOverlap | refresh_dashboard.py:893-922 | a failed or empty query gives the hard-coded fallback, and any rows give their parse |
| UserOverlap.KeyedIsLastRow | refresh_dashboard.py:917-920 | last write wins: the value under a key is the last row of that type for it |
| UserOverlap.KeyedKeys | refresh_dashboard.py:917-920 | a key is present exactly when some row of that type names it |
| UserOverlap.LastTotalIsLastRow | refresh_dashboard.py:915-916 | the unique total is the last `total` row's value |
| UserOverlap.CombosAreComboRows | refresh_dashboard.py:921-922 | the combos are exactly the `combo` rows' |
| UserOverlap.FallbackIsConsistent | refresh_dashboard.py:934-949 | the fallback's histogram sums to its unique total, its plug-weighted histogram sums to the per-plug total, and its combos descend |
| UserOverlap.HistogramCountsUsers | refresh_dashboard.py:938-939 | the overlap histogram adds up to 42162 users |
| UserOverlap.HistogramWeighs | refresh_dashboard.py:939 | counting each user once per plug held gives 48635 |
| UserOverlap.PlugCountsSum | refresh_dashboard.py:938 | the per-plug counts add up to 48635 |
| CumulativeUsers.ParseCumulative | refresh_dashboard.py:1042-1045 | the parse loop is the row-by-row `cumulative[month][key] = val` fold |
| CumulativeUsers.FetchCumulative | refresh_dashboard.py:1029-1058 | a failed or empty query gives `{}`, which is what parsing no rows gives; any rows give their parse |
| CumulativeUsers.StoreAt | refresh_dashboard.py:1045 | one row sets its (month, key) count and leaves every other pair as it was |
| CumulativeUsers.StoreWellFormed | refresh_dashboard.py:1045 | one row keeps both dict levels well formed and adds its month |
| CumulativeUsers.CumWellFormed | refresh_dashboard.py:1042-1045 | both dict levels are well formed, whatever the rows |
| CumulativeUsers.CumMonths | refresh_dashboard.py:1043-1045 | a month is listed exactly when some row names it |
| CumulativeUsers.CumKeys | refresh_dashboard.py:1043-1045 | a (month, key) pair is present exactly when some row names both, whatever its `qtype` |
| CumulativeUsers.CumIsLastRow | refresh_dashboard.py:1043-1045 | last write wins: a count is the last row's value for that (month, key) |

## Left out

- HTTP transport, retries and back-off (`mb_post`, `mb_get`) are not modelled. A query is a parameter function whose `None` result stands for any raised exception.
- The SQL text is not modelled. Active-window filtering, de-duplication, the overlap histogram, top combos and cumulative running counts are computed by the database, so the model takes the rows as given.
- Gender percentages are not modelled: float division and Python `round`.
- Float revenue and `round(..., 2)` are not modelled. Amounts are integers and rounding is the identity, so the final rounding loop of `derive_revenue_from_country_data` disappears.
- The `.env` configuration, template injection, file I/O, `sys.exit`, `main` and every `print` (including the printed summaries) are not modelled.
- The clock is not modelled: `datetime.now()` is one `today` date.
  - The loops run while `current < now`; with `now` after midnight this is `current <= today`, which is the form modelled.
  - Several `now()` calls in one run are modelled as one date.
  - The year-9999 overflow of `replace(year=year + 1)` is not modelled.
- The date strings `row[...][:10]` are modelled as parsed calendar dates. A malformed date string, which would raise, is not modelled. A NULL or empty date skips the row, as in the source.
- Labels.Lower: lower-cases ASCII letters only, because Dafny has no Unicode case tables. Non-ASCII labels are taken to fold to themselves.
- A revenue or purchase dict keyed by plug (`{p: [...] for p in PLUGS}`) is a list of lists indexed by position in `PLUGS`, which is also its key order.
- CountryRevenue.GroupRevenueRows: `raw` is keyed by date alone. The source keys by `(month_key, date_str)`, where `month_key` is always the date's own month, so the two groupings match.
- ActiveUsers.GroupCountryPaid and ActiveUsers.AddWindowTrials take the bucketing as a function parameter; FetchCountryUserData passes the real bucketing `UserBucket`. The properties hold for any bucketing.
- ActiveUsers.GroupCountryPaid models the `if country and pp in PLUGS / elif pp in PLUGS` pair by the bucket: a lookup miss, and only a miss, gives "Other". A table value is never empty, so the truthiness test is the same as "found".
- A query that raises midway through its row loop keeps the rows parsed so far in the source (paid counts of `fetch_user_data` and `fetch_country_user_data`). The model covers only a whole query answering or failing, because the row conversions it models cannot raise.
- PlanMix.FetchPlanMix: the months and plan types are keys of type `string`; a NULL month or plan type is not modelled. The order of the keys inside the result dicts is not modelled, only which keys are present.
- UserOverlap.FetchUserOverlap and CumulativeUsers.FetchCumulative accept a NULL key (`key1`, or `month`) next to non-NULL ones and return the parse. In the source, the printed summary then raises `TypeError`: `sorted(...)` cannot compare `None` with a string (lines 928 and 1048, outside any `try`), and the whole run stops. The queries never return such rows, and this exception is not modelled.
- Aliasing is not modelled: `build_purchase_data` shares the `dates` list with the revenue data. The model copies values, which is what the serialised output shows.
- `fetch_trial_data_for_period`, `fetch_country_revenue` and the other fetch functions' query dictionaries are not modelled beyond their windows and labels.

# Bike-sharing dashboard: derivation, filter and grouping rules

This project models the record-level rules of the bike-rental analysis
dashboard (`dashboard/dashboard.py`). The dashboard loads a daily table and
an hourly table of bike rentals. It removes duplicate rows and derives a
Celsius temperature and season/weather labels from numeric codes. It then
filters both tables by the seasons and weather conditions chosen in the
sidebar. Its pages bin, classify and group the filtered rows.

The model is pure. Rows are datatypes. Tables are sequences of rows. Every
column the script adds to a DataFrame is a function that produces new values.

- `Records` (`records.dfy`): the raw and derived rows and the `season_labels`
  and `weather_labels` dictionaries. It also holds the Celsius conversion and
  `drop_duplicates`, which keeps the first occurrence of each row.
- `Binning` (`binning.dfy`): pandas `cut` with right-closed bins. The model
  follows pandas' own steps: `searchsorted` on the left, then `include_lowest`
  moves a value equal to the first edge into bin 0. `Cut` is proved equal to
  the interval definition `(e[k], e[k+1]]`. The module also has the edge check
  that refuses edges that decrease or repeat, and the four binnings the pages
  use: temperature category, temperature level, hour period and demand tier.
- `Rules` (`rules.dfy`): `day_type`, `weather_quality` and the
  `condition_cluster` key. The key is proved to split back into its parts.
- `Filters` (`filters.dfy`): the `isin` masks that build `day_filtered` and
  `hour_filtered`.
- `Aggregates` (`aggregates.dfy`): column sums, the season and weather
  groupings sorted by value, and the day counts per demand tier.
- `Findings` (`findings.dfy`): a worked case of the season grouping (see
  Findings).
- `Wrappers` (`wrappers.dfy`): `Option` (pandas' NaN label) and `Result`.

Some consequences of the code that the model makes explicit:

- `temp_level` uses right-closed bins without `include_lowest`. So 15.0 °C is
  Cold, 25.0 °C is Moderate, and 0.0 °C gets no level.
- `weather_quality` is Bad for every code other than 1 and 2, including codes
  outside 1 to 4.
- Selecting every sidebar option does not keep every daily row. The weather
  options leave out "Heavy Rain/Snow", so a day with weather code 4 is always
  dropped.
- When empty categories are listed (`observed=False`), grouping by season
  gives one group per season code present in the loaded table. This holds
  even for seasons that are absent from the filtered rows; those groups have
  a total of 0. With only observed categories, it gives one group per season
  that occurs among the filtered rows.

## Model

| member | source | states |
|---|---|---|
| `Records.MapCode` | dashboard/dashboard.py:126-128 | `Series.map(dict)`: a label is present exactly when the code is a key, and it is that key's entry |
| `Records.SeasonName` | dashboard/dashboard.py:118-128 | exactly codes 1 to 4 get a season label; the label of code c is the c-th season option of the sidebar |
| `Records.WeatherName` | dashboard/dashboard.py:119-127 | exactly codes 1 to 4 get a weather label; codes 1 to 3 give the three sidebar options, code 4 gives "Heavy Rain/Snow", which is not an option |
| `Records.SeasonNameInjective` | dashboard/dashboard.py:118 | two codes with the same season label are the same code |
| `Records.WeatherNameInjective` | dashboard/dashboard.py:119-124 | two codes with the same weather label are the same code |
| `Records.Celsius` | dashboard/dashboard.py:114-115 | dividing the result by 41 gives the normalised temperature back; [0,1] maps into [0,41] |
| `Records.CelsiusMonotone` | dashboard/dashboard.py:114-115 | a higher normalised temperature never gives a lower Celsius temperature |
| `Records.DeriveDay` | dashboard/dashboard.py:114-127 | a daily row keeps its raw columns and gets its Celsius column; it has a season (weather) label exactly when its code is 1 to 4, and that label is the dictionary entry of its code |
| `Records.DeriveHour` | dashboard/dashboard.py:115-128 | an hourly row keeps its raw columns and gets its Celsius column; it has a season label exactly when its code is 1 to 4, and that label is the season of its code |
| `Records.Dedup` | dashboard/dashboard.py:102-103 | the result has no repeated row and holds exactly the rows of the input |
| `Records.DedupKeepsFirstOccurrenceOrder` | dashboard/dashboard.py:102-103 | the rows kept follow the order of their first occurrences in the input |
| `Records.DedupOfDistinct` | dashboard/dashboard.py:102-103 | a table without duplicate rows is returned unchanged |
| `Records.DedupIdempotent` | dashboard/dashboard.py:102-103 | removing duplicates twice equals removing them once |
| `Records.LoadDaily` | dashboard/dashboard.py:102-127 | every loaded daily row is the derivation of one raw row; every raw row has its derivation loaded; no raw row is loaded twice; the loaded rows follow the first occurrences of their raw rows |
| `Records.LoadHourly` | dashboard/dashboard.py:103-128 | the same for the hourly table, with its own derivation, also in first-occurrence order |
| `Binning.StepsUp` | dashboard/dashboard.py:430-433 | the pairwise test of adjacent edges agrees with strict (non-strict) increase over all pairs |
| `Binning.CheckEdges` | dashboard/dashboard.py:430-433 | `cut` accepts the edges exactly when they strictly increase, and reports "not monotonic" exactly when some edge is above a later one |
| `Binning.SearchLeft` | dashboard/dashboard.py:299-303 | `searchsorted(side='left')`: every edge before the result is below x; on increasing edges none after it is |
| `Binning.Cut` | dashboard/dashboard.py:299-303 | the bin returned holds x under the right-closed rule (and `include_lowest`); if any bin holds x, `Cut` returns that bin, so no value is in two bins |
| `Binning.CutCoversRange` | dashboard/dashboard.py:299-303 | a value gets a bin exactly when it is above the first edge (or equal to it with `include_lowest`) and not above the last |
| `Binning.TempCategoryOf` | dashboard/dashboard.py:299-303 | Dingin, Sejuk, Hangat and Panas are exactly (0,10], (10,20], (20,30] and (30,41]; no category at or below 0 or above 41 |
| `Binning.TempLevelOf` | dashboard/dashboard.py:678-680 | Cold, Moderate and Hot are exactly (0,15], (15,25] and (25,41]; no level at or below 0 or above 41 |
| `Binning.TempLevelBoundaries` | dashboard/dashboard.py:678-680 | 14.9 and 15.0 are Cold, 25.0 is Moderate, 41.0 is Hot, 0.0 and 41.5 have no level |
| `Binning.HourPeriodOf` | dashboard/dashboard.py:315-319 | hours 0-6 are Malam, 7-12 Pagi, 13-18 Siang, 19-24 Sore; any other hour has no period |
| `Binning.HourPeriodTotal` | dashboard/dashboard.py:315-319 | every hour 0 to 23 falls in a period |
| `Binning.DemandLevelOf` | dashboard/dashboard.py:430-433 | for accepted edges 0 < q1 < q2 < top: Low is exactly cnt <= q1, Medium q1 < cnt <= q2, High q2 < cnt <= top, no tier above top |
| `Binning.MaxCnt` | dashboard/dashboard.py:179 | the largest count of a non-empty table: no row exceeds it and some row reaches it |
| `Binning.DemandLevels` | dashboard/dashboard.py:427-433 | an empty table is refused; otherwise the tiers are computed exactly when 0 < q1 < q2 < the table's largest count, and then every row gets the tier of its own count |
| `Rules.DayType` | dashboard/dashboard.py:496-497 | Weekend exactly for weekday indices 0 and 6, Weekday for every other index |
| `Rules.WeekendDays` | dashboard/dashboard.py:496-497 | of the indices 0 to 6 exactly {0, 6} are weekend days |
| `Rules.WeatherQuality` | dashboard/dashboard.py:682-684 | Good exactly for code 1, Fair exactly for code 2, Bad for every other code |
| `Rules.WeatherQualityOfLabel` | dashboard/dashboard.py:682-684 | Good is the "Clear/Partly Cloudy" label, Fair the "Mist/Cloudy" label, and Bad covers the two other labels and the codes without a label |
| `Rules.LevelText` | dashboard/dashboard.py:686 | the `astype(str)` text of a level, "nan" for a missing level, names that level back |
| `Rules.LevelFromTextSound` | dashboard/dashboard.py:686 | a text that names a level is that level's `astype(str)` text |
| `Rules.ClusterKey` | dashboard/dashboard.py:686 | every cluster key splits back into the temperature level and weather quality it was built from |
| `Rules.RowClusterKey` | dashboard/dashboard.py:678-686 | a row's cluster key splits into the level of its Celsius temperature and the quality of its weather code |
| `Rules.ParseClusterKeySound` | dashboard/dashboard.py:686 | a text the splitter accepts is the cluster key of the parts it returns |
| `Rules.ClusterKeyInjective` | dashboard/dashboard.py:686-689 | distinct (level, quality) pairs give distinct keys, so grouping by the key groups by the pair |
| `Filters.Selected` | dashboard/dashboard.py:149-153 | `isin`: a missing (NaN) label never passes; a present label passes exactly when it is selected |
| `Filters.DayPasses` | dashboard/dashboard.py:149-152 | a derived day passes exactly when its season code is 1 to 4 with a selected season and its weather code is 1 to 4 with a selected label |
| `Filters.HourPasses` | dashboard/dashboard.py:153 | a derived hour passes exactly when its season code is 1 to 4 with a selected season |
| `Filters.FilterDaily` | dashboard/dashboard.py:149-152 | the result is no longer than the table and every row of it passes both the season and the weather test |
| `Filters.FilterHourly` | dashboard/dashboard.py:153 | the result is no longer than the table and every row of it has a selected season |
| `Filters.FilterDailyMultiplicity` | dashboard/dashboard.py:149-152 | a passing row is kept as often as it occurs; any other row is dropped |
| `Filters.FilterHourlyMultiplicity` | dashboard/dashboard.py:153 | an hourly row with a selected season is kept as often as it occurs; any other row is dropped |
| `Filters.FilterDailyMembership` | dashboard/dashboard.py:149-152 | a daily row survives exactly when it is in the table and its season label and its weather label are both present and selected |
| `Filters.FilterHourlyMembership` | dashboard/dashboard.py:153 | an hourly row survives exactly when it is in the table and its season label is present and selected; weather plays no part |
| `Filters.FilterDailyConcat` | dashboard/dashboard.py:149-152 | filtering a concatenation concatenates the filtered parts, so survivors keep their relative order |
| `Filters.FilterHourlyConcat` | dashboard/dashboard.py:153 | the same order preservation for the hourly filter |
| `Filters.FilterDailyKeepsAll` | dashboard/dashboard.py:149-152 | the daily filter returns its input exactly when every row passes |
| `Filters.FilterHourlyKeepsAll` | dashboard/dashboard.py:153 | the hourly filter returns its input exactly when every row passes |
| `Filters.FilterDailyIdempotent` | dashboard/dashboard.py:149-152 | filtering twice with the same selection equals filtering once |
| `Filters.FilterHourlyIdempotent` | dashboard/dashboard.py:153 | filtering hourly rows twice equals filtering once |
| `Filters.FilterDailyEmptySelection` | dashboard/dashboard.py:149-152 | an empty season or weather selection yields no rows |
| `Filters.FilterHourlyEmptySelection` | dashboard/dashboard.py:153 | an empty season selection yields no hourly rows |
| `Filters.FilterDailyOnlyOfferedCodes` | dashboard/dashboard.py:142-152 | with weather choices taken from the sidebar options, every surviving day has season code 1-4 and weather code 1-3; unlabelled and code-4 days never survive |
| `Filters.DayPassesAllOptions` | dashboard/dashboard.py:136-152 | under the full sidebar selection a derived day passes exactly when its season code is 1-4 and its weather code 1-3 |
| `Filters.OfferedRowsPass` | dashboard/dashboard.py:136-152 | under the full sidebar selection every day of a table with only offered codes passes |
| `Filters.FilterDailyKeepsOffered` | dashboard/dashboard.py:136-152 | with every option selected, a daily table with only offered codes comes back whole |
| `Filters.FilterDailyDropsUnoffered` | dashboard/dashboard.py:142-152 | with every option selected, a day with an unmapped season or weather code 4 is still dropped |
| `Filters.FilterHourlyAllOptions` | dashboard/dashboard.py:136-153 | with every season selected, an hourly table comes back whole exactly when all its season codes are 1-4 |
| `Aggregates.Sum` | dashboard/dashboard.py:165 | a column sum bounds each of its values and is 0 exactly when every value is 0 |
| `Aggregates.CasualPlusRegistered` | dashboard/dashboard.py:587-589 | on rows whose total is casual plus registered, the casual and registered sums add up to the total sum |
| `Aggregates.FilterDailySumAtMost` | dashboard/dashboard.py:165 | the filtered total count never exceeds the unfiltered total |
| `Aggregates.TotalWhere` | dashboard/dashboard.py:231 | the count sum of a group is 0 when the group has no rows |
| `Aggregates.TotalWhereAtMostSum` | dashboard/dashboard.py:231 | a group's count sum never exceeds the table's total count |
| `Aggregates.SizeWhere` | dashboard/dashboard.py:231 | a group's row count is at most the table's length |
| `Aggregates.SizeWhereExtremes` | dashboard/dashboard.py:231 | the row count is 0 exactly when no row carries the categories, and the table's length exactly when every row does |
| `Aggregates.GroupBy` | dashboard/dashboard.py:231 | each group is a category with its count sum and row count; one group per category when empty ones are listed; with `observed`, only non-empty groups |
| `Aggregates.GroupByInCategoryOrder` | dashboard/dashboard.py:231 | listing every category, the i-th group is the i-th category |
| `Aggregates.GroupByComplete` | dashboard/dashboard.py:231 | every category has a group, except an empty one when only observed categories are listed |
| `Aggregates.GroupByKeysDistinct` | dashboard/dashboard.py:231 | over distinct categories no two groups share a key |
| `Aggregates.KeyCounted` | dashboard/dashboard.py:231 | a category that labels some row has a non-zero row count |
| `Aggregates.GroupByCovers` | dashboard/dashboard.py:231 | over distinct categories, the group totals and sizes add up to the rows whose label is one of them |
| `Aggregates.GroupTotalsAddUp` | dashboard/dashboard.py:231 | when every row carries one of the categories, group totals add up to the table's total and group sizes to its row count |
| `Aggregates.Insert` | dashboard/dashboard.py:231 | inserting into a descending list keeps it descending and adds exactly that group |
| `Aggregates.SortDesc` | dashboard/dashboard.py:231 | `sort_values(ascending=False)`: descending by the sort key, a permutation of the groups, same totals and sizes |
| `Aggregates.SortDescSameGroups` | dashboard/dashboard.py:231 | sorting keeps exactly the same groups |
| `Aggregates.SortDescKeysDistinct` | dashboard/dashboard.py:231 | sorting groups with distinct keys keeps the keys distinct |
| `Aggregates.SortedGroupingFacts` | dashboard/dashboard.py:231 | after sorting, each group is a category with its total and size; every category with rows (every category, when empty ones are listed) has a group; over distinct categories no key repeats |
| `Aggregates.SeasonCategories` | dashboard/dashboard.py:110-126 | the categories of `season_name` are distinct and are exactly the labels of the season codes present in the loaded table |
| `Aggregates.RentalsBySeason` | dashboard/dashboard.py:231 | sorted by total, largest first; each group is a category holding its season's total; every category with rows (every category unless `observed`) has a group, and over distinct categories no season is listed twice |
| `Aggregates.FilteredSeasonsAreCategories` | dashboard/dashboard.py:110-152 | every filtered day carries a season category of the loaded table |
| `Aggregates.RentalsBySeasonAddsUp` | dashboard/dashboard.py:231 | the season totals add up to the filtered total count shown on the overview page (line 165); unless `observed` there is one group per category |
| `Aggregates.RentalsBySeasonObserved` | dashboard/dashboard.py:231 | with `observed`, each season group is a selected season that occurs among the filtered days |
| `Aggregates.KeyOccurs` | dashboard/dashboard.py:231 | a category with a non-zero row count is the label of some row |
| `Aggregates.WeatherKeysDistinct` | dashboard/dashboard.py:365 | the four weather labels that groupby lists are distinct |
| `Aggregates.RentalsByWeather` | dashboard/dashboard.py:365 | only weather labels that occur, each once, with its count sum and row count; every label with rows has its group; sorted by mean count, largest first |
| `Aggregates.RentalsByWeatherListsEveryLabel` | dashboard/dashboard.py:365 | the weather label of every row has its group |
| `Aggregates.RentalsByWeatherAddsUp` | dashboard/dashboard.py:365 | the weather groups of a filtered table account for every filtered day and its whole count |
| `Aggregates.CountLevel` | dashboard/dashboard.py:438-447 | a tier's day count is at most the number of days and non-zero exactly when the tier occurs |
| `Aggregates.DemandCountsAddUp` | dashboard/dashboard.py:438-447 | the Low, Medium and High day counts add up to the number of days |
| `Aggregates.DemandTiersPartition` | dashboard/dashboard.py:427-447 | when `cut` accepts the demand edges, the three tier counts add up to the number of filtered days |
| `Findings.SpringSelection` | dashboard/dashboard.py:149-152 | selecting only "Spring" keeps the spring day of the two-day table alone |
| `Findings.TwoDayCategories` | dashboard/dashboard.py:110-126 | the two-day table has the season categories "Spring" and "Winter" |
| `Findings.UnselectedSeasonIsListed` | dashboard/dashboard.py:231 | with only "Spring" selected, the grouping that lists every category still reports "Winter" with a total of 0 |
| `Findings.ObservedSeasonsOnly` | dashboard/dashboard.py:231 | with observed categories only, the same selection reports "Spring" alone |

## Left out

- Page layout, CSS, widgets, tabs, metrics, text and plots (lines 12-70 and most of 155-940) are display only.
- The loader's search over candidate paths, `read_csv`, `@st.cache_data` and `st.stop()` (lines 73-99) are file I/O and framework caching. The tables enter the model as sequences of rows.
- Date parsing with `errors='coerce'` (lines 108-109) and month extraction (line 617) are left out. They rely on pandas' date parser. `dteday` is kept as text.
- Columns the rules never read (`yr`, `mnth`, `holiday`, `workingday`, `atemp`, `hum`, `windspeed`) are not in the row types.
- Dedup compares the modelled columns only. `instant` is unique per row in these tables, so the kept rows are the same.
- Floating-point statistics are left out: means per category, correlations, `polyfit`, standard deviations and percentage shares (lines 173, 211-212, 277-279, 289, 304, 335-339, 470, 502, 527, 547, 563, 594-597, 618, 638, 650, 662-663). Temperatures and means are Dafny reals, with no rounding.
- DemandLevels: q1 and q2 are parameters. The interpolated `quantile(0.33/0.67)` (lines 427-428) is a pandas float routine. The model shows the tiers for any thresholds. It does not show that the thresholds move when the filter changes.
- SortDesc: only "descending and a permutation" is claimed. pandas' default sort is not stable, so tie order is left open. The model's insertion sort keeps ties in category order.
- RentalsByWeather: sorting by mean uses exact real division, not pandas floats.
- SeasonCategories: it assumes every season code maps to a label. With an unmapped code, pandas returns a plain object column. Its groupby lists only the observed labels, sorted.
- The cluster table (lines 689-699: counts, means, `nlargest`) is left out. Only the cluster key is modelled.
- The Conclusions page (lines 761-928) is left out.
- `cut` lets two equal edges through when there are exactly two edges. This is not modelled, because every use here has at least four edges.
- Missing (NaN) counts or temperatures in the input are not modelled. Counts are `nat` and temperatures are `real`.

## Findings

| source | as written | input that shows it | evidently intended | confidence | as-written member | corrected member |
|---|---|---|---|---|---|---|
| dashboard/dashboard.py:231 | `season_name` is categorical: mapping the categorical `season` one-to-one keeps the dtype. Before pandas 3.0, `groupby` defaults to `observed=False` and lists every category. A season the user filtered out then shows up with total 0, and `idxmin` (line 259) names it as the lowest season. | a spring day and a winter day, with only "Spring" selected | list only the seasons that occur in the filtered rows (`observed=True`) | medium, not executed; depends on the pandas version | `Findings.UnselectedSeasonIsListed` | `Aggregates.RentalsBySeasonObserved` |

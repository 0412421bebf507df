# Beyblade meta: a verified model of the usage-frequency pipeline

The Beyblade meta app is a Streamlit page. It reads tournament results from a
Google Sheet, one row per player finish, and shows how often each combo
(blade, ratchet and bit) or each single part was used.

The app works in these steps:

- **Preparation.** The sheet is cleaned once. The expected columns are kept,
  text cells are stripped and the `_combo` label is derived.
- **Bucketing.** Each grouping column (`_combo`, Blade, Ratchet, Bit) gets a
  table of (label, month) buckets. Each bucket holds three counters: all
  finishes, first places, and placements 1 to 3.
- **Leaderboard.** Every run of the page picks a view, a finish tier and a
  period of 1, 3 or 6 months. It slices the buckets from the cutoff month
  on, sums the chosen counter per label and drops labels under the minimum
  usage. It then sorts by usage and label and computes a never-zero total
  and each row's share.
- **Drill-down.** The detail page selects the rows behind one label
  directly from the table. It uses the same window and tier tests and sorts
  newest first, then by event.
- **Navigation.** The page state lives in five query parameters (view, mode,
  finish, period, item). The page writes them back only when they differ.
  The leaderboard links to the detail page, and an optional images tab
  gives thumbnails.

The model is in Dafny, one module per part of the app:

| module | file | what it models |
|---|---|---|
| `Wrappers` | `wrappers.dfy` | `Option`, `Result`, dictionary lookup with a default |
| `Text` | `text.dfy` | `str.strip`, ASCII `str.lower`, `split(" ")`, `" ".join`, string order |
| `Sorting` | `sorting.dfy` | a stable sort on a total preorder: sorted, a permutation, keeps distinct keys |
| `Rows` | `rows.dfy` | the row, grouping keys, finish tiers, window test, drill-down mask, `combo_label` |
| `Preprocess` | `preprocess.dfy` | `preprocess_and_preaggregate` as a class `Dataset` whose methods loop over columns, rows and grouping keys |
| `Buckets` | `buckets.dfy` | the monthly group-by with its three counters |
| `Leaderboard` | `leaderboard.dfy` | cutoff month, slice, per-label sum, `min_usage`, sort, total, share |
| `Drilldown` | `drilldown.dfy` | the detail mask, its column checks and its sort |
| `Navigation` | `navigation.dfy` | `qp_get`, `qp_set` (a class `QueryParams`), slug tables, routing, detail links |
| `Images` | `images.dfy` | the images tab dictionaries and `image_for_label` |
| `SheetSource` | `sheet.dfy` | spreadsheet-ID extraction and the CSV export URL |
| `Page` | `page.dfy` | a prepared dataset feeding the leaderboard and the drill-down |

The central result is the pre-aggregation equivalence. The leaderboard is
built from bucket counters, and the drill-down filters rows directly. For
every label the two report the same count (`Leaderboard.BoardCountsRows`,
`Drilldown.ResolveMatchesBoard`).

The current time, the sheet contents and the widget choices are inputs to
the model:

- "Now" is a `YearMonth`.
- Dates are already parsed into a month index `year * 12 + month - 1` plus an
  order inside the month.
- A widget the user did not touch is `None`.

Four behaviours of the code are worth knowing:

- A missing Placement column is fatal for every finish tier, "All"
  included. The group-by aggregates `Placement` for all three counters
  (lines 101-104), so `Dataset.Prepare` returns `MissingPlacement`.
- A missing Date column is fatal too. The `.dt` accessor fails on the empty
  date column (line 80), so `Prepare` returns `MissingDate`.
- The leaderboard total is taken after the `min_usage` filter (lines
  228-230), not over every row in the window. The two agree only for a
  floor of 1 (`Leaderboard.BoardTotal`).
- Because of that, the detail page's share is not bounded by 100. A label
  below the floor is measured against a total that excludes it
  (`Drilldown.DetailShareCanExceedHundred` gives 200 for two rows under a
  floor of 3).

## Model

Definitions that only compute have no row of their own; the rows name the
lemma or the function whose contract states what they mean:

- `Buckets.Tally` and `Buckets.Bump` (the group-by of lines 97-106):
  `TallyFind`, `BucketCounters`, `TallyWellFormed`, `BumpFind`.
- `Buckets.Metric` (`metric_col`, line 215) and the tier test
  `Rows.TierPass`: `Inc`, whose counter for a tier rises exactly when the
  placement passes that tier.
- `Rows.InWindow` and `Rows.Matches` (the mask of lines 274-287): `Mask`,
  `MaskCounts`, `WindowRowsCounts`.
- `Leaderboard.GroupSum` and `Leaderboard.Board` (lines 222-228):
  `GroupSumSlice`, `BoardShape`, `BoardCountsRows`.
- `Drilldown.DetailShare` (line 298): `ResolveMatchesBoard`,
  `DetailShareCanExceedHundred`, `Page.FollowBoardRow`.
- `Text.Strip`: `StripShape`, `StripEnds`, `StripIdempotent`.
- `Preprocess.Normalise`, `StripField` and `StripFields`: `StripFieldCell`,
  `StripFieldsEffect`, `Dataset.Prepare`.
- `Images.Clean` and `Images.ImageTables` (lines 114-120): `CleanAll`,
  `LoadImageMaps`.
- `SheetSource.CsvUrl` (line 29): `CsvUrlRoundTrip`.
- `Navigation.DetailLink` (lines 234-235): `DetailLinkDecodes`.

| member | source | states |
|---|---|---|
| Text.TrimStart | beyblade_streamlit_app.py:66 | the result is a suffix that starts with a non-space; everything removed is whitespace |
| Text.TrimEnd | beyblade_streamlit_app.py:66 | the result is a prefix that ends with a non-space; everything removed is whitespace |
| Text.StripShape | beyblade_streamlit_app.py:66 | `strip` returns the contiguous middle of the string with no whitespace at either end, and only whitespace was cut |
| Text.StripEnds | beyblade_streamlit_app.py:66 | the stripped text is empty or starts and ends with a non-space |
| Text.StripIdempotent | beyblade_streamlit_app.py:66 | stripping twice is stripping once |
| Text.Lower | beyblade_streamlit_app.py:115 | same length, each character mapped by the ASCII lower-case map |
| Text.LowerFixed | beyblade_streamlit_app.py:159-162 | a string with no upper-case letter is unchanged by `lower` |
| Text.FirstSpace | beyblade_streamlit_app.py:128 | the position of the first space |
| Text.SplitSpace | beyblade_streamlit_app.py:128 | `split(" ")`: at least one part, no part contains a space, joining the parts with spaces gives back the input |
| Text.FirstToken | beyblade_streamlit_app.py:128 | `split(" ")[0]`: the text before the first space, or everything when there is none |
| Text.FirstTokenOf | beyblade_streamlit_app.py:128 | `split(" ")[0]` of a word, a space and anything is that word |
| Text.SplitJoin | beyblade_streamlit_app.py:88 | splitting a space-join of space-free parts gives back the parts |
| Text.LexLeTotal | beyblade_streamlit_app.py:228 | the string order used for ascending labels is total |
| Text.LexLeTransitive | beyblade_streamlit_app.py:228 | that order is transitive |
| Text.LexLeAntisymmetric | beyblade_streamlit_app.py:228 | that order is antisymmetric |
| Wrappers.GetOr | beyblade_streamlit_app.py:156 | `dict.get(key, default)`: the stored value, or the default when the key is absent |
| Wrappers.Get | beyblade_streamlit_app.py:124-129 | `dict.get(key)`: `Some` exactly when the key is present, with its value |
| Sorting.SortPermutes | beyblade_streamlit_app.py:228 | the sort returns a permutation of its input (same multiset) |
| Sorting.SortSorted | beyblade_streamlit_app.py:228 | for a total preorder the output is sorted |
| Sorting.SortDistinct | beyblade_streamlit_app.py:228 | distinct keys stay distinct after sorting |
| Rows.GroupKeysComplete | beyblade_streamlit_app.py:98 | the grouping loop visits every grouping key |
| Rows.Mask | beyblade_streamlit_app.py:274-292 | the drill-down selection: no longer than the table; its rows are table rows that match; every matching table row is selected |
| Rows.MaskCounts | beyblade_streamlit_app.py:274-292 | the selection keeps multiplicity: a matching row is selected as often as it occurs in the table, any other row never |
| Rows.MaskAll | beyblade_streamlit_app.py:274-292 | when every row matches, the selection is the whole table in table order |
| Rows.WindowRows | beyblade_streamlit_app.py:222 | the rows in the window that pass the tier, whatever their label |
| Rows.WindowRowsCounts | beyblade_streamlit_app.py:222 | a row in the window that passes the tier is counted as often as it occurs in the table, any other row never |
| Rows.NonEmpty | beyblade_streamlit_app.py:87 | `[p for p in parts if p]`: the non-empty parts and only those |
| Rows.NonEmptyThree | beyblade_streamlit_app.py:87 | over (Blade, Ratchet, Bit) the filter keeps each non-empty part once, in that order |
| Rows.ComboLabel | beyblade_streamlit_app.py:83-88 | the non-empty parts in Blade, Ratchet, Bit order joined by single spaces, "(Unknown Combo)" when all are empty; three non-empty parts give "blade ratchet bit" |
| Rows.ComboOf | beyblade_streamlit_app.py:89 | `_combo` is the sentinel when any of Blade, Ratchet, Bit is missing, and `combo_label` of the row otherwise |
| Rows.ComboSplit | beyblade_streamlit_app.py:83-88 | with space-free parts the label splits back into exactly the non-empty parts, in Blade, Ratchet, Bit order |
| Rows.ComboStartsWithBlade | beyblade_streamlit_app.py:83-88 | a non-empty blade opens the label, followed by a space or the end |
| Rows.ComboFirstToken | beyblade_streamlit_app.py:83-88 | a one-word blade is the label's first token |
| Preprocess.KeepIn | beyblade_streamlit_app.py:60-61 | the kept columns are exactly the expected columns present in the sheet, in the expected order (a subsequence of it) |
| Preprocess.TextColumnOf | beyblade_streamlit_app.py:64-66 | a column name is recognised as a text column exactly when it is that column's name |
| Preprocess.TextNameInjective | beyblade_streamlit_app.py:64-66 | the six text columns have six different names |
| Preprocess.StripFieldCell | beyblade_streamlit_app.py:64-66 | stripping one column strips that column's cell, changes no other text cell and no other field |
| Preprocess.StripFieldsStep | beyblade_streamlit_app.py:64-66 | one more pass of the column loop keeps the invariant "a text cell is stripped iff its column has been visited" |
| Preprocess.StripFieldsEffect | beyblade_streamlit_app.py:64-66 | after the column loop each text cell is stripped iff its column is in the table; dates, numbers and `_combo` are untouched |
| Preprocess.Dataset.constructor | beyblade_streamlit_app.py:56-61 | the working copy keeps the expected columns in the expected order, with no buckets yet |
| Preprocess.Dataset.StripText | beyblade_streamlit_app.py:64-66 | the column loop leaves every row stripped in every kept column and changes nothing else |
| Preprocess.Dataset.DeriveCombo | beyblade_streamlit_app.py:82-89 | every row gets `_combo` from its own cells and keeps all other cells |
| Preprocess.Dataset.PreAggregate | beyblade_streamlit_app.py:96-106 | `pre` holds a key exactly when its column is present, and the key's value is the bucket table of the rows |
| Preprocess.Dataset.Prepare | beyblade_streamlit_app.py:55-107 | fails with `MissingDate` iff there is no Date column, otherwise with `MissingPlacement` iff there is no Placement column; on success the rows are normalised and `pre` is the bucket dictionary |
| Buckets.Inc | beyblade_streamlit_app.py:101-104 | one more row adds 1 to each counter whose tier the placement passes |
| Buckets.Find | beyblade_streamlit_app.py:101-105 | the bucket of a (label, month) key, or `None` when no bucket has that key |
| Buckets.FindOfMember | beyblade_streamlit_app.py:101 | with distinct keys a bucket is found by its own key |
| Buckets.BumpFind | beyblade_streamlit_app.py:101-104 | counting a row updates exactly the bucket of its key |
| Buckets.BumpMembers | beyblade_streamlit_app.py:101 | counting a row adds no bucket other than that of its key |
| Buckets.BumpDistinct | beyblade_streamlit_app.py:101 | counting a row keeps bucket keys distinct |
| Buckets.BumpOrdered | beyblade_streamlit_app.py:102-104 | counting a row keeps `count_1st <= count_top3 <= count_all` in every bucket |
| Buckets.BucketCountOrder | beyblade_streamlit_app.py:102-104 | rows with placement 1 are among those with placement 1 to 3, which are among all rows |
| Buckets.TallyWellFormed | beyblade_streamlit_app.py:101-105 | the bucket table has one bucket per key and ordered counters |
| Buckets.TallyFind | beyblade_streamlit_app.py:101-105 | a key has a bucket iff some dated row has that key; the three counters are the numbers of such rows overall, with placement 1, and with placement 1 to 3 |
| Buckets.BucketCounters | beyblade_streamlit_app.py:101-104 | every bucket counts exactly the rows of its key, and `count_1st <= count_top3 <= count_all` |
| Buckets.BumpSums | beyblade_streamlit_app.py:222-224 | counting one row raises the windowed sums by 1 exactly when the row is in the window and passes the tier |
| Buckets.TallyWindowSum | beyblade_streamlit_app.py:98-226 | summing a label's counter over the sliced buckets gives the drill-down row count of that label |
| Buckets.TallyTotalSum | beyblade_streamlit_app.py:222-230 | summing over every label gives the number of rows in the window that pass the tier |
| Leaderboard.MonthIndexInjective | beyblade_streamlit_app.py:80 | different calendar months have different month indices |
| Leaderboard.CutoffMonth | beyblade_streamlit_app.py:212-213 | the cutoff is a valid month exactly `months_back` calendar months before now, borrowing from the year |
| Leaderboard.Slice | beyblade_streamlit_app.py:222 | a bucket survives the slice iff its month is at or after the cutoff |
| Leaderboard.KeepAtLeast | beyblade_streamlit_app.py:228 | an entry is kept iff its usage reaches `min_usage` |
| Leaderboard.AddUsageOf | beyblade_streamlit_app.py:223-224 | adding to a label's sum changes only that label's usage and raises the grand sum by the same amount |
| Leaderboard.AddUsageMembers | beyblade_streamlit_app.py:223 | adding to a label's sum creates no entry for any other label |
| Leaderboard.AddUsageDistinct | beyblade_streamlit_app.py:223 | the per-label sum keeps one entry per label |
| Leaderboard.UsageOfMember | beyblade_streamlit_app.py:223-225 | with distinct labels, an entry's usage is its label's usage |
| Leaderboard.UsageOfPositive | beyblade_streamlit_app.py:223-225 | a label with positive usage has an entry carrying it |
| Leaderboard.GroupSumSlice | beyblade_streamlit_app.py:222-226 | the group sum has distinct labels, each label's usage is its windowed counter sum, and the grand sum is the windowed total |
| Leaderboard.KeepAtLeastDistinct | beyblade_streamlit_app.py:228 | the floor filter keeps labels distinct |
| Leaderboard.KeepAtLeastOneSum | beyblade_streamlit_app.py:228 | with a floor of 1 the grand sum is unchanged |
| Leaderboard.EntryBeforePreorder | beyblade_streamlit_app.py:228 | "usage descending, then label ascending" is a total preorder |
| Leaderboard.InsertSum | beyblade_streamlit_app.py:228 | inserting an entry into a sorted list adds its usage to the sum |
| Leaderboard.SortSum | beyblade_streamlit_app.py:228 | sorting keeps the grand sum |
| Leaderboard.BoardShape | beyblade_streamlit_app.py:222-228 | every row reaches the floor, labels are distinct, usage never increases and ties are in ascending label order; the rows are exactly the label sums that reach the floor |
| Leaderboard.BoardRowUsage | beyblade_streamlit_app.py:98-228 | a leaderboard row's usage is the drill-down count of its label |
| Leaderboard.BoardHasLabel | beyblade_streamlit_app.py:98-228 | a label whose drill-down count reaches the floor has a leaderboard row |
| Leaderboard.BoardCountsRows | beyblade_streamlit_app.py:98-228 | pre-aggregation equivalence: a label is on the leaderboard iff its drill-down count reaches the floor, and its usage is that count |
| Leaderboard.TotalUsage | beyblade_streamlit_app.py:230 | `sum or 1`: the sum of usage whenever that is positive, and exactly 1 when it is 0 |
| Leaderboard.BoardTotal | beyblade_streamlit_app.py:230 | with a floor of 1 the usage sums to the number of rows in the window that pass the tier, and the total is that number or 1 |
| Leaderboard.UsageAtMostSum | beyblade_streamlit_app.py:230 | no row's usage exceeds the sum |
| Leaderboard.Share | beyblade_streamlit_app.py:231 | `usage / total * 100` unrounded: the non-negative number that, times the total, is 100 times the usage |
| Leaderboard.ShareBounds | beyblade_streamlit_app.py:231 | each share lies between 0 and 100 |
| Leaderboard.SumSharesScale | beyblade_streamlit_app.py:231 | the sum of the shares is the usage sum times 100 over the total |
| Leaderboard.SharesTotal | beyblade_streamlit_app.py:230-231 | unrounded shares add up to exactly 100 when any usage is positive, and are all 0 otherwise |
| Leaderboard.Query | beyblade_streamlit_app.py:212-228 | no leaderboard (the "No data for this view" stop) iff the view has no bucket table; otherwise the board of its table from the cutoff month |
| Drilldown.RowBeforePreorder | beyblade_streamlit_app.py:305 | "date descending, missing dates last, then event ascending" is a total preorder |
| Drilldown.Resolve | beyblade_streamlit_app.py:274-305 | fails exactly when a needed column is missing: Placement for tiers that test it, the group column outside the combo mode, Event when there are rows to sort |
| Drilldown.ResolveSpec | beyblade_streamlit_app.py:274-305 | the detail rows are a permutation of the mask, all of them match, newest first and by ascending event on equal dates |
| Drilldown.ResolveMatchesBoard | beyblade_streamlit_app.py:297-298 | the detail usage is the label's pre-aggregated usage; for a label on the leaderboard it is that row's usage, and its share is the leaderboard share, at most 100 |
| Drilldown.TwiceResolves | beyblade_streamlit_app.py:274-305 | a two-row example resolves to both rows |
| Drilldown.BoardEmptyBelowFloor | beyblade_streamlit_app.py:228 | a floor above the number of rows leaves the leaderboard empty |
| Drilldown.DetailShareCanExceedHundred | beyblade_streamlit_app.py:228-298 | with a floor that removes the label, the detail share against the fallback total of 1 is 200 |
| Navigation.QpGet | beyblade_streamlit_app.py:154-156 | the parameter's value, or the default when it is absent or empty |
| Navigation.Restrict | beyblade_streamlit_app.py:146-147 | the owned part holds exactly the owned keys present, with their values |
| Navigation.QpSetResult | beyblade_streamlit_app.py:145-152 | afterwards the owned part equals the target's; the map is either unchanged or becomes the target's owned part; nothing is written when the owned parts already agree |
| Navigation.RestrictIdempotent | beyblade_streamlit_app.py:146-147 | restricting twice is restricting once |
| Navigation.QpSetIdempotent | beyblade_streamlit_app.py:145-152 | repeating a write leaves the map unchanged |
| Navigation.QpSetThenGet | beyblade_streamlit_app.py:145-156 | reading an owned key after a write gives what the target says |
| Navigation.QpGetRestrict | beyblade_streamlit_app.py:146-156 | reading an owned key depends only on the owned part |
| Navigation.QueryParams.constructor | beyblade_streamlit_app.py:137-140 | the parameter store starts with the browser's parameters |
| Navigation.QueryParams.Get | beyblade_streamlit_app.py:154-156 | `qp_get` on the current store |
| Navigation.QueryParams.Set | beyblade_streamlit_app.py:145-152 | clear and update: the new store is the write result of the old store and the target |
| Navigation.ViewGroup | beyblade_streamlit_app.py:168-200 | only "Top combos" groups by `_combo`; every other view groups by the column whose lower-cased name is its mode slug |
| Navigation.ModeSlug | beyblade_streamlit_app.py:168-200 | the mode slug of a view, already lower case |
| Navigation.FinishSlug | beyblade_streamlit_app.py:198 | the slug of a finish tier, already lower case |
| Navigation.PeriodSlug | beyblade_streamlit_app.py:199 | the slug of a period, already lower case |
| Navigation.MonthsBack | beyblade_streamlit_app.py:212 | `{"1m":1,"3m":3,"6m":6}`: a period is 1, 3 or 6 months back, the digit of its slug before "m" |
| Navigation.DefaultView | beyblade_streamlit_app.py:177 | the view whose slug is the mode, "Top combos" otherwise |
| Navigation.DefaultFinish | beyblade_streamlit_app.py:178 | the tier whose slug is the finish, "1st - 3rd" otherwise |
| Navigation.DefaultPeriod | beyblade_streamlit_app.py:179 | the period whose slug is the period parameter, "Past 6 months" otherwise |
| Navigation.SlugsRoundTrip | beyblade_streamlit_app.py:177-200 | reading back a written slug gives the option it came from |
| Navigation.EffectiveView | beyblade_streamlit_app.py:250 | the detail page iff the view parameter is "detail" and the item is non-empty |
| Navigation.ParamsToSet | beyblade_streamlit_app.py:251-252 | the target holds only owned keys: view, mode, finish and period always, and the item exactly on the detail page |
| Navigation.Render | beyblade_streamlit_app.py:158-250 | a run's page, item, view, finish and period as read from the URL with defaults or picked by the user |
| Navigation.RenderRestrict | beyblade_streamlit_app.py:154-163 | a run depends only on the five owned parameters |
| Navigation.RenderOfState | beyblade_streamlit_app.py:159-179 | a URL naming view, finish and period by their slugs reads them back |
| Navigation.RenderOfPage | beyblade_streamlit_app.py:162-250 | a URL naming the page (and the item for detail) reads them back |
| Navigation.RenderOfTarget | beyblade_streamlit_app.py:250-252 | the written target, read as a URL, gives the same run |
| Navigation.RerunStable | beyblade_streamlit_app.py:145-253 | after a run writes the URL, the next run with untouched controls has the same state and writes nothing |
| Navigation.LinkParams | beyblade_streamlit_app.py:234-235 | a detail link carries exactly the five owned keys: view "detail", the mode, item, finish and period |
| Navigation.DetailLinkDecodes | beyblade_streamlit_app.py:234-235 | the link `?view=detail&mode=…&item=…&finish=…&period=…`, split at `&` and then at the first `=` of each field, reads back as exactly its five parameters |
| Navigation.FieldsOfJoin | beyblade_streamlit_app.py:235 | splitting `&`-free fields joined by `&` gives the fields back |
| Navigation.LinkIsTarget | beyblade_streamlit_app.py:235-252 | a detail link carries exactly what the detail page of that entry writes |
| Navigation.FollowDetailLink | beyblade_streamlit_app.py:234-253 | following a link of a non-empty entry opens its detail page in the same view, finish and period, and writes nothing back |
| Images.CleanAll | beyblade_streamlit_app.py:114-117 | each row of the images tab has its part type stripped and lower-cased, and its name and URL stripped |
| Images.ImageMap | beyblade_streamlit_app.py:118-120 | every row of the part type puts its name in the dictionary |
| Images.ImageMapKeys | beyblade_streamlit_app.py:118-120 | every dictionary key is the name of a row of that part type |
| Images.ImageMapLastWins | beyblade_streamlit_app.py:118-120 | a name's URL is that of the last row with that name |
| Images.LoadImageMaps | beyblade_streamlit_app.py:112-120 | the dictionaries are empty without an images tab or when it lacks PartType, Name or ImageURL (the column test of `try_load_images`, lines 35-37), and are built from the cleaned rows otherwise |
| Images.ImageForLabel | beyblade_streamlit_app.py:122-130 | `None` for an empty label or an unknown mode; the label in its part's dictionary; the first token in the blade dictionary for combos |
| Images.ComboImageOneWordBlade | beyblade_streamlit_app.py:127-129 | as written, a combo with a one-word blade gets that blade's thumbnail |
| Images.ComboImageFirstWord | beyblade_streamlit_app.py:127-129 | as written, a combo whose blade name has several words is looked up under the blade's first word |
| Images.ComboImageMissesTwoWordBlade | beyblade_streamlit_app.py:127-129 | as written, the combo "Wizard Rod 5-60 Ball" gets no thumbnail although "Wizard Rod" has one |
| Images.LongestBlade | beyblade_streamlit_app.py:127-129 | the longest whole-word prefix that names a blade, and no longer whole-word prefix is a blade |
| Images.ImageForLabelFixed | beyblade_streamlit_app.py:122-130 | corrected lookup: as written outside the combo mode; in the combo mode any thumbnail found is that of a whole-word prefix naming a blade |
| Images.ComboImageFindsBlade | beyblade_streamlit_app.py:127-129 | corrected lookup: a combo gets its blade's thumbnail, whatever the number of words in the blade name |
| Images.ComboImageFixedTwoWordBlade | beyblade_streamlit_app.py:127-129 | corrected lookup: "Wizard Rod 5-60 Ball" gets the "Wizard Rod" thumbnail |
| SheetSource.IdRun | beyblade_streamlit_app.py:25 | the greedy `+`: the longest run of ID characters from a position |
| SheetSource.FirstMatch | beyblade_streamlit_app.py:25 | `re.search`: the leftmost position at which the pattern matches |
| SheetSource.SheetId | beyblade_streamlit_app.py:25-28 | the "Could not parse spreadsheet ID from URL." error iff the pattern matches nowhere; otherwise a non-empty run of ID characters |
| SheetSource.SheetIdSpec | beyblade_streamlit_app.py:25-28 | when a position is the leftmost match, parsing succeeds and the ID starts right after that match's marker and stops at the first non-ID character |
| SheetSource.NoMatchInHost | beyblade_streamlit_app.py:29 | the scheme and host of an export URL hold no match |
| SheetSource.ReadBackId | beyblade_streamlit_app.py:25-28 | a URL that opens with the host and the marker, then an ID ended by a slash, parses to that ID |
| SheetSource.CsvUrlRoundTrip | beyblade_streamlit_app.py:25-29 | the export URL built from a well-formed ID parses back to that ID |
| SheetSource.FirstMatchFrom | beyblade_streamlit_app.py:25 | the search skips the positions before the first match |
| SheetSource.IdRunOf | beyblade_streamlit_app.py:25 | a maximal run of `n` ID characters is what the greedy `+` takes |
| Page.PreparedQuery | beyblade_streamlit_app.py:109-290 | on a prepared dataset the leaderboard exists iff the view's column does; its rows count drill-down rows; the drill-down then fails only for want of Placement or Event |
| Page.PrepareThenQuery | beyblade_streamlit_app.py:55-228 | a failed preparation yields no leaderboard; otherwise a leaderboard exists iff the view's column was kept, and every row reaches the floor |
| Page.RunBoard | beyblade_streamlit_app.py:200-220 | a run's leaderboard is the query for the group column of its view, the months of its period and its finish tier; none iff that column has no bucket table |
| Page.RunDetail | beyblade_streamlit_app.py:274-305 | a run's drill-down fails only for want of Placement (for a tier that tests it), the group column or Event (when rows match); otherwise it lists every matching row of the run's item, window and tier, as often as in the table, newest first and then by event |
| Page.RunBoardCounts | beyblade_streamlit_app.py:200-228 | on a prepared dataset a run's leaderboard exists iff the sheet has its view's column, and each row's Usage is the number of rows of its label in the run's window and tier |
| Page.DetailMatchesRow | beyblade_streamlit_app.py:292-298 | the drill-down of a leaderboard row fails only for want of Placement (for a tier that tests it) or Event; otherwise it lists as many rows as the row's Usage, at the row's share |
| Page.FollowBoardRow | beyblade_streamlit_app.py:234-298 | following a leaderboard row's detail link opens that label's detail page with the same leaderboard, whose drill-down lists as many rows as the row's Usage at the row's share, and fails only for want of Placement or Event |

## Left out

- Streamlit UI is not modelled. That covers page setup, the sidebar inputs,
  the `segmented_control`/`selectbox` fallback, the slider, the toggle,
  `st.dataframe`, `st.stop`, the link buttons and the raw-data expander. A
  run is modelled as `Navigation.Render`, with each control either untouched
  (`None`) or set to one of its options.
- Navigation.RerunStable: assumes the run reaches the URL write at line 253.
  A view with no bucket table stops the run at line 219, before that write,
  so such a run leaves the URL as it was. `Page.RunBoard` gives `None` for
  it, and the model does not tie that case to a skipped write.
- A `segmented_control` that the user clears (so it returns `None`) is not
  modelled. The slug lookups would raise on it.
- The network fetch (`pd.read_csv` on the export URL) and the `st.cache_data`
  TTL caching are I/O. The images tab is `Option<ImageSheet>`, and a failed
  fetch is `None`.
- Date parsing (`pd.to_datetime`, dropping the time zone) is not modelled.
  Dates come parsed into a month index (the `_ym` period) plus an order
  inside the month; an unparseable date is `None`.
- `Timestamp.now` is the `now` parameter of the leaderboard query.
- Numeric coercion of Participants and Placement is not modelled. Both come
  as `Option<int>`: a value that did not parse is `None`, and non-integer
  numeric placements are not represented.
- The column loop strips only the six text columns. The source strips every
  object-typed column, so a Date, Participants or Placement column read as
  text is also stripped before parsing; that is folded into the parsed
  inputs.
- NaN cells turned into the string "nan" by `astype(str)` are not modelled.
  Text cells are plain strings.
- The category dtype conversion (lines 92-94) is a speed detail and is left
  out.
- The categorical group-by of pandas would also list zero-count (label,
  month) pairs. Only observed pairs are modelled; any floor of 1 or higher
  removes the unobserved ones anyway.
- The bucket table keeps buckets in first-appearance order rather than
  pandas' sorted order. The leaderboard sorts afterwards, so the order is
  invisible.
- Shares are exact reals. `.round(1)`, the `astype(str) + "%"` formatting
  and the `:.1f` and `:,` formats of the detail page are float and string
  formatting.
- `Leaderboard.SharesTotal`: the unrounded shares sum to exactly 100. The
  rounding tolerance of the displayed shares is not modelled.
- Percent-encoding (`urllib.parse.quote`/`unquote`) is taken as the identity
  on items and tab names. `Navigation.LinkParams` is a link as the browser
  decodes it, and `Navigation.QueryOf` is that decoding: split at `&`, then
  at the first `=` of each field, a later key overriding an earlier one.
- Navigation.DetailLinkDecodes: requires that no value holds `&`. In the
  source `quote` escapes `&` in the item, so any item reads back; without
  encoding in the model, the round trip is proved for `&`-free values only.
- The option labels of the three controls ("Top combos", "Only 1st", "Past
  month" and so on), the `thing_label` column heading and the detail
  heading are display text. The options are the enumerations `View`,
  `Finish` and `Period`.
- `Text.Lower` and `Text.IsUpper` cover ASCII letters only. Python's
  Unicode case mapping is not modelled.
- `qp_read` is not modelled in full. The fallback to
  `experimental_get_query_params` and its list-valued parameters are a
  second API for the same single-valued map.
- `qp_set` drops target values that are `None`; this is not modelled,
  because `params_to_set` never holds any.
- The rendered heading of the detail page (line 271) is not modelled.

## Findings

| source | as written | input that shows it | evidently intended | confidence | as-written member | corrected member |
|---|---|---|---|---|---|---|
| beyblade_streamlit_app.py:127-129 | in the combo mode the blade name is taken as `label.split(" ")[0]`, the first word of the combo label | an images tab mapping blade "Wizard Rod" to a thumbnail, and the combo "Wizard Rod 5-60 Ball": the lookup asks for "Wizard" and finds nothing | the combo shows its blade's thumbnail, so a blade name of several words must be matched whole | not executed; high, since blade names of two words are common | Images.ComboImageMissesTwoWordBlade | Images.ComboImageFindsBlade |

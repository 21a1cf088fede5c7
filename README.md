# LUCAS land-cover classification and aggregation, in Dafny

This project models the data pipeline of a Dash dashboard for LUCAS land-use and land-cover
survey data. Its parts:

- **Code-set registry** (`generateClassIDs`): the LC1 and LC2 code lists that define the five
  classes Livestock, Arable, Forest, Shrubland and Grassland.
- **Header standardiser** (`standardiseColumn`): brings three variants of survey-file headers to
  one schema. It overrides two values in the country table, then left-joins each survey point to
  its country name on the ISO2 code. Both tables are renamed in place.
- **Rule classifier** (`filterClasses`, `extractCountryName`, `filterLandUseCoverClasses`): five
  boolean masks over LC1, LC2 and LAND_MNGT. Their blocks are concatenated and stamped with the
  year and the first row's country.
- **Aggregator** (`createBinaryClassColumn`, `createFrequencyTable`, `createPercentageTable`,
  `createSummarisedTable`): one 0/1 indicator per class, class counts per country, percentages of
  the row sum guarded against a zero sum, a Total, and the year.
- **`processLucasData`**: the three steps above, run on a copy of the uploaded table.
- **The dashboard's store** (`src/app.py`):
  - the year read from an upload's file name;
  - the `countryYear` key;
  - the duplicate-guarded append of `update_storage1` to the two global tables DF1 (points) and
    DF2 (summaries), each then sorted by key;
  - the long-format reshape `reorder_df` behind the bar chart;
  - the point selection and `LC2_conditional` cell behind the map.

Modules and their forms:

- **Pure modules.** `Text` (the Python string semantics used), `Registry`, `Classifier`,
  `Aggregator`, `CountryYear` (`createCountryYearColumn`, sorting by key) and `Dashboard` (file
  name, `reorder_df`, map) are datatypes, functions and lemmas.
- **`Table`.** A `DataFrame` class whose columns and rows are changed in place by `rename` and
  by column assignment.
- **`Standardise`.** Methods over `DataFrame`: the column loop of `standardiseColumn` is a
  `while` loop proved against a fold.
- **`Pipeline`.** `processLucasData` as a method, proved against the function `Process`.
- **`Storage`.** A `Store` class holding DF1 and DF2, whose `UpdateStorage` method is
  `update_storage1`.

Central results:

- **Classification:**
  - The five rules are pairwise disjoint under the registry `generateClassIDs` returns
    (`Classifier.GeneratedRulesPairwiseDisjoint`).
  - The classified table is a permutation of a reference decision-list classification that drops
    unmatched rows (`Classifier.ClassifiedIsPermutation`).
- **Summary rows:** each summary row holds the country's count of each class. Its Total equals
  both the sum of the counts and the country's number of classified rows. Its percentages lie in
  [0, 100] and add up to 100 (`Aggregator.SummaryRowContents`).
- **Store:**
  - An upload is one `countryYear` (`Storage.UploadIsOneKey`).
  - The store either refuses it unchanged, or appends it and keeps both tables sorted
    (`Storage.Store.UpdateStorage`).

Where a docstring and the code differ, the model follows the code: `createCountryYearColumn`
does not sort, although its docstring says the frame is sorted by the new column.

`processLucasData` copies only the survey table. The country table it is given is passed to
`standardiseColumn` as it is (functions.py:203), so its header and its GB and United Kingdom
cells are rewritten in the caller's frame (`Pipeline.ProcessLucasData`).

`src/functions.py` is a byte-identical copy of `functions.py` and is cited as `functions.py`.

## Model

| member | source | states |
|---|---|---|
| Text.IntToString | src/app.py:49 | `str` of an integer: digits after an optional '-', with '-' exactly for negative numbers |
| Text.IntToStringRoundTrip | src/app.py:49 | `int(str(i)) == i` for every integer |
| Text.IntToStringInjective | src/app.py:49-50 | different years give different strings |
| Text.ContainsInfix | src/app.py:33 | `'csv' in filename` holds for every name with "csv" inside it |
| Text.ReplaceAll | functions.py:28-30 | `str.replace` leaves a string without the pattern unchanged, and removes a single leading occurrence |
| Text.PySlice | src/app.py:35-39 | Python slicing: in-range bounds give the plain slice; negative bounds count from the end, a start before the beginning clamps to it, a stop before it gives the empty string |
| Text.DigitsParse | src/app.py:35 | `int()` of decimal digits is their decimal value |
| Text.PyInt | src/app.py:35-39 | `int()` in base 10: optional sign, digits with single underscores, surrounding whitespace stripped; its properties are `Text.DigitsParse`, `Text.NegativeParses`, `Text.NotAnInteger` and `Text.IntToStringRoundTrip` |
| Text.NotAnInteger | src/app.py:35 | `int()` of a string starting with a character that is not ASCII whitespace, a sign or an ASCII digit fails |
| Text.LexLe | src/app.py:456-457 | the order `sort_values` sorts `countryYear` strings by: code points compared left to right, a prefix first; proved total and transitive by `Text.LexLeTotal` and `Text.LexLeTransitive` |
| Text.LexLeTotal | src/app.py:456-457 | the string order `sort_values` uses is total |
| Text.LexLeTransitive | src/app.py:456-457 | the string order `sort_values` uses is transitive |
| Registry.CodeRange | functions.py:58 | `[letter + str(n) for n in range(lo, hi)]`: one code per number, in order |
| Registry.LivestockIDs | functions.py:58 | `livestockClassIDs` has 40 codes; they are exactly B71-B84, C10-C33, D10 and E10 (`Registry.LivestockCodes`) |
| Registry.ArableLC1 | functions.py:59 | `arable_LC1` has 39 codes; it is the livestock list without E10 (`Registry.ArableLC1IsLivestockWithoutE10`) |
| Registry.ArableLC2 | functions.py:60 | `arable_LC2` has 44 codes, all in section B; exactly B11-B54 (`Registry.ArableLC2Codes`) |
| Registry.ForestLC1 | functions.py:61 | every forest LC1 code is in section C |
| Registry.ShrublandLC1 | functions.py:62 | every shrubland LC1 code is in section D |
| Registry.GrasslandLC1 | functions.py:63 | every grassland LC1 code is in section E |
| Registry.GenerateClassIDs | functions.py:52-70 | list sizes 40, 39 and 44; forest, shrubland and grassland reuse the arable LC2 list; the section letter of every list |
| Registry.LivestockCodes | functions.py:58 | the livestock list is exactly B71–B84, C10–C33, D10 and E10 |
| Registry.ArableLC1IsLivestockWithoutE10 | functions.py:59 | arable LC1 is the livestock list without E10, with D10 kept |
| Registry.ArableLC2Codes | functions.py:60 | arable LC2 is exactly B11–B54 |
| Registry.GeneratedIDsSeparated | functions.py:61-68 | the shared LC2 list and the disjoint forest, shrubland and grassland LC1 lists |
| Registry.NoArtificialLandCodes | functions.py:58-63 | no section-A code is in any list |
| Table.ColumnIndex | functions.py:49 | `df[name]`: the first column with that name, or None exactly when there is none (KeyError) |
| Table.RenameColumns | functions.py:16 | `rename(columns=...)`: mapped names replaced, every other name kept, same width |
| Table.ReplaceCells | functions.py:17-18 | `Series.replace`: matching cells of one column replaced, every other cell unchanged |
| Table.ReplaceCellsIdempotent | functions.py:17-18 | replacing a value a second time changes nothing |
| Table.ReplaceInColumn | functions.py:17-18 | KeyError exactly when the column is missing; otherwise the same shape |
| Table.DataFrame.Copy | functions.py:201 | `copy()` holds the same contents |
| Table.DataFrame.Rename | functions.py:22 | in-place rename: names change, cells stay |
| Table.DataFrame.ReplaceValue | functions.py:17-18 | in-place replace; the frame is unchanged on KeyError |
| Standardise.StandardiseCountry | functions.py:15-18 | the country table's renames and overrides; KeyError for a missing ISO2 or Country column, earlier steps kept |
| Standardise.CountryOverrides | functions.py:17-18 | GB becomes UK, the long UK name becomes "Great Britain", every other cell is unchanged |
| Standardise.StandardiseCountryIdempotent | functions.py:15-18 | standardising the country table twice is the same as once, so repeated uploads are safe |
| Standardise.StandardiseCountryTable | functions.py:15-18 | the in-place steps leave the table and error of StandardiseCountry |
| Standardise.Stripped | functions.py:27-30 | a name without a SURVEY_ or POINT_ prefix is unchanged |
| Standardise.StrippedSurvey | functions.py:27-28 | `SURVEY_x` is renamed x when x holds no further `SURVEY_` |
| Standardise.StrippedPoint | functions.py:29-30 | `POINT_x` is renamed x when x holds no further `POINT_` |
| Standardise.StripPrefixes | functions.py:26-30 | the loop as a fold over the names it iterates, keeping the number of columns; what it does to each name is `Standardise.StripPrefixesPointwise`, `Standardise.StripReaches` and `Standardise.StripKeepsUnprefixed` |
| Standardise.StripKeepsUnprefixed | functions.py:26-30 | the prefix loop keeps every unprefixed column name |
| Standardise.StripReaches | functions.py:26-30 | a prefixed column the loop reaches ends under its stripped name, whatever the loop renames before or after |
| Standardise.StripPrefixesPointwise | functions.py:26-30 | without name collisions the loop strips each column's own prefix and nothing else |
| Standardise.StripPrefixesInPlace | functions.py:26-30 | the `for` loop renames the frame as the fold StripPrefixes does, rows untouched |
| Standardise.RawColumns | functions.py:21-33 | the survey headers after the three-way branch, one per column; the branches are stated by `Standardise.RawHeaders` and the SURVEY_GRAZING headers by `Standardise.SurveyHeaders` and `Standardise.PointHeaders` |
| Standardise.RawHeaders | functions.py:21-33 | GRAZING wins over SURVEY_GRAZING over TH_LAT; the GRAZING and TH_LAT branches are the renames of their mappings; each branch yields LAND_MNGT, LAT/LONG and ISO2 from the columns it renames; otherwise headers unchanged |
| Standardise.SurveyBranchStrips | functions.py:23-31 | in the SURVEY_GRAZING branch every other prefixed header ends under its stripped name, and a stripped NUTS0 as ISO2 |
| Standardise.SurveyHeader | functions.py:23-31 | a short header behind one prefix comes out stripped in the SURVEY_GRAZING branch (NUTS0 as ISO2) |
| Standardise.SurveyHeaders | functions.py:23-31 | in a SURVEY_GRAZING file, SURVEY_LC1 and SURVEY_LC2 come out as LC1 and LC2 |
| Standardise.PointHeaders | functions.py:23-31 | in a SURVEY_GRAZING file, POINT_LAT and POINT_LONG come out as LAT and LONG |
| Standardise.PointNutsHeader | functions.py:23-31 | in a SURVEY_GRAZING file, POINT_NUTS0 comes out as ISO2 |
| Standardise.StandardiseRawColumns | functions.py:21-33 | the in-place branch gives the headers RawColumns describes, rows untouched |
| Standardise.JoinOne | functions.py:36 | a left-joined survey row: one row per match, or one with a missing Country |
| Standardise.MergedColumns | functions.py:36 | the merged header adds Country (suffixed on a clash) |
| Standardise.LeftJoinRows | functions.py:36 | the left join keeps at least every survey row; with unique codes exactly one row per survey row, in order, with its country (`Standardise.LeftJoinOfUnique`) |
| Standardise.MergeCountry | functions.py:36 | KeyError exactly when a table lacks ISO2 or Country; otherwise the merged header, rectangular |
| Standardise.MatchesOfUnique | functions.py:36 | with unique ISO2 codes a key matches at most one country, and none exactly when absent |
| Standardise.LeftJoinOfUnique | functions.py:36 | with unique codes the left join keeps every survey row once, in order, plus its country or a missing value |
| Standardise.UnmatchedCodeGivesMissing | functions.py:36 | an unmatched ISO2 code gives a missing Country |
| Standardise.Standardised | functions.py:7-37 | the country table's KeyError, or the merge with the renamed survey headers |
| Standardise.StandardisedRows | functions.py:36 | the returned rows are the left join of the survey rows with the standardised country entries |
| Standardise.StandardiseColumn | functions.py:7-37 | both tables renamed in place, the survey table untouched after a country KeyError, the result equal to Standardised |
| Classifier.IsIn | functions.py:95-100 | `isin` on a code list: a text cell in the list; a missing or numeric cell is in none |
| Classifier.Condition | functions.py:93-100 | the boolean mask of the three branches; written out per class by `Classifier.RuleDefinitions` |
| Classifier.FilterClasses | functions.py:86-105 | the kept rows are exactly those whose mask holds, each tagged with the class |
| Classifier.CallFor | functions.py:119-126 | the arguments of each class's call fit the branch they select |
| Classifier.Block | functions.py:102-103 | the block of class k holds only rows its rule accepts, each tagged k, every accepted row, and is no longer than the input |
| Classifier.RuleDefinitions | functions.py:93-100 | the five rules: livestock by LC1 and LAND_MNGT 1.0; arable with LC2 in the arable list; the others with LC2 outside it and LAND_MNGT 2.0 |
| Classifier.RuleIffClassOf | functions.py:93-126 | a row satisfies rule k exactly when the reference decision list says k |
| Classifier.RulesPairwiseDisjoint | functions.py:93-126 | under a separated registry no row satisfies two rules |
| Classifier.GeneratedRulesPairwiseDisjoint | functions.py:116-126 | under `generateClassIDs` no row satisfies two rules |
| Classifier.BlockIsClassSlice | functions.py:102-103 | each filterClasses block is the class-k part of the reference classification, in order |
| Classifier.ClassSlicesArePermutation | functions.py:129 | the five class slices together lose and duplicate nothing |
| Classifier.ExtractCountryName | functions.py:45-50 | the first row's Country, or IndexError exactly for an empty table |
| Classifier.Stamp | functions.py:131-132 | every row gets the year and the country |
| Classifier.Combined | functions.py:129 | `pd.concat` of the five blocks in class order; its properties are `Classifier.CombinedRowsSatisfyRule`, `Classifier.CombinedIsStablePartition` and `Classifier.CombinedIsPermutationOfPartition` |
| Classifier.CombinedRowsSatisfyRule | functions.py:129 | every concatenated row satisfies the rule of its class |
| Classifier.CombinedIsStablePartition | functions.py:119-129 | the concatenation is the reference classification grouped by class in block order, input order kept within a class |
| Classifier.CombinedIsPermutationOfPartition | functions.py:119-129 | each classified row appears exactly once, so the output is no longer than the input |
| Classifier.ClassifyWith | functions.py:107-134 | error exactly for an empty table; otherwise at most one row per input row, each with the year, the first row's country and a satisfied rule |
| Classifier.FilterLandUseCoverClasses | functions.py:107-134 | the same, for the registry `generateClassIDs` returns |
| Classifier.ClassifiedIsPermutation | functions.py:107-134 | with Year and Country dropped, the output is the block concatenation and a permutation of the reference classification |
| Classifier.LivestockScenario | functions.py:119 | LC1 B75, LC2 "-", LAND_MNGT 1.0 gives exactly one Livestock point |
| Classifier.SingleLivestockRow | functions.py:119-134 | a single row only the livestock rule accepts gives exactly one Livestock point |
| Classifier.ArableNotForestScenario | functions.py:120-124 | LC1 C10 with LC2 B20 and LAND_MNGT 2.0 is Arable and not Forest |
| Classifier.UnmatchedScenario | functions.py:119-126 | a row with LC1 A10 is in no class |
| Aggregator.IndicatorValue | functions.py:146 | the indicator is 1 exactly when CLASS equals the column's class, 0 otherwise |
| Aggregator.CreateBinaryClassColumn | functions.py:141-147 | every row gets column k set to its indicator, nothing else changes |
| Aggregator.AddClassColumns | functions.py:177-178 | the loop that threads the table through createBinaryClassColumn once per class; `Aggregator.AddClassColumnsAdds` states the columns it adds |
| Aggregator.AddClassColumnsAdds | functions.py:177-178 | the loop sets each listed class's indicator, keeps every other column and adds no other |
| Aggregator.FiveIndicators | functions.py:173-178 | from no columns the loop gives every row exactly the five indicators |
| Aggregator.BinaryColumns | functions.py:173-178 | each indicator is 1 exactly on the rows of its own class |
| Aggregator.Countries | functions.py:153 | each present Country once; a missing Country forms no group |
| Aggregator.CreateFrequencyTable | functions.py:149-154 | one row per country group, no two with the same country, each holding the column sums of that country's rows |
| Aggregator.FrequencyTableCountries | functions.py:149-154 | the frequency table has a row for every country present in the table and for no other; a missing Country forms no row |
| Aggregator.ColumnSum | functions.py:153 | the sum of one indicator column over a country's rows; `Aggregator.ColumnSumCounts` proves it counts that country's rows of the class |
| Aggregator.ColumnSumCounts | functions.py:153 | summing an indicator over a country counts its rows of that class |
| Aggregator.ClassCountsAddUp | functions.py:146-153 | the five class counts add up to the country's row count |
| Aggregator.FrequencyCounts | functions.py:149-154 | each frequency cell is the country's number of rows of the class; their sum is its row count |
| Aggregator.Percent | functions.py:161 | 0 for a zero row sum (`fillna(0)`); within [0, 100] for a count no larger than the sum |
| Aggregator.SharesOf | functions.py:161 | each share is its count's Percent of the row sum |
| Aggregator.PercentAdd | functions.py:161 | percentages of one row sum add like their counts |
| Aggregator.PercentsAddUp | functions.py:161 | the five percentages of a positive row sum add up to 100 |
| Aggregator.SharesBounds | functions.py:156-165 | percentages lie in [0, 100], sum to 100 for a positive row sum and are all 0 for a zero one |
| Aggregator.CreatePercentageTable | functions.py:156-165 | same countries in the same order, each cell its count's percentage of the row sum |
| Aggregator.MergeOnCountry | functions.py:185-187 | every merged row carries the given Year and a Total equal to the sum of its five counts; the pairing is `Aggregator.MergeIsPointwise` |
| Aggregator.SharesForUnique | functions.py:185 | among distinct countries a country matches exactly its own percentage row |
| Aggregator.MergeIsPointwise | functions.py:185 | when every frequency row has one partner, the merge pairs each with its partner |
| Aggregator.MergeAligned | functions.py:185 | merging the frequency and percentage tables pairs row i with row i and adds the year and Total |
| Aggregator.CreateSummarisedTable | functions.py:167-189 | indicator columns, frequency table, percentage table, merge; its properties are `Aggregator.SummaryMatchesFrequency`, `Aggregator.SummaryCountries` and `Aggregator.SummaryRowContents` |
| Aggregator.SummaryMatchesFrequency | functions.py:181-187 | each summary row has its frequency row's country, counts, Total = sum, the year, and shares over that Total |
| Aggregator.SummaryCountries | functions.py:167-189 | one summary row per country present in the classified table, and no other |
| Aggregator.SummaryRowCounts | functions.py:167-189 | each summary row holds the year and the country's class counts; Total = sum = row count > 0 |
| Aggregator.SummaryRowContents | functions.py:167-189 | counts, Total = sum = row count, and percentages in [0, 100] summing to 100 |
| Aggregator.RowsOfUniform | functions.py:131-132 | when every row has one country, its row count is the table's length |
| Aggregator.SingleCountrySummary | functions.py:167-189 | for an upload with one country: no row if the country is missing, else one row whose Total is the number of points |
| CountryYear.Key | src/app.py:50 | Country, a space, then `str(Year)` |
| CountryYear.NoSpaceInYear | src/app.py:49 | `str(Year)` holds no space |
| CountryYear.KeyInjective | src/app.py:50 | the key determines country and year, even for country names with spaces |
| CountryYear.Kept | src/app.py:48 | `dropna` keeps only complete points and never adds one; exactly the complete points, in order (`CountryYear.KeptMembers`) |
| CountryYear.KeptMembers | src/app.py:48 | `dropna` keeps exactly the complete points and invents none |
| CountryYear.KeptAll | src/app.py:48 | with nothing missing, `dropna` keeps every point in place |
| CountryYear.CountryYearPoints | src/app.py:48-50 | the kept points in order, each under its country and year |
| CountryYear.UniformKey | src/app.py:448-452 | the points of one upload share one key, and any kept point has a country |
| CountryYear.CountryYearSummary | src/app.py:48-50 | every summary row kept in order under its key |
| CountryYear.Insert | src/app.py:456-457 | insertion into a sorted table keeps it sorted and adds exactly that element |
| CountryYear.SortBy | src/app.py:456-457 | `sort_values(by='countryYear')`: a permutation sorted by key |
| Pipeline.FirstMissing | functions.py:102 | none exactly when every selected column exists; otherwise a missing one |
| Pipeline.ToPoints | functions.py:90-102 | each point carries its row's LAT, LONG, LC1, LC2, LAND_MNGT and Country cells unchanged |
| Pipeline.ClassifyFrame | functions.py:107-134 | KeyError for Country, IndexError for an empty table, Ok exactly with every read column and a row; the result is no longer than the table, with the year and first row's country |
| Pipeline.Process | functions.py:196-206 | the summary is createSummarisedTable of the classified points of the standardised table |
| Pipeline.ProcessLucasData | functions.py:196-206 | the caller's survey table is unchanged, the country table standardised in place, the result equals Process |
| Pipeline.UniformSummary | functions.py:167-189 | points of one country and year give at most one summary row, whose Total is the number of points |
| Pipeline.ProcessedUniform | functions.py:131-132 | every processed point has the year and the first point's country |
| Pipeline.ProcessedTotals | functions.py:196-206 | one upload: at most one summary row, of the points' country, with Total = sum of counts = number of points |
| Pipeline.ProcessedRowsBound | functions.py:196-206 | with unique ISO2 codes, no more points than survey rows |
| Pipeline.StandardisedLengthOfUnique | functions.py:36 | with unique ISO2 codes the join keeps exactly one row per survey row |
| Dashboard.ParseYear | src/app.py:33-40 | not a CSV exactly when "csv" is not in the name; a BadYear only for text `int()` refuses |
| Dashboard.ParseYearReads | src/app.py:35-39 | the year is `int()` of characters 3 to 6 for a CSV name of 18 characters or more, else of the four characters before the last four (fewer for a name under eight) |
| Dashboard.YearOf | src/app.py:36-39 | the year exactly when `int()` accepts the text, its value; otherwise a BadYear holding that text |
| Dashboard.LongNameYear | src/app.py:33-36 | a name of 18 or more characters gives the number in characters 3 to 6 |
| Dashboard.ShortNameYear | src/app.py:37-40 | a shorter name gives the four characters before ".csv" |
| Dashboard.LongNameWithoutYear | src/app.py:33-36 | "LUCAS_survey_2018.csv" is refused: its characters 3 to 6 are "AS_s" |
| Dashboard.LabelsDistinct | functions.py:146 | two class labels are equal only for the same class |
| Dashboard.CountBlock | src/app.py:67-68 | the melted counts of one class: one record per row with its key, label and count |
| Dashboard.StrippedNameIsLabel | src/app.py:75 | removing " %" from a percentage column name gives the class label |
| Dashboard.ShareBlock | src/app.py:71-75 | the melted percentages of one class: one record per row with its key, label and percentage |
| Dashboard.ReorderDf | src/app.py:53-79 | ValueError exactly when there are no stored rows |
| Dashboard.MatchingInShares | src/app.py:78 | a count record's key and class match exactly one percentage record |
| Dashboard.MeltCounts | src/app.py:67-68 | `pd.melt` of the count columns: the count blocks in class order; `Dashboard.RecordsLength` counts them |
| Dashboard.MeltShares | src/app.py:71-75 | `pd.melt` of the percentage columns with " %" removed: the share blocks in class order |
| Dashboard.MergeMelted | src/app.py:78 | the inner merge on countryYear and Class; `Dashboard.MergeAllBlocks` proves it equals the reference long format |
| Dashboard.MergeBlock | src/app.py:78 | joining a class's count records pairs each with its own row's percentage |
| Dashboard.MergeAllBlocks | src/app.py:67-79 | the merge of the melted tables is the reference long format, class by class |
| Dashboard.RecordsLength | src/app.py:67-79 | the reference long format has one record per class and row |
| Dashboard.ReorderDfRecords | src/app.py:53-79 | with one row per key: for each class in column order, each row's key, label, count and percentage; 5 records per row |
| Dashboard.LC2Conditional | src/app.py:248 | the LC2 cell for an Arable point, the empty string otherwise |
| Dashboard.Selected | src/app.py:500 | `isin(chosen_value)` keeps at most the stored points; exactly those under a chosen key, in order (`Dashboard.SelectedMembers`) |
| Dashboard.SelectedMembers | src/app.py:500 | a point is selected exactly when it is stored under a chosen key |
| Dashboard.SelectedAll | src/app.py:500 | choosing every stored key selects every point, in order |
| Dashboard.SelectedMonotone | src/app.py:500 | choosing more keys never drops a point |
| Dashboard.UpdateMap | src/app.py:493-503 | no update exactly for an empty choice; otherwise the selected points in order |
| Dashboard.MapShowsLC2OnlyForArable | src/app.py:494-503 | every shown point was stored under a chosen key, and shows its LC2 only if Arable |
| Storage.BatchOf | src/app.py:448-453 | processing errors passed on; refused exactly when no point survives `dropna`; otherwise the keyed points and summary |
| Storage.Upload | src/app.py:445-450 | the year error, or BatchOf of the processed upload |
| Storage.BatchIsOneKey | src/app.py:448-452 | a processed batch is one key: all points under the first point's key, one summary row under it, Total = points |
| Storage.UploadIsOneKey | src/app.py:445-452 | an accepted upload is one countryYear with one summary row counting its points |
| Storage.Keys | src/app.py:452 | the keys of the stored points |
| Storage.Outcome | src/app.py:452-453 | the upload's error, else Duplicate exactly when its key is stored, else accepted |
| Storage.PointsAfter | src/app.py:456 | DF1 unchanged on refusal, otherwise sorted by key and a permutation of old plus new points |
| Storage.SummariesAfter | src/app.py:457 | DF2 unchanged on refusal, otherwise sorted by key and a permutation of old plus new rows |
| Storage.Store.Append | src/app.py:452-457 | the answer is Outcome; DF1 and DF2 become PointsAfter and SummariesAfter |
| Storage.Store.UpdateStorage | src/app.py:437-463 | no upload changes nothing; the country table is standardised once the year is read; answer and tables as Outcome, PointsAfter and SummariesAfter |
| Storage.AcceptedUpload | src/app.py:452-457 | after acceptance the points under the new key are exactly the upload's, and the stored keys grow by that key alone |

## Left out

- The Dash layout, callbacks wiring, Plotly figures and GeoDataFrame geometry: user interface
  over libraries outside this model. `update_map` is modelled up to the selected points and their
  `LC2_conditional` cell.
- Base64 decoding and CSV parsing in `parse_contents`, `to_dict('records')` and
  `from_records`. The upload reaches the store as decoded table contents, and the stored
  records as typed rows.
- The initial DF1 and DF2 read from CSV files at start-up. The store starts from given tables.
- `initial-dataframes.py` is not part of this model.
- A `contents` string without a comma, which makes `parse_contents` raise before the year is
  read: I/O detail.
- Concurrency between Dash callbacks sharing the module globals. `update_storage1` is one
  sequential transition.
- `filterNonAgroforestryClasses`: it is not called (its call is commented out), and it cannot
  run as written.
- LAT and LONG are carried as cells, never inspected; geometry is not modelled.
- Aggregator.Percent: exact reals; the `round(..., 1)` of the percentage table is not modelled,
  so the sum of 100 holds before rounding only.
- Aggregator.CreateFrequencyTable: rows are listed in order of first appearance, while pandas'
  `groupby` sorts the countries. The contract states which countries appear, once each, and their
  counts, not their order. Within one upload there is at most one country.
- CountryYear.SortBy: an insertion sort; the relative order of equal keys, which pandas' default
  sort leaves unspecified, is not claimed.
- Pipeline.ClassifyFrame: when several selected columns are missing, pandas names them all in one
  KeyError; the model reports the first.
- Table.ColumnIndex: a frame with two columns of the same name is read through the first.
- Classifier.IsIn: a numeric LC1 or LC2 cell is in no code list, and a numeric Country cell
  counts as missing.
- Dashboard.ReorderDf: takes the stored summary rows, which always carry the five percentage
  columns, so the ValueError arises only for an empty store (records with no columns at all).
  `reorder_df` also adds `countryYear` to its argument in place; the model recomputes the key
  instead.
- Storage.Store.UpdateStorage: the ValueError raised for a duplicate upload is the returned
  `Duplicate` error, and the `to_dict('records')` copies it returns are not modelled: the
  store's fields are the result.
- Text.ReplaceAll: its contract covers a string without the pattern and a string with one
  leading occurrence; repeated occurrences are left to its definition.
- Text.NotAnInteger: like `Text.PyInt`, `Text.IsDigit` and `Text.IsSpace`, it knows only ASCII
  digits and ASCII whitespace. Python's `int()` also strips Unicode whitespace and accepts any
  Unicode decimal digit (a no-break space before the year, or full-width digits), which the
  model refuses; file names with such characters are not modelled.

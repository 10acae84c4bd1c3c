# DNA dataset figures and summary report, modelled in Dafny

The repository has two scripts, `create_visualizations.py` and `generate_report.py`. They read
three partitions of gene records: train, test and validation. Each record has a nucleotide
sequence, a gene symbol, a gene type, a gene-group method and a description, and any of these
cells may be missing. The scripts draw figures and print a summary report. Under the plotting
and printing lies a small set of exact computations:

- tagging the partitions and concatenating them (train, then test, then validation);
- the marker-stripped sequence length, in two variants:
  - the figures strip only `<`/`>` and measure a missing sequence as the text `"nan"`;
  - the report maps a missing sequence to 0 and strips whitespace after the markers;
- nucleotide composition and GC content over the stripped, upper-cased sequence;
- the symbol features: the leading upper-case prefix, ending in `P`, starting with `LOC`, and lengths;
- `value_counts` tables: the allow-listed counts behind the figures, and the report's unfiltered label tables with percentages over all rows;
- the per-partition breakdown of each gene type;
- leakage: the number of distinct sequences two partitions share;
- grouped length statistics (count, minimum, maximum and mean);
- the 50-character preview of the report.

This project states those computations in Dafny and proves the properties the scripts rely on.

Layout, one module per file:

- `pytext.dfy` (`PyText`) holds the Python string operations used:
  - `strip` with a character set, and `strip()` with Python's 29 whitespace characters;
  - ASCII `upper`, `count`, `startswith` and `endswith`.
- `records.dfy` (`Records`) holds records, columns and partitions.
- `counting.dfy` (`Counting`) holds value counts and percentages:
  - occurrence and missing-value counts, `nunique`;
  - `value_counts`, specified by the predicate `IsValueCounts`, which allows any order among equal counts, and implemented by a tally plus an insertion sort;
  - allow-list filtering, `head(n)`, percentages, and the distinct-value sets behind leakage.
- `features.dfy` (`Features`) holds per-record features.
- `stats.dfy` (`Stats`) holds minimum, maximum and mean, the grouped table, and the per-type statistics loop.
- `frames.dfy` (`Frames`) holds the DataFrame as a class. Derived columns are added to it in place. It also holds `load_data`.
- `visualizations.dfy` (`Visualizations`) holds the values each figure draws, and `main`.
- `report.dfy` (`Report`) holds each section of the printed report, and the whole report.
- `arith.dfy` (`Arith`) holds small lemmas about real multiplication and division.
- `wrappers.dfy` (`Wrappers`) holds `Option`.

A missing cell (pandas NaN) is `None`. Means and percentages are exact `real`s.

Behaviour of the two scripts that the model keeps, including their failures:

- `create_visualizations.py` gives a missing sequence length 3 (`len("nan")`) and strips only the markers. `generate_report.py` gives it 0 and also strips whitespace, after the markers.
- In `create_visualizations.py` a missing symbol makes the symbol flags NaN:
  - selecting rows with the `ends_with_P` flag then raises (`create_visualizations.py:333`);
  - casting the flags to integers then raises (`:361-362`).
- The length figure's statistics panel raises when no row has one of its six gene types, the empty table included (`create_visualizations.py:110-125`). This happens because reading `Mean` from the table built from an empty list fails.
- Apart from the failures listed under "## Left out", the figures script therefore finishes exactly when some row has one of those six types and every symbol is present. Otherwise the model returns no figures.
- The report's closing summary takes `value_counts().index[0]`, which raises when no row has a gene type (`generate_report.py:208`). The model then returns no report.
- Neither script checks for empty files, so empty partitions go through.

## Model

| member | source | states |
|---|---|---|
| PyText.Strip | create_visualizations.py:42 | `strip(cs)` returns a contiguous slice of the input. Every character before and after the slice is in `cs`. The slice neither starts nor ends with a character of `cs`. |
| PyText.StripUnique | create_visualizations.py:42 | The characterisation in `Strip`'s contract determines the result: any slice with only `cs` characters outside it and none at its ends is the stripped text. |
| PyText.StripIdempotent | create_visualizations.py:42 | Stripping a stripped string changes nothing. |
| PyText.StripNothing | generate_report.py:148 | A string whose ends are not in `cs` is returned unchanged. |
| PyText.StripSameLength | generate_report.py:148 | A strip that removes nothing returns the input, and the input's ends are not in `cs`. |
| PyText.UpperChar | create_visualizations.py:209 | ASCII `upper`: `a`..`z` map to `A`..`Z`, and every other character is kept. |
| PyText.Upper | create_visualizations.py:209 | Upper-casing keeps the length. |
| PyText.Count | create_visualizations.py:214 | `count(c)` is at most the length, and it is positive iff `c` occurs. |
| PyText.CountUpper | create_visualizations.py:209-218 | After upper-casing, the count of a letter is the sum of its upper- and lower-case counts before. |
| PyText.CountFourBound | create_visualizations.py:213-218 | The counts of four distinct characters add up to at most the length. |
| Records.ColumnOfConcat | create_visualizations.py:38 | Selecting a column commutes with concatenating tables. |
| Records.OccurrencesAcrossFiles | generate_report.py:111-116 | A value's count in the concatenated table is the sum of its counts in the three files. |
| Counting.Occurrences | generate_report.py:114 | `(col == v).sum()` is at most the number of rows, and it is positive iff some row holds `v`. |
| Counting.OccurrencesConcat | generate_report.py:70 | Counts add over concatenation. |
| Counting.NonMissing | generate_report.py:53 | `notna().sum()` is at most the number of rows, and it equals the number of rows iff no cell is missing. |
| Counting.Missing | generate_report.py:54 | `isna().sum()` plus `notna().sum()` is the number of rows. |
| Counting.NUnique | generate_report.py:55 | `nunique()` is at most the number of non-missing cells. |
| Counting.PresentValuesBound | generate_report.py:55 | There are no more distinct present values than present cells. |
| Counting.FirstAppearances | generate_report.py:76 | The distinct present values: no repeats, and exactly the values that occur. |
| Counting.Tally | generate_report.py:76 | One entry per distinct present value. Each carries its exact number of rows, and every present cell has its entry. |
| Counting.Insert | generate_report.py:76 | Inserting into a count list sorted by count keeps it sorted, and the result is a permutation of the input plus the new entry. |
| Counting.SortByCount | generate_report.py:76 | Sorting by count gives a permutation of the tally in non-increasing count order. |
| Counting.SortedTallyIsValueCounts | generate_report.py:76 | Any non-increasing permutation of the tally is a valid `value_counts()`, whatever the tie order. |
| Counting.ValueCounts | generate_report.py:76 | `value_counts()` has distinct keys, each with its exact count (at least 1), in non-increasing order, and covers every present value. |
| Counting.ValueCountsSum | generate_report.py:76-88 | The counts add up to the number of non-missing cells, which is at most the number of rows. |
| Counting.ValueCountsLength | generate_report.py:205 | The keys are exactly the present values, and the number of entries is `nunique()`. |
| Counting.ValueCountsHeadIsMax | generate_report.py:208 | The first entry's count is at least the count of every value. |
| Counting.CountOf | create_visualizations.py:169-171 | `counts.get(t, 0)` is 0 for a type not in the table. |
| Counting.CountOfValueCounts | create_visualizations.py:169-171 | `counts.get(t, 0)` on a `value_counts()` equals `t`'s number of rows, including 0 when absent. |
| Counting.CountOfAt | create_visualizations.py:169-171 | Looking up a key of a table with distinct keys returns that key's count. |
| Counting.Head | create_visualizations.py:311 | `head(n)` keeps the first `min(n, len)` entries. |
| Counting.HeadIsTop | create_visualizations.py:311 | `value_counts().head(n)` holds the most frequent values. Each entry's count is its number of rows, and no value left out occurs more often than any value kept. |
| Counting.TopValues | create_visualizations.py:311 | A value outside `head(n)` occurs at most as often as every kept entry. |
| Counting.KeepAllowed | create_visualizations.py:54 | The `isin` filter keeps only present cells whose value is on the allow-list, and never adds rows. |
| Counting.OccurrencesKeepAllowed | create_visualizations.py:54 | After the filter, a listed value keeps its count and an unlisted value has count 0. |
| Counting.AllowListedCounts | create_visualizations.py:52-54 | Allow-listed counts name only listed types, each with count at least 1. They sum to the number of listed rows (at most all rows), and there are no more entries than listed types. |
| Counting.PercentBounds | generate_report.py:84 | `count / total * 100` lies in [0, 100] for `count <= total`. It is positive for a positive count, and it is 100 iff `count == total`. |
| Counting.PercentAdd | create_visualizations.py:218 | Percentages over the same total add. |
| Counting.Overlap | create_visualizations.py:186-188 | `len(set(a) & set(b))` is at most the distinct count of either side. |
| Counting.OverlapPositive | create_visualizations.py:181-189 | Leakage is positive iff some row of one partition equals some row of the other. |
| Counting.OverlapSymmetric | create_visualizations.py:181-189 | Leakage is symmetric, and a partition overlaps itself in all its distinct values. |
| Counting.DuplicatesCountOnce | create_visualizations.py:181-189 | Adding a duplicate row changes neither the distinct set nor the leakage. |
| Features.Str | create_visualizations.py:42 | `str(x)` of a missing cell is `"nan"`, and otherwise the text itself. |
| Features.SeqLength | create_visualizations.py:41-43 | The figures' `seq_length` is 3 for a missing sequence and never exceeds the raw length. |
| Features.SeqLengthUnmarked | create_visualizations.py:42 | A sequence without markers is measured in full. |
| Features.ReportStripped | generate_report.py:148 | The report's stripped text is no longer than the marker-stripped text, and it has no whitespace at either end. |
| Features.ReportSeqLength | generate_report.py:145-149 | `get_seq_length` is 0 for a missing value and at most the raw length otherwise. |
| Features.ReportLengthAtMostSeqLength | generate_report.py:145-149 | The report's length never exceeds the figures' length. The two are equal iff the marker-stripped text has no whitespace at either end. |
| Features.MarkedSequenceLength | generate_report.py:144-149 | Both variants measure `<core>` as the length of `core`. |
| Features.WhitespaceShieldsMarkers | generate_report.py:148 | Whitespace outside the markers stops them from being stripped. The figures then count the whole text, and the report strips only the whitespace. |
| Features.Prepared | create_visualizations.py:209 | The text that composition counts in has the `seq_length` of the record. |
| Features.Bases | create_visualizations.py:210-218 | The A/T/G/C counts and the length of the prepared text. The four counts add up to at most the length. |
| Features.CountBases | create_visualizations.py:209-218 | Each base is counted in both cases, the total is `seq_length`, and the counts stay within it. |
| Features.Percentages | create_visualizations.py:213-219 | Each base is a percentage of the length, and GC is G + C. GC and the four-base sum lie in [0, 100]. |
| Features.CalcComposition | create_visualizations.py:208-219 | `calc_composition` gives all zeros for an empty stripped sequence, and otherwise each base's percentage of the length. GC is G + C and lies in [0, 100], and the four bases stay within 100. |
| Features.GcContentMatchesComposition | create_visualizations.py:365-369 | `gc_content(s)` equals the GC entry of `calc_composition(s)` for every input. |
| Features.GcOfMatches | create_visualizations.py:365-369 | The same agreement holds on the prepared text. |
| Features.UpperRun | create_visualizations.py:307 | The leading run of `A`..`Z` is a prefix, holds only upper-case letters, and cannot be extended. |
| Features.SymbolPrefix | create_visualizations.py:307 | The prefix is present iff the symbol is present and starts with `A`..`Z`. It is then the longest upper-case leading run and a prefix of the symbol. |
| Features.EndsWithP | create_visualizations.py:332 | NaN iff the symbol is missing, and otherwise true iff its last character is `P`. |
| Features.StartsWithLoc | create_visualizations.py:362 | NaN iff the symbol is missing, and otherwise true iff it begins with `LOC`. |
| Features.TextLength | create_visualizations.py:341 | `.str.len()` is NaN iff the cell is missing, and otherwise the number of characters. |
| Features.Preview | generate_report.py:191-193 | A value longer than 50 characters becomes its first 50 characters plus `...` (length 53). Any other value, NaN included, is kept. |
| Features.PreviewIdempotent | generate_report.py:191-193 | Previewing a preview changes nothing. |
| Stats.Min | generate_report.py:156 | `min()` is an element and is at most every element. |
| Stats.Max | generate_report.py:157 | `max()` is an element and is at least every element. |
| Stats.MeanWithin | generate_report.py:158 | Bounds on every element bound the mean. |
| Stats.MeanBetween | generate_report.py:156-158 | `min <= mean <= max`. |
| Stats.Describe | generate_report.py:156-158 | The length statistics exist iff the column is non-empty. The minimum and maximum are elements bounding all others, and the mean is the column's mean, between them. |
| Stats.GroupLengths | create_visualizations.py:112 | A type's lengths: one per row of that type. Every row of the type contributes its length, every entry is the length of some row of the type, and each length occurs exactly as often as there are rows of the type with that length. |
| Stats.Row | generate_report.py:168 | A grouped row carries its type's row count, the smallest and largest length of the group, and the group's mean, which lies between them. |
| Stats.Rows | generate_report.py:168 | One grouped row per `value_counts()` entry, in the same order and with the same counts. |
| Stats.GroupedTable | generate_report.py:168-169 | The table has one row per present gene type and no row for missing types. Each row holds its group's count, minimum, maximum and mean, and rows are in non-increasing count order. |
| Stats.GroupedRowsFollowCounts | generate_report.py:168-169 | Rows built from a `value_counts()` are distinct, sorted by count, as many as `nunique()`, and cover every present type. |
| Stats.TypesWithRows | create_visualizations.py:111-113 | The listed types that have at least one row, in list order. |
| Stats.TypeStats | create_visualizations.py:110-119 | The statistics loop appends exactly the listed types that have rows, in list order, each with the mean length of its non-empty group. |
| Frames.Frame.constructor | create_visualizations.py:28-30 | A table as read holds the file's rows and no derived column. |
| Frames.Frame.TagSource | create_visualizations.py:33-35 | Every row is tagged with its partition's name (`train`, `test` or `validation`), and nothing else changes. |
| Frames.Frame.AddSeqLength | create_visualizations.py:41-43 | Adds `seq_length` in place, one entry per row, each the figures' length of that row. |
| Frames.Frame.AddReportSeqLength | generate_report.py:151 | Adds the report's `seq_length` in place, each entry `get_seq_length` of the row. |
| Frames.Frame.AddSymbolPrefix | create_visualizations.py:307 | Adds `symbol_prefix` in place, one entry per row. |
| Frames.Frame.AddEndsWithP | create_visualizations.py:332 | Adds `ends_with_P` in place, NaN where the symbol is missing. |
| Frames.Frame.AddSymbolLength | create_visualizations.py:341 | Adds `symbol_length` in place. |
| Frames.Frame.AddDescLength | create_visualizations.py:360 | Adds `desc_length` in place. |
| Frames.Frame.AddSymbolFlags | create_visualizations.py:361-362 | The integer casts succeed iff every symbol is present, and both flag columns are then written. On failure neither column changes. |
| Frames.Concat | create_visualizations.py:38 | The concatenated table holds the rows of the three tables in order, with their tags in the same order. |
| Frames.ReadTagged | create_visualizations.py:28-35 | One file's table with no derived columns, every row tagged with its partition's name. |
| Frames.LoadData | create_visualizations.py:24-45 | The combined table has `len(train)+len(test)+len(val)` rows, in that order. Each row carries its own partition's name, and `seq_length` is added per row. The three partition tables are tagged `train`, `test` and `validation` row by row. |
| Visualizations.AllowedTypeCounts | create_visualizations.py:52-54 | The allow-listed gene counts are a `value_counts()` of the listed rows. Only listed types appear, each with count at least 1. They sum to the number of listed rows (at most all rows), and there are at most as many entries as listed types. |
| Visualizations.ClassCount | create_visualizations.py:403-404 | `n_classes` is the number of entries of the allow-listed counts, at most 10. |
| Visualizations.Ratio | create_visualizations.py:290 | `max / count` times `count` is `max`. It is at least 1, and exactly 1 iff the count is the maximum. |
| Visualizations.ImbalanceRatios | create_visualizations.py:289-290 | One ratio per type: the largest count divided by the type's count. Each is at least 1, and exactly 1 for the largest classes. |
| Visualizations.ImbalanceOrdered | create_visualizations.py:289-290 | On counts sorted by count, the first ratio is 1 and the ratios never decrease. |
| Visualizations.Bar | create_visualizations.py:169-171 | `counts.get(t, 0)` is the type's number of rows in the partition, 0 when absent. |
| Visualizations.SplitCounts | create_visualizations.py:162-171 | One triple per listed type, each entry being the type's number of rows in train, test and validation. |
| Visualizations.SplitCountsAddUp | create_visualizations.py:162-171 | For every listed type, the three bars add up to its count in the combined table. |
| Visualizations.LeakageOf | create_visualizations.py:181-189 | The three bars are the overlaps of train and test, train and validation, and test and validation. Each is at most the distinct count of both partitions, and each is positive iff some sequence occurs in both. |
| Visualizations.DataSplitAnalysis | create_visualizations.py:146-189 | The sizes are the three partition lengths, adding up to the combined row count. The bars are the per-split counts, one triple per listed type adding up to the type's combined count. The leakage bars are the pairwise overlaps. |
| Visualizations.SequenceLengthStats | create_visualizations.py:109-125 | The panel fails iff none of the six listed types has rows. Otherwise it names those types that have rows, in order, each with its group's mean `seq_length`. |
| Visualizations.Prefixes | create_visualizations.py:307 | The `symbol_prefix` column, row by row. |
| Visualizations.EndingWithP | create_visualizations.py:333 | The selected rows are exactly the rows whose symbol ends with `P`, each as many times as in the table. |
| Visualizations.SymbolPatterns | create_visualizations.py:307-341 | Adds `symbol_prefix` and `ends_with_P` in place, each holding its per-row value. The top 15 prefixes are the most frequent. The suffix figure fails iff some symbol is missing, and then `symbol_length` is not added. Otherwise the figure holds the 5 most frequent types among `P`-ending symbols, and `symbol_length` holds each row's symbol length. |
| Visualizations.CorrelationFeatures | create_visualizations.py:358-362 | Writes `seq_length`, `symbol_length` and `desc_length` per row. The integer flags are written, with their per-row values, iff no symbol is missing. Otherwise both flag columns are left as they were. |
| Visualizations.SummaryDashboard | create_visualizations.py:396-447 | Total rows equal the sum of the split sizes, which are the three partition lengths. The gene counts are the allow-listed counts, and the class count is their number (at most 10). Leaked is the train/test overlap. The mean length exists iff there are rows and is then their mean, between min and max. |
| Visualizations.SymbolFigures | create_visualizations.py:495-496 | The symbol figure, then the correlation features, on the shared table. It always adds the prefix and `ends_with_P` columns with their per-row values, and gets through iff no symbol is missing. Then it adds the length columns and flags with their per-row values; otherwise it leaves them as they were. |
| Visualizations.TableFigures | create_visualizations.py:491-496 | The figures drawn on the shared combined table, which add their columns to it in place. Apart from the failures under "## Left out", the run gets through iff some row has a six-list type and every symbol is present. Then it gives the length statistics with their group means, the top 15 prefixes and the top 5 `P`-suffix types, and every added column holds its per-row value. A failing length panel leaves the table unchanged. A missing symbol leaves the length and flag columns as they were. |
| Visualizations.FrameFigures | create_visualizations.py:483-497 | `load_data` followed by the figures on the combined table: one `seq_length` per row of the three files. When the run gets through (iff some row has a six-list type and every symbol is present, apart from the failures under "## Left out"), it gives the length statistics with their means, the top 15 prefixes and the top 5 `P`-suffix types. |
| Visualizations.CreateVisualizations | create_visualizations.py:483-497 | Apart from the failures under "## Left out", the run completes iff some row has one of the six length-figure types and every symbol is present. Each figure is then its function's value: allow-listed gene counts, length statistics with group means, split analysis, imbalance ratios, top prefixes, `P`-suffix types and dashboard. |
| Report.DatasetOverview | generate_report.py:33-37 | The printed total equals the sum of the three file row counts, which is the combined row count. Each file has 5 columns. |
| Report.Summary | generate_report.py:52-55 | For one column, non-null plus null is the row count, unique is at most non-null, and null is 0 iff no cell is missing. |
| Report.ColumnSummaries | generate_report.py:46-61 | One summary per column, in column order, each with those properties. |
| Report.LabelRowOf | generate_report.py:83-85 | A printed line carries a positive count and its percentage of all rows, in (0, 100]. |
| Report.LabelRows | generate_report.py:83-85 | One printed line per `value_counts()` entry, in order, each percentage in (0, 100]. |
| Report.LabelTable | generate_report.py:76-85 | The gene-type (and method, lines 126-134) table has one line per present value, with exact positive counts in non-increasing order and percentages in (0, 100]. |
| Report.LabelRowsFollowCounts | generate_report.py:76-85 | The table has `nunique()` lines and covers every present value. |
| Report.SumPercentOfCounts | generate_report.py:83-88 | The printed percentages add up to the percentage of the summed counts. |
| Report.FooterHolds | generate_report.py:88 | The hard-coded `100.00` footer is the true sum of the percentages iff the table is non-empty and no gene type is missing. |
| Report.BreakdownByFile | generate_report.py:105-116 | The nested loop yields one line per gene type and one cell per file, each cell being the type's row count in that file. |
| Report.BreakdownAddsUp | generate_report.py:111-116 | A type's three file counts add up to its count over all rows. |
| Report.FileBreakdown | generate_report.py:96-116 | The per-file table (`IsFileBreakdown`): three cells per gene type, its counts in train, test and validation in that order, adding up to the type's all-data count. |
| Report.MostCommon | generate_report.py:208 | `index[0]`/`iloc[0]` exists iff some gene type is present. It is then the first line of the section-3 gene-type table, a value with its exact count, no smaller than any other count. |
| Report.Names | generate_report.py:102 | `gene_type_counts.index.tolist()`: the labels, in table order. |
| Report.SampleRows | generate_report.py:190-193 | At most five rows, other cells kept, each sequence being the preview of the original one: at most 53 characters, and unchanged when at most 50. |
| Report.CombinedLengths | generate_report.py:151 | The report's `seq_length` column of the combined table, one entry per row, in order. |
| Report.GenerateSummaryReport | generate_report.py:20-212 | The report exists iff some gene type is present. Each section is then its function's value: overview, column summaries, gene-type and method tables, length statistics and overall mean, grouped table over the report's lengths, and sample. The most common type is the first line of the gene-type table, and so a maximum. Each breakdown line holds the type's count in train, test and validation, adding up to its all-data count. |

## Left out

- Drawing: all matplotlib and seaborn rendering, layout, colours, file saving and every `print`. Only the values drawn or printed are modelled.
- File I/O: reading the CSV files and the hard-coded paths. The three partitions are parameters.
- Random sampling of 5000 rows (`create_visualizations.py:222`, `:371`) and everything computed from the sample: the mean composition, the GC histogram, `gc_by_type` (`:251`) and the correlation matrix (`:376`). `calc_composition` and `gc_content` themselves are modelled on any input.
- Median and standard deviation (`create_visualizations.py:82-83, 117-118`, `generate_report.py:159-160`), and the figure histograms. These are floating-point numerics.
- Floating point: means and percentages are exact reals, so rounding and the `:.2f` formatting are not modelled.
- Other failures of the plotting library on unusual data are not modelled.
- Visualizations.CreateVisualizations and Report.GenerateSummaryReport: a failing run is `None`, so the model does not keep what the scripts produced before the exception. The figures saved before the failing one, and the report sections printed before the closing summary, are not modelled.
- Columns missing in every row. pandas then reads the column as floating point. `.str` on it raises: for example `.str.len()` of an all-missing Description (`create_visualizations.py:360`) fails, while the model computes a missing length per row. The NaNs of such a column are also distinct values inside `set()` (`create_visualizations.py:181-183`), whereas `Counting.Overlap` counts a missing cell as one shared value.
- The prefix-by-gene-type cross table (`create_visualizations.py:318-328`). It is a plotted pivot whose `.loc` lookup can also raise for unusual data (no prefixes, or a top prefix whose rows all lack a gene type), and neither the table nor these failures are modelled.
- The dashboard's literal label and issue strings (`create_visualizations.py:448, 454-460`). They are constants, not computed.
- The `dtype` line of the column summary (`generate_report.py:52`), which is pandas type inference.
- Unicode case mapping: `upper` is modelled on ASCII only. Non-ASCII letters are kept as they are, whereas Python can map them, sometimes to longer strings.
- Non-text cells: every present cell is text. pandas may parse a numeric-looking column as numbers, and this is not modelled.
- `concat` of tables with different columns (NaN filling) is not modelled. Every table has the five record columns.
- The order of figures in `main`: the figures that do not change the combined table are computed as pure functions. Only the symbol and correlation figures, which add columns, run in sequence on the shared `Frame`.

# Filter pipeline of the dataset dashboard

The dashboard (`app.py`) loads a table and shows it in a Streamlit page. Then it
builds a filtered copy, `df_filtrado`, and narrows it in four fixed stages:

1. **Numeric ranges.** There is one inclusive `[min, max]` slider per numeric
   (`float64`/`int64`) column. Each slider starts at the column's observed
   minimum and maximum in the unfiltered copy. All the sliders are read first
   (the `filtros` dictionary) and then applied one after another.
2. **Categorical selections.** There is one multiselect per `object`/`category`
   column. Its options are the distinct non-missing values still present in the
   narrowed table, and all of them are selected by default. The rows whose value
   is not selected are dropped.
3. **Text search.** The user picks one `object` column and one term. The terms
   on offer are the distinct non-missing values of the original table. The rows whose value
   does not contain the term, ignoring case, are dropped. A missing value never
   matches. This stage runs only in the run in which its button is clicked.
4. **Single value.** The user picks one numeric column and one value. The values
   on offer are the sorted distinct numbers of the original table. The rows
   whose value is not exactly equal to it are dropped. This stage also runs only
   in the run in which its button is clicked.

The model has five modules:

- `Text`: ASCII case folding and substring search.
- `DataFrame`: values, rows, the table, column kinds, the four kinds of boolean
  mask, and two ways to apply a list of masks. `Where` applies them all at
  once. `Cascade` applies them one at a time, reassigning the rows each time.
- `ColumnStats`: what is read off a column to build its control. That is
  `dropna().unique()`, `min()`/`max()`, and the sorted `unique()` values.
- `Widgets`: what each widget returns, given what the user did with it.
- `FilterPipeline`: the stages, the specification `Run` of one script run, the
  methods that carry out that run step by step as the script does, and the
  lemmas about `Run`.

A value is `Missing` (NaN/None), `Num(int)` or `Str(string)`. Columns are
given with their kinds, and masks refer to columns by position. Streamlit
re-runs the whole script on each interaction. So one run is modelled as a pure
computation. Its inputs are the loaded table and a `Controls` value that records
what the user did with each widget. A button is true only in the run in which
it is clicked.

## Model

| member | source | states |
|---|---|---|
| `DataFrame.NumericColumns` | app.py:72 | The positions of the `float64`/`int64` columns, in column order. |
| `DataFrame.CategoricalColumns` | app.py:73 | The positions of the `object`/`category` columns, in column order. |
| `DataFrame.StringColumns` | app.py:74 | The positions of the `object` columns, in column order. |
| `DataFrame.BoundsWithin` | app.py:84-89 | A range admits no value another rejects: it is NaN, or lies inside the other. |
| `DataFrame.SelectDtypes` | app.py:72-74 | The result is the positions of exactly the columns whose kind is included, in increasing order. |
| `DataFrame.InBounds` | app.py:89 | The inclusive range test `(v >= lo) & (v <= hi)`: true only for a number within both ends, and false against NaN bounds. |
| `DataFrame.Holds` | app.py:89-131 | The four row tests: inside a range, member of a list, containing the term ignoring case (a missing value never does), and equal to a picked number. |
| `DataFrame.Where` | app.py:89 | Applying masks never adds rows. |
| `DataFrame.WhereMembers` | app.py:89 | A row is kept iff it is in the input and passes every mask. |
| `DataFrame.WhereCounts` | app.py:89 | A passing row is kept as many times as it occurs in the input; a failing one is never kept. |
| `DataFrame.Cascade` | app.py:88-131 | The reassignment of the working rows, one mask at a time, each over the rows the earlier ones left. |
| `DataFrame.WhereIsSubsequence` | app.py:89 | Filtering by masks yields an order-preserving subsequence of the input rows. |
| `DataFrame.WhereWhere` | app.py:88-102 | Filtering the filtered rows by more masks is the same as filtering once by all the masks together. |
| `DataFrame.CascadeIsWhere` | app.py:88-89 | Reassigning the working rows mask by mask gives exactly the rows that pass the conjunction of the masks, in their original order. |
| `DataFrame.WhereCongruent` | app.py:89 | Two mask lists that agree on every row of the table select the same rows. |
| `DataFrame.MaskOrderIrrelevant` | app.py:88-131 | Any two mask lists holding the same masks select the same rows. This is about masks fixed in advance, such as those `RunIsConjunction` reads off a run; the stages themselves cannot be reordered freely (see "## Left out"). |
| `DataFrame.WhereNarrows` | app.py:88-131 | Masks that are stricter on every row keep a subsequence of what laxer masks keep. |
| `DataFrame.RangeTightening` | app.py:84-89 | Shrinking one numeric range can only remove rows from what the wider range keeps. `FilterPipeline.TighterSlidersNarrow` lifts this to whole runs. |
| `DataFrame.ContainsNeedsText` | app.py:116 | A row that passes text tests has a string in each searched column (`na=False`). |
| `DataFrame.EqualToNeedsNumber` | app.py:131 | A row that passes equality tests has a number in each compared column. |
| `DataFrame.MaskRejectsMissing` | app.py:88-131 | No mask lets a missing value through, except a membership test whose members include Missing. |
| `Text.SubstringAt` | app.py:116 | A term that occurs at some offset of the value is found. |
| `Text.ContainsIgnoringCase` | app.py:116 | The `case=False` test: the lower-cased term is a substring of the lower-cased value. |
| `Text.SubstringHasOffset` | app.py:116 | A term that is found occurs at some offset of the value. |
| `Text.CaseOfTermIrrelevant` | app.py:116 | Upper-casing the search term does not change which values it finds (`case=False`). |
| `Text.CaseOfValueIrrelevant` | app.py:116 | Upper-casing the searched value does not change whether the term is found (`case=False`). |
| `Text.LiteralOccurrenceFound` | app.py:116 | A term occurring in the value exactly as written is found. |
| `Text.VirginicaExample` | app.py:116 | "vir" and "VIR" both find "virginica", and "vir" does not find "setosa". |
| `ColumnStats.DropnaUnique` | app.py:100 | The options are exactly the non-missing values of the column. |
| `ColumnStats.DropnaUniqueDistinct` | app.py:100 | Each option is listed once. |
| `ColumnStats.Numbers` | app.py:126 | The numbers kept are exactly the numeric values of the column. |
| `ColumnStats.Min` | app.py:83 | The observed minimum is absent iff there are no numbers; otherwise it is one of them and at most every one of them. |
| `ColumnStats.Max` | app.py:83 | The observed maximum is absent iff there are no numbers; otherwise it is one of them and at least every one of them. |
| `ColumnStats.ObservedBounds` | app.py:83 | The default slider range is `lo <= hi` with both ends taken from the column. It is NaN iff the column has no number. |
| `ColumnStats.ObservedBoundsAdmitEveryNumber` | app.py:82-89 | With the default range, a value of the column passes the range test iff it is a number. |
| `ColumnStats.ConsIncreasing` | app.py:127 | Putting a number smaller than every element in front of an increasing list keeps it increasing. |
| `ColumnStats.Insert` | app.py:127 | Inserting into an increasing list keeps it increasing and adds exactly the new element. |
| `ColumnStats.SortedDistinct` | app.py:126-127 | The result is strictly increasing and holds exactly the elements of the input. |
| `ColumnStats.SortedOptions` | app.py:126-127 | The offered values are strictly increasing and are exactly the numbers present in the column. |
| `Widgets.Selectbox` | app.py:123-128 | There is no selection iff there are no options. A selection is one of the options, and it is the one the user picked when that pick is in range. |
| `Widgets.Slider` | app.py:84 | An untouched slider returns its default, the observed range; a moved one returns the pair the user set. |
| `Widgets.Multiselect` | app.py:101 | The selection is the options the user chose, or every option while the widget is untouched. |
| `FilterPipeline.RangeMask` | app.py:82-85 | The range of the `i`-th slider is a range test on the `i`-th numeric column. |
| `FilterPipeline.RangeMaskUntouched` | app.py:83-84 | An untouched slider filters by the column's observed minimum and maximum in the unfiltered copy. |
| `FilterPipeline.RangeMaskMoved` | app.py:84-85 | A moved slider filters by the pair the user set. |
| `FilterPipeline.RangeMasks` | app.py:79-85 | The dictionary `filtros` in insertion order: one range per numeric column. |
| `FilterPipeline.CategoryMask` | app.py:100-102 | The membership test of a categorical column over the current working rows: the selected options among its distinct non-missing values. |
| `FilterPipeline.CategoryStep` | app.py:102 | One pass of the categorical loop keeps the working rows whose value is selected. |
| `FilterPipeline.CategoryStage` | app.py:99-102 | The working rows after the first `k` passes, each pass over the rows the previous one left. |
| `FilterPipeline.CategoryMaskAdmits` | app.py:100-102 | The membership test of a categorical column admits exactly the chosen non-missing values still present in the narrowed rows. Missing is never a member. |
| `FilterPipeline.CategoryMasks` | app.py:99-102 | The first `k` categorical columns apply exactly `k` tests. |
| `FilterPipeline.CategoryMasksShape` | app.py:99-102 | There is one membership test per categorical column, in column order, and none of them admits Missing. |
| `FilterPipeline.CategoryMasksAt` | app.py:99-102 | The `i`-th test of the categorical loop is the membership test built over the rows the first `i` passes left, on the `i`-th categorical column. |
| `FilterPipeline.CategoryStageIsWhere` | app.py:99-102 | The categorical loop keeps exactly the rows that pass every membership test it builds, in order. |
| `FilterPipeline.WhereSnoc` | app.py:102 | One more pass filters the rows left by the earlier tests, which is filtering once by all of them. |
| `FilterPipeline.SearchColumn` | app.py:112 | The searched column is one of the string columns. |
| `FilterPipeline.SearchTerm` | app.py:113-114 | The picked term, if any, is a non-missing value of the searched column in the original table. |
| `FilterPipeline.StrAccessorRefuses` | app.py:116 | pandas' `.str` accessor refuses a column that holds a number and no string. |
| `FilterPipeline.SearchMasks` | app.py:111-116 | Without string columns or without a click the search does nothing. On a click it fails with the `.str` error when the working rows hold a number and no string in the searched column. Otherwise it is the `contains` test of the picked column and term when the term is a string, and the `str.contains` error when it is not or there is none. |
| `FilterPipeline.SearchOkIgnoresRows` | app.py:111-116 | A successful search yields a test fixed by the table and the three search controls. The working rows only decide whether the `.str` accessor refuses. |
| `FilterPipeline.ValueColumn` | app.py:123 | The matched column is one of the numeric columns. |
| `FilterPipeline.ValueChoice` | app.py:126-128 | The picked value, if any, is a number of the matched column in the original table. There is none iff that column holds no number. |
| `FilterPipeline.ValueMasks` | app.py:123-131 | Without numeric columns or without a click the match does nothing. On a click it is the equality test of the picked column and value, unless that column's name is empty. Every test it yields is on a named numeric column with a value from that column, or keeps nothing when there is no value. |
| `FilterPipeline.ValueMasksReadControls` | app.py:123-131 | The match is fixed by the table and the three value controls. |
| `FilterPipeline.Narrowed` | app.py:69-102 | The working rows after the range and categorical stages: the ranges one after another over the loaded rows, then the categorical loop. |
| `FilterPipeline.Search` | app.py:111-116 | The search as built for a run, checked against the narrowed rows. |
| `FilterPipeline.Run` | app.py:69-131 | One run of the script: the four stages in order, each over the rows the previous one left. A successful run keeps the loaded table's columns. |
| `FilterPipeline.RunIsConjunction` | app.py:69-131 | A run fails only through the search. A successful run keeps exactly the loaded rows that pass the conjunction of every mask it applied, in order. |
| `FilterPipeline.RunNarrows` | app.py:69-131 | The filtered table has the loaded table's columns. Its rows are an order-preserving subsequence of the loaded rows. |
| `FilterPipeline.RangeMasksNeedNumbers` | app.py:88-89 | A row passing the range filters has a number in every numeric column. |
| `FilterPipeline.CategoryMasksNeedValues` | app.py:99-102 | A row passing the categorical filters has a value in every categorical column. |
| `FilterPipeline.KeptRowPassesEveryStage` | app.py:89-131 | A kept row is a loaded row that passes the masks of each of the four stages. |
| `FilterPipeline.StagesDropMissing` | app.py:88-131 | A row that passes the masks of each stage has a number in every numeric column and a value in every categorical column. It also has a string in the searched column and a number in the matched column. |
| `FilterPipeline.RunDropsMissing` | app.py:88-131 | A kept row has a number in every numeric column and a value in every categorical column. It has a string in the searched column and a number in the matched column. |
| `FilterPipeline.ClicksFilterQuietRun` | app.py:111-131 | A click applies exactly the tests it selects: a successful run keeps exactly the rows of the same run without clicks that pass the search and single-value tests. |
| `FilterPipeline.PressingOnlyNarrows` | app.py:115-131 | With both buttons unclicked a run never fails. Clicking a button only removes rows from what the same run keeps without the click. |
| `FilterPipeline.NoStringColumnsNoSearch` | app.py:111 | Without string columns the search is skipped entirely. The run cannot fail, and the search button makes no difference. |
| `FilterPipeline.MixedTableNumeric` | app.py:72 | In the two-column example (an object column `x`, an integer column `n`), `n` is the only numeric column. |
| `FilterPipeline.MixedTableCategorical` | app.py:73 | In that example `x` is the only categorical column. |
| `FilterPipeline.MixedTableStrings` | app.py:74 | In that example `x` is the only string column. |
| `FilterPipeline.OneSliderMoved` | app.py:82-85 | With a single numeric column, moving its slider gives the single range the user set. |
| `FilterPipeline.MixedTableRangeMasks` | app.py:82-85 | In the example the `n` slider set to [5, 5] gives the range [5, 5] on `n`. |
| `FilterPipeline.MixedTableRanged` | app.py:88-89 | That range keeps only the row (1, 5). |
| `FilterPipeline.KeptRowCategoryStep` | app.py:100-102 | Over that row, the untouched multiselect on `x` offers and keeps its one value, the number 1. |
| `FilterPipeline.MixedTableNarrowed` | app.py:79-102 | The first two stages of the example leave the row (1, 5). |
| `FilterPipeline.MixedTableSearchOptions` | app.py:113 | The terms offered for `x` are "a" and 1, from the original table. |
| `FilterPipeline.MixedTableTerm` | app.py:112-114 | The search picks column `x` and the term "a". |
| `FilterPipeline.KeptRowRefusesSearch` | app.py:116 | Over the row (1, 5), `x` holds only a number, so the clicked search fails with the `.str` error. |
| `FilterPipeline.LoadedRowsAcceptSearch` | app.py:116 | Checked against the loaded rows, where `x` holds "a" and 1, the same search succeeds with the `contains` test for "a". With `NumbersOnlyColumnStopsSearch` this shows that the stage order decides whether a search fails. |
| `FilterPipeline.NumbersOnlyColumnStopsSearch` | app.py:69-131 | The example's run stops with the `.str` error although the picked term is a string. |
| `FilterPipeline.LoadedMasks` | app.py:99-102 | The multiselects' membership tests as built over the loaded table, one per categorical column in order. |
| `FilterPipeline.NarrowedMultiselect` | app.py:100-102 | Over loaded rows, a multiselect whose options are read off those rows keeps the same rows as the same selection offered every loaded value of its column. |
| `FilterPipeline.NarrowedStep` | app.py:100-102 | After earlier filters over loaded rows, one pass of the categorical loop removes exactly what the same multiselect built over the loaded table removes. |
| `FilterPipeline.CategoryStageOverLoaded` | app.py:99-102 | Over loaded rows, the categorical loop keeps exactly the rows passing the multiselects built over the loaded table, in order, for any selections. |
| `FilterPipeline.RunOverLoaded` | app.py:69-131 | A successful run keeps exactly the loaded rows that pass the ranges, the multiselects built over the loaded table, the search and the match, in order. |
| `FilterPipeline.SlidersWithin` | app.py:79-89 | Every range of one slider setting lies within the matching range of another. |
| `FilterPipeline.TighterRangesNarrow` | app.py:84-89 | Tighter ranges, followed by any fixed tests, keep a subsequence of the rows the wider ones keep. |
| `FilterPipeline.TighterSlidersNarrow` | app.py:79-131 | Tightening the sliders, with every other control the same, only removes rows from the run's result, when both runs succeed. |
| `FilterPipeline.OptionMasks` | app.py:99-102 | The untouched multiselects' membership tests over the loaded table. Each offers and selects every non-missing loaded value. |
| `FilterPipeline.DefaultMasks` | app.py:79-102 | The untouched sliders' ranges followed by the untouched multiselects' tests. |
| `FilterPipeline.UntouchedRangesMeanNumbers` | app.py:82-89 | With untouched sliders, a loaded row passes every range iff it has a number in every numeric column. |
| `FilterPipeline.UntouchedOptionsMeanValues` | app.py:99-102 | With untouched multiselects over the loaded table, a row passes iff it has a value in every categorical column. |
| `FilterPipeline.DefaultMasksMeanComplete` | app.py:82-102 | The untouched masks remove exactly the rows with a missing value in a numeric or categorical column. |
| `FilterPipeline.UntouchedRun` | app.py:69-131 | A run with nothing touched equals filtering the loaded rows once by the default masks. |
| `FilterPipeline.UntouchedKeepsCompleteTable` | app.py:69-131 | On a table with no missing numeric or categorical value, a run with nothing touched returns the table unchanged. |
| `FilterPipeline.BuildRangeFilters` | app.py:79-85 | The loop builds one slider range per numeric column over the unfiltered copy, in column order. |
| `FilterPipeline.ApplyRangeFilters` | app.py:88-89 | The loop keeps exactly the rows inside every range, as an order-preserving subsequence. |
| `FilterPipeline.ApplyCategoryFilters` | app.py:99-102 | The loop gives the categorical stage's rows, as an order-preserving subsequence. |
| `FilterPipeline.ApplyTextSearch` | app.py:111-116 | The block fails with the search's own error when it fails, including the `.str` error on a working column with a number and no string, and otherwise keeps exactly the rows passing the search's tests. |
| `FilterPipeline.ApplyValueFilter` | app.py:123-131 | The block filters by the single-value mask, if there is one. |
| `FilterPipeline.ApplyFilters` | app.py:69-131 | The step-by-step run equals `Run`. On success it keeps the columns and yields a subsequence of the loaded rows. |

## Left out

- Dataset loading is foreign library input/output and is not part of this model. That covers CSV/Excel parsing and the two scikit-learn sample tables (app.py:43-58). The loaded table is an input.
- Column kind inference by `select_dtypes` is not modelled (app.py:72-74). Each column's kind is given with the table, and only the selection by kind is modelled.
- Widget rendering is not modelled: the page layout, messages, tables and sidebar text (app.py:18-37, 62-63, 136-137). Widget outputs are inputs. A slider moved by the user is taken as given. Streamlit's own checks on slider arguments are not modelled, such as a column whose minimum equals its maximum or that has no numbers.
- `describe()` statistics (app.py:67, 141) are not modelled. They are floating-point computations inside pandas.
- The histogram, scatter and box charts (app.py:143-172) are not modelled. They are presentation only.
- Floating point is not modelled. Numbers and slider bounds are integers. A column without numbers has NaN bounds, and they keep no row.
- `Text.ContainsIgnoringCase`: `str.contains` treats the term as a regular expression (`regex=True` by default). The model is a plain substring test, faithful only for terms without regular-expression metacharacters.
- `Text.ContainsIgnoringCase`: only ASCII letters are case-folded, not the full Unicode folding of `re.IGNORECASE`.
- The text stage has two errors, and the model returns them without modelling the exception display. First, pandas' `.str` accessor raises an AttributeError when the searched column of the working rows holds a number and no string (its inferred dtype is then numeric); this is `Err(NotTextColumn)`, and it is checked before the term. Second, `str.contains` raises a TypeError when the picked term is not a string or there is no term; this is `Err(SearchTermNotText)`. Both stop the run.
- Columns are referred to by position. The script refers to them by name. This agrees with the script for tables with distinct column names, which is what the loaders produce. Names matter only where the script tests the selected column name for truth before the single-value filter (app.py:125). An empty name reads as false there.
- `ColumnStats.SortedOptions` models numpy's in-place `.sort()` of the candidate array (app.py:127) as a function on sequences. The array update in place is not modelled.
- `Widgets.Selectbox`: a pick beyond the end of the options reads as Streamlit's default, the first option. The user cannot make such a pick in the page.
- Untouched filters do not always give back the whole table: with every control untouched, the script still drops the rows with a missing value in a numeric or categorical column. The model follows the code. `UntouchedRun` and `DefaultMasksMeanComplete` state exactly what is kept. `UntouchedKeepsCompleteTable` proves the identity only for tables without such missing values.
- The stages cannot be reordered freely. The `.str` accessor check reads the working rows, and the categorical options are read off the narrowed table. `NumbersOnlyColumnStopsSearch` and `LoadedRowsAcceptSearch` show the same search failing after the range stage and succeeding over the loaded rows.
- `FilterPipeline.TighterSlidersNarrow` holds only when both runs succeed. Tightening a slider can leave the searched column of the working rows with a number and no string, and a clicked search then fails with the `.str` error.

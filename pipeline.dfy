/** The cumulative filter pipeline of the dashboard: starting from a copy of
    the loaded table it narrows the working table `df_filtrado` by numeric
    ranges, categorical selections, a text search and a single-value match,
    in that order. Run is the specification of one script run; ApplyFilters
    performs it step by step, as the script does. */
module FilterPipeline {
  import opened DataFrame
  import opened ColumnStats
  import opened Widgets

  /** Why the text search stops the run. pandas' `.str` accessor raises an
      AttributeError when the working column holds a number and no string (its
      inferred dtype is then numeric); `str.contains` raises a TypeError when the
      selected term is not a string, or when there is no term at all. */
  datatype FilterError = NotTextColumn | SearchTermNotText

  datatype Result<T> = Ok(value: T) | Err(error: FilterError)

  // ---------------------------------------------------------------------------
  // Stage 1: one range per numeric column, built over the unfiltered copy.

  /** The range filter of the i-th numeric column: the slider starts at the
      column's observed (min, max) in the unfiltered table. */
  function RangeMask(df: Table, sliders: seq<Option<(int, int)>>, i: nat): (m: Mask)
    requires i < |NumericColumns(df)|
    ensures m.InRange? && m.col == NumericColumns(df)[i]
  {
    var c := NumericColumns(df)[i];
    InRange(c, Slider(ObservedBounds(ColumnValues(df.rows, c)), At(sliders, i)))
  }

  /** An untouched slider keeps the range observed in its column. */
  lemma RangeMaskUntouched(df: Table, sliders: seq<Option<(int, int)>>, i: nat)
    requires i < |NumericColumns(df)| && At(sliders, i).None?
    ensures RangeMask(df, sliders, i).bounds == ObservedBounds(ColumnValues(df.rows, NumericColumns(df)[i]))
  {
  }

  /** A moved slider replaces the observed range by the pair the user set. */
  lemma RangeMaskMoved(df: Table, sliders: seq<Option<(int, int)>>, i: nat, lo: int, hi: int)
    requires i < |NumericColumns(df)| && At(sliders, i) == Some((lo, hi))
    ensures RangeMask(df, sliders, i) == InRange(NumericColumns(df)[i], Between(lo, hi))
  {
  }

  /** The dictionary `filtros` in insertion order: one range per numeric column. */
  function RangeMasks(df: Table, sliders: seq<Option<(int, int)>>): seq<Mask>
  {
    seq(|NumericColumns(df)|, i requires 0 <= i < |NumericColumns(df)| => RangeMask(df, sliders, i))
  }

  // ---------------------------------------------------------------------------
  // Stage 2: one membership test per categorical column, each offered the
  // values still present after the previous filters.

  /** The multiselect filter of column `c` over the current working rows. */
  function CategoryMask(rows: seq<Row>, c: nat, chosen: Option<set<Value>>): Mask
  {
    IsIn(c, Multiselect(DropnaUnique(ColumnValues(rows, c)), chosen))
  }

  /** The membership test of a categorical column admits exactly the chosen values
      still present and not missing in the rows it is built over. */
  lemma CategoryMaskAdmits(rows: seq<Row>, c: nat, chosen: Option<set<Value>>)
    ensures CategoryMask(rows, c, chosen).IsIn? && CategoryMask(rows, c, chosen).col == c
    ensures Missing !in CategoryMask(rows, c, chosen).members
    ensures forall v :: v in CategoryMask(rows, c, chosen).members <==>
      v in ColumnValues(rows, c) && v != Missing && (chosen.None? || v in chosen.value)
  {
  }

  /** A categorical filter is a membership test on its column that rejects Missing
      (the quantifier-free part of `CategoryMaskAdmits`, cheaper to have in scope). */
  lemma CategoryMaskShape(rows: seq<Row>, c: nat, chosen: Option<set<Value>>)
    ensures CategoryMask(rows, c, chosen).IsIn? && CategoryMask(rows, c, chosen).col == c
    ensures Missing !in CategoryMask(rows, c, chosen).members
  {
  }

  /** One pass of the categorical loop: offer the values of column `c` still present,
      keep the rows whose value is selected. */
  function CategoryStep(prev: seq<Row>, c: nat, chosen: Option<set<Value>>): seq<Row>
  {
    Where(prev, [CategoryMask(prev, c, chosen)])
  }

  /** The working rows after the first `k` categorical columns. */
  function CategoryStage(rows: seq<Row>, cats: seq<nat>, picks: seq<Option<set<Value>>>, k: nat): seq<Row>
    requires k <= |cats|
    decreases k
  {
    if k == 0 then rows
    else
      var prev := CategoryStage(rows, cats, picks, k - 1);
      CategoryStep(prev, cats[k - 1], At(picks, k - 1))
  }

  /** The masks that the first `k` categorical columns applied. */
  function CategoryMasks(rows: seq<Row>, cats: seq<nat>, picks: seq<Option<set<Value>>>, k: nat): (ms: seq<Mask>)
    requires k <= |cats|
    ensures |ms| == k
    decreases k
  {
    if k == 0 then []
    else
      CategoryMasks(rows, cats, picks, k - 1)
        + [CategoryMask(CategoryStage(rows, cats, picks, k - 1), cats[k - 1], At(picks, k - 1))]
  }

  /** The masks admit no missing value and follow the columns `cats`, in order. */
  predicate ShapedLike(ms: seq<Mask>, cats: seq<nat>)
  {
    |ms| <= |cats| &&
    forall i :: 0 <= i < |ms| ==> ms[i].IsIn? && ms[i].col == cats[i] && Missing !in ms[i].members
  }

  /** The `i`-th test of the categorical loop is the one built over the rows the first
      `i` passes left. */
  lemma {:induction false} CategoryMasksAt(rows: seq<Row>, cats: seq<nat>, picks: seq<Option<set<Value>>>, k: nat, i: nat)
    requires i < k <= |cats|
    ensures CategoryMasks(rows, cats, picks, k)[i]
         == CategoryMask(CategoryStage(rows, cats, picks, i), cats[i], At(picks, i))
    decreases k
  {
    CategoryMasksUnfold(rows, cats, picks, k);
    if i < k - 1 {
      CategoryMasksAt(rows, cats, picks, k - 1, i);
    }
  }

  /** The categorical loop builds one membership test per categorical column, in
      column order, and none of them admits Missing. */
  lemma CategoryMasksShape(rows: seq<Row>, cats: seq<nat>, picks: seq<Option<set<Value>>>, k: nat)
    requires k <= |cats|
    ensures ShapedLike(CategoryMasks(rows, cats, picks, k), cats)
  {
    var cm := CategoryMasks(rows, cats, picks, k);
    forall i | 0 <= i < k
      ensures cm[i].IsIn? && cm[i].col == cats[i] && Missing !in cm[i].members
    {
      CategoryMasksAt(rows, cats, picks, k, i);
      CategoryMaskShape(CategoryStage(rows, cats, picks, i), cats[i], At(picks, i));
    }
  }

  /** One more pass of the categorical loop appends one membership test. */
  lemma CategoryMasksUnfold(rows: seq<Row>, cats: seq<nat>, picks: seq<Option<set<Value>>>, k: nat)
    requires 0 < k <= |cats|
    ensures CategoryMasks(rows, cats, picks, k)
         == CategoryMasks(rows, cats, picks, k - 1)
            + [CategoryMask(CategoryStage(rows, cats, picks, k - 1), cats[k - 1], At(picks, k - 1))]
  {
  }

  /** The categorical stage keeps exactly the rows that pass the masks it built. */
  lemma {:induction false} CategoryStageIsWhere(rows: seq<Row>, cats: seq<nat>, picks: seq<Option<set<Value>>>, k: nat)
    requires k <= |cats|
    ensures CategoryStage(rows, cats, picks, k) == Where(rows, CategoryMasks(rows, cats, picks, k))
    decreases k
  {
    if k == 0 {
      WhereNoMasks(rows);
    } else {
      var prev := CategoryStage(rows, cats, picks, k - 1);
      CategoryStageIsWhere(rows, cats, picks, k - 1);
      WhereSnoc(rows, CategoryMasks(rows, cats, picks, k - 1), prev, CategoryMask(prev, cats[k - 1], At(picks, k - 1)));
    }
  }

  /** Filtering the filtered rows by one more mask is filtering once by all of them. */
  lemma WhereSnoc(rows: seq<Row>, init: seq<Mask>, prev: seq<Row>, last: Mask)
    requires prev == Where(rows, init)
    ensures Where(prev, [last]) == Where(rows, init + [last])
  {
    WhereWhere(rows, init, [last]);
  }

  // ---------------------------------------------------------------------------
  // Stage 3: the text search, applied only in the run in which its button is clicked.

  /** The column picked for the search (`coluna_busca`), among the string columns. */
  function SearchColumn(df: Table, ui: Controls): (c: nat)
    requires StringColumns(df) != []
    ensures c in StringColumns(df)
  {
    Selectbox(StringColumns(df), ui.searchColumn).value
  }

  /** The term picked for the search (`termo_busca`), among the distinct values of the
      search column in the ORIGINAL table, not the filtered one. */
  function SearchTerm(df: Table, ui: Controls): (term: Option<Value>)
    requires StringColumns(df) != []
    ensures term.Some? ==> term.value != Missing && term.value in ColumnValues(df.rows, SearchColumn(df, ui))
  {
    Selectbox(DropnaUnique(ColumnValues(df.rows, SearchColumn(df, ui))), ui.searchTerm)
  }

  /** `.str` accepts a column whose non-missing values are strings, or strings mixed with
      other values, and refuses one holding a number and no string. */
  predicate StrAccessorRefuses(vals: seq<Value>)
  {
    (exists i :: 0 <= i < |vals| && vals[i].Num?) && forall i :: 0 <= i < |vals| ==> !vals[i].Str?
  }

  /** The text-search mask over the working rows `rows`, if any. */
  function SearchMasks(df: Table, ui: Controls, rows: seq<Row>): (r: Result<seq<Mask>>)
    ensures StringColumns(df) == [] || !ui.searchPressed ==> r == Ok([])
    ensures r.Err? ==> ui.searchPressed
    ensures r.Ok? ==> |r.value| <= 1 && forall i :: 0 <= i < |r.value| ==> r.value[i].Contains?
    ensures r.Ok? && r.value != [] ==>
      ui.searchPressed && r.value[0].Contains? && r.value[0].col in StringColumns(df) &&
      Str(r.value[0].term) in ColumnValues(df.rows, r.value[0].col)
    ensures StringColumns(df) != [] && ui.searchPressed ==>
      var col, term := SearchColumn(df, ui), SearchTerm(df, ui);
      (StrAccessorRefuses(ColumnValues(rows, col)) ==> r == Err(NotTextColumn)) &&
      (!StrAccessorRefuses(ColumnValues(rows, col)) && term.Some? && term.value.Str? ==>
         r == Ok([Contains(col, term.value.s)])) &&
      (!StrAccessorRefuses(ColumnValues(rows, col)) && !(term.Some? && term.value.Str?) ==>
         r == Err(SearchTermNotText))
  {
    if StringColumns(df) == [] || !ui.searchPressed then Ok([])
    else
      var col := SearchColumn(df, ui);
      if StrAccessorRefuses(ColumnValues(rows, col)) then Err(NotTextColumn)
      else
        match SearchTerm(df, ui)
        case Some(Str(t)) => Ok([Contains(col, t)])
        case _ => Err(SearchTermNotText)
  }

  /** A successful search builds a test fixed by the table and the search controls
      alone: the working rows only decide whether the `.str` accessor refuses. */
  lemma SearchOkIgnoresRows(df: Table, ui: Controls, rows: seq<Row>, other: Controls, rows': seq<Row>)
    requires other.searchColumn == ui.searchColumn && other.searchTerm == ui.searchTerm
    requires other.searchPressed == ui.searchPressed
    requires SearchMasks(df, ui, rows).Ok? && SearchMasks(df, other, rows').Ok?
    ensures SearchMasks(df, ui, rows) == SearchMasks(df, other, rows')
  {
    if StringColumns(df) != [] && ui.searchPressed {
      assert SearchColumn(df, other) == SearchColumn(df, ui);
      assert SearchTerm(df, other) == SearchTerm(df, ui);
    }
  }

  // ---------------------------------------------------------------------------
  // Stage 4: the single-value match, applied only in the run in which its button is clicked.

  /** The column picked for the match (`coluna_valor_unico`), among the numeric columns. */
  function ValueColumn(df: Table, ui: Controls): (c: nat)
    requires NumericColumns(df) != []
    ensures c in NumericColumns(df)
  {
    Selectbox(NumericColumns(df), ui.valueColumn).value
  }

  /** The value picked for the match (`valor_escolhido`), among the sorted distinct numbers
      of the match column in the ORIGINAL table; None when the column has no number. */
  function ValueChoice(df: Table, ui: Controls): (v: Option<int>)
    requires NumericColumns(df) != []
    ensures v.Some? ==> Num(v.value) in ColumnValues(df.rows, ValueColumn(df, ui))
    ensures v.None? <==> forall x :: Num(x) !in ColumnValues(df.rows, ValueColumn(df, ui))
  {
    var options := SortedOptions(ColumnValues(df.rows, ValueColumn(df, ui)));
    assert options != [] ==> options[0] in options;
    Selectbox(options, ui.valuePick)
  }

  /** The single-value mask, if any. The match is skipped when the picked column's name is
      empty, which Python reads as false. */
  function ValueMasks(df: Table, ui: Controls): (ms: seq<Mask>)
    ensures NumericColumns(df) == [] || !ui.valuePressed ==> ms == []
    ensures |ms| <= 1 && forall i :: 0 <= i < |ms| ==> ms[i].EqualTo?
    ensures ms != [] ==>
      ui.valuePressed && ms[0].EqualTo? && ms[0].col in NumericColumns(df) &&
      df.columns[ms[0].col].name != "" &&
      (ms[0].value.Some? ==> Num(ms[0].value.value) in ColumnValues(df.rows, ms[0].col)) &&
      (ms[0].value.None? ==> forall x :: Num(x) !in ColumnValues(df.rows, ms[0].col))
    ensures NumericColumns(df) != [] && ui.valuePressed ==>
      var col := ValueColumn(df, ui);
      (df.columns[col].name == "" ==> ms == []) &&
      (df.columns[col].name != "" ==> ms == [EqualTo(col, ValueChoice(df, ui))])
  {
    if NumericColumns(df) == [] then []
    else
      var col := ValueColumn(df, ui);
      if df.columns[col].name == "" || !ui.valuePressed then []
      else [EqualTo(col, ValueChoice(df, ui))]
  }

  /** The match is fixed by the table and the three value controls alone. */
  lemma ValueMasksReadControls(df: Table, ui: Controls, other: Controls)
    requires other.valueColumn == ui.valueColumn && other.valuePick == ui.valuePick
    requires other.valuePressed == ui.valuePressed
    ensures ValueMasks(df, other) == ValueMasks(df, ui)
  {
    if NumericColumns(df) != [] {
      assert ValueColumn(df, other) == ValueColumn(df, ui);
      assert ValueChoice(df, other) == ValueChoice(df, ui);
    }
  }

  // ---------------------------------------------------------------------------
  // One run of the script.

  /** The working rows after the range and categorical stages; no click affects them. */
  function Narrowed(df: Table, ui: Controls): seq<Row>
  {
    var cats := CategoricalColumns(df);
    CategoryStage(Cascade(df.rows, RangeMasks(df, ui.sliders)), cats, ui.multiselects, |cats|)
  }

  /** The text search of a run, over the rows the first two stages left. */
  function Search(df: Table, ui: Controls): Result<seq<Mask>>
  {
    SearchMasks(df, ui, Narrowed(df, ui))
  }

  /** The filtered table of one run: the four stages in order, each narrowing the
      result of the previous one; the columns are those of the loaded table. */
  function Run(df: Table, ui: Controls): (r: Result<Table>)
    ensures r.Ok? ==> r.value.columns == df.columns
  {
    match Search(df, ui)
    case Err(e) => Err(e)
    case Ok(sm) => Ok(Table(df.columns, Cascade(Cascade(Narrowed(df, ui), sm), ValueMasks(df, ui))))
  }

  /** Every mask a successful run applied, in the order it applied them. */
  function AppliedMasks(df: Table, ui: Controls): seq<Mask>
    requires Search(df, ui).Ok?
  {
    var rm := RangeMasks(df, ui.sliders);
    var cats := CategoricalColumns(df);
    rm + CategoryMasks(Cascade(df.rows, rm), cats, ui.multiselects, |cats|)
      + Search(df, ui).value + ValueMasks(df, ui)
  }

  /** A run fails only through the text search, and a successful run keeps exactly
      the rows of the loaded table that pass every mask it applied, in their order. */
  lemma RunIsConjunction(df: Table, ui: Controls)
    ensures Run(df, ui).Err? <==> Search(df, ui).Err?
    ensures Run(df, ui).Ok? ==> Run(df, ui).value == Table(df.columns, Where(df.rows, AppliedMasks(df, ui)))
  {
    if Search(df, ui).Ok? {
      var rm := RangeMasks(df, ui.sliders);
      var ranged := Cascade(df.rows, rm);
      var cats := CategoricalColumns(df);
      var cm := CategoryMasks(ranged, cats, ui.multiselects, |cats|);
      var narrowed := CategoryStage(ranged, cats, ui.multiselects, |cats|);
      var sm, vm := Search(df, ui).value, ValueMasks(df, ui);
      CascadeIsWhere(df.rows, rm);
      CategoryStageIsWhere(ranged, cats, ui.multiselects, |cats|);
      WhereWhere(df.rows, rm, cm);
      CascadeIsWhere(narrowed, sm);
      WhereWhere(df.rows, rm + cm, sm);
      CascadeIsWhere(Cascade(narrowed, sm), vm);
      WhereWhere(df.rows, rm + cm + sm, vm);
    }
  }

  /** Filtering only removes rows: the result is an order-preserving subsequence
      of the loaded table's rows, with the same columns. */
  lemma RunNarrows(df: Table, ui: Controls)
    ensures Run(df, ui).Ok? ==>
      Run(df, ui).value.columns == df.columns &&
      |Run(df, ui).value.rows| <= |df.rows| &&
      IsSubsequence(Run(df, ui).value.rows, df.rows)
  {
    RunIsConjunction(df, ui);
    if Run(df, ui).Ok? {
      WhereIsSubsequence(df.rows, AppliedMasks(df, ui));
    }
  }

  /** A row passing the range masks has a number in every numeric column. */
  lemma RangeMasksNeedNumbers(df: Table, sliders: seq<Option<(int, int)>>, r: Row)
    requires AllHold(RangeMasks(df, sliders), r)
    ensures forall c :: c in NumericColumns(df) ==> Cell(r, c).Num?
  {
    var rm, nums := RangeMasks(df, sliders), NumericColumns(df);
    forall c | c in nums
      ensures Cell(r, c).Num?
    {
      var i :| 0 <= i < |nums| && nums[i] == c;
      assert Holds(rm[i], r);
    }
  }

  /** A row passing the categorical masks has a value in every categorical column. */
  lemma CategoryMasksNeedValues(rows: seq<Row>, cats: seq<nat>, picks: seq<Option<set<Value>>>, r: Row)
    requires AllHold(CategoryMasks(rows, cats, picks, |cats|), r)
    ensures forall c :: c in cats ==> Cell(r, c) != Missing
  {
    var cm := CategoryMasks(rows, cats, picks, |cats|);
    CategoryMasksShape(rows, cats, picks, |cats|);
    forall c | c in cats
      ensures Cell(r, c) != Missing
    {
      var i :| 0 <= i < |cats| && cats[i] == c;
      assert Holds(cm[i], r);
      MaskRejectsMissing(cm[i], r);
    }
  }

  /** A kept row passes each group of masks of the run. */
  lemma KeptRowPassesEveryStage(df: Table, ui: Controls, r: Row)
    requires Run(df, ui).Ok? && r in Run(df, ui).value.rows
    ensures r in df.rows
    ensures AllHold(RangeMasks(df, ui.sliders), r)
    ensures AllHold(CategoryMasks(Cascade(df.rows, RangeMasks(df, ui.sliders)), CategoricalColumns(df),
                                  ui.multiselects, |CategoricalColumns(df)|), r)
    ensures AllHold(Search(df, ui).value, r)
    ensures AllHold(ValueMasks(df, ui), r)
  {
    RunIsConjunction(df, ui);
    WhereMembers(df.rows, AppliedMasks(df, ui));
    var rm := RangeMasks(df, ui.sliders);
    var cats := CategoricalColumns(df);
    var cm := CategoryMasks(Cascade(df.rows, rm), cats, ui.multiselects, |cats|);
    var sm, vm := Search(df, ui).value, ValueMasks(df, ui);
    assert AllHold(rm + cm + sm + vm, r);
    AllHoldConcat(rm + cm + sm, vm, r);
    AllHoldConcat(rm + cm, sm, r);
    AllHoldConcat(rm, cm, r);
  }

  /** A row passing the masks of each stage has a number in every numeric column and a
      value in every categorical column, a string in the searched column and a number in
      the matched column. */
  lemma StagesDropMissing(df: Table, ui: Controls, ranged: seq<Row>, r: Row)
    requires Search(df, ui).Ok?
    requires AllHold(RangeMasks(df, ui.sliders), r)
    requires AllHold(CategoryMasks(ranged, CategoricalColumns(df), ui.multiselects, |CategoricalColumns(df)|), r)
    requires AllHold(Search(df, ui).value, r)
    requires AllHold(ValueMasks(df, ui), r)
    ensures forall c :: c in NumericColumns(df) ==> Cell(r, c).Num?
    ensures forall c :: c in CategoricalColumns(df) ==> Cell(r, c) != Missing
    ensures forall m :: m in Search(df, ui).value ==> Cell(r, m.col).Str?
    ensures forall m :: m in ValueMasks(df, ui) ==> Cell(r, m.col).Num?
  {
    RangeMasksNeedNumbers(df, ui.sliders, r);
    CategoryMasksNeedValues(ranged, CategoricalColumns(df), ui.multiselects, r);
    ContainsNeedsText(Search(df, ui).value, r);
    EqualToNeedsNumber(ValueMasks(df, ui), r);
  }

  /** A kept row has a number in every numeric column and a value in every categorical
      column, a string in the searched column and a number in the matched column. */
  lemma RunDropsMissing(df: Table, ui: Controls, r: Row)
    requires Run(df, ui).Ok? && r in Run(df, ui).value.rows
    ensures r in df.rows
    ensures forall c :: c in NumericColumns(df) ==> Cell(r, c).Num?
    ensures forall c :: c in CategoricalColumns(df) ==> Cell(r, c) != Missing
    ensures forall m :: m in Search(df, ui).value ==> Cell(r, m.col).Str?
    ensures forall m :: m in ValueMasks(df, ui) ==> Cell(r, m.col).Num?
  {
    KeptRowPassesEveryStage(df, ui, r);
    StagesDropMissing(df, ui, Cascade(df.rows, RangeMasks(df, ui.sliders)), r);
  }

  /** Clicking a button in a run can only remove rows from what the same run keeps
      without the click. */
  lemma PressingOnlyNarrows(df: Table, ui: Controls)
    ensures Run(df, ui.(searchPressed := false, valuePressed := false)).Ok?
    ensures Run(df, ui).Ok? ==>
      IsSubsequence(Run(df, ui).value.rows, Run(df, ui.(searchPressed := false, valuePressed := false)).value.rows)
  {
    var quiet := ui.(searchPressed := false, valuePressed := false);
    RunIsConjunction(df, quiet);
    RunIsConjunction(df, ui);
    if Run(df, ui).Ok? {
      var rm := RangeMasks(df, ui.sliders);
      var cats := CategoricalColumns(df);
      var cm := CategoryMasks(Cascade(df.rows, rm), cats, ui.multiselects, |cats|);
      var sm, vm := Search(df, ui).value, ValueMasks(df, ui);
      assert AppliedMasks(df, quiet) == rm + cm + [] + [];
      assert rm + cm + [] + [] == rm + cm;
      forall r | r in df.rows && AllHold(rm + cm + sm + vm, r)
        ensures AllHold(rm + cm, r)
      {
        AllHoldConcat(rm + cm + sm, vm, r);
        AllHoldConcat(rm + cm, sm, r);
      }
      WhereNarrows(df.rows, rm + cm, rm + cm + sm + vm);
    }
  }

  /** A click applies exactly the tests it selected: a successful run keeps exactly the
      rows of the same run without clicks that pass the search and single-value masks. */
  lemma ClicksFilterQuietRun(df: Table, ui: Controls)
    ensures Run(df, ui).Ok? ==>
      Run(df, ui).value.rows ==
      Where(Run(df, ui.(searchPressed := false, valuePressed := false)).value.rows, Search(df, ui).value + ValueMasks(df, ui))
  {
    var quiet := ui.(searchPressed := false, valuePressed := false);
    if Run(df, ui).Ok? {
      var narrowed := Narrowed(df, ui);
      assert Narrowed(df, quiet) == narrowed;
      assert Run(df, quiet).value.rows == narrowed;
      var sm, vm := Search(df, ui).value, ValueMasks(df, ui);
      CascadeIsWhere(narrowed, sm);
      CascadeIsWhere(Where(narrowed, sm), vm);
      WhereWhere(narrowed, sm, vm);
    }
  }

  /** An object column `x` and an integer column `n`, with rows ("a", 0) and (1, 5). */
  const MixedTable := Table([Column("x", ObjectDtype), Column("n", Int64)], [[Str("a"), Num(0)], [Num(1), Num(5)]])

  /** The `n` slider moved to [5, 5], the first term picked and the search clicked. */
  const NarrowSearch := Controls([Some((5, 5))], [], 0, 0, true, 0, 0, false)

  /** Its only numeric column is `n`. */
  lemma MixedTableNumeric()
    ensures NumericColumns(MixedTable) == [1]
  {
    var x, n := Column("x", ObjectDtype), Column("n", Int64);
    assert MixedTable.columns == [x] + [n] && [x] == [] + [x];
    SelectDtypesSnoc([], x, {Float64, Int64});
    SelectDtypesSnoc([x], n, {Float64, Int64});
  }

  /** Its only categorical column is `x`. */
  lemma MixedTableCategorical()
    ensures CategoricalColumns(MixedTable) == [0]
  {
    var x, n := Column("x", ObjectDtype), Column("n", Int64);
    assert MixedTable.columns == [x] + [n] && [x] == [] + [x];
    SelectDtypesSnoc([], x, {ObjectDtype, CategoryDtype});
    SelectDtypesSnoc([x], n, {ObjectDtype, CategoryDtype});
  }

  /** Its only string column is `x`. */
  lemma MixedTableStrings()
    ensures StringColumns(MixedTable) == [0]
  {
    var x, n := Column("x", ObjectDtype), Column("n", Int64);
    assert MixedTable.columns == [x] + [n] && [x] == [] + [x];
    SelectDtypesSnoc([], x, {ObjectDtype});
    SelectDtypesSnoc([x], n, {ObjectDtype});
  }

  /** The slider on `n` is set to [5, 5]. */
  lemma MixedTableRangeMasks()
    ensures RangeMasks(MixedTable, NarrowSearch.sliders) == [InRange(1, Between(5, 5))]
  {
    MixedTableNumeric();
    OneSliderMoved(MixedTable, NarrowSearch.sliders, 5, 5);
  }

  /** With one numeric column, moving its slider gives the one range the user set. */
  lemma OneSliderMoved(df: Table, sliders: seq<Option<(int, int)>>, lo: int, hi: int)
    requires |NumericColumns(df)| == 1 && At(sliders, 0) == Some((lo, hi))
    ensures RangeMasks(df, sliders) == [InRange(NumericColumns(df)[0], Between(lo, hi))]
  {
    RangeMaskMoved(df, sliders, 0, lo, hi);
  }

  /** That slider keeps only the row (1, 5). */
  lemma MixedTableRanged()
    ensures Cascade(MixedTable.rows, RangeMasks(MixedTable, NarrowSearch.sliders)) == [[Num(1), Num(5)]]
  {
    var rows, m := MixedTable.rows, InRange(1, Between(5, 5));
    MixedTableRangeMasks();
    CascadeIsWhere(rows, [m]);
    AllHoldSingle(m, rows[0]);
    AllHoldSingle(m, rows[1]);
    assert rows[1..] == [rows[1]] && rows[1..][1..] == [];
  }

  /** The untouched multiselect on `x`, over that row, admits its one value. */
  lemma KeptRowCategoryStep()
    ensures CategoryStep([[Num(1), Num(5)]], 0, None) == [[Num(1), Num(5)]]
  {
    var kept := [Num(1), Num(5)];
    assert ColumnValues([kept], 0) == [Num(1)];
    assert [Num(1)][..0] == [];
    assert DropnaUnique([Num(1)]) == [Num(1)];
    assert CategoryMask([kept], 0, None) == IsIn(0, [Num(1)]);
    AllHoldSingle(IsIn(0, [Num(1)]), kept);
  }

  /** So the first two stages leave the row (1, 5). */
  lemma MixedTableNarrowed()
    ensures Narrowed(MixedTable, NarrowSearch) == [[Num(1), Num(5)]]
  {
    var kept := [Num(1), Num(5)];
    MixedTableCategorical();
    MixedTableRanged();
    KeptRowCategoryStep();
    assert CategoryStage([kept], [0], [], 1) == CategoryStep([kept], 0, None);
  }

  /** The search selectbox picks `x`, and its first option is the string "a". */
  lemma MixedTableTerm()
    ensures StringColumns(MixedTable) == [0]
    ensures SearchColumn(MixedTable, NarrowSearch) == 0
    ensures SearchTerm(MixedTable, NarrowSearch) == Some(Str("a"))
  {
    MixedTableStrings();
    MixedTableSearchOptions();
  }

  /** The options of the search selectbox over `x`. */
  lemma MixedTableSearchOptions()
    ensures DropnaUnique(ColumnValues(MixedTable.rows, 0)) == [Str("a"), Num(1)]
  {
    assert ColumnValues(MixedTable.rows, 0) == [Str("a"), Num(1)];
    assert [Str("a"), Num(1)][..1] == [Str("a")] && [Str("a")][..0] == [];
  }

  /** A clicked search over a string column whose remaining values are all numbers stops
      the run with the `.str` error, although the picked term is a string. */
  lemma NumbersOnlyColumnStopsSearch()
    ensures Run(MixedTable, NarrowSearch) == Err(NotTextColumn)
  {
    MixedTableNarrowed();
    KeptRowRefusesSearch();
  }

  /** Over the row (1, 5) the search column `x` holds only the number 1. */
  lemma KeptRowRefusesSearch()
    ensures SearchMasks(MixedTable, NarrowSearch, [[Num(1), Num(5)]]) == Err(NotTextColumn)
  {
    MixedTableTerm();
    assert ColumnValues([[Num(1), Num(5)]], 0) == [Num(1)];
    assert StrAccessorRefuses([Num(1)]);
  }

  /** The same search, checked against the loaded rows instead of the narrowed ones,
      succeeds: the order of the stages decides whether a search fails. */
  lemma LoadedRowsAcceptSearch()
    ensures SearchMasks(MixedTable, NarrowSearch, MixedTable.rows) == Ok([Contains(0, "a")])
  {
    MixedTableTerm();
    assert ColumnValues(MixedTable.rows, 0) == [Str("a"), Num(1)];
    assert !StrAccessorRefuses([Str("a"), Num(1)]) by {
      assert [Str("a"), Num(1)][0].Str?;
    }
  }

  /** Without string columns the text search never runs, so it cannot fail. */
  lemma NoStringColumnsNoSearch(df: Table, ui: Controls)
    requires StringColumns(df) == []
    ensures Run(df, ui).Ok?
    ensures Run(df, ui) == Run(df, ui.(searchPressed := false))
  {
  }

  // ---------------------------------------------------------------------------
  // The categorical filters, read as fixed tests over the loaded table.

  /** The membership tests the multiselects `picks` give when built over the loaded table. */
  function LoadedMasksOf(df: Table, cats: seq<nat>, picks: seq<Option<set<Value>>>): seq<Mask>
  {
    seq(|cats|, i requires 0 <= i < |cats| => CategoryMask(df.rows, cats[i], At(picks, i)))
  }

  function LoadedMasks(df: Table, picks: seq<Option<set<Value>>>): seq<Mask>
  {
    LoadedMasksOf(df, CategoricalColumns(df), picks)
  }

  /** Over rows of the loaded table, a multiselect whose options are read off those rows
      keeps the same rows as one offering every loaded value: a row's own value is
      always among the options. */
  lemma NarrowedMultiselect(df: Table, prev: seq<Row>, c: nat, chosen: Option<set<Value>>)
    requires forall r :: r in prev ==> r in df.rows
    ensures Where(prev, [CategoryMask(prev, c, chosen)]) == Where(prev, [CategoryMask(df.rows, c, chosen)])
  {
    var m, n := CategoryMask(prev, c, chosen), CategoryMask(df.rows, c, chosen);
    CategoryMaskAdmits(prev, c, chosen);
    CategoryMaskAdmits(df.rows, c, chosen);
    forall r | r in prev
      ensures AllHold([m], r) <==> AllHold([n], r)
    {
      CellInColumn(prev, r, c);
      CellInColumn(df.rows, r, c);
      AllHoldSingle(m, r);
      AllHoldSingle(n, r);
    }
    WhereCongruent(prev, [m], [n]);
  }

  /** One pass of the categorical loop after earlier filters over loaded rows removes
      exactly what the same multiselect built over the loaded table removes. */
  lemma NarrowedStep(df: Table, rows: seq<Row>, earlier: seq<Mask>, prev: seq<Row>, c: nat, chosen: Option<set<Value>>)
    requires forall r :: r in rows ==> r in df.rows
    requires prev == Where(rows, earlier)
    ensures CategoryStep(prev, c, chosen) == Where(rows, earlier + [CategoryMask(df.rows, c, chosen)])
  {
    WhereMembers(rows, earlier);
    NarrowedMultiselect(df, prev, c, chosen);
    WhereWhere(rows, earlier, [CategoryMask(df.rows, c, chosen)]);
  }

  /** Over loaded rows, the categorical loop keeps exactly the rows that pass the
      multiselects built over the loaded table, although its options are read off
      the narrowed table pass by pass. */
  lemma {:induction false} CategoryStageOverLoaded(df: Table, rows: seq<Row>, cats: seq<nat>, picks: seq<Option<set<Value>>>, k: nat, lm: seq<Mask>)
    requires k <= |cats| == |lm|
    requires forall i :: 0 <= i < |lm| ==> lm[i] == CategoryMask(df.rows, cats[i], At(picks, i))
    requires forall r :: r in rows ==> r in df.rows
    ensures CategoryStage(rows, cats, picks, k) == Where(rows, lm[..k])
    decreases k
  {
    if k == 0 {
      WhereNoMasks(rows);
    } else {
      var prev := CategoryStage(rows, cats, picks, k - 1);
      var chosen := At(picks, k - 1);
      assert CategoryStage(rows, cats, picks, k) == CategoryStep(prev, cats[k - 1], chosen);
      var earlier := lm[..k - 1];
      assert lm[k - 1] == CategoryMask(df.rows, cats[k - 1], chosen);
      assert earlier + [lm[k - 1]] == lm[..k];
      CategoryStageOverLoaded(df, rows, cats, picks, k - 1, lm);
      NarrowedStep(df, rows, earlier, prev, cats[k - 1], chosen);
    }
  }

  /** A successful run keeps exactly the loaded rows that pass the ranges, the
      multiselects as built over the loaded table, the search and the match. */
  lemma RunOverLoaded(df: Table, ui: Controls)
    ensures Run(df, ui).Ok? ==> Run(df, ui).value == Table(df.columns,
      Where(df.rows, RangeMasks(df, ui.sliders) + LoadedMasks(df, ui.multiselects) + Search(df, ui).value + ValueMasks(df, ui)))
  {
    if Run(df, ui).Ok? {
      var rm, lm := RangeMasks(df, ui.sliders), LoadedMasks(df, ui.multiselects);
      var ranged := Cascade(df.rows, rm);
      var cats := CategoricalColumns(df);
      var sm, vm := Search(df, ui).value, ValueMasks(df, ui);
      CascadeIsWhere(df.rows, rm);
      WhereMembers(df.rows, rm);
      CategoryStageOverLoaded(df, ranged, cats, ui.multiselects, |cats|, lm);
      assert lm[..|cats|] == lm;
      WhereWhere(df.rows, rm, lm);
      var narrowed := Narrowed(df, ui);
      CascadeIsWhere(narrowed, sm);
      WhereWhere(df.rows, rm + lm, sm);
      CascadeIsWhere(Where(narrowed, sm), vm);
      WhereWhere(df.rows, rm + lm + sm, vm);
    }
  }

  /** Every range of `inner` lies within the matching range of `outer`. */
  predicate SlidersWithin(df: Table, inner: seq<Option<(int, int)>>, outer: seq<Option<(int, int)>>)
  {
    forall i :: 0 <= i < |NumericColumns(df)| ==>
      BoundsWithin(RangeMask(df, inner, i).bounds, RangeMask(df, outer, i).bounds)
  }

  /** Regrouping a list of tests made of four parts. */
  lemma Regroup(a: seq<Mask>, b: seq<Mask>, c: seq<Mask>, d: seq<Mask>)
    ensures a + b + c + d == a + (b + c + d)
  {
  }

  /** Tighter ranges, whatever tests follow them, keep a subsequence of the rows. */
  lemma TighterRangesNarrow(df: Table, rows: seq<Row>, inner: seq<Option<(int, int)>>, outer: seq<Option<(int, int)>>, rest: seq<Mask>)
    requires SlidersWithin(df, inner, outer)
    ensures IsSubsequence(Where(rows, RangeMasks(df, inner) + rest), Where(rows, RangeMasks(df, outer) + rest))
  {
    var ms, ns := RangeMasks(df, outer), RangeMasks(df, inner);
    forall r | r in rows && AllHold(ns + rest, r)
      ensures AllHold(ms + rest, r)
    {
      AllHoldConcat(ns, rest, r);
      AllHoldConcat(ms, rest, r);
      forall i | 0 <= i < |ms|
        ensures Holds(ms[i], r)
      {
        assert Holds(ns[i], r);
        assert BoundsWithin(RangeMask(df, inner, i).bounds, RangeMask(df, outer, i).bounds);
      }
    }
    WhereNarrows(rows, ms + rest, ns + rest);
  }

  /** Tightening the sliders only removes rows, as long as both runs succeed: a tighter
      range can leave the searched column without text, and the search then fails. */
  lemma TighterSlidersNarrow(df: Table, ui: Controls, sliders: seq<Option<(int, int)>>)
    requires SlidersWithin(df, sliders, ui.sliders)
    ensures var tight := ui.(sliders := sliders);
      Run(df, ui).Ok? && Run(df, tight).Ok? ==>
      IsSubsequence(Run(df, tight).value.rows, Run(df, ui).value.rows)
  {
    var tight := ui.(sliders := sliders);
    if Run(df, ui).Ok? && Run(df, tight).Ok? {
      RunOverLoaded(df, ui);
      RunOverLoaded(df, tight);
      var lm, sm, vm := LoadedMasks(df, ui.multiselects), Search(df, ui).value, ValueMasks(df, ui);
      SearchOkIgnoresRows(df, ui, Narrowed(df, ui), tight, Narrowed(df, tight));
      ValueMasksReadControls(df, ui, tight);
      Regroup(RangeMasks(df, ui.sliders), lm, sm, vm);
      Regroup(RangeMasks(df, sliders), lm, sm, vm);
      TighterRangesNarrow(df, df.rows, sliders, ui.sliders, lm + sm + vm);
    }
  }

  // ---------------------------------------------------------------------------
  // The untouched dashboard.

  /** The membership tests of the untouched multiselects, over the loaded table. */
  function OptionMasks(df: Table): seq<Mask>
  {
    LoadedMasks(df, [])
  }

  /** The masks of a run in which no control has been touched. */
  function DefaultMasks(df: Table): seq<Mask>
  {
    RangeMasks(df, []) + OptionMasks(df)
  }

  /** No missing value in a numeric or categorical column. */
  ghost predicate Complete(df: Table, r: Row)
  {
    (forall c :: c in NumericColumns(df) ==> Cell(r, c).Num?) &&
    (forall c :: c in CategoricalColumns(df) ==> Cell(r, c) != Missing)
  }

  /** Over the loaded table, the untouched sliders keep a row iff it has a number in
      every numeric column: the observed (min, max) admits every number of the column. */
  lemma UntouchedRangesMeanNumbers(df: Table, r: Row)
    requires r in df.rows
    ensures AllHold(RangeMasks(df, []), r) <==> forall c :: c in NumericColumns(df) ==> Cell(r, c).Num?
  {
    var rm, nums := RangeMasks(df, []), NumericColumns(df);
    forall i | 0 <= i < |nums|
      ensures Holds(rm[i], r) <==> Cell(r, nums[i]).Num?
    {
      CellInColumn(df.rows, r, nums[i]);
      ObservedBoundsAdmitEveryNumber(ColumnValues(df.rows, nums[i]), Cell(r, nums[i]));
    }
    if forall c :: c in nums ==> Cell(r, c).Num? {
      forall i | 0 <= i < |nums| ensures Holds(rm[i], r) {
        assert nums[i] in nums;
      }
    }
  }

  /** Over the loaded table, the untouched multiselects keep a row iff it has a value in
      every categorical column: every non-missing value is offered and selected. */
  lemma UntouchedOptionsMeanValues(df: Table, r: Row)
    requires r in df.rows
    ensures AllHold(OptionMasks(df), r) <==> forall c :: c in CategoricalColumns(df) ==> Cell(r, c) != Missing
  {
    var om, cats := OptionMasks(df), CategoricalColumns(df);
    forall i | 0 <= i < |cats|
      ensures Holds(om[i], r) <==> Cell(r, cats[i]) != Missing
    {
      assert om[i] == CategoryMask(df.rows, cats[i], None);
      CategoryMaskAdmits(df.rows, cats[i], None);
      CellInColumn(df.rows, r, cats[i]);
    }
    if forall c :: c in cats ==> Cell(r, c) != Missing {
      forall i | 0 <= i < |cats| ensures Holds(om[i], r) {
        assert cats[i] in cats;
      }
    }
  }

  /** The untouched masks remove exactly the rows with a missing value in a numeric
      or categorical column. */
  lemma DefaultMasksMeanComplete(df: Table, r: Row)
    requires r in df.rows
    ensures AllHold(DefaultMasks(df), r) <==> Complete(df, r)
  {
    AllHoldConcat(RangeMasks(df, []), OptionMasks(df), r);
    UntouchedRangesMeanNumbers(df, r);
    UntouchedOptionsMeanValues(df, r);
  }

  /** A run in which nothing has been touched keeps exactly the loaded rows with no
      missing value in a numeric or categorical column (with DefaultMasksMeanComplete). */
  lemma UntouchedRun(df: Table, ui: Controls)
    requires Untouched(ui)
    ensures Run(df, ui) == Ok(Table(df.columns, Where(df.rows, DefaultMasks(df))))
  {
    var rm, lm := RangeMasks(df, ui.sliders), LoadedMasks(df, ui.multiselects);
    assert rm == RangeMasks(df, []);
    assert lm == OptionMasks(df);
    assert Search(df, ui) == Ok([]) && ValueMasks(df, ui) == [];
    assert rm + lm + [] + [] == DefaultMasks(df);
    RunOverLoaded(df, ui);
  }

  /** On a table without missing values in its numeric and categorical columns, the
      untouched dashboard shows the whole table, rows in order. */
  lemma UntouchedKeepsCompleteTable(df: Table, ui: Controls)
    requires Untouched(ui)
    requires forall r :: r in df.rows ==> Complete(df, r)
    ensures Run(df, ui) == Ok(df)
  {
    UntouchedRun(df, ui);
    forall r | r in df.rows
      ensures AllHold(DefaultMasks(df), r) <==> AllHold([], r)
    {
      DefaultMasksMeanComplete(df, r);
    }
    WhereCongruent(df.rows, DefaultMasks(df), []);
    WhereNoMasks(df.rows);
  }

  // ---------------------------------------------------------------------------
  // The script, step by step.

  /** The loop that fills `filtros`: one slider per numeric column, over the unfiltered copy. */
  method BuildRangeFilters(df: Table, sliders: seq<Option<(int, int)>>) returns (filtros: seq<Mask>)
    ensures filtros == RangeMasks(df, sliders)
  {
    var nums := NumericColumns(df);
    filtros := [];
    var i := 0;
    while i < |nums|
      invariant 0 <= i <= |nums|
      invariant filtros == RangeMasks(df, sliders)[..i]
    {
      var col := nums[i];
      var observed := ObservedBounds(ColumnValues(df.rows, col));
      filtros := filtros + [InRange(col, Slider(observed, At(sliders, i)))];
      i := i + 1;
    }
  }

  /** The loop over `filtros.items()`, reassigning the working rows once per range. */
  method ApplyRangeFilters(rows: seq<Row>, filtros: seq<Mask>) returns (filtered: seq<Row>)
    ensures filtered == Where(rows, filtros)
    ensures IsSubsequence(filtered, rows)
  {
    filtered := rows;
    var i := 0;
    while i < |filtros|
      invariant 0 <= i <= |filtros|
      invariant filtered == Cascade(rows, filtros[..i])
    {
      filtered := Where(filtered, [filtros[i]]);
      i := i + 1;
      assert filtros[..i][..i - 1] == filtros[..i - 1];
    }
    assert filtros[..i] == filtros;
    CascadeIsWhere(rows, filtros);
    WhereIsSubsequence(rows, filtros);
  }

  /** The loop over the categorical columns: offer the values still present,
      read the selection, keep the rows whose value was selected. */
  method ApplyCategoryFilters(rows: seq<Row>, cats: seq<nat>, picks: seq<Option<set<Value>>>) returns (filtered: seq<Row>)
    ensures filtered == CategoryStage(rows, cats, picks, |cats|)
    ensures IsSubsequence(filtered, rows)
  {
    filtered := rows;
    var j := 0;
    while j < |cats|
      invariant 0 <= j <= |cats|
      invariant filtered == CategoryStage(rows, cats, picks, j)
    {
      var opcoes := DropnaUnique(ColumnValues(filtered, cats[j]));
      var selecionados := Multiselect(opcoes, At(picks, j));
      filtered := Where(filtered, [IsIn(cats[j], selecionados)]);
      j := j + 1;
    }
    CategoryStageIsWhere(rows, cats, picks, |cats|);
    WhereIsSubsequence(rows, CategoryMasks(rows, cats, picks, |cats|));
  }

  /** The text-search block: the working rows are filtered only in the run in which
      the button is clicked; a working column without strings, or a term that is not a
      string, stops the run. */
  method ApplyTextSearch(df: Table, ui: Controls, rows: seq<Row>) returns (res: Result<seq<Row>>)
    ensures SearchMasks(df, ui, rows).Err? ==> res == Err(SearchMasks(df, ui, rows).error)
    ensures SearchMasks(df, ui, rows).Ok? ==> res == Ok(Where(rows, SearchMasks(df, ui, rows).value))
  {
    WhereNoMasks(rows);
    var filtered := rows;
    var strs := StringColumns(df);
    if |strs| > 0 {
      var col := Selectbox(strs, ui.searchColumn).value;
      var term: Option<Value> := Selectbox(DropnaUnique(ColumnValues(df.rows, col)), ui.searchTerm);
      if ui.searchPressed {
        if StrAccessorRefuses(ColumnValues(filtered, col)) {
          return Err(NotTextColumn);
        }
        match term {
          case Some(Str(t)) =>
            filtered := Where(filtered, [Contains(col, t)]);
          case _ =>
            return Err(SearchTermNotText);
        }
      }
    }
    res := Ok(filtered);
  }

  /** The single-value block: the working rows are filtered only in the run in which
      the button is clicked. */
  method ApplyValueFilter(df: Table, ui: Controls, rows: seq<Row>) returns (filtered: seq<Row>)
    ensures filtered == Where(rows, ValueMasks(df, ui))
  {
    WhereNoMasks(rows);
    filtered := rows;
    var nums := NumericColumns(df);
    if |nums| > 0 {
      var col := Selectbox(nums, ui.valueColumn).value;
      if df.columns[col].name != "" {
        var value := Selectbox(SortedOptions(ColumnValues(df.rows, col)), ui.valuePick);
        if ui.valuePressed {
          filtered := Where(filtered, [EqualTo(col, value)]);
        }
      }
    }
  }

  /** One run of the filter section of the script: `df_filtrado` starts as a copy of
      the loaded rows and is narrowed by each block in turn. */
  method ApplyFilters(df: Table, ui: Controls) returns (res: Result<Table>)
    ensures res == Run(df, ui)
    ensures res.Ok? ==> res.value.columns == df.columns && IsSubsequence(res.value.rows, df.rows)
  {
    var filtered := df.rows;
    var filtros := BuildRangeFilters(df, ui.sliders);
    filtered := ApplyRangeFilters(filtered, filtros);
    CascadeIsWhere(df.rows, filtros);
    var cats := CategoricalColumns(df);
    filtered := ApplyCategoryFilters(filtered, cats, ui.multiselects);
    assert filtered == Narrowed(df, ui);
    var searched := ApplyTextSearch(df, ui, filtered);
    if searched.Err? {
      return Err(searched.error);
    }
    CascadeIsWhere(filtered, Search(df, ui).value);
    filtered := searched.value;
    filtered := ApplyValueFilter(df, ui, filtered);
    CascadeIsWhere(searched.value, ValueMasks(df, ui));
    res := Ok(Table(df.columns, filtered));
    RunNarrows(df, ui);
  }
}

/** The table being filtered, the boolean masks that the dashboard applies to
    it, and the two ways of applying a list of masks: all at once (Where) and
    one after another, reassigning the working table each time (Cascade). */
module DataFrame {
  import opened Text

  datatype Option<+T> = None | Some(value: T)

  /** One cell. NaN and None are both Missing; numbers are integers here. */
  datatype Value = Missing | Num(n: int) | Str(s: string)

  type Row = seq<Value>

  /** The dtype of a column, as far as `select_dtypes` tells them apart. */
  datatype Kind = Float64 | Int64 | ObjectDtype | CategoryDtype | OtherDtype

  datatype Column = Column(name: string, kind: Kind)

  /** A data frame: its columns in order and its rows in order. */
  datatype Table = Table(columns: seq<Column>, rows: seq<Row>)

  /** The value of column `c` in row `r`; a row too short to have it reads as Missing. */
  function Cell(r: Row, c: nat): Value
  {
    if c < |r| then r[c] else Missing
  }

  /** Column `c` of `rows`, as the series `df[c]`. */
  function ColumnValues(rows: seq<Row>, c: nat): seq<Value>
  {
    seq(|rows|, i requires 0 <= i < |rows| => Cell(rows[i], c))
  }

  lemma CellInColumn(rows: seq<Row>, r: Row, c: nat)
    requires r in rows
    ensures Cell(r, c) in ColumnValues(rows, c)
  {
    var i :| 0 <= i < |rows| && rows[i] == r;
    assert ColumnValues(rows, c)[i] == Cell(r, c);
  }

  /** `select_dtypes(include=...)`: the positions of the columns whose kind is included, in order. */
  function SelectDtypes(cols: seq<Column>, kinds: set<Kind>): (r: seq<nat>)
    ensures forall i :: 0 <= i < |r| ==> r[i] < |cols| && cols[r[i]].kind in kinds
    ensures forall c :: 0 <= c < |cols| && cols[c].kind in kinds ==> c in r
    ensures forall i, j :: 0 <= i < j < |r| ==> r[i] < r[j]
  {
    if cols == [] then []
    else
      var init := SelectDtypes(cols[..|cols| - 1], kinds);
      if cols[|cols| - 1].kind in kinds then init + [|cols| - 1] else init
  }

  /** Appending a column appends its position iff its kind is included. */
  lemma SelectDtypesSnoc(cols: seq<Column>, col: Column, kinds: set<Kind>)
    ensures SelectDtypes(cols + [col], kinds) == SelectDtypes(cols, kinds) + (if col.kind in kinds then [|cols|] else [])
  {
    assert (cols + [col])[..|cols|] == cols;
  }

  /** `select_dtypes(include=['float64', 'int64'])`. */
  function NumericColumns(t: Table): seq<nat>
  {
    SelectDtypes(t.columns, {Float64, Int64})
  }

  /** `select_dtypes(include=['object', 'category'])`. */
  function CategoricalColumns(t: Table): seq<nat>
  {
    SelectDtypes(t.columns, {ObjectDtype, CategoryDtype})
  }

  /** `select_dtypes(include=['object'])`. */
  function StringColumns(t: Table): seq<nat>
  {
    SelectDtypes(t.columns, {ObjectDtype})
  }

  /** A slider's pair of bounds; NaNBounds is what `float(min())` gives for a column without numbers. */
  datatype Bounds = Between(lo: int, hi: int) | NaNBounds

  /** `(v >= lo) & (v <= hi)`: every comparison with NaN, on either side, is false. */
  predicate InBounds(v: Value, b: Bounds)
  {
    v.Num? && b.Between? && b.lo <= v.n <= b.hi
  }

  /** Bounds `inner` admit no value that `outer` rejects: they are NaN, or a sub-range. */
  predicate BoundsWithin(inner: Bounds, outer: Bounds)
  {
    inner.NaNBounds? || (inner.Between? && outer.Between? && outer.lo <= inner.lo && inner.hi <= outer.hi)
  }

  /** The four kinds of boolean mask the dashboard builds over a column. */
  datatype Mask =
    | InRange(col: nat, bounds: Bounds)      // (df[col] >= lo) & (df[col] <= hi)
    | IsIn(col: nat, members: seq<Value>)    // df[col].isin(members)
    | Contains(col: nat, term: string)       // df[col].str.contains(term, case=False, na=False)
    | EqualTo(col: nat, value: Option<int>)  // df[col] == value

  /** Whether row `r` passes mask `m`. */
  predicate Holds(m: Mask, r: Row)
  {
    match m
    case InRange(c, b) => InBounds(Cell(r, c), b)
    case IsIn(c, members) => Cell(r, c) in members
    case Contains(c, t) => Cell(r, c).Str? && ContainsIgnoringCase(Cell(r, c).s, t)
    case EqualTo(c, v) => v.Some? && Cell(r, c) == Num(v.value)
  }

  predicate AllHold(ms: seq<Mask>, r: Row)
  {
    forall i :: 0 <= i < |ms| ==> Holds(ms[i], r)
  }

  lemma AllHoldConcat(ms: seq<Mask>, ns: seq<Mask>, r: Row)
    ensures AllHold(ms + ns, r) <==> AllHold(ms, r) && AllHold(ns, r)
  {
    if AllHold(ms, r) && AllHold(ns, r) {
      forall i | 0 <= i < |ms + ns|
        ensures Holds((ms + ns)[i], r)
      {
        if i >= |ms| {
          assert (ms + ns)[i] == ns[i - |ms|];
        }
      }
    }
    if AllHold(ms + ns, r) {
      forall i | 0 <= i < |ms|
        ensures Holds(ms[i], r)
      {
        assert (ms + ns)[i] == ms[i];
      }
      forall i | 0 <= i < |ns|
        ensures Holds(ns[i], r)
      {
        assert (ms + ns)[|ms| + i] == ns[i];
      }
    }
  }

  lemma AllHoldSingle(m: Mask, r: Row)
    ensures AllHold([m], r) <==> Holds(m, r)
  {
    assert [m][0] == m;
  }

  /** The rows that pass every mask of `ms`, in their original order: one combined mask. */
  function Where(rows: seq<Row>, ms: seq<Mask>): (kept: seq<Row>)
    ensures |kept| <= |rows|
  {
    if rows == [] then []
    else (if AllHold(ms, rows[0]) then [rows[0]] else []) + Where(rows[1..], ms)
  }

  /** A row is kept iff it is a row of the input that passes every mask. */
  lemma {:induction false} WhereMembers(rows: seq<Row>, ms: seq<Mask>)
    ensures forall r :: r in Where(rows, ms) <==> r in rows && AllHold(ms, r)
    decreases |rows|
  {
    if rows != [] {
      WhereMembers(rows[1..], ms);
      assert rows == [rows[0]] + rows[1..];
    }
  }

  /** The masks applied one at a time, each to the result of the previous one,
      as the dashboard reassigns `df_filtrado = df_filtrado[mask]`. */
  function Cascade(rows: seq<Row>, ms: seq<Mask>): seq<Row>
  {
    if ms == [] then rows
    else Where(Cascade(rows, ms[..|ms| - 1]), [ms[|ms| - 1]])
  }

  lemma CascadeSnoc(rows: seq<Row>, init: seq<Mask>, last: Mask)
    ensures Cascade(rows, init + [last]) == Where(Cascade(rows, init), [last])
  {
    assert (init + [last])[..|init|] == init;
  }

  /** `a` is obtained from `b` by deleting elements, keeping the order of the rest. */
  ghost predicate IsSubsequence(a: seq<Row>, b: seq<Row>)
    decreases |b|
  {
    a == [] || (b != [] && ((a[0] == b[0] && IsSubsequence(a[1..], b[1..])) || IsSubsequence(a, b[1..])))
  }

  /** Filtering keeps every copy of a passing row and no copy of a failing one. */
  lemma {:induction false} WhereCounts(rows: seq<Row>, ms: seq<Mask>, r: Row)
    ensures multiset(Where(rows, ms))[r] == if AllHold(ms, r) then multiset(rows)[r] else 0
    decreases |rows|
  {
    if rows != [] {
      WhereCounts(rows[1..], ms, r);
      assert rows == [rows[0]] + rows[1..];
      var head := if AllHold(ms, rows[0]) then [rows[0]] else [];
      assert multiset(Where(rows, ms)) == multiset(head) + multiset(Where(rows[1..], ms));
    }
  }

  /** Filtering only removes rows and never reorders the rest. */
  lemma {:induction false} WhereIsSubsequence(rows: seq<Row>, ms: seq<Mask>)
    ensures IsSubsequence(Where(rows, ms), rows)
    decreases |rows|
  {
    if rows != [] {
      WhereIsSubsequence(rows[1..], ms);
      var tail := Where(rows[1..], ms);
      if AllHold(ms, rows[0]) {
        assert Where(rows, ms) == [rows[0]] + tail;
        assert ([rows[0]] + tail)[1..] == tail;
      } else {
        assert Where(rows, ms) == tail;
      }
    }
  }

  lemma {:induction false} WhereNoMasks(rows: seq<Row>)
    ensures Where(rows, []) == rows
    decreases |rows|
  {
    if rows != [] {
      WhereNoMasks(rows[1..]);
    }
  }

  /** Filtering the filtered table by more masks is filtering once by all of them. */
  lemma {:induction false} WhereWhere(rows: seq<Row>, ms: seq<Mask>, ns: seq<Mask>)
    ensures Where(Where(rows, ms), ns) == Where(rows, ms + ns)
    decreases |rows|
  {
    if rows != [] {
      WhereWhere(rows[1..], ms, ns);
      AllHoldConcat(ms, ns, rows[0]);
      var tail := Where(rows[1..], ms);
      if AllHold(ms, rows[0]) {
        assert Where(rows, ms) == [rows[0]] + tail;
        assert ([rows[0]] + tail)[1..] == tail;
      } else {
        assert Where(rows, ms) == tail;
      }
    }
  }

  /** Masks applied in turn keep exactly the rows passing all of them, in order. */
  lemma {:induction false} CascadeIsWhere(rows: seq<Row>, ms: seq<Mask>)
    ensures Cascade(rows, ms) == Where(rows, ms)
    decreases |ms|
  {
    if ms == [] {
      WhereNoMasks(rows);
    } else {
      var init, last := ms[..|ms| - 1], ms[|ms| - 1];
      CascadeIsWhere(rows, init);
      WhereWhere(rows, init, [last]);
      assert init + [last] == ms;
    }
  }

  /** Two lists of masks that agree on every row of the table select the same rows. */
  lemma {:induction false} WhereCongruent(rows: seq<Row>, ms: seq<Mask>, ns: seq<Mask>)
    requires forall r :: r in rows ==> (AllHold(ms, r) <==> AllHold(ns, r))
    ensures Where(rows, ms) == Where(rows, ns)
    decreases |rows|
  {
    if rows != [] {
      WhereCongruent(rows[1..], ms, ns);
    }
  }

  /** The order of the masks does not matter, only which masks there are. */
  lemma MaskOrderIrrelevant(rows: seq<Row>, ms: seq<Mask>, ns: seq<Mask>)
    requires forall m :: m in ms <==> m in ns
    ensures Where(rows, ms) == Where(rows, ns)
  {
    forall r | r in rows
      ensures AllHold(ms, r) <==> AllHold(ns, r)
    {
      if AllHold(ms, r) {
        forall j | 0 <= j < |ns| ensures Holds(ns[j], r) {
          assert ns[j] in ms;
          var i :| 0 <= i < |ms| && ms[i] == ns[j];
        }
      }
      if AllHold(ns, r) {
        forall i | 0 <= i < |ms| ensures Holds(ms[i], r) {
          assert ms[i] in ns;
          var j :| 0 <= j < |ns| && ns[j] == ms[i];
        }
      }
    }
    WhereCongruent(rows, ms, ns);
  }

  /** Stricter masks keep a subsequence of what laxer masks keep. */
  lemma {:induction false} WhereNarrows(rows: seq<Row>, ms: seq<Mask>, ns: seq<Mask>)
    requires forall r :: r in rows && AllHold(ns, r) ==> AllHold(ms, r)
    ensures IsSubsequence(Where(rows, ns), Where(rows, ms))
    decreases |rows|
  {
    if rows != [] {
      WhereNarrows(rows[1..], ms, ns);
      var tail := Where(rows[1..], ns);
      var wide := Where(rows[1..], ms);
      if AllHold(ns, rows[0]) {
        assert Where(rows, ns) == [rows[0]] + tail;
        assert Where(rows, ms) == [rows[0]] + wide;
        assert ([rows[0]] + tail)[1..] == tail;
        assert ([rows[0]] + wide)[1..] == wide;
      } else if AllHold(ms, rows[0]) {
        assert Where(rows, ms) == [rows[0]] + wide;
        assert ([rows[0]] + wide)[1..] == wide;
        assert Where(rows, ns) == tail;
      } else {
        assert Where(rows, ms) == wide;
        assert Where(rows, ns) == tail;
      }
    }
  }

  /** Shrinking a range can only remove rows from what the wider range keeps. */
  lemma RangeTightening(rows: seq<Row>, c: nat, lo: int, hi: int, lo': int, hi': int)
    requires lo <= lo' && hi' <= hi
    ensures IsSubsequence(Where(rows, [InRange(c, Between(lo', hi'))]), Where(rows, [InRange(c, Between(lo, hi))]))
  {
    var ms, ns := [InRange(c, Between(lo, hi))], [InRange(c, Between(lo', hi'))];
    forall r | r in rows && AllHold(ns, r)
      ensures AllHold(ms, r)
    {
      assert Holds(ns[0], r);
    }
    WhereNarrows(rows, ms, ns);
  }

  /** A row passing text tests has a string in each column they search. */
  lemma ContainsNeedsText(ms: seq<Mask>, r: Row)
    requires forall i :: 0 <= i < |ms| ==> ms[i].Contains?
    requires AllHold(ms, r)
    ensures forall m :: m in ms ==> Cell(r, m.col).Str?
  {
    forall m | m in ms
      ensures Cell(r, m.col).Str?
    {
      var i :| 0 <= i < |ms| && ms[i] == m;
      assert Holds(ms[i], r);
    }
  }

  /** A row passing equality tests has a number in each column they compare. */
  lemma EqualToNeedsNumber(ms: seq<Mask>, r: Row)
    requires forall i :: 0 <= i < |ms| ==> ms[i].EqualTo?
    requires AllHold(ms, r)
    ensures forall m :: m in ms ==> Cell(r, m.col).Num?
  {
    forall m | m in ms
      ensures Cell(r, m.col).Num?
    {
      var i :| 0 <= i < |ms| && ms[i] == m;
      assert Holds(ms[i], r);
    }
  }

  /** No mask but a membership test whose members include Missing lets a missing value through. */
  lemma MaskRejectsMissing(m: Mask, r: Row)
    requires !m.IsIn? || Missing !in m.members
    requires Holds(m, r)
    ensures Cell(r, m.col) != Missing
  {
  }
}

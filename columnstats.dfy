/** What the dashboard reads off one column before building a control for it:
    its distinct non-missing values, its observed minimum and maximum, and its
    sorted distinct numbers. */
module ColumnStats {
  import opened DataFrame

  /** `series.dropna().unique()`: each non-missing value once, in order of first appearance. */
  function DropnaUnique(vals: seq<Value>): (opts: seq<Value>)
    ensures forall v {:trigger v in opts} :: v in opts <==> v in vals && v != Missing
  {
    if vals == [] then []
    else
      var init, last := DropnaUnique(vals[..|vals| - 1]), vals[|vals| - 1];
      assert vals == vals[..|vals| - 1] + [last];
      if last == Missing || last in init then init else init + [last]
  }

  /** Each option of `dropna().unique()` is listed once. */
  lemma {:induction false} DropnaUniqueDistinct(vals: seq<Value>)
    ensures forall i, j :: 0 <= i < j < |DropnaUnique(vals)| ==> DropnaUnique(vals)[i] != DropnaUnique(vals)[j]
    decreases |vals|
  {
    if vals != [] {
      DropnaUniqueDistinct(vals[..|vals| - 1]);
    }
  }

  /** The numbers of a numeric column, leaving out the missing values. */
  function Numbers(vals: seq<Value>): (xs: seq<int>)
    ensures forall x :: x in xs <==> Num(x) in vals
  {
    if vals == [] then []
    else
      var rest := Numbers(vals[1..]);
      assert vals == [vals[0]] + vals[1..];
      if vals[0].Num? then [vals[0].n] + rest else rest
  }

  /** `series.min()`, which skips missing values; None stands for the NaN of a column without numbers. */
  function Min(xs: seq<int>): (m: Option<int>)
    ensures m.None? <==> xs == []
    ensures m.Some? ==> m.value in xs && forall x :: x in xs ==> m.value <= x
  {
    if xs == [] then None
    else
      assert xs == [xs[0]] + xs[1..];
      match Min(xs[1..])
      case None => Some(xs[0])
      case Some(k) => Some(if xs[0] <= k then xs[0] else k)
  }

  /** `series.max()`, which skips missing values. */
  function Max(xs: seq<int>): (m: Option<int>)
    ensures m.None? <==> xs == []
    ensures m.Some? ==> m.value in xs && forall x :: x in xs ==> x <= m.value
  {
    if xs == [] then None
    else
      assert xs == [xs[0]] + xs[1..];
      match Max(xs[1..])
      case None => Some(xs[0])
      case Some(k) => Some(if xs[0] >= k then xs[0] else k)
  }

  /** The range a numeric filter starts from: `(float(min()), float(max()))`. */
  function ObservedBounds(vals: seq<Value>): (b: Bounds)
    ensures b.Between? ==> b.lo <= b.hi && Num(b.lo) in vals && Num(b.hi) in vals
    ensures b.NaNBounds? <==> forall x :: Num(x) !in vals
  {
    match (Min(Numbers(vals)), Max(Numbers(vals)))
    case (Some(lo), Some(hi)) => Between(lo, hi)
    case _ => NaNBounds
  }

  /** With the observed bounds, a value of the column passes the range test iff it is a number. */
  lemma ObservedBoundsAdmitEveryNumber(vals: seq<Value>, v: Value)
    requires v in vals
    ensures InBounds(v, ObservedBounds(vals)) <==> v.Num?
  {
    if v.Num? {
      assert v.n in Numbers(vals);
    }
  }

  predicate Increasing(s: seq<int>)
  {
    forall i, j :: 0 <= i < j < |s| ==> s[i] < s[j]
  }

  /** Insert `x` into an increasing sequence, keeping it increasing and without duplicates. */
  function Insert(s: seq<int>, x: int): (r: seq<int>)
    requires Increasing(s)
    ensures Increasing(r)
    ensures forall y :: y in r <==> y in s || y == x
  {
    if s == [] then [x]
    else if x == s[0] then s
    else if x < s[0] then [x] + s
    else
      var rest := Insert(s[1..], x);
      ConsIncreasing(s[0], rest);
      [s[0]] + rest
  }

  lemma ConsIncreasing(a: int, t: seq<int>)
    requires Increasing(t) && forall y :: y in t ==> a < y
    ensures Increasing([a] + t)
  {
    var r := [a] + t;
    forall i, j | 0 <= i < j < |r|
      ensures r[i] < r[j]
    {
      assert r[j] == t[j - 1];
      if i > 0 {
        assert r[i] == t[i - 1];
      } else {
        assert t[j - 1] in t;
      }
    }
  }

  /** The distinct elements of `xs` in increasing order. */
  function SortedDistinct(xs: seq<int>): (r: seq<int>)
    ensures Increasing(r)
    ensures forall y :: y in r <==> y in xs
  {
    if xs == [] then []
    else
      var init := SortedDistinct(xs[..|xs| - 1]);
      assert xs == xs[..|xs| - 1] + [xs[|xs| - 1]];
      Insert(init, xs[|xs| - 1])
  }

  /** `series.dropna().unique()` followed by `.sort()`: the values offered by the single-value filter. */
  function SortedOptions(vals: seq<Value>): (r: seq<int>)
    ensures Increasing(r)
    ensures forall x :: x in r <==> Num(x) in vals
  {
    SortedDistinct(Numbers(vals))
  }
}

/** A pandas DataFrame as the pipeline sees it: an ordered list of column
    names and one row per record, each row a map from column name to cell.
    Also the pandas primitives the pipeline leans on: boolean-mask
    selection (`Filter`), `Series.unique()` (`Unique`) and the column
    assignments `df[col] = ...` (`MapColumn`, `DeriveColumn`,
    `CombineColumns`, `AddColumn`, `SetColumn`, with `WithColumn` for the
    column list). */
module Frames {

  /** One cell of a table. `Null` is pandas' missing value (NaN/None);
      `StrList` is a cell holding a Python list of strings; `Other` is any
      value the pipeline never inspects (booleans, nested objects, ...). */
  datatype Cell =
    | Null
    | Str(s: string)
    | Num(x: real)
    | Int(i: int)
    | StrList(items: seq<string>)
    | Other

  type Row = map<string, Cell>

  datatype Frame = Frame(columns: seq<string>, rows: seq<Row>)

  predicate Distinct<T(==)>(xs: seq<T>) {
    forall i, j :: 0 <= i < j < |xs| ==> xs[i] != xs[j]
  }

  function ColumnSet(cs: seq<string>): set<string> {
    set c | c in cs
  }

  /** Column names are distinct and every row has exactly those columns. */
  predicate WellFormed(df: Frame) {
    Distinct(df.columns) && forall r :: r in df.rows ==> r.Keys == ColumnSet(df.columns)
  }

  /** Two duplicate-free lists with no value in common concatenate to a
      duplicate-free list. */
  lemma DistinctAppend<T>(xs: seq<T>, ys: seq<T>)
    requires Distinct(xs) && Distinct(ys)
    requires forall x :: x in xs ==> x !in ys
    ensures Distinct(xs + ys)
  {
    var zs := xs + ys;
    forall i, j | 0 <= i < j < |zs| ensures zs[i] != zs[j] {
      if i < |xs| && |xs| <= j {
        assert zs[i] in xs && zs[j] == ys[j - |xs|];
      }
    }
  }

  /** `xs` can be obtained from `ys` by deleting elements (order kept). */
  predicate IsSubsequence<T(==)>(xs: seq<T>, ys: seq<T>)
    decreases |ys|
  {
    if xs == [] then true
    else if ys == [] then false
    else if xs[0] == ys[0] then IsSubsequence(xs[1..], ys[1..])
    else IsSubsequence(xs, ys[1..])
  }

  /** Boolean-mask selection `xs[mask]`: the elements satisfying `p`, in order. */
  function Filter<T(==,!new)>(p: T -> bool, xs: seq<T>): (r: seq<T>)
    ensures |r| <= |xs|
    ensures forall x :: x in r <==> x in xs && p(x)
    ensures IsSubsequence(r, xs)
    ensures forall x :: multiset(r)[x] == if p(x) then multiset(xs)[x] else 0
  {
    if xs == [] then []
    else
      assert xs == [xs[0]] + xs[1..];
      if p(xs[0]) then [xs[0]] + Filter(p, xs[1..])
      else Filter(p, xs[1..])
  }

  /** Filtering twice is filtering once by the conjunction. */
  lemma {:induction false} FilterFilter<T(!new)>(p: T -> bool, q: T -> bool, pq: T -> bool, xs: seq<T>)
    requires forall x :: pq(x) == (p(x) && q(x))
    ensures Filter(q, Filter(p, xs)) == Filter(pq, xs)
  {
    if xs != [] {
      FilterFilter(p, q, pq, xs[1..]);
    }
  }

  /** `Series.unique()`: each distinct value once, in order of first appearance. */
  function Unique<T(==,!new)>(xs: seq<T>): (r: seq<T>)
    ensures Distinct(r)
    ensures forall x :: x in r <==> x in xs
    decreases |xs|
  {
    if xs == [] then []
    else
      var u := Unique(xs[..|xs| - 1]);
      if xs[|xs| - 1] in u then u else u + [xs[|xs| - 1]]
  }

  /** First-appearance order: the values met in any prefix of `xs` come
      first in `Unique(xs)`, in the order `Unique` gives them for that prefix. */
  lemma {:induction false} UniquePrefix<T(!new)>(xs: seq<T>, k: nat)
    requires k <= |xs|
    ensures Unique(xs[..k]) <= Unique(xs)
    decreases |xs| - k
  {
    if k < |xs| {
      var ys := xs[..|xs| - 1];
      assert ys[..k] == xs[..k];
      UniquePrefix(ys, k);
      assert xs[..|xs|] == xs;
    } else {
      assert xs[..k] == xs;
    }
  }

  // ----- column assignment ----------------------------------------------

  /** `df[col] = df[col].apply(f)`. */
  function MapColumn(rows: seq<Row>, col: string, f: Cell -> Cell): (out: seq<Row>)
    requires forall i :: 0 <= i < |rows| ==> col in rows[i]
    ensures |out| == |rows|
    ensures forall i :: 0 <= i < |rows| ==> out[i] == rows[i][col := f(rows[i][col])]
  {
    seq(|rows|, i requires 0 <= i < |rows| => rows[i][col := f(rows[i][col])])
  }

  /** `df[dst] = df[src].apply(f)`. */
  function DeriveColumn(rows: seq<Row>, src: string, dst: string, f: Cell -> Cell): (out: seq<Row>)
    requires forall i :: 0 <= i < |rows| ==> src in rows[i]
    ensures |out| == |rows|
    ensures forall i :: 0 <= i < |rows| ==> out[i] == rows[i][dst := f(rows[i][src])]
  {
    seq(|rows|, i requires 0 <= i < |rows| => rows[i][dst := f(rows[i][src])])
  }

  /** `df[dst] = g(df[src1], df[src2])`, an element-wise operation on two columns. */
  function CombineColumns(rows: seq<Row>, src1: string, src2: string, dst: string, g: (Cell, Cell) -> Cell): (out: seq<Row>)
    requires forall i :: 0 <= i < |rows| ==> src1 in rows[i] && src2 in rows[i]
    ensures |out| == |rows|
    ensures forall i :: 0 <= i < |rows| ==> out[i] == rows[i][dst := g(rows[i][src1], rows[i][src2])]
  {
    seq(|rows|, i requires 0 <= i < |rows| => rows[i][dst := g(rows[i][src1], rows[i][src2])])
  }

  /** The string a text cell holds; "" for a cell that is not a string. */
  function TextOf(v: Cell): (s: string)
    ensures v.Str? ==> s == v.s
    ensures v.Null? ==> s == ""
  {
    if v.Str? then v.s else ""
  }

  /** `df[col] = df.apply(f, axis=1)`. */
  function AddColumn(rows: seq<Row>, col: string, f: Row -> Cell): (out: seq<Row>)
    ensures |out| == |rows|
    ensures forall i :: 0 <= i < |rows| ==> out[i] == rows[i][col := f(rows[i])]
  {
    seq(|rows|, i requires 0 <= i < |rows| => rows[i][col := f(rows[i])])
  }

  /** `df[col] = values`, one value per row. */
  function SetColumn(rows: seq<Row>, col: string, values: seq<Cell>): (out: seq<Row>)
    requires |values| == |rows|
    ensures |out| == |rows|
    ensures forall i :: 0 <= i < |rows| ==> out[i] == rows[i][col := values[i]]
  {
    seq(|rows|, i requires 0 <= i < |rows| => rows[i][col := values[i]])
  }

  /** The column list after `df[c] = ...`: an existing column keeps its
      place, a new one is appended at the end. */
  function WithColumn(columns: seq<string>, c: string): (cs: seq<string>)
    ensures forall x :: x in cs <==> x in columns || x == c
    ensures c in columns ==> cs == columns
    ensures columns <= cs
    ensures Distinct(columns) ==> Distinct(cs)
  {
    if c in columns then columns else columns + [c]
  }

  /** Filtering by a predicate every element satisfies changes nothing. */
  lemma {:induction false} FilterAll<T(!new)>(p: T -> bool, xs: seq<T>)
    requires forall x :: x in xs ==> p(x)
    ensures Filter(p, xs) == xs
  {
    if xs != [] {
      FilterAll(p, xs[1..]);
    }
  }
}

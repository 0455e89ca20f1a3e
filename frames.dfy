/**
 * The pandas table the episode-metadata scripts edit: named columns in order, each a
 * column of cells of the same height. Assigning `df[name] = values` replaces an existing
 * column where it stands and appends a new one at the end.
 */
module Frames {
  import opened Wrappers

  /** A table cell: an integer, a float, a float NaN, a string, or a list of strings. */
  datatype Cell = IntCell(i: int) | RealCell(r: real) | NaN | TextCell(s: string) | ListCell(items: seq<string>)

  /** No name occurs twice. */
  predicate Distinct(names: seq<string>) {
    forall i, j :: 0 <= i < j < |names| ==> names[i] != names[j]
  }

  /** Float to integer, rounding toward zero as `int()` and `astype("int64")` do. */
  function Truncate(r: real): (t: int)
    ensures r >= 0.0 ==> t >= 0 && t as real <= r < t as real + 1.0
    ensures r < 0.0 ==> t <= 0 && t as real - 1.0 < r <= t as real
  {
    if r >= 0.0 then r.Floor else -((-r).Floor)
  }

  /**
   * `astype("int64")` or `int(x)` of one cell: integers stay, floats are truncated, and
   * NaN, strings and lists are refused.
   */
  function ToInt64(c: Cell): (r: Option<int>)
    ensures r.Some? <==> c.IntCell? || c.RealCell?
    ensures c.IntCell? ==> r == Some(c.i)
  {
    match c
    case IntCell(i) => Some(i)
    case RealCell(x) => Some(Truncate(x))
    case _ => None
  }

  /** A number as a float, or `None` for a cell that is not one (NaN included). */
  function ToNumber(c: Cell): (r: Option<real>)
    ensures r.Some? <==> c.IntCell? || c.RealCell?
  {
    match c
    case IntCell(i) => Some(i as real)
    case RealCell(x) => Some(x)
    case _ => None
  }

  /** `pd.to_numeric(errors="coerce").fillna(0).astype("int64")` of one cell. */
  function NumericOrZero(c: Cell): (n: int)
    ensures ToInt64(c).Some? ==> n == ToInt64(c).value
    ensures ToInt64(c).None? ==> n == 0
  {
    match c
    case IntCell(i) => i
    case RealCell(x) => Truncate(x)
    case _ => 0
  }

  /** A column of integer cells. */
  function IntCells(xs: seq<int>): (col: seq<Cell>)
    ensures |col| == |xs|
    ensures forall i :: 0 <= i < |xs| ==> col[i] == IntCell(xs[i])
  {
    if xs == [] then [] else [IntCell(xs[0])] + IntCells(xs[1..])
  }

  /** Each value shifted by `offset`. */
  function PlusOffset(xs: seq<int>, offset: int): (ys: seq<int>)
    ensures |ys| == |xs| && forall i :: 0 <= i < |xs| ==> ys[i] == xs[i] + offset
  {
    seq(|xs|, i requires 0 <= i < |xs| => xs[i] + offset)
  }

  /** A column holding the same cell in every row. */
  function Constant(c: Cell, height: nat): (col: seq<Cell>)
    ensures |col| == height && forall i :: 0 <= i < height ==> col[i] == c
  {
    seq(height, _ => c)
  }

  /** `astype("int64")` of a column: refused as a whole when any cell is refused. */
  function ColumnToInt64(col: seq<Cell>): (r: Option<seq<int>>)
    ensures r.Some? <==> forall i :: 0 <= i < |col| ==> ToInt64(col[i]).Some?
    ensures r.Some? ==> |r.value| == |col| && forall i :: 0 <= i < |col| ==> r.value[i] == ToInt64(col[i]).value
  {
    if col == [] then Some([])
    else
      match (ToInt64(col[0]), ColumnToInt64(col[1..]))
      case (Some(x), Some(rest)) => Some([x] + rest)
      case _ => None
  }

  /** Casting a column of integers gives back those integers. */
  lemma {:induction false} IntCellsCast(xs: seq<int>)
    ensures ColumnToInt64(IntCells(xs)) == Some(xs)
  {
    if xs != [] {
      IntCellsCast(xs[1..]);
      assert IntCells(xs)[1..] == IntCells(xs[1..]);
      assert xs == [xs[0]] + xs[1..];
    }
  }

  /** Casting is idempotent: a cast column cast again is unchanged. */
  lemma CastIdempotent(col: seq<Cell>)
    requires ColumnToInt64(col).Some?
    ensures ColumnToInt64(IntCells(ColumnToInt64(col).value)) == ColumnToInt64(col)
  {
    IntCellsCast(ColumnToInt64(col).value);
  }

  /** The integer `ToInt64` gives is the float truncated toward zero: never further from zero. */
  lemma ToInt64TowardZero(c: Cell)
    requires ToInt64(c).Some?
    ensures var n := ToInt64(c).value as real;
      var x := ToNumber(c).value;
      (x >= 0.0 ==> 0.0 <= n <= x) && (x < 0.0 ==> x <= n <= 0.0)
  {
  }

  /** A table's columns by name. */
  type Cells = map<string, seq<Cell>>

  /** Every column has `height` cells. */
  predicate Rectangular(cells: Cells, height: nat) {
    forall c :: c in cells ==> |cells[c]| == height
  }

  /** A table: the column names in order and each column's cells. */
  class Frame {
    var columns: seq<string>
    var cells: map<string, seq<Cell>>
    const height: nat

    ghost predicate Valid()
      reads this
    {
      && Distinct(columns)
      && (forall c :: c in cells <==> c in columns)
      && Rectangular(cells, height)
    }

    /** `name in df.columns` */
    predicate Has(name: string)
      reads this
    {
      name in cells
    }

    constructor (columns: seq<string>, cells: map<string, seq<Cell>>, height: nat)
      requires Distinct(columns) && (forall c :: c in cells <==> c in columns)
      requires Rectangular(cells, height)
      ensures Valid() && this.columns == columns && this.cells == cells && this.height == height
    {
      this.columns := columns;
      this.cells := cells;
      this.height := height;
    }

    /** `df[name] = values`: replace the column in place, or append it when new. */
    method SetColumn(name: string, values: seq<Cell>)
      requires Valid() && |values| == height
      modifies this
      ensures Valid()
      ensures cells == old(cells)[name := values]
      ensures columns == if name in old(cells) then old(columns) else old(columns) + [name]
    {
      if name !in cells {
        columns := columns + [name];
      }
      cells := cells[name := values];
    }
  }
}

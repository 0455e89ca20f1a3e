/**
 * The repair of an episodes table that lacks the loader's index columns: each episode's
 * half-open frame range `[dataset_from_index, dataset_to_index)` is derived from its
 * inclusive `start_index`/`end_index` when absent, `episode_length` is copied from
 * `length`, the key columns are cast to integers, and the table is refused when any
 * range is empty.
 */
module FixEpisodeColumns {
  import opened Wrappers
  import opened Frames

  datatype FixError =
    | NoIndexPair
    | NotInteger(column: string)
    | EmptyRanges(count: nat)

  const From := "dataset_from_index"
  const To := "dataset_to_index"
  const Start := "start_index"
  const End := "end_index"
  const Length := "length"
  const EpisodeLength := "episode_length"
  const EpisodeIndex := "episode_index"

  /** The columns the cast loop makes integer, in its order. */
  const KeyColumns: seq<string> := [EpisodeIndex, From, To]

  /** The guard: one of the two pairs of index columns is there. */
  predicate HasIndexColumns(cells: Cells) {
    (Start in cells && End in cells) || (From in cells && To in cells)
  }

  /**
   * Under the guard, a table without `dataset_to_index` always has `end_index`, so the
   * `from + length` fallback for `dataset_to_index` is never taken.
   */
  lemma FallbackUnreachable(cells: Cells)
    requires HasIndexColumns(cells)
    ensures To !in cells ==> End in cells
  {
  }

  /** `(to <= from).sum()`: the number of rows whose range is empty. */
  function EmptyCount(from: seq<int>, to: seq<int>): (n: nat)
    requires |from| == |to|
    ensures n <= |from|
    ensures n == 0 <==> forall i :: 0 <= i < |from| ==> from[i] < to[i]
  {
    if from == [] then 0
    else EmptyCount(from[1..], to[1..]) + (if to[0] <= from[0] then 1 else 0)
  }

  /** An inclusive range of one row or more never gives an empty half-open range. */
  lemma InclusiveRangesNonEmpty(start: seq<int>, end: seq<int>)
    requires |start| == |end| && forall i :: 0 <= i < |start| ==> start[i] <= end[i]
    ensures EmptyCount(start, PlusOffset(end, 1)) == 0
  {
  }

  /** Column `name` set to the integers of column `source` plus `offset`, unless `name` exists. */
  function AddIfAbsent(cells: Cells, name: string, source: string, offset: int): (r: Result<Cells, FixError>)
    requires name in cells || source in cells
    ensures name in cells ==> r == Ok(cells)
    ensures name !in cells && ColumnToInt64(cells[source]).None? ==> r == Err(NotInteger(source))
    ensures name !in cells && ColumnToInt64(cells[source]).Some? ==>
      r.Ok? && (forall c :: c in r.value <==> c in cells || c == name)
      && r.value[name] == IntCells(PlusOffset(ColumnToInt64(cells[source]).value, offset))
      && forall c :: c in cells ==> r.value[c] == cells[c]
  {
    if name in cells then Ok(cells)
    else
      match ColumnToInt64(cells[source])
      case None => Err(NotInteger(source))
      case Some(xs) => Ok(cells[name := IntCells(PlusOffset(xs, offset))])
  }

  /** The cast loop over `keys`: each present column becomes integer cells. */
  function CastKeys(cells: Cells, keys: seq<string>): (r: Result<Cells, FixError>)
    ensures r.Err? ==> r.error.NotInteger?
    ensures r.Ok? ==> forall c :: c in r.value <==> c in cells
    ensures r.Ok? ==> forall c :: c in cells ==> |r.value[c]| == |cells[c]|
    ensures r.Ok? ==> forall c :: c in cells && c !in keys ==> r.value[c] == cells[c]
    ensures r.Ok? ==> forall c :: c in cells && c in keys ==>
      ColumnToInt64(cells[c]).Some? && r.value[c] == IntCells(ColumnToInt64(cells[c]).value)
    decreases |keys|
  {
    if keys == [] then Ok(cells)
    else if keys[0] !in cells then CastKeys(cells, keys[1..])
    else
      match ColumnToInt64(cells[keys[0]])
      case None => Err(NotInteger(keys[0]))
      case Some(xs) =>
        IntCellsCast(xs);
        CastKeys(cells[keys[0] := IntCells(xs)], keys[1..])
  }

  /** The column names the script uses are pairwise different. */
  lemma NamesDistinct()
    ensures |From| == 18 && |To| == 16 && |Start| == 11 && |End| == 9
    ensures |Length| == 6 && |EpisodeLength| == 14 && |EpisodeIndex| == 13
  {
  }

  /** Stages one to three: the range columns and `episode_length`, added when absent. */
  function Derive(cells: Cells): Result<Cells, FixError>
    requires HasIndexColumns(cells)
  {
    match AddIfAbsent(cells, From, Start, 0)
    case Err(e) => Err(e)
    case Ok(c1) =>
      if To !in c1 && End !in c1 then Ok(c1) // cannot happen, see `FallbackUnreachable`
      else
        match AddIfAbsent(c1, To, End, 1)
        case Err(e) => Err(e)
        case Ok(c2) =>
          if EpisodeLength !in c2 && Length in c2 then AddIfAbsent(c2, EpisodeLength, Length, 0) else Ok(c2)
  }

  /** Stages one to three add the range columns, and `episode_length` when `length` is there, and nothing else. */
  lemma DeriveShape(cells: Cells, height: nat)
    requires HasIndexColumns(cells) && Rectangular(cells, height) && Derive(cells).Ok?
    ensures var out := Derive(cells).value;
      && Rectangular(out, height)
      && (forall c :: c in out <==> c in cells || c == From || c == To || (c == EpisodeLength && Length in cells))
      && (forall c :: c in cells ==> out[c] == cells[c])
  {
    NamesDistinct();
  }

  /** The values of the columns stages one to three add. */
  lemma DeriveValues(cells: Cells)
    requires HasIndexColumns(cells) && Derive(cells).Ok?
    ensures var out := Derive(cells).value;
      && (From !in cells ==>
            ColumnToInt64(cells[Start]).Some? && out[From] == IntCells(ColumnToInt64(cells[Start]).value))
      && (To !in cells ==>
            ColumnToInt64(cells[End]).Some? && out[To] == IntCells(PlusOffset(ColumnToInt64(cells[End]).value, 1)))
      && (EpisodeLength !in cells && Length in cells ==>
            ColumnToInt64(cells[Length]).Some? && out[EpisodeLength] == IntCells(ColumnToInt64(cells[Length]).value))
  {
    NamesDistinct();
    if From !in cells {
      assert PlusOffset(ColumnToInt64(cells[Start]).value, 0) == ColumnToInt64(cells[Start]).value;
    }
    if EpisodeLength !in cells && Length in cells {
      assert PlusOffset(ColumnToInt64(cells[Length]).value, 0) == ColumnToInt64(cells[Length]).value;
    }
  }

  /** Both range columns are there, integer, of the table's height, and no range is empty. */
  predicate RangesValid(cells: Cells, height: nat) {
    && From in cells && To in cells
    && ColumnToInt64(cells[From]).Some? && ColumnToInt64(cells[To]).Some?
    && |ColumnToInt64(cells[From]).value| == |ColumnToInt64(cells[To]).value| == height
    && forall i :: 0 <= i < height ==> ColumnToInt64(cells[From]).value[i] < ColumnToInt64(cells[To]).value[i]
  }

  /** Stages four and five: the cast of the key columns, then the check that no range is empty. */
  function Checked(cells: Cells, height: nat): (r: Result<Cells, FixError>)
    requires Rectangular(cells, height) && From in cells && To in cells
    ensures r.Err? ==> r.error.NotInteger? || r.error.EmptyRanges?
    ensures r.Ok? ==> RangesValid(r.value, height)
  {
    match CastKeys(cells, KeyColumns)
    case Err(e) => Err(e)
    case Ok(cast) =>
      var from := ColumnToInt64(cast[From]).value;
      var to := ColumnToInt64(cast[To]).value;
      assert |from| == |cast[From]| == |cells[From]| == height;
      assert |to| == |cast[To]| == |cells[To]| == height;
      var bad := EmptyCount(from, to);
      if bad > 0 then Err(EmptyRanges(bad)) else Ok(cast)
  }

  /**
   * The table the script writes, computed on the columns: the guard, the derived
   * range columns, `episode_length`, the cast of the key columns, and the check that
   * no range is empty. It stops at the guard exactly when neither pair of index
   * columns is there, and a table it writes has integer ranges none of which is empty.
   */
  function Fixed(cells: Cells, height: nat): (r: Result<Cells, FixError>)
    requires Rectangular(cells, height)
    ensures r == Err(NoIndexPair) <==> !HasIndexColumns(cells)
    ensures r.Ok? ==> RangesValid(r.value, height)
  {
    if !HasIndexColumns(cells) then Err(NoIndexPair)
    else
      match Derive(cells)
      case Err(e) => Err(e)
      case Ok(derived) =>
        DeriveShape(cells, height);
        Checked(derived, height)
  }

  /**
   * Where the range columns of the written table come from: one already there keeps
   * its values cast to integers, a missing `dataset_from_index` is `start_index` and a
   * missing `dataset_to_index` is `end_index + 1`.
   */
  lemma FixedRangeSources(cells: Cells, height: nat)
    requires Rectangular(cells, height) && Fixed(cells, height).Ok?
    ensures var out := Fixed(cells, height).value;
      && (From !in cells ==>
            Start in cells && ColumnToInt64(cells[Start]).Some? && out[From] == IntCells(ColumnToInt64(cells[Start]).value))
      && (From in cells ==>
            ColumnToInt64(cells[From]).Some? && out[From] == IntCells(ColumnToInt64(cells[From]).value))
      && (To !in cells ==>
            End in cells && ColumnToInt64(cells[End]).Some? && out[To] == IntCells(PlusOffset(ColumnToInt64(cells[End]).value, 1)))
      && (To in cells ==>
            ColumnToInt64(cells[To]).Some? && out[To] == IntCells(ColumnToInt64(cells[To]).value))
  {
    DeriveShape(cells, height);
    DeriveValues(cells);
    assert From in KeyColumns && To in KeyColumns;
    if From !in cells {
      IntCellsCast(ColumnToInt64(cells[Start]).value);
    }
    if To !in cells {
      IntCellsCast(PlusOffset(ColumnToInt64(cells[End]).value, 1));
    }
  }

  /**
   * The other columns of the written table: a missing `episode_length` is `length`,
   * every column outside the key columns is unchanged, and no other column is added.
   */
  lemma FixedOtherColumns(cells: Cells, height: nat)
    requires Rectangular(cells, height) && Fixed(cells, height).Ok?
    ensures var out := Fixed(cells, height).value;
      && (EpisodeLength !in cells && Length in cells ==>
            EpisodeLength in out && ColumnToInt64(cells[Length]).Some? && out[EpisodeLength] == IntCells(ColumnToInt64(cells[Length]).value))
      && (forall c :: c in cells && c !in KeyColumns ==> out[c] == cells[c])
      && (forall c :: c in out <==> c in cells || c == From || c == To || (c == EpisodeLength && Length in cells))
  {
    NamesDistinct();
    DeriveShape(cells, height);
    DeriveValues(cells);
    assert EpisodeLength !in KeyColumns;
  }

  /** `df[name] = df[source].astype("int64") + offset` when `name` is absent, as `AddIfAbsent` says. */
  method AddColumnIfAbsent(df: Frame, name: string, source: string, offset: int) returns (r: Result<(), FixError>)
    requires df.Valid() && (df.Has(name) || df.Has(source))
    modifies df
    ensures df.Valid()
    ensures r.Ok? <==> AddIfAbsent(old(df.cells), name, source, offset).Ok?
    ensures r.Err? ==> r.error == AddIfAbsent(old(df.cells), name, source, offset).error
    ensures r.Ok? ==> df.cells == AddIfAbsent(old(df.cells), name, source, offset).value
    ensures |old(df.columns)| <= |df.columns| && df.columns[..|old(df.columns)|] == old(df.columns)
  {
    if df.Has(name) {
      return Ok(());
    }
    var xs := ColumnToInt64(df.cells[source]);
    if xs.None? {
      return Err(NotInteger(source));
    }
    df.SetColumn(name, IntCells(PlusOffset(xs.value, offset)));
    r := Ok(());
  }

  /** Stages one to three on the table, as `Derive` says. */
  method DeriveColumns(df: Frame) returns (r: Result<(), FixError>)
    requires df.Valid() && HasIndexColumns(df.cells)
    modifies df
    ensures df.Valid()
    ensures r.Ok? <==> Derive(old(df.cells)).Ok?
    ensures r.Err? ==> r.error == Derive(old(df.cells)).error
    ensures r.Ok? ==> df.cells == Derive(old(df.cells)).value
    ensures |old(df.columns)| <= |df.columns| && df.columns[..|old(df.columns)|] == old(df.columns)
  {
    r := AddColumnIfAbsent(df, From, Start, 0);
    if r.Err? {
      return;
    }
    if !df.Has(To) && !df.Has(End) {
      assert false;
    }
    r := AddColumnIfAbsent(df, To, End, 1);
    if r.Err? {
      return;
    }
    if !df.Has(EpisodeLength) && df.Has(Length) {
      r := AddColumnIfAbsent(df, EpisodeLength, Length, 0);
    }
  }

  /** The cast loop over the key columns, as `CastKeys` says. */
  method CastKeyColumns(df: Frame) returns (r: Result<(), FixError>)
    requires df.Valid()
    modifies df
    ensures df.Valid() && df.columns == old(df.columns)
    ensures r.Ok? <==> CastKeys(old(df.cells), KeyColumns).Ok?
    ensures r.Err? ==> r.error == CastKeys(old(df.cells), KeyColumns).error
    ensures r.Ok? ==> df.cells == CastKeys(old(df.cells), KeyColumns).value
  {
    for k := 0 to |KeyColumns|
      invariant df.Valid() && df.columns == old(df.columns)
      invariant CastKeys(df.cells, KeyColumns[k..]) == CastKeys(old(df.cells), KeyColumns)
    {
      var c := KeyColumns[k];
      if df.Has(c) {
        var xs := ColumnToInt64(df.cells[c]);
        if xs.None? {
          return Err(NotInteger(c));
        }
        df.SetColumn(c, IntCells(xs.value));
      }
    }
    r := Ok(());
  }

  /** Stages four and five on the table, as `Checked` says. */
  method CastAndCheck(df: Frame) returns (r: Result<(), FixError>)
    requires df.Valid() && df.Has(From) && df.Has(To)
    modifies df
    ensures df.Valid() && df.columns == old(df.columns)
    ensures r.Ok? <==> Checked(old(df.cells), df.height).Ok?
    ensures r.Err? ==> r.error == Checked(old(df.cells), df.height).error
    ensures r.Ok? ==> df.cells == Checked(old(df.cells), df.height).value
  {
    r := CastKeyColumns(df);
    if r.Err? {
      return;
    }
    var from := ColumnToInt64(df.cells[From]).value;
    var to := ColumnToInt64(df.cells[To]).value;
    var bad := EmptyCount(from, to);
    if bad > 0 {
      return Err(EmptyRanges(bad));
    }
  }

  /**
   * The script on a table: it changes the table as `Fixed` says, appending new columns
   * after the existing ones, and fails as `Fixed` fails.
   */
  method FixColumns(df: Frame) returns (r: Result<(), FixError>)
    requires df.Valid()
    modifies df
    ensures df.Valid()
    ensures r.Ok? <==> Fixed(old(df.cells), df.height).Ok?
    ensures r.Err? ==> r.error == Fixed(old(df.cells), df.height).error
    ensures r.Ok? ==> df.cells == Fixed(old(df.cells), df.height).value
    ensures |old(df.columns)| <= |df.columns| && df.columns[..|old(df.columns)|] == old(df.columns)
  {
    if !HasIndexColumns(df.cells) {
      return Err(NoIndexPair);
    }
    r := DeriveColumns(df);
    if r.Err? {
      return;
    }
    DeriveShape(old(df.cells), df.height);
    r := CastAndCheck(df);
  }
}

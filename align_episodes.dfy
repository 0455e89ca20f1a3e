/**
 * The alignment of a dataset's episodes table to the columns of a reference dataset:
 * the target table gets its missing base columns (`tasks`, the chunk and file indices,
 * the frame range and `length`), the per-episode statistics, a default for every
 * reference column still missing, and is then cut down to the reference columns in the
 * reference order, with the index columns coerced to integers.
 */
module AlignEpisodes {
  import opened Wrappers
  import opened Text
  import opened Frames

  datatype AlignError =
    | EpisodesMissing(column: string)
    | DataMissing(column: string)
    | BadTaskIndex(row: nat)
    | NoFromIndex
    | NoToIndex
    | NotInteger(column: string)
    | NotNumeric(row: nat)
    | OverlappingColumn(column: string)

  const EpisodeIndex := "episode_index"
  const Timestamp := "timestamp"
  const Tasks := "tasks"
  const TaskIndex := "task_index"
  const From := "dataset_from_index"
  const To := "dataset_to_index"
  const Start := "start_index"
  const End := "end_index"
  const Length := "length"

  /** The chunk and file index columns that default to 0. */
  const DefaultColumns: seq<string> :=
    ["data/chunk_index", "data/file_index", "meta/episodes/chunk_index", "meta/episodes/file_index"]

  /** The columns of the aligned table coerced to integers, when present. */
  const IntColumns: seq<string> := [
    "episode_index",
    "data/chunk_index",
    "data/file_index",
    "dataset_from_index",
    "dataset_to_index",
    "videos/observation.images.handeye/chunk_index",
    "videos/observation.images.handeye/file_index",
    "videos/observation.images.fixed/chunk_index",
    "videos/observation.images.fixed/file_index",
    "meta/episodes/chunk_index",
    "meta/episodes/file_index"
  ]

  /** The two camera streams whose statistics columns get defaults. */
  const ImageKeys: seq<string> := ["observation.images.handeye", "observation.images.fixed"]

  // ---------------------------------------------------------------- guards

  /** The required columns: `episode_index` in both tables, `timestamp` in the data. */
  function CheckInputs(episodes: Cells, dataColumns: set<string>): (r: Option<AlignError>)
    ensures r.None? <==> EpisodeIndex in episodes && EpisodeIndex in dataColumns && Timestamp in dataColumns
  {
    if EpisodeIndex !in episodes then Some(EpisodesMissing(EpisodeIndex))
    else if EpisodeIndex !in dataColumns then Some(DataMissing(EpisodeIndex))
    else if Timestamp !in dataColumns then Some(DataMissing(Timestamp))
    else None
  }

  // ---------------------------------------------------------------- tasks

  /**
   * `idx_to_task`: each row of the tasks table maps its `task_index` to its task
   * string; a row whose index is not an integer is skipped and a later row wins.
   */
  function TaskTable(rows: seq<(string, Cell)>): (m: map<int, string>)
  {
    if rows == [] then map[]
    else
      var m := TaskTable(rows[..|rows| - 1]);
      var (task, index) := rows[|rows| - 1];
      match ToInt64(index)
      case None => m
      case Some(k) => m[k := task]
  }

  /** Row `i` maps its index `k`, and no later row does. */
  predicate LastRowFor(rows: seq<(string, Cell)>, i: int, k: int) {
    0 <= i < |rows| && ToInt64(rows[i].1) == Some(k)
    && forall j :: i < j < |rows| ==> ToInt64(rows[j].1) != Some(k)
  }

  /** An index is in the table exactly when some row has it, and then maps to the last such row's task. */
  lemma {:induction false} TaskTableLastWins(rows: seq<(string, Cell)>, k: int)
    ensures k in TaskTable(rows) <==> exists i :: 0 <= i < |rows| && ToInt64(rows[i].1) == Some(k)
    ensures k in TaskTable(rows) ==> exists i :: LastRowFor(rows, i, k) && TaskTable(rows)[k] == rows[i].0
  {
    if rows != [] {
      var init := rows[..|rows| - 1];
      var last := |rows| - 1;
      TaskTableLastWins(init, k);
      assert forall i :: 0 <= i < |init| ==> init[i] == rows[i];
      if ToInt64(rows[last].1) == Some(k) {
        assert LastRowFor(rows, last, k);
      } else if k in TaskTable(init) {
        var i :| LastRowFor(init, i, k) && TaskTable(init)[k] == init[i].0;
        assert LastRowFor(rows, i, k);
      }
    }
  }

  /** The loop over the tasks table that fills `idx_to_task`. */
  method BuildTaskTable(rows: seq<(string, Cell)>) returns (m: map<int, string>)
    ensures m == TaskTable(rows)
  {
    m := map[];
    for i := 0 to |rows|
      invariant m == TaskTable(rows[..i])
    {
      assert rows[..i + 1][..i] == rows[..i];
      var (task, index) := rows[i];
      var k := ToInt64(index);
      if k.Some? {
        m := m[k.value := task];
      }
    }
    assert rows[..|rows|] == rows;
  }

  /**
   * `map_task_list`: the one-element list of the task an episode's `task_index` maps
   * to, `""` when unmapped. Both branches of the source give `[t]`.
   */
  function TaskList(table: map<int, string>, index: int): (r: seq<string>)
    ensures |r| == 1
    ensures index in table ==> r == [table[index]]
    ensures index !in table ==> r == [""]
  {
    var t := if index in table then table[index] else "";
    if t != "" then [t] else [""]
  }

  /** The `tasks` column from `task_index`, or `None` at the first row that is not an integer. */
  function TasksFromIndex(table: map<int, string>, indices: seq<Cell>): (r: Result<seq<Cell>, nat>)
    ensures r.Ok? <==> forall i :: 0 <= i < |indices| ==> ToInt64(indices[i]).Some?
    ensures r.Ok? ==>
      |r.value| == |indices|
      && forall i :: 0 <= i < |indices| ==> r.value[i] == ListCell(TaskList(table, ToInt64(indices[i]).value))
    ensures r.Err? ==> r.error < |indices| && ToInt64(indices[r.error]).None?
  {
    if indices == [] then Ok([])
    else
      match ToInt64(indices[0])
      case None => Err(0)
      case Some(k) =>
        match TasksFromIndex(table, indices[1..])
        case Err(i) => Err(i + 1)
        case Ok(rest) => Ok([ListCell(TaskList(table, k))] + rest)
  }

  /**
   * Stage one: a missing `tasks` column is mapped from `task_index` through the tasks
   * table when both exist, and is `[""]` in every row otherwise.
   */
  function WithTasks(cells: Cells, height: nat, tasksTable: Option<seq<(string, Cell)>>): (r: Result<Cells, AlignError>)
    requires Rectangular(cells, height)
    ensures r.Ok? ==> Rectangular(r.value, height) && Tasks in r.value
    ensures r.Ok? ==> forall c :: c in r.value <==> c in cells || c == Tasks
    ensures r.Ok? ==> forall c :: c in cells ==> r.value[c] == cells[c]
    ensures Tasks in cells ==> r == Ok(cells)
    ensures Tasks !in cells && (tasksTable.None? || TaskIndex !in cells) ==>
      r == Ok(cells[Tasks := Constant(ListCell([""]), height)])
    ensures r.Err? ==> r.error.BadTaskIndex?
  {
    if Tasks in cells then Ok(cells)
    else if tasksTable.Some? && TaskIndex in cells then
      match TasksFromIndex(TaskTable(tasksTable.value), cells[TaskIndex])
      case Err(i) => Err(BadTaskIndex(i))
      case Ok(col) => Ok(cells[Tasks := col])
    else Ok(cells[Tasks := Constant(ListCell([""]), height)])
  }

  // ---------------------------------------------------------------- default columns

  /**
   * Each of `names` that is missing becomes the column holding `fill(name)` in every row;
   * the columns present are unchanged.
   */
  function WithDefaults(cells: Cells, height: nat, names: seq<string>, fill: string -> Cell): (r: Cells)
    requires Rectangular(cells, height)
    ensures Rectangular(r, height)
    ensures forall c :: c in r <==> c in cells || c in names
    ensures forall c :: c in cells ==> r[c] == cells[c]
    ensures forall c :: c in names && c !in cells ==> r[c] == Constant(fill(c), height)
    decreases |names|
  {
    if names == [] then cells
    else if names[0] in cells then WithDefaults(cells, height, names[1..], fill)
    else WithDefaults(cells[names[0] := Constant(fill(names[0]), height)], height, names[1..], fill)
  }

  /** The chunk and file indices default to 0. */
  function Zero(name: string): Cell {
    IntCell(0)
  }

  /** A reference column still missing: 0 for a count or an index, NaN otherwise. */
  function FillValue(name: string): (c: Cell)
    ensures c == IntCell(0) <==> EndsWith(name, "/count") || EndsWith(name, "_index")
    ensures c != IntCell(0) ==> c == NaN
  {
    if EndsWith(name, "/count") || EndsWith(name, "_index")
      || EndsWith(name, "chunk_index") || EndsWith(name, "file_index")
    then IntCell(0)
    else NaN
  }

  // ---------------------------------------------------------------- frame range and length

  lemma NamesDistinct()
    ensures |From| == 18 && |To| == 16 && |Start| == 11 && |End| == 9 && |Length| == 6
    ensures |Tasks| == 5 && |EpisodeIndex| == 13 && |TaskIndex| == 10
  {
  }

  /** Pointwise sums. */
  function Plus(xs: seq<int>, ys: seq<int>): (zs: seq<int>)
    requires |xs| == |ys|
    ensures |zs| == |xs| && forall i :: 0 <= i < |xs| ==> zs[i] == xs[i] + ys[i]
  {
    seq(|xs|, i requires 0 <= i < |xs| && |xs| == |ys| => xs[i] + ys[i])
  }

  /** Stage three, first half: a missing `dataset_from_index` is `start_index` cast to integers. */
  function WithFrom(cells: Cells, height: nat): (r: Result<Cells, AlignError>)
    requires Rectangular(cells, height)
    ensures From in cells ==> r == Ok(cells)
    ensures From !in cells && Start !in cells ==> r == Err(NoFromIndex)
    ensures From !in cells && Start in cells ==>
      r == (match ColumnToInt64(cells[Start])
            case None => Err(NotInteger(Start))
            case Some(xs) => Ok(cells[From := IntCells(xs)]))
    ensures r.Ok? ==> Rectangular(r.value, height) && From in r.value
  {
    if From in cells then Ok(cells)
    else if Start !in cells then Err(NoFromIndex)
    else
      match ColumnToInt64(cells[Start])
      case None => Err(NotInteger(Start))
      case Some(xs) => Ok(cells[From := IntCells(xs)])
  }

  /**
   * Stage three, second half: a missing `dataset_to_index` is `end_index + 1`, or else
   * `dataset_from_index + length`.
   */
  function WithTo(cells: Cells, height: nat): (r: Result<Cells, AlignError>)
    requires Rectangular(cells, height) && From in cells
    ensures To in cells ==> r == Ok(cells)
    ensures To !in cells && End !in cells && Length !in cells ==> r == Err(NoToIndex)
    ensures r.Err? ==> r.error in {NoToIndex, NotInteger(End), NotInteger(From), NotInteger(Length)}
    ensures r.Ok? ==> Rectangular(r.value, height) && To in r.value
    ensures r.Ok? ==> forall c :: c in r.value <==> c in cells || c == To
    ensures r.Ok? ==> forall c :: c in cells ==> r.value[c] == cells[c]
  {
    if To in cells then Ok(cells)
    else if End in cells then
      match ColumnToInt64(cells[End])
      case None => Err(NotInteger(End))
      case Some(xs) => Ok(cells[To := IntCells(PlusOffset(xs, 1))])
    else if Length in cells then
      match (ColumnToInt64(cells[From]), ColumnToInt64(cells[Length]))
      case (None, _) => Err(NotInteger(From))
      case (_, None) => Err(NotInteger(Length))
      case (Some(a), Some(b)) => Ok(cells[To := IntCells(Plus(a, b))])
    else Err(NoToIndex)
  }

  /** Stage three: both halves. */
  function WithRange(cells: Cells, height: nat): (r: Result<Cells, AlignError>)
    requires Rectangular(cells, height)
    ensures r == Err(NoFromIndex) <==> From !in cells && Start !in cells
    ensures r == Err(NoToIndex) ==> To !in cells && End !in cells && Length !in cells
    ensures (From in cells || Start in cells) && To !in cells && End !in cells && Length !in cells ==> r.Err?
    ensures r.Err? ==> r.error in {NoFromIndex, NoToIndex, NotInteger(Start), NotInteger(End), NotInteger(From), NotInteger(Length)}
    ensures r.Ok? ==> Rectangular(r.value, height) && From in r.value && To in r.value
    ensures r.Ok? ==> forall c :: c in r.value <==> c in cells || c == From || c == To
    ensures r.Ok? ==> forall c :: c in cells ==> r.value[c] == cells[c]
  {
    NamesDistinct();
    match WithFrom(cells, height)
    case Err(e) => Err(e)
    case Ok(c1) => WithTo(c1, height)
  }

  /** The values stage three gives the range columns it adds. */
  lemma RangeValues(cells: Cells, height: nat)
    requires Rectangular(cells, height) && WithRange(cells, height).Ok?
    ensures var out := WithRange(cells, height).value;
      && (From !in cells ==>
            Start in cells && ColumnToInt64(cells[Start]).Some?
            && out[From] == IntCells(ColumnToInt64(cells[Start]).value))
      && (To !in cells && End in cells ==>
            ColumnToInt64(cells[End]).Some?
            && out[To] == IntCells(PlusOffset(ColumnToInt64(cells[End]).value, 1)))
      && (To !in cells && End !in cells ==>
            Length in cells && ColumnToInt64(out[From]).Some? && ColumnToInt64(cells[Length]).Some?
            && out[To] == IntCells(Plus(ColumnToInt64(out[From]).value, ColumnToInt64(cells[Length]).value)))
  {
    NamesDistinct();
  }

  /**
   * `(to - from).astype("int64")` row by row, or the first row where either is not a
   * number.
   */
  function Differences(to: seq<Cell>, from: seq<Cell>): (r: Result<seq<Cell>, nat>)
    requires |to| == |from|
    ensures r.Ok? <==> forall i :: 0 <= i < |to| ==> ToNumber(to[i]).Some? && ToNumber(from[i]).Some?
    ensures r.Ok? ==>
      |r.value| == |to|
      && forall i :: 0 <= i < |to| ==> r.value[i] == IntCell(Truncate(ToNumber(to[i]).value - ToNumber(from[i]).value))
    ensures r.Err? ==> r.error < |to| && (ToNumber(to[r.error]).None? || ToNumber(from[r.error]).None?)
  {
    if to == [] then Ok([])
    else
      match (ToNumber(to[0]), ToNumber(from[0]))
      case (Some(x), Some(y)) =>
        (match Differences(to[1..], from[1..])
         case Err(i) => Err(i + 1)
         case Ok(rest) => Ok([IntCell(Truncate(x - y))] + rest))
      case _ => Err(0)
  }

  /** On integer cells the difference is exact. */
  lemma DifferencesOfIntegers(to: seq<int>, from: seq<int>)
    requires |to| == |from|
    ensures Differences(IntCells(to), IntCells(from)).Ok?
    ensures forall i :: 0 <= i < |to| ==> Differences(IntCells(to), IntCells(from)).value[i] == IntCell(to[i] - from[i])
  {
    var r := Differences(IntCells(to), IntCells(from));
    assert r.Ok?;
    forall i | 0 <= i < |to|
      ensures r.value[i] == IntCell(to[i] - from[i])
    {
      assert ToNumber(IntCells(to)[i]).value - ToNumber(IntCells(from)[i]).value == (to[i] - from[i]) as real;
    }
  }

  /** Stage four: a missing `length` is `dataset_to_index - dataset_from_index`. */
  function WithLength(cells: Cells, height: nat): (r: Result<Cells, AlignError>)
    requires Rectangular(cells, height) && From in cells && To in cells
    ensures Length in cells ==> r == Ok(cells)
    ensures r.Ok? ==> Rectangular(r.value, height)
    ensures r.Ok? ==> forall c :: c in r.value <==> c in cells || c == Length
    ensures r.Ok? ==> forall c :: c in cells ==> r.value[c] == cells[c]
    ensures Length !in cells && r.Ok? ==> Differences(cells[To], cells[From]) == Ok(r.value[Length])
    ensures r.Err? <==> Length !in cells && Differences(cells[To], cells[From]).Err?
    ensures r.Err? ==> r.error == NotNumeric(Differences(cells[To], cells[From]).error)
  {
    if Length in cells then Ok(cells)
    else
      match Differences(cells[To], cells[From])
      case Err(i) => Err(NotNumeric(i))
      case Ok(col) => Ok(cells[Length := col])
  }

  // ---------------------------------------------------------------- statistics

  /**
   * A per-episode statistics table: its column names and, for each episode key, the
   * values of that episode's row.
   */
  datatype Stats = Stats(columns: seq<string>, rows: map<Cell, map<string, Cell>>)

  /** The image statistics defaults: NaN for `min`/`max`/`mean`/`std`, 0 for `count`. */
  const ImageDefaults: seq<(string, Cell)> := [
    ("stats/observation.images.handeye/min", NaN),
    ("stats/observation.images.handeye/max", NaN),
    ("stats/observation.images.handeye/mean", NaN),
    ("stats/observation.images.handeye/std", NaN),
    ("stats/observation.images.handeye/count", IntCell(0)),
    ("stats/observation.images.fixed/min", NaN),
    ("stats/observation.images.fixed/max", NaN),
    ("stats/observation.images.fixed/mean", NaN),
    ("stats/observation.images.fixed/std", NaN),
    ("stats/observation.images.fixed/count", IntCell(0))
  ]

  /** `stats[name] = value`: a new column holding `value` in every episode's row. */
  function AddStatColumn(stats: Stats, name: string, value: Cell): (r: Stats)
    ensures r.columns == stats.columns + [name]
    ensures r.rows.Keys == stats.rows.Keys
    ensures forall e :: e in stats.rows ==> r.rows[e] == stats.rows[e][name := value]
  {
    Stats(stats.columns + [name], map e | e in stats.rows :: stats.rows[e][name := value])
  }

  /** The column names of a list of defaults. */
  function NamesOf(defaults: seq<(string, Cell)>): (names: seq<string>)
    ensures |names| == |defaults| && forall i :: 0 <= i < |defaults| ==> names[i] == defaults[i].0
  {
    seq(|defaults|, i requires 0 <= i < |defaults| => defaults[i].0)
  }

  /** Each default whose column is missing is added, in order. */
  function WithStatDefaults(stats: Stats, defaults: seq<(string, Cell)>): (r: Stats)
    ensures r.rows.Keys == stats.rows.Keys
    ensures forall c :: c in r.columns <==> c in stats.columns || c in NamesOf(defaults)
    decreases |defaults|
  {
    if defaults == [] then stats
    else
      var (name, value) := defaults[0];
      var next := if name in stats.columns then stats else AddStatColumn(stats, name, value);
      assert NamesOf(defaults) == [name] + NamesOf(defaults[1..]);
      WithStatDefaults(next, defaults[1..])
  }

  /**
   * A default whose column was missing holds its value in every episode's row, and a
   * column that was present keeps its values.
   */
  lemma {:induction false} StatDefaultsValues(stats: Stats, defaults: seq<(string, Cell)>, e: Cell, k: nat)
    requires e in stats.rows && k < |defaults|
    requires defaults[k].0 !in stats.columns
    requires forall j :: 0 <= j < k ==> defaults[j].0 != defaults[k].0
    ensures defaults[k].0 in WithStatDefaults(stats, defaults).rows[e]
    ensures WithStatDefaults(stats, defaults).rows[e][defaults[k].0] == defaults[k].1
    decreases |defaults|
  {
    var (name, value) := defaults[0];
    var next := if name in stats.columns then stats else AddStatColumn(stats, name, value);
    if k == 0 {
      StatDefaultsKeep(next, defaults[1..], e, name);
    } else {
      StatDefaultsValues(next, defaults[1..], e, k - 1);
    }
  }

  /** A column already in the table keeps its value in every row. */
  lemma {:induction false} StatDefaultsKeep(stats: Stats, defaults: seq<(string, Cell)>, e: Cell, c: string)
    requires e in stats.rows && c in stats.columns && c in stats.rows[e]
    ensures c in WithStatDefaults(stats, defaults).rows[e]
    ensures WithStatDefaults(stats, defaults).rows[e][c] == stats.rows[e][c]
    decreases |defaults|
  {
    if defaults != [] {
      var (name, value) := defaults[0];
      var next := if name in stats.columns then stats else AddStatColumn(stats, name, value);
      StatDefaultsKeep(next, defaults[1..], e, c);
    }
  }

  /** The loop over the camera streams' statistics columns, adding each that is missing. */
  method AddStatDefaults(stats: Stats, defaults: seq<(string, Cell)>) returns (r: Stats)
    ensures r == WithStatDefaults(stats, defaults)
  {
    r := stats;
    for k := 0 to |defaults|
      invariant WithStatDefaults(r, defaults[k..]) == WithStatDefaults(stats, defaults)
    {
      assert defaults[k..][1..] == defaults[k + 1..];
      var (name, value) := defaults[k];
      if name !in r.columns {
        r := AddStatColumn(r, name, value);
      }
    }
  }

  /** The vector statistics with the image defaults added. */
  function ImageStats(vectorStats: Stats): Stats {
    WithStatDefaults(vectorStats, ImageDefaults)
  }

  /** The image defaults loop, as `ImageStats` says. */
  method AddImageDefaults(vectorStats: Stats) returns (r: Stats)
    ensures r == ImageStats(vectorStats)
  {
    r := AddStatDefaults(vectorStats, ImageDefaults);
  }

  /** The value a left join gives an episode key: its row's value, or NaN when it has none. */
  function Lookup(stats: Stats, key: Cell, c: string): Cell {
    if key in stats.rows && c in stats.rows[key] then stats.rows[key][c] else NaN
  }

  /** Column `c` of the left join, for the target rows' episode keys. */
  function StatColumn(stats: Stats, keys: seq<Cell>, c: string): (col: seq<Cell>)
    ensures |col| == |keys|
    ensures forall i :: 0 <= i < |keys| ==> col[i] == Lookup(stats, keys[i], c)
  {
    seq(|keys|, i requires 0 <= i < |keys| => Lookup(stats, keys[i], c))
  }

  /** The first of `names` the table already has. */
  function FirstOverlap(cells: Cells, names: seq<string>): (r: Option<string>)
    ensures r.None? <==> forall c :: c in names ==> c !in cells
    ensures r.Some? ==> r.value in names && r.value in cells
  {
    if names == [] then None
    else if names[0] in cells then Some(names[0])
    else FirstOverlap(cells, names[1..])
  }

  /** The join's columns `names`, added in order. */
  function JoinColumns(cells: Cells, keys: seq<Cell>, stats: Stats, names: seq<string>): (r: Cells)
    ensures forall c :: c in r <==> c in cells || c in names
    ensures forall c :: c in names ==> r[c] == StatColumn(stats, keys, c)
    ensures forall c :: c in cells && c !in names ==> r[c] == cells[c]
    decreases |names|
  {
    if names == [] then cells
    else JoinColumns(cells[names[0] := StatColumn(stats, keys, names[0])], keys, stats, names[1..])
  }

  /**
   * `tgt_ep.join(stats, how="left")` on `episode_index`: refused when a statistics column
   * is already in the table, otherwise each row gets its episode's statistics.
   */
  function Join(cells: Cells, height: nat, stats: Stats): (r: Result<Cells, AlignError>)
    requires Rectangular(cells, height) && EpisodeIndex in cells
    ensures r.Err? <==> exists c :: c in stats.columns && c in cells
    ensures r.Err? ==> r.error.OverlappingColumn? && r.error.column in stats.columns && r.error.column in cells
    ensures r.Ok? ==> forall c :: c in r.value <==> c in cells || c in stats.columns
    ensures r.Ok? ==> Rectangular(r.value, height) && r.value[EpisodeIndex] == cells[EpisodeIndex]
    ensures r.Ok? ==> forall c :: c in cells ==> r.value[c] == cells[c]
    ensures r.Ok? ==> forall c, i :: c in stats.columns && 0 <= i < height ==>
      r.value[c][i] == Lookup(stats, cells[EpisodeIndex][i], c)
  {
    match FirstOverlap(cells, stats.columns)
    case Some(c) => Err(OverlappingColumn(c))
    case None => Ok(JoinColumns(cells, cells[EpisodeIndex], stats, stats.columns))
  }

  // ---------------------------------------------------------------- selection and coercion

  /** `tgt_ep[ref_cols]`: the reference columns only. */
  function Select(cells: Cells, names: seq<string>): (r: Cells)
    requires forall c :: c in names ==> c in cells
    ensures forall c :: c in r <==> c in names
    ensures forall c :: c in r ==> r[c] == cells[c]
  {
    map c | c in names :: cells[c]
  }

  /** `pd.to_numeric(errors="coerce").fillna(0).astype("int64")` of a column. */
  function Coerced(col: seq<Cell>): (r: seq<Cell>)
    ensures |r| == |col|
    ensures forall i :: 0 <= i < |col| ==> r[i] == IntCell(NumericOrZero(col[i]))
  {
    seq(|col|, i requires 0 <= i < |col| => IntCell(NumericOrZero(col[i])))
  }

  /** Each of `names` that is present is coerced. */
  function CoerceColumns(cells: Cells, names: seq<string>): (r: Cells)
    ensures forall c :: c in r <==> c in cells
    ensures forall c :: c in cells && c in names ==> r[c] == Coerced(cells[c])
    ensures forall c :: c in cells && c !in names ==> r[c] == cells[c]
    decreases |names|
  {
    if names == [] then cells
    else if names[0] in cells then CoerceColumns(cells[names[0] := Coerced(cells[names[0]])], names[1..])
    else CoerceColumns(cells, names[1..])
  }

  /** Coercing twice is coercing once. */
  lemma {:induction false} CoercedIdempotent(col: seq<Cell>)
    ensures Coerced(Coerced(col)) == Coerced(col)
  {
    var once := Coerced(col);
    forall i | 0 <= i < |col|
      ensures Coerced(once)[i] == once[i]
    {
      assert once[i].IntCell?;
    }
  }

  // ---------------------------------------------------------------- the whole script

  /** The guard and stages one to four: the base columns. */
  function BaseColumns(cells: Cells, height: nat, dataColumns: set<string>, tasksTable: Option<seq<(string, Cell)>>)
    : (r: Result<Cells, AlignError>)
    requires Rectangular(cells, height)
    ensures r.Ok? ==> Rectangular(r.value, height) && EpisodeIndex in r.value
    ensures CheckInputs(cells, dataColumns).Some? ==> r == Err(CheckInputs(cells, dataColumns).value)
  {
    match CheckInputs(cells, dataColumns)
    case Some(e) => Err(e)
    case None =>
      match WithTasks(cells, height, tasksTable)
      case Err(e) => Err(e)
      case Ok(c1) =>
        var c2 := WithDefaults(c1, height, DefaultColumns, Zero);
        match WithRange(c2, height)
        case Err(e) => Err(e)
        case Ok(c3) => WithLength(c3, height)
  }

  /** The two left joins: the scalar statistics, then the vector ones. */
  function JoinedStats(cells: Cells, height: nat, scalarStats: Stats, vectorStats: Stats): (r: Result<Cells, AlignError>)
    requires Rectangular(cells, height) && EpisodeIndex in cells
    ensures r.Ok? ==> Rectangular(r.value, height)
  {
    match Join(cells, height, scalarStats)
    case Err(e) => Err(e)
    case Ok(c5) => Join(c5, height, vectorStats)
  }

  /** The target table's columns and cells before the reference selection. */
  function Prepared(cells: Cells, height: nat, dataColumns: set<string>, tasksTable: Option<seq<(string, Cell)>>,
                    scalarStats: Stats, vectorStats: Stats, refCols: seq<string>): Result<Cells, AlignError>
    requires Rectangular(cells, height)
  {
    match BaseColumns(cells, height, dataColumns, tasksTable)
    case Err(e) => Err(e)
    case Ok(c4) =>
      match JoinedStats(c4, height, scalarStats, ImageStats(vectorStats))
      case Err(e) => Err(e)
      case Ok(c6) => Ok(WithDefaults(c6, height, refCols, FillValue))
  }

  /** The aligned table: the prepared table cut to the reference columns, index columns coerced. */
  function Aligned(cells: Cells, height: nat, dataColumns: set<string>, tasksTable: Option<seq<(string, Cell)>>,
                   scalarStats: Stats, vectorStats: Stats, refCols: seq<string>): (r: Result<Cells, AlignError>)
    requires Rectangular(cells, height)
    ensures r.Ok? <==> Prepared(cells, height, dataColumns, tasksTable, scalarStats, vectorStats, refCols).Ok?
    ensures r.Ok? ==> forall c :: c in r.value <==> c in refCols
    ensures r.Err? ==> r.error == Prepared(cells, height, dataColumns, tasksTable, scalarStats, vectorStats, refCols).error
  {
    match Prepared(cells, height, dataColumns, tasksTable, scalarStats, vectorStats, refCols)
    case Err(e) => Err(e)
    case Ok(p) =>
      PreparedHasReference(cells, height, dataColumns, tasksTable, scalarStats, vectorStats, refCols);
      Ok(CoerceColumns(Select(p, refCols), IntColumns))
  }

  /** Every reference column exists once the defaults are filled. */
  lemma PreparedHasReference(cells: Cells, height: nat, dataColumns: set<string>, tasksTable: Option<seq<(string, Cell)>>,
                             scalarStats: Stats, vectorStats: Stats, refCols: seq<string>)
    requires Rectangular(cells, height)
    ensures var p := Prepared(cells, height, dataColumns, tasksTable, scalarStats, vectorStats, refCols);
      p.Ok? ==> Rectangular(p.value, height) && forall c :: c in refCols ==> c in p.value
  {
  }

  /** The script stops at the first missing required column. */
  lemma AlignedGuard(cells: Cells, height: nat, dataColumns: set<string>, tasksTable: Option<seq<(string, Cell)>>,
                     scalarStats: Stats, vectorStats: Stats, refCols: seq<string>)
    requires Rectangular(cells, height) && CheckInputs(cells, dataColumns).Some?
    ensures Aligned(cells, height, dataColumns, tasksTable, scalarStats, vectorStats, refCols)
      == Err(CheckInputs(cells, dataColumns).value)
  {
  }

  /**
   * Each reference column of the result: an integer column is the prepared column
   * coerced, any other is the prepared column as it was.
   */
  lemma AlignedColumn(cells: Cells, height: nat, dataColumns: set<string>, tasksTable: Option<seq<(string, Cell)>>,
                      scalarStats: Stats, vectorStats: Stats, refCols: seq<string>, c: string)
    requires Rectangular(cells, height) && c in refCols
    requires Aligned(cells, height, dataColumns, tasksTable, scalarStats, vectorStats, refCols).Ok?
    ensures var p := Prepared(cells, height, dataColumns, tasksTable, scalarStats, vectorStats, refCols).value;
      var a := Aligned(cells, height, dataColumns, tasksTable, scalarStats, vectorStats, refCols).value;
      && c in p && c in a
      && (c in IntColumns ==> a[c] == Coerced(p[c]))
      && (c !in IntColumns ==> a[c] == p[c])
  {
    PreparedHasReference(cells, height, dataColumns, tasksTable, scalarStats, vectorStats, refCols);
  }

  /** A reference column the target table still lacks after the joins holds its fill value in every row. */
  lemma PreparedFill(cells: Cells, height: nat, dataColumns: set<string>, tasksTable: Option<seq<(string, Cell)>>,
                     scalarStats: Stats, vectorStats: Stats, refCols: seq<string>, c: string)
    requires Rectangular(cells, height) && c in refCols
    requires Prepared(cells, height, dataColumns, tasksTable, scalarStats, vectorStats, refCols).Ok?
    ensures var base := BaseColumns(cells, height, dataColumns, tasksTable).value;
      var joined := JoinedStats(base, height, scalarStats, ImageStats(vectorStats)).value;
      var p := Prepared(cells, height, dataColumns, tasksTable, scalarStats, vectorStats, refCols).value;
      c !in joined ==> p[c] == Constant(FillValue(c), height)
  {
    PreparedHasReference(cells, height, dataColumns, tasksTable, scalarStats, vectorStats, refCols);
  }

  // ---------------------------------------------------------------- the stages on the table

  /** `columns` after assigning each of `names` in order: a new name is appended once. */
  function AppendMissing(columns: seq<string>, names: seq<string>): (r: seq<string>)
    ensures forall c :: c in r <==> c in columns || c in names
    ensures |columns| <= |r| && r[..|columns|] == columns
    decreases |names|
  {
    if names == [] then columns
    else if names[0] in columns then AppendMissing(columns, names[1..])
    else AppendMissing(columns + [names[0]], names[1..])
  }

  /** The method's outcome and new cells are those of the stage function. */
  predicate Mirrors(r: Result<(), AlignError>, stage: Result<Cells, AlignError>, after: Cells) {
    && (r.Ok? <==> stage.Ok?)
    && (r.Err? ==> r.error == stage.error)
    && (r.Ok? ==> after == stage.value)
  }

  /** Stage one on the table, as `WithTasks` says. */
  method AddTasks(df: Frame, tasksTable: Option<seq<(string, Cell)>>) returns (r: Result<(), AlignError>)
    requires df.Valid()
    modifies df
    ensures df.Valid()
    ensures Mirrors(r, WithTasks(old(df.cells), df.height, tasksTable), df.cells)
    ensures r.Ok? ==> df.columns == AppendMissing(old(df.columns), [Tasks])
  {
    if df.Has(Tasks) {
      return Ok(());
    }
    if tasksTable.Some? && df.Has(TaskIndex) {
      var table := BuildTaskTable(tasksTable.value);
      var col := TasksFromIndex(table, df.cells[TaskIndex]);
      if col.Err? {
        return Err(BadTaskIndex(col.error));
      }
      df.SetColumn(Tasks, col.value);
    } else {
      df.SetColumn(Tasks, Constant(ListCell([""]), df.height));
    }
    r := Ok(());
  }

  /** The loop assigning each missing column of `names` its default, as `WithDefaults` says. */
  method AddDefaults(df: Frame, names: seq<string>, fill: string -> Cell)
    requires df.Valid()
    modifies df
    ensures df.Valid()
    ensures df.cells == WithDefaults(old(df.cells), df.height, names, fill)
    ensures df.columns == AppendMissing(old(df.columns), names)
  {
    for k := 0 to |names|
      invariant df.Valid()
      invariant WithDefaults(df.cells, df.height, names[k..], fill) == WithDefaults(old(df.cells), df.height, names, fill)
      invariant AppendMissing(df.columns, names[k..]) == AppendMissing(old(df.columns), names)
    {
      assert names[k..][1..] == names[k + 1..];
      var c := names[k];
      if !df.Has(c) {
        df.SetColumn(c, Constant(fill(c), df.height));
      }
    }
  }

  /** Stage three's first half on the table, as `WithFrom` says. */
  method SetFrom(df: Frame) returns (r: Result<(), AlignError>)
    requires df.Valid()
    modifies df
    ensures df.Valid()
    ensures Mirrors(r, WithFrom(old(df.cells), df.height), df.cells)
    ensures r.Ok? ==> df.columns == AppendMissing(old(df.columns), [From])
  {
    if !df.Has(From) {
      if !df.Has(Start) {
        return Err(NoFromIndex);
      }
      var xs := ColumnToInt64(df.cells[Start]);
      if xs.None? {
        return Err(NotInteger(Start));
      }
      df.SetColumn(From, IntCells(xs.value));
    }
    r := Ok(());
  }

  /** Stage three's second half on the table, as `WithTo` says. */
  method SetTo(df: Frame) returns (r: Result<(), AlignError>)
    requires df.Valid() && df.Has(From)
    modifies df
    ensures df.Valid()
    ensures Mirrors(r, WithTo(old(df.cells), df.height), df.cells)
    ensures r.Ok? ==> df.columns == AppendMissing(old(df.columns), [To])
  {
    if df.Has(To) {
      return Ok(());
    }
    if df.Has(End) {
      var xs := ColumnToInt64(df.cells[End]);
      if xs.None? {
        return Err(NotInteger(End));
      }
      df.SetColumn(To, IntCells(PlusOffset(xs.value, 1)));
    } else if df.Has(Length) {
      var a := ColumnToInt64(df.cells[From]);
      if a.None? {
        return Err(NotInteger(From));
      }
      var b := ColumnToInt64(df.cells[Length]);
      if b.None? {
        return Err(NotInteger(Length));
      }
      df.SetColumn(To, IntCells(Plus(a.value, b.value)));
    } else {
      return Err(NoToIndex);
    }
    r := Ok(());
  }

  /** Stage four on the table, as `WithLength` says. */
  method SetLength(df: Frame) returns (r: Result<(), AlignError>)
    requires df.Valid() && df.Has(From) && df.Has(To)
    modifies df
    ensures df.Valid()
    ensures Mirrors(r, WithLength(old(df.cells), df.height), df.cells)
    ensures r.Ok? ==> df.columns == AppendMissing(old(df.columns), [Length])
  {
    if df.Has(Length) {
      return Ok(());
    }
    var col := Differences(df.cells[To], df.cells[From]);
    if col.Err? {
      return Err(NotNumeric(col.error));
    }
    df.SetColumn(Length, col.value);
    r := Ok(());
  }

  /** The left join on the table, as `Join` says: the columns are appended in the table's order. */
  method JoinStats(df: Frame, stats: Stats) returns (r: Result<(), AlignError>)
    requires df.Valid() && df.Has(EpisodeIndex)
    modifies df
    ensures df.Valid()
    ensures Mirrors(r, Join(old(df.cells), df.height, stats), df.cells)
    ensures df.Has(EpisodeIndex)
    ensures r.Ok? ==> df.columns == AppendMissing(old(df.columns), stats.columns)
  {
    var overlap := FirstOverlap(df.cells, stats.columns);
    if overlap.Some? {
      return Err(OverlappingColumn(overlap.value));
    }
    var keys := df.cells[EpisodeIndex];
    for k := 0 to |stats.columns|
      invariant df.Valid()
      invariant JoinColumns(df.cells, keys, stats, stats.columns[k..]) == JoinColumns(old(df.cells), keys, stats, stats.columns)
      invariant AppendMissing(df.columns, stats.columns[k..]) == AppendMissing(old(df.columns), stats.columns)
    {
      assert stats.columns[k..][1..] == stats.columns[k + 1..];
      var c := stats.columns[k];
      df.SetColumn(c, StatColumn(stats, keys, c));
    }
    r := Ok(());
  }

  /** The coercion loop over the integer columns of the aligned table, as `CoerceColumns` says. */
  method CoerceIntColumns(df: Frame, names: seq<string>)
    requires df.Valid()
    modifies df
    ensures df.Valid() && df.columns == old(df.columns)
    ensures df.cells == CoerceColumns(old(df.cells), names)
  {
    for k := 0 to |names|
      invariant df.Valid() && df.columns == old(df.columns)
      invariant CoerceColumns(df.cells, names[k..]) == CoerceColumns(old(df.cells), names)
    {
      assert names[k..][1..] == names[k + 1..];
      var c := names[k];
      if df.Has(c) {
        df.SetColumn(c, Coerced(df.cells[c]));
      }
    }
  }

  /** The two joins on the target table, as `JoinedStats` says. */
  method JoinAll(df: Frame, scalarStats: Stats, vectorStats: Stats) returns (r: Result<(), AlignError>)
    requires df.Valid() && df.Has(EpisodeIndex)
    modifies df
    ensures df.Valid()
    ensures Mirrors(r, JoinedStats(old(df.cells), df.height, scalarStats, vectorStats), df.cells)
  {
    ghost var before := df.cells;
    r := JoinStats(df, scalarStats);
    if r.Err? {
      return;
    }
    ghost var scalarJoined := df.cells;
    assert Join(before, df.height, scalarStats) == Ok(scalarJoined);
    r := JoinStats(df, vectorStats);
  }

  /** The guard and stages one to four on the target table, as `BaseColumns` says. */
  method PrepareBase(df: Frame, dataColumns: set<string>, tasksTable: Option<seq<(string, Cell)>>)
    returns (r: Result<(), AlignError>)
    requires df.Valid()
    modifies df
    ensures df.Valid()
    ensures Mirrors(r, BaseColumns(old(df.cells), df.height, dataColumns, tasksTable), df.cells)
  {
    var missing := CheckInputs(df.cells, dataColumns);
    if missing.Some? {
      return Err(missing.value);
    }
    r := AddTasks(df, tasksTable);
    if r.Err? {
      return;
    }
    AddDefaults(df, DefaultColumns, Zero);
    r := SetFrom(df);
    if r.Err? {
      return;
    }
    r := SetTo(df);
    if r.Err? {
      return;
    }
    r := SetLength(df);
  }

  /** Every stage up to the reference defaults, on the target table, as `Prepared` says. */
  method Prepare(df: Frame, dataColumns: set<string>, tasksTable: Option<seq<(string, Cell)>>,
                 scalarStats: Stats, vectorStats: Stats, refCols: seq<string>) returns (r: Result<(), AlignError>)
    requires df.Valid()
    modifies df
    ensures df.Valid()
    ensures Mirrors(r, Prepared(old(df.cells), df.height, dataColumns, tasksTable, scalarStats, vectorStats, refCols), df.cells)
  {
    r := PrepareBase(df, dataColumns, tasksTable);
    if r.Err? {
      return;
    }
    var imageStats := AddImageDefaults(vectorStats);
    r := JoinAll(df, scalarStats, imageStats);
    if r.Ok? {
      AddDefaults(df, refCols, FillValue);
    }
  }

  /**
   * The script: the target episodes table aligned to the reference columns. The result
   * has exactly the reference columns in the reference order.
   */
  method Align(columns: seq<string>, cells: Cells, height: nat, dataColumns: set<string>,
               tasksTable: Option<seq<(string, Cell)>>, scalarStats: Stats, vectorStats: Stats,
               refCols: seq<string>) returns (r: Result<Frame, AlignError>)
    requires Distinct(columns) && (forall c :: c in cells <==> c in columns) && Rectangular(cells, height)
    requires Distinct(refCols)
    ensures r.Ok? <==> Aligned(cells, height, dataColumns, tasksTable, scalarStats, vectorStats, refCols).Ok?
    ensures r.Err? ==> r.error == Aligned(cells, height, dataColumns, tasksTable, scalarStats, vectorStats, refCols).error
    ensures r.Ok? ==>
      && r.value.Valid() && r.value.height == height && r.value.columns == refCols
      && r.value.cells == Aligned(cells, height, dataColumns, tasksTable, scalarStats, vectorStats, refCols).value
  {
    var df := new Frame(columns, cells, height);
    var prepared := Prepare(df, dataColumns, tasksTable, scalarStats, vectorStats, refCols);
    if prepared.Err? {
      return Err(prepared.error);
    }
    PreparedHasReference(cells, height, dataColumns, tasksTable, scalarStats, vectorStats, refCols);
    var aligned := new Frame(refCols, Select(df.cells, refCols), height);
    CoerceIntColumns(aligned, IntColumns);
    r := Ok(aligned);
  }
}

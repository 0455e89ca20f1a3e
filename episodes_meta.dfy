/**
 * The rebuilt episodes table of a dataset: the frame table is sorted by episode and then
 * by frame number (or global index when there is none), grouped by episode, and each
 * episode's row gives its first and last global index, its frame count, its first and
 * last frame number, and the task of its first frame that has one.
 */
module EpisodesMeta {
  import opened Wrappers

  /** A frame of the data file: its episode, global index, frame number and task. */
  datatype FrameRow = FrameRow(episode: int, index: int, frame: int, task: Option<int>)

  /** One row of the episodes table; the frame and task entries exist only with their columns. */
  datatype EpisodeMeta = EpisodeMeta(
    episode: int,
    start: int,
    end: int,
    length: nat,
    startFrame: Option<int>,
    endFrame: Option<int>,
    task: Option<int>)

  datatype EpisodesTable = EpisodesTable(columns: seq<string>, rows: seq<EpisodeMeta>)

  datatype MetaError = MissingColumns(names: seq<string>)

  /** The required columns that are absent, in sorted order. */
  function MissingRequired(columns: set<string>): (r: seq<string>)
    ensures r == [] <==> "episode_index" in columns && "index" in columns
    ensures forall c :: c in r <==> c in {"episode_index", "index"} && c !in columns
  {
    (if "episode_index" in columns then [] else ["episode_index"])
    + (if "index" in columns then [] else ["index"])
  }

  /** The columns of the output: the episode, the aggregates, then the optional ones. */
  function OutputColumns(hasFrame: bool, hasTask: bool): seq<string> {
    ["episode_index", "start_index", "end_index", "length"]
    + (if hasFrame then ["start_frame", "end_frame"] else [])
    + (if hasTask then ["task_index"] else [])
  }

  /** The second sort key: the frame number when the column exists, else the global index. */
  function SortKey(r: FrameRow, hasFrame: bool): int {
    if hasFrame then r.frame else r.index
  }

  /** The frames of episode `e`, in file order. */
  function RowsOf(rows: seq<FrameRow>, e: int): (r: seq<FrameRow>)
    ensures |r| <= |rows|
    ensures forall x :: x in r <==> x in rows && x.episode == e
  {
    if rows == [] then []
    else (if rows[0].episode == e then [rows[0]] else []) + RowsOf(rows[1..], e)
  }

  function Indices(rows: seq<FrameRow>): (r: seq<int>)
    ensures |r| == |rows| && forall i :: 0 <= i < |rows| ==> r[i] == rows[i].index
  {
    seq(|rows|, i requires 0 <= i < |rows| => rows[i].index)
  }

  function Frames(rows: seq<FrameRow>): (r: seq<int>)
    ensures |r| == |rows| && forall i :: 0 <= i < |rows| ==> r[i] == rows[i].frame
  {
    seq(|rows|, i requires 0 <= i < |rows| => rows[i].frame)
  }

  /** The smallest value. */
  function Min(xs: seq<int>): (m: int)
    requires xs != []
    ensures m in xs && forall x :: x in xs ==> m <= x
  {
    if |xs| == 1 then xs[0]
    else
      var rest := Min(xs[1..]);
      assert forall x :: x in xs ==> x == xs[0] || x in xs[1..];
      if xs[0] <= rest then xs[0] else rest
  }

  /** The largest value. */
  function Max(xs: seq<int>): (m: int)
    requires xs != []
    ensures m in xs && forall x :: x in xs ==> x <= m
  {
    if |xs| == 1 then xs[0]
    else
      var rest := Max(xs[1..]);
      assert forall x :: x in xs ==> x == xs[0] || x in xs[1..];
      if xs[0] >= rest then xs[0] else rest
  }

  /**
   * `first` of the task after the sort: among the frames that have a task, the one with the
   * smallest key, the earliest in file order on a tie (the sort is stable).
   */
  function FirstTask(rows: seq<FrameRow>, hasFrame: bool): (r: Option<FrameRow>)
    ensures r.None? <==> forall x :: x in rows ==> x.task.None?
    ensures r.Some? ==> r.value in rows && r.value.task.Some?
  {
    if rows == [] then None
    else
      var rest := FirstTask(rows[1..], hasFrame);
      assert forall x :: x in rows ==> x == rows[0] || x in rows[1..];
      if rows[0].task.None? then rest
      else if rest.None? || SortKey(rows[0], hasFrame) <= SortKey(rest.value, hasFrame) then Some(rows[0])
      else rest
  }

  /**
   * Frame `b` stands at `i` and comes first in the sorted order: no frame with a task has
   * a smaller key, and every earlier frame with a task has a larger one.
   */
  predicate FirstAt(rows: seq<FrameRow>, hasFrame: bool, b: FrameRow, i: int) {
    && 0 <= i < |rows| && rows[i] == b
    && (forall j :: 0 <= j < |rows| && rows[j].task.Some? ==> SortKey(b, hasFrame) <= SortKey(rows[j], hasFrame))
    && (forall j :: 0 <= j < i && rows[j].task.Some? ==> SortKey(b, hasFrame) < SortKey(rows[j], hasFrame))
  }

  /** A frame first in the tail stays first when the head has no task or a larger key. */
  lemma FirstAtShift(rows: seq<FrameRow>, hasFrame: bool, b: FrameRow, i: int)
    requires rows != [] && FirstAt(rows[1..], hasFrame, b, i)
    requires rows[0].task.None? || SortKey(b, hasFrame) < SortKey(rows[0], hasFrame)
    ensures FirstAt(rows, hasFrame, b, i + 1)
  {
    assert forall j :: 1 <= j < |rows| ==> rows[j] == rows[1..][j - 1];
  }

  /** The head is first when it has a task and no key in the tail is smaller. */
  lemma FirstAtHead(rows: seq<FrameRow>, hasFrame: bool)
    requires rows != [] && rows[0].task.Some?
    requires forall x :: x in rows[1..] && x.task.Some? ==> SortKey(rows[0], hasFrame) <= SortKey(x, hasFrame)
    ensures FirstAt(rows, hasFrame, rows[0], 0)
  {
    assert forall j :: 1 <= j < |rows| ==> rows[j] in rows[1..];
  }

  /** The chosen frame comes first in the sorted order. */
  lemma {:induction false} FirstTaskIsFirst(rows: seq<FrameRow>, hasFrame: bool)
    requires FirstTask(rows, hasFrame).Some?
    ensures exists i :: FirstAt(rows, hasFrame, FirstTask(rows, hasFrame).value, i)
  {
    var b := FirstTask(rows, hasFrame).value;
    var rest := FirstTask(rows[1..], hasFrame);
    if rest.Some? {
      FirstTaskIsFirst(rows[1..], hasFrame);
      var i :| FirstAt(rows[1..], hasFrame, rest.value, i);
      if b == rest.value && (rows[0].task.None? || SortKey(rest.value, hasFrame) < SortKey(rows[0], hasFrame)) {
        FirstAtShift(rows, hasFrame, b, i);
      } else {
        FirstAtHead(rows, hasFrame);
      }
    } else {
      FirstAtHead(rows, hasFrame);
    }
  }

  /** Some frame belongs to episode `e`. */
  predicate HasEpisode(rows: seq<FrameRow>, e: int) {
    exists x :: x in rows && x.episode == e
  }

  /** An episode with a frame has a non-empty group. */
  lemma RowsOfNonEmpty(rows: seq<FrameRow>, e: int)
    requires HasEpisode(rows, e)
    ensures RowsOf(rows, e) != []
  {
    var x :| x in rows && x.episode == e;
    assert x in RowsOf(rows, e);
  }

  /** The episodes in ascending order, each once. */
  function Episodes(rows: seq<FrameRow>): (r: seq<int>)
    ensures forall e :: e in r <==> HasEpisode(rows, e)
    ensures forall i, j :: 0 <= i < j < |r| ==> r[i] < r[j]
  {
    if rows == [] then []
    else
      assert forall x :: x in rows ==> x == rows[|rows| - 1] || x in rows[..|rows| - 1];
      assert forall e :: HasEpisode(rows, e) <==> HasEpisode(rows[..|rows| - 1], e) || e == rows[|rows| - 1].episode;
      Insert(Episodes(rows[..|rows| - 1]), rows[|rows| - 1].episode)
  }

  /** `e` added to an ascending list without repeats. */
  function Insert(xs: seq<int>, e: int): (r: seq<int>)
    requires forall i, j :: 0 <= i < j < |xs| ==> xs[i] < xs[j]
    ensures forall x :: x in r <==> x in xs || x == e
    ensures forall i, j :: 0 <= i < j < |r| ==> r[i] < r[j]
  {
    if xs == [] then [e]
    else if e < xs[0] then [e] + xs
    else if e == xs[0] then xs
    else
      var rest := Insert(xs[1..], e);
      assert forall x :: x in xs[1..] ==> xs[0] < x;
      var r := [xs[0]] + rest;
      assert forall j :: 0 < j < |r| ==> r[j] == rest[j - 1] && r[j] in rest;
      r
  }

  /** The aggregates of one episode's frames. */
  function Aggregate(e: int, frames: seq<FrameRow>, hasFrame: bool, hasTask: bool): (m: EpisodeMeta)
    requires frames != []
    ensures m.episode == e && m.length == |frames|
    ensures m.start in Indices(frames) && m.end in Indices(frames)
    ensures forall x :: x in frames ==> m.start <= x.index <= m.end
    ensures m.startFrame.Some? <==> hasFrame
    ensures m.endFrame.Some? <==> hasFrame
    ensures hasFrame ==> forall x :: x in frames ==> m.startFrame.value <= x.frame <= m.endFrame.value
    ensures hasFrame ==> m.startFrame.value in Frames(frames) && m.endFrame.value in Frames(frames)
    ensures !hasTask ==> m.task.None?
    ensures hasTask ==> m.task == (match FirstTask(frames, hasFrame) case None => None case Some(x) => x.task)
  {
    var indices := Indices(frames);
    assert forall x :: x in frames ==> x.index in indices;
    var frameNumbers := Frames(frames);
    assert forall x :: x in frames ==> x.frame in frameNumbers;
    EpisodeMeta(
      e,
      Min(indices),
      Max(indices),
      |frames|,
      if hasFrame then Some(Min(frameNumbers)) else None,
      if hasFrame then Some(Max(frameNumbers)) else None,
      if !hasTask then None
      else match FirstTask(frames, hasFrame) case None => None case Some(x) => x.task)
  }

  /** The script: the required columns checked, then one row per episode in ascending order. */
  function EpisodesTableOf(columns: set<string>, rows: seq<FrameRow>): (r: Result<EpisodesTable, MetaError>)
    ensures r.Err? <==> MissingRequired(columns) != []
    ensures r.Err? ==> r.error == MissingColumns(MissingRequired(columns))
    ensures r.Ok? ==> r.value.columns == OutputColumns("frame_index" in columns, "task_index" in columns)
  {
    if MissingRequired(columns) != [] then Err(MissingColumns(MissingRequired(columns)))
    else
      var hasFrame := "frame_index" in columns;
      var hasTask := "task_index" in columns;
      var episodes := Episodes(rows);
      Ok(EpisodesTable(
        OutputColumns(hasFrame, hasTask),
        seq(|episodes|, i requires 0 <= i < |episodes| => EpisodeRow(rows, episodes[i], hasFrame, hasTask))))
  }

  /** The output row of episode `e`: the aggregates of its frames. */
  function EpisodeRow(rows: seq<FrameRow>, e: int, hasFrame: bool, hasTask: bool): (m: EpisodeMeta)
    requires HasEpisode(rows, e)
  {
    RowsOfNonEmpty(rows, e);
    Aggregate(e, RowsOf(rows, e), hasFrame, hasTask)
  }

  /**
   * The output rows: ascending episodes, one per episode of the input, each with its own
   * frames' aggregates.
   */
  lemma EpisodesTableRows(columns: set<string>, rows: seq<FrameRow>)
    requires EpisodesTableOf(columns, rows).Ok?
    ensures var out := EpisodesTableOf(columns, rows).value.rows;
      && (forall i, j :: 0 <= i < j < |out| ==> out[i].episode < out[j].episode)
      && (forall e :: (exists i :: 0 <= i < |out| && out[i].episode == e) <==> HasEpisode(rows, e))
      && (forall i :: 0 <= i < |out| ==>
            RowsOf(rows, out[i].episode) != []
            && out[i] == Aggregate(out[i].episode, RowsOf(rows, out[i].episode), "frame_index" in columns, "task_index" in columns))
  {
    var episodes := Episodes(rows);
    var out := EpisodesTableOf(columns, rows).value.rows;
    forall i | 0 <= i < |out|
      ensures out[i].episode == episodes[i] && RowsOf(rows, episodes[i]) != []
    {
      RowsOfNonEmpty(rows, episodes[i]);
    }
    forall e | HasEpisode(rows, e)
      ensures exists i :: 0 <= i < |out| && out[i].episode == e
    {
      var i :| 0 <= i < |episodes| && episodes[i] == e;
      assert out[i].episode == e;
    }
  }

  /** Every frame is counted in exactly one episode: the lengths add up to the frame count. */
  lemma {:induction false} LengthsAddUp(rows: seq<FrameRow>, episodes: seq<int>)
    requires forall x :: x in rows ==> x.episode in episodes
    requires forall i, j :: 0 <= i < j < |episodes| ==> episodes[i] != episodes[j]
    ensures SumCounts(rows, episodes) == |rows|
    decreases |rows|
  {
    if rows != [] {
      var x := rows[0];
      assert x in rows;
      var rest := rows[1..];
      assert forall y :: y in rest ==> y in rows;
      LengthsAddUp(rest, episodes);
      SumCountsStep(rows, episodes);
    } else {
      SumCountsOfNoFrames(episodes);
    }
  }

  /** Without frames every count is zero. */
  lemma {:induction false} SumCountsOfNoFrames(episodes: seq<int>)
    ensures SumCounts([], episodes) == 0
    decreases |episodes|
  {
    if episodes != [] {
      SumCountsOfNoFrames(episodes[1..]);
    }
  }

  /** The sum of the episode frame counts over `episodes`. */
  function SumCounts(rows: seq<FrameRow>, episodes: seq<int>): nat {
    if episodes == [] then 0 else |RowsOf(rows, episodes[0])| + SumCounts(rows, episodes[1..])
  }

  /** Dropping the first frame lowers the sum by one when its episode is listed once. */
  lemma {:induction false} SumCountsStep(rows: seq<FrameRow>, episodes: seq<int>)
    requires rows != []
    requires forall i, j :: 0 <= i < j < |episodes| ==> episodes[i] != episodes[j]
    ensures SumCounts(rows, episodes) == SumCounts(rows[1..], episodes) + (if rows[0].episode in episodes then 1 else 0)
    decreases |episodes|
  {
    if episodes != [] {
      SumCountsStep(rows, episodes[1..]);
      assert rows[0].episode == episodes[0] ==> rows[0].episode !in episodes[1..];
    }
  }

  /** The output lengths add up to the number of frames. */
  lemma TotalLength(columns: set<string>, rows: seq<FrameRow>)
    requires EpisodesTableOf(columns, rows).Ok?
    ensures SumCounts(rows, Episodes(rows)) == |rows|
  {
    var episodes := Episodes(rows);
    assert forall x :: x in rows ==> HasEpisode(rows, x.episode);
    LengthsAddUp(rows, episodes);
  }
}

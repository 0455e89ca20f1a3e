/**
 * The removal of the last, incomplete episode (number 76) from a dataset: its rows are
 * filtered out of the data file, `info.json` is updated to the new totals, both files
 * are backed up first unless a backup exists, and the episode's two videos are deleted.
 */
module DeleteEpisode {
  import opened Wrappers
  import opened Backups

  /** The episode the script removes. */
  const Removed := 76

  /** A frame of the data file: its episode and the rest of its values. */
  datatype DataRow = DataRow(episodeIndex: int, values: seq<real>)

  /** What a file of the dataset holds, as far as the script reads it. */
  datatype Content =
    | Table(rows: seq<DataRow>)
    | InfoJson(fields: map<string, int>)
    | Video

  datatype ScriptError =
    | FileMissing(path: string)
    | Unreadable(path: string)
    | KeyMissing(key: string)

  const DataPath := "data/chunk-000/file-000.parquet"
  const DataBackup := "data/chunk-000/file-000.parquet.backup2"
  const InfoPath := "meta/info.json"
  const InfoBackup := "meta/info.json.backup2"
  const HandeyeVideo := "videos/observation.images.handeye/chunk-000/episode_000076.mp4"
  const FixedVideo := "videos/observation.images.fixed/chunk-000/episode_000076.mp4"

  /** The rows kept by the mask `episode_index != 76`, in their order. */
  function Kept(rows: seq<DataRow>): (r: seq<DataRow>)
    ensures |r| <= |rows|
    ensures forall i :: 0 <= i < |r| ==> r[i].episodeIndex != Removed
  {
    if rows == [] then []
    else Kept(rows[..|rows| - 1]) + (if rows[|rows| - 1].episodeIndex != Removed then [rows[|rows| - 1]] else [])
  }

  /** `episode_indices.count(e)`: the number of rows of episode `e`. */
  function EpisodeRows(rows: seq<DataRow>, e: int): (n: nat)
    ensures n <= |rows|
  {
    if rows == [] then 0
    else EpisodeRows(rows[..|rows| - 1], e) + (if rows[|rows| - 1].episodeIndex == e then 1 else 0)
  }

  /** Filtering a concatenation filters each part and keeps them in order. */
  lemma {:induction false} KeptAppend(a: seq<DataRow>, b: seq<DataRow>)
    ensures Kept(a + b) == Kept(a) + Kept(b)
    decreases |b|
  {
    if b == [] {
      assert a + b == a;
    } else {
      var b' := b[..|b| - 1];
      assert (a + b)[..|a + b| - 1] == a + b';
      KeptAppend(a, b');
    }
  }

  /** A row survives exactly when it is a row of the input outside episode 76. */
  lemma {:induction false} KeptMembers(rows: seq<DataRow>, x: DataRow)
    ensures x in Kept(rows) <==> x in rows && x.episodeIndex != Removed
  {
    if rows != [] {
      var init := rows[..|rows| - 1];
      KeptMembers(init, x);
      assert rows == init + [rows[|rows| - 1]];
    }
  }

  /** The remaining row count is the total less the rows of episode 76. */
  lemma {:induction false} KeptCount(rows: seq<DataRow>)
    ensures |Kept(rows)| == |rows| - EpisodeRows(rows, Removed)
  {
    if rows != [] {
      KeptCount(rows[..|rows| - 1]);
    }
  }

  /** A data file without episode 76 comes out as it went in. */
  lemma {:induction false} KeptUnchanged(rows: seq<DataRow>)
    requires forall i :: 0 <= i < |rows| ==> rows[i].episodeIndex != Removed
    ensures Kept(rows) == rows
  {
    if rows != [] {
      KeptUnchanged(rows[..|rows| - 1]);
    }
  }

  /** Running the filter a second time removes nothing more. */
  lemma KeptIdempotent(rows: seq<DataRow>)
    ensures Kept(Kept(rows)) == Kept(rows)
  {
    KeptUnchanged(Kept(rows));
  }

  /** The totals written to `info.json`: 76 episodes, and the number of rows left. */
  function UpdatedInfo(fields: map<string, int>, remaining: nat): (r: map<string, int>)
    ensures r.Keys == fields.Keys + {"total_episodes", "total_frames"}
    ensures r["total_episodes"] == Removed && r["total_frames"] == remaining
    ensures forall k :: k in fields && k != "total_episodes" && k != "total_frames" ==> r[k] == fields[k]
  {
    fields["total_episodes" := Removed]["total_frames" := remaining]
  }

  /** The paths the script writes or deletes. */
  function Touched(): set<string> {
    {DataPath, DataBackup, InfoPath, InfoBackup, HandeyeVideo, FixedVideo}
  }

  /** File `p` is the same before and after. */
  predicate Unchanged(before: map<string, Content>, after: map<string, Content>, p: string) {
    (p in after <==> p in before) && (p in before ==> after[p] == before[p])
  }

  /**
   * Step 1: filter the data file, after backing it up unless a backup exists.
   * Returns the number of rows left.
   */
  method FilterDataFile(store: FileStore<Content>) returns (r: Result<nat, ScriptError>)
    modifies store
    ensures DataPath !in old(store.files) ==> r == Err(FileMissing(DataPath)) && store.files == old(store.files)
    ensures DataPath in old(store.files) && !old(store.files)[DataPath].Table? ==>
      r == Err(Unreadable(DataPath)) && store.files == old(store.files)
    ensures r.Err? ==> r.error == FileMissing(DataPath) || r.error == Unreadable(DataPath)
    ensures r.Ok? ==>
      && DataPath in old(store.files) && old(store.files)[DataPath].Table?
      && var rows := old(store.files)[DataPath].rows;
         && r.value == |Kept(rows)|
         && DataPath in store.files && store.files[DataPath] == Table(Kept(rows))
         && DataBackup in store.files
         && store.files[DataBackup] == (if DataBackup in old(store.files) then old(store.files)[DataBackup] else Table(rows))
    ensures forall p :: p != DataPath && p != DataBackup ==> Unchanged(old(store.files), store.files, p)
  {
    if DataPath !in store.files {
      return Err(FileMissing(DataPath));
    }
    if !store.files[DataPath].Table? {
      return Err(Unreadable(DataPath));
    }
    var filtered := Kept(store.files[DataPath].rows);
    store.RepairWithBackup(DataPath, DataBackup, Table(filtered));
    r := Ok(|filtered|);
  }

  /**
   * Step 2: set the totals of `info.json`, after backing it up unless a backup exists.
   * Reading the old totals raises when either is absent.
   */
  method UpdateInfoFile(store: FileStore<Content>, remaining: nat) returns (r: Result<(), ScriptError>)
    modifies store
    ensures r.Err? ==> store.files == old(store.files)
    ensures InfoPath !in old(store.files) ==> r == Err(FileMissing(InfoPath))
    ensures InfoPath in old(store.files) && !old(store.files)[InfoPath].InfoJson? ==> r == Err(Unreadable(InfoPath))
    ensures r.Err? && r.error.KeyMissing? ==>
      && InfoPath in old(store.files) && old(store.files)[InfoPath].InfoJson?
      && r.error.key in {"total_episodes", "total_frames"}
      && r.error.key !in old(store.files)[InfoPath].fields
    ensures r.Ok? ==>
      && InfoPath in old(store.files) && old(store.files)[InfoPath].InfoJson?
      && var info := old(store.files)[InfoPath].fields;
         && "total_episodes" in info && "total_frames" in info
         && InfoPath in store.files && store.files[InfoPath] == InfoJson(UpdatedInfo(info, remaining))
         && InfoBackup in store.files
         && store.files[InfoBackup] == (if InfoBackup in old(store.files) then old(store.files)[InfoBackup] else InfoJson(info))
    ensures forall p :: p != InfoPath && p != InfoBackup ==> Unchanged(old(store.files), store.files, p)
  {
    if InfoPath !in store.files {
      return Err(FileMissing(InfoPath));
    }
    if !store.files[InfoPath].InfoJson? {
      return Err(Unreadable(InfoPath));
    }
    var info := store.files[InfoPath].fields;
    if "total_episodes" !in info {
      return Err(KeyMissing("total_episodes"));
    }
    if "total_frames" !in info {
      return Err(KeyMissing("total_frames"));
    }
    store.RepairWithBackup(InfoPath, InfoBackup, InfoJson(UpdatedInfo(info, remaining)));
    r := Ok(());
  }

  /**
   * The whole script: the data step, the `info.json` step, then the deletion of the
   * episode's videos. The data file is rewritten before `info.json` is read, so an
   * error in the second step leaves the data already filtered.
   */
  method DeleteEpisode76(store: FileStore<Content>) returns (r: Result<(), ScriptError>)
    modifies store
    ensures DataPath !in old(store.files) ==> r == Err(FileMissing(DataPath)) && store.files == old(store.files)
    ensures DataPath in old(store.files) && !old(store.files)[DataPath].Table? ==>
      r == Err(Unreadable(DataPath)) && store.files == old(store.files)
    ensures r.Err? && r.error != FileMissing(DataPath) && r.error != Unreadable(DataPath) ==>
      && DataPath in old(store.files) && old(store.files)[DataPath].Table?
      && var rows := old(store.files)[DataPath].rows;
         && DataPath in store.files && store.files[DataPath] == Table(Kept(rows))
         && DataBackup in store.files
         && store.files[DataBackup] == (if DataBackup in old(store.files) then old(store.files)[DataBackup] else Table(rows))
         && forall p :: p != DataPath && p != DataBackup ==> Unchanged(old(store.files), store.files, p)
    ensures r.Ok? ==>
      && DataPath in old(store.files) && old(store.files)[DataPath].Table?
      && InfoPath in old(store.files) && old(store.files)[InfoPath].InfoJson?
      && var rows := old(store.files)[DataPath].rows;
         var info := old(store.files)[InfoPath].fields;
         && "total_episodes" in info && "total_frames" in info
         && DataPath in store.files && store.files[DataPath] == Table(Kept(rows))
         && DataBackup in store.files
         && store.files[DataBackup] == (if DataBackup in old(store.files) then old(store.files)[DataBackup] else Table(rows))
         && InfoPath in store.files && store.files[InfoPath] == InfoJson(UpdatedInfo(info, |Kept(rows)|))
         && InfoBackup in store.files
         && store.files[InfoBackup] == (if InfoBackup in old(store.files) then old(store.files)[InfoBackup] else InfoJson(info))
         && HandeyeVideo !in store.files && FixedVideo !in store.files
    ensures r.Ok? ==> forall p :: p !in Touched() ==> Unchanged(old(store.files), store.files, p)
  {
    ghost var before := store.files;
    var remaining := FilterDataFile(store);
    if remaining.Err? {
      return Err(remaining.error);
    }
    ghost var filtered := store.files;
    assert Unchanged(before, filtered, InfoPath) && Unchanged(before, filtered, InfoBackup);
    r := UpdateInfoFile(store, remaining.value);
    assert Unchanged(filtered, store.files, DataPath) && Unchanged(filtered, store.files, DataBackup);
    if r.Err? {
      assert store.files == filtered;
      return;
    }
    ghost var updated := store.files;
    store.DeleteIfPresent(HandeyeVideo);
    store.DeleteIfPresent(FixedVideo);
    forall p | p !in Touched()
      ensures Unchanged(before, store.files, p)
    {
      assert Unchanged(before, filtered, p) && Unchanged(filtered, updated, p);
    }
  }
}

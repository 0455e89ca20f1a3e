# LeRobot RM65 / SO-101 fork: a Dafny model of its core

This project models the logic of a LeRobot fork that drives a bimanual Realman RM65 arm pair
with EPG grippers, SO-101 Feetech arms, FFmpeg and Orbbec cameras, and the scripts that
repair the LeRobot dataset tables recorded with them. It states and proves what that code
promises.

One module per source file holds the model:

- **Protocol client.** `EpgGripper` covers the EPG gripper's JSON command client: its
  connection state, the command strings, position clamping and the parse of a reply chunk.
- **Cameras.**
  - `CameraFfmpeg` and `CameraOrbbec` model the two camera drivers.
  - `FrameMailbox` is the latest-frame slot with its new-frame flag, shared by both drivers'
    reader threads.
  - `Cameras` is a robot's group of cameras.
- **Arms and teleoperators.**
  - `Rm65Follower` and `BiRm65Follower` are the RM65 follower arms.
  - `Rm65Leader`, `BiRm65Leader` and `DragTeachProcessor` are their leaders and the drag-teach
    key filter.
  - `Keys` holds the `left_`/`right_` and `.pos` key routing they share.
- **Motor setup.** `MotorSetup`, `So101Follower` and `So101Leader` model the SO-101 motor
  setup rules, the baud-rate scan and the unexpected-motor check.
- **Factories.** `RobotFactory` and `TeleopFactory` are the two type dispatch tables, plus
  `TeleopEvents`.
- **Dataset table repairs.**
  - `EpisodesMeta` models `make_missing_episodes_parquet.py`.
  - `FixEpisodeColumns` models `fix_episodes_parquet_columns.py`.
  - `AlignEpisodes` models the integer and column parts of
    `align_episodes_to_record100time.py`.
  - `GripperNoneFix` models `fix_gripper_none.py`.
  - `DeleteEpisode` models `delete_episode_76.py`.
  - `Frames` models the pandas table they edit.
  - `Backups` models the backup files they write.
- **Log analysis.** `GripperWriteLog` models the analysis in `test_gripper_writer.py`.
- **Shared helpers.** `Text` holds string helpers and `Wrappers` holds `Option` and `Result`.

How the source's forms map to Dafny:

- An object whose fields the source updates is a class, and its methods carry `modifies`
  clauses. This covers the clients, cameras, arms, buses and tables.
- Sockets, SDK calls, subprocess pipes, bus pings and operator answers become parameters of
  those methods: a send that succeeds or not, the frame sets the SDK delivers, the replies
  at each baud rate, the text typed at a prompt.
- The pure parts are functions, with lemmas that relate them: key routing, decision rules,
  dispatch tables and per-episode aggregation.

## Model

| member | source | states |
|---|---|---|
| Keys.AddPrefix | src/lerobot/robots/bi_rm65_follower/bi_rm65_follower.py:142-173 | every entry reappears under its prefixed key, and every key of the result is a prefixed key of an entry with the same value |
| Keys.Unprefix | src/lerobot/robots/bi_rm65_follower/bi_rm65_follower.py:161 | a key that starts with the prefix is the prefix followed by what `removeprefix` leaves |
| Keys.Unsuffix | src/lerobot/robots/so101_follower/so101_follower.py:516 | a key that ends with the suffix is what `removesuffix` leaves followed by the suffix |
| Keys.StripPrefix | src/lerobot/robots/bi_rm65_follower/bi_rm65_follower.py:160-165 | the result has key k exactly when the input has the prefix followed by k, with that entry's value |
| Keys.WithPrefix | src/lerobot/robots/bi_rm65_follower/bi_rm65_follower.py:160-165 | exactly the entries whose key starts with the prefix |
| Keys.StripThenAddPrefix | src/lerobot/robots/bi_rm65_follower/bi_rm65_follower.py:160-175 | removing a prefix and putting it back keeps exactly the entries that had it |
| Keys.AddThenStripPrefix | src/lerobot/robots/bi_rm65_follower/bi_rm65_follower.py:142-161 | adding a prefix and removing it again gives the map back |
| Keys.AddSuffix | src/lerobot/robots/so101_follower/so101_follower.py:487-527 | every entry reappears under its key with the suffix, and every key of the result is a suffixed key of an entry with the same value |
| Keys.StripSuffix | src/lerobot/robots/so101_follower/so101_follower.py:516 | the result has key k exactly when the input has k followed by the suffix, with that entry's value |
| Keys.WithSuffix | src/lerobot/robots/so101_follower/so101_follower.py:516 | exactly the entries whose key ends with the suffix |
| Keys.StripThenAddSuffix | src/lerobot/robots/so101_follower/so101_follower.py:516-527 | removing the suffix and putting it back keeps exactly the entries that had it |
| Keys.AddThenStripSuffix | src/lerobot/robots/so101_follower/so101_follower.py:487-516 | adding a suffix and removing it again gives back the same keys and values |
| Keys.AddedKeyStripped | src/lerobot/robots/so101_follower/so101_follower.py:487-516 | a key survives adding then removing the suffix |
| Keys.StrippedKeyKept | src/lerobot/robots/so101_follower/so101_follower.py:487-516 | a key left after adding then removing the suffix was a key of the input, with the same value |
| Text.TrimLeft | src/lerobot/robots/bi_rm65_follower/epg_gripper.py:220 | the result is a suffix of the text and does not start with white space (Python's `isspace()` set: the ASCII controls tab to carriage return and 0x1C–0x1F, the space, and the Unicode spaces and line separators) |
| Text.TrimLeftDropsSpace | src/lerobot/robots/bi_rm65_follower/epg_gripper.py:220 | everything dropped from the front is white space |
| Text.TrimRight | src/lerobot/robots/bi_rm65_follower/epg_gripper.py:220 | the result is a prefix of the text and does not end with white space in Python's `isspace()` sense, Unicode spaces included |
| Text.TrimRightDropsSpace | src/lerobot/robots/bi_rm65_follower/epg_gripper.py:220 | everything dropped from the end is white space |
| Text.Strip | src/lerobot/robots/bi_rm65_follower/epg_gripper.py:220-227 | `strip()` neither starts nor ends with any character Python's `isspace()` accepts, Unicode spaces included |
| Text.StripIsSlice | src/lerobot/robots/so101_follower/so101_follower.py:272 | `strip()` keeps one slice of the text, and everything before and after it is white space |
| Text.StripIdempotent | src/lerobot/robots/bi_rm65_follower/epg_gripper.py:227 | stripping a stripped line changes nothing |
| Text.StripEmptyIffBlank | test_gripper_writer.py:74 | `line.strip()` is empty exactly when every character is white space |
| Text.TrimRightKeepsFirst | src/lerobot/robots/bi_rm65_follower/epg_gripper.py:220 | a text starting with a non-space does not trim to nothing |
| Text.LowerChar | src/lerobot/robots/so101_follower/so101_follower.py:272 | `lower()` maps an ASCII capital to its small letter and leaves every other character alone; non-ASCII letters are kept, which decides a comparison with "yes" as Python does |
| Text.Lower | src/lerobot/robots/so101_follower/so101_follower.py:272 | `lower()` lowers each character and keeps the length |
| Text.Split | src/lerobot/robots/bi_rm65_follower/epg_gripper.py:226 | `split('\\n')` gives at least one piece and no piece holds the separator |
| Text.SplitFrom | src/lerobot/robots/bi_rm65_follower/epg_gripper.py:226 | the split of the rest of a text, given the piece read so far, has at least one piece and none holds the separator |
| Text.SplitJoin | src/lerobot/robots/bi_rm65_follower/epg_gripper.py:226 | rejoining the pieces of a split with the separator gives back the text |
| Text.SplitFromJoin | src/lerobot/robots/bi_rm65_follower/epg_gripper.py:226 | rejoining the pieces of a split in progress gives back the piece read so far and the rest |
| Text.NatToString | src/lerobot/robots/bi_rm65_follower/rm65_follower.py:63 | `str(n)` is a non-empty string of decimal digits |
| Text.IntToString | src/lerobot/robots/bi_rm65_follower/epg_gripper.py:180-185 | `str(i)` is non-empty and starts with a minus sign exactly when the integer is negative |
| Text.NatToStringRoundTrip | src/lerobot/robots/bi_rm65_follower/rm65_follower.py:63 | reading the digits of `str(n)` gives back n |
| Text.NatToStringInjective | src/lerobot/robots/bi_rm65_follower/epg_gripper.py:180-185 | different natural numbers have different digit strings |
| Text.IntToStringInjective | src/lerobot/robots/bi_rm65_follower/epg_gripper.py:180-185 | different integers have different `str` forms |
| Text.PrefixInjective | src/lerobot/robots/bi_rm65_follower/bi_rm65_follower.py:142 | the same prefix on two keys gives equal keys only when the keys are equal |
| Text.SuffixInjective | src/lerobot/robots/so101_follower/so101_follower.py:487 | the same suffix on two keys gives equal keys only when the keys are equal |
| Text.StartsWithConcat | src/lerobot/robots/bi_rm65_follower/bi_rm65_follower.py:161 | a prefixed key starts with the prefix and `removeprefix` gives the key back |
| Text.EndsWithConcat | src/lerobot/robots/so101_follower/so101_follower.py:516 | a suffixed key ends with the suffix and `removesuffix` gives the key back |
| Text.StripPadded | src/lerobot/robots/bi_rm65_follower/epg_gripper.py:227 | `strip()` of a word padded with white space is the word |
| Text.TrimLeftPadded | src/lerobot/robots/bi_rm65_follower/epg_gripper.py:227 | dropping leading white space before a word that starts with a non-space gives the word |
| Text.TrimRightPadded | src/lerobot/robots/bi_rm65_follower/epg_gripper.py:227 | dropping trailing white space after a word that ends with a non-space gives the word |
| AlignEpisodes.CheckInputs | align_episodes_to_record100time.py:68-73 | passes exactly when `episode_index` is in the episodes table and both `episode_index` and `timestamp` are in the data table; names the first one missing otherwise |
| AlignEpisodes.TaskTableLastWins | align_episodes_to_record100time.py:81-86 | an index is in `idx_to_task` exactly when some tasks row has it as an integer, and it then maps to the task of the last such row (later rows overwrite, non-integer rows are skipped) |
| AlignEpisodes.BuildTaskTable | align_episodes_to_record100time.py:81-86 | the loop over the tasks table builds exactly the map `TaskTable` describes |
| AlignEpisodes.TaskList | align_episodes_to_record100time.py:88-90 | `map_task_list` gives a one-element list: the mapped task, or `""` when the index is unmapped |
| AlignEpisodes.TasksFromIndex | align_episodes_to_record100time.py:88-92 | the `tasks` column is defined exactly when every `task_index` cell is an integer, then row i holds `map_task_list` of row i; otherwise it names a row that is not one |
| AlignEpisodes.WithTasks | align_episodes_to_record100time.py:77-94 | an existing `tasks` column is left alone; without a tasks table or `task_index` every row gets `[""]`; only `tasks` is added, other columns unchanged, heights kept |
| AlignEpisodes.WithDefaults | align_episodes_to_record100time.py:96-103 | each missing name becomes a column holding its default in every row; present columns are unchanged; nothing else is added |
| AlignEpisodes.FillValue | align_episodes_to_record100time.py:180-185 | a missing reference column is filled with 0 exactly when its name ends in `/count` or `_index`, and with NaN otherwise |
| AlignEpisodes.Plus | align_episodes_to_record100time.py:115 | the sum of two int64 columns is the pointwise sum |
| AlignEpisodes.WithFrom | align_episodes_to_record100time.py:106-110 | `dataset_from_index` is kept if present, else `start_index` cast to int64, else the script stops with the missing-from error; a cast failure is an error |
| AlignEpisodes.WithTo | align_episodes_to_record100time.py:111-117 | `dataset_to_index` is kept if present; with neither `end_index` nor `length` the script stops; only that column is added and the others are unchanged |
| AlignEpisodes.WithRange | align_episodes_to_record100time.py:105-117 | the missing-from error happens exactly when neither `dataset_from_index` nor `start_index` exists; the result has both range columns and changes no existing one |
| AlignEpisodes.RangeValues | align_episodes_to_record100time.py:106-117 | the added `dataset_from_index` is `start_index` as integers; the added `dataset_to_index` is `end_index + 1`, or else `dataset_from_index + length` |
| AlignEpisodes.Differences | align_episodes_to_record100time.py:120 | `(to - from).astype("int64")` is defined exactly when both cells of every row are numbers, row i then being the difference truncated toward zero |
| AlignEpisodes.DifferencesOfIntegers | align_episodes_to_record100time.py:120 | on integer columns the `length` difference is exact: row i is `to[i] - from[i]` |
| AlignEpisodes.WithLength | align_episodes_to_record100time.py:119-120 | an existing `length` is kept; otherwise `length` is `dataset_to_index - dataset_from_index`, and it fails exactly when that difference has a non-number row |
| AlignEpisodes.AddStatColumn | align_episodes_to_record100time.py:168 | `vec_stats[c] = value` appends column c and gives every episode's row that value |
| AlignEpisodes.NamesOf | align_episodes_to_record100time.py:165-171 | the names of the image default columns, in order |
| AlignEpisodes.WithStatDefaults | align_episodes_to_record100time.py:165-171 | adding the image defaults keeps the episodes and gives exactly the old columns plus the default names |
| AlignEpisodes.StatDefaultsValues | align_episodes_to_record100time.py:167-171 | a default column that was missing holds its value (NaN, or 0 for `count`) in every episode's row |
| AlignEpisodes.StatDefaultsKeep | align_episodes_to_record100time.py:167-170 | a statistics column already present keeps its value in every episode's row |
| AlignEpisodes.AddStatDefaults | align_episodes_to_record100time.py:165-171 | the loop over the image columns computes exactly `WithStatDefaults` |
| AlignEpisodes.AddImageDefaults | align_episodes_to_record100time.py:164-171 | the image-defaults loop over `handeye` and `fixed` gives the vector statistics with those defaults |
| AlignEpisodes.StatColumn | align_episodes_to_record100time.py:175-176 | row i of a joined column is the statistic of row i's `episode_index`, or NaN when that episode has none |
| AlignEpisodes.FirstOverlap | align_episodes_to_record100time.py:175-176 | finds a statistics column the table already has, exactly when one exists |
| AlignEpisodes.JoinColumns | align_episodes_to_record100time.py:175-176 | the joined table has the old columns plus the statistics columns, each joined by episode key, the old ones unchanged |
| AlignEpisodes.Join | align_episodes_to_record100time.py:174-177 | a left join on `episode_index` is refused exactly when a statistics column already exists; otherwise every row gets its episode's statistics (NaN when absent) and nothing else changes |
| AlignEpisodes.Select | align_episodes_to_record100time.py:188 | `tgt_ep[ref_cols]` has exactly the reference columns, each as it was |
| AlignEpisodes.Coerced | align_episodes_to_record100time.py:206 | `to_numeric(errors="coerce").fillna(0).astype("int64")` maps each cell to its truncated integer, or 0 when it is not a number |
| AlignEpisodes.CoerceColumns | align_episodes_to_record100time.py:204-206 | each integer column present is coerced; every other column is unchanged; no column appears or disappears |
| AlignEpisodes.CoercedIdempotent | align_episodes_to_record100time.py:206 | coercing a column twice is the same as coercing it once |
| AlignEpisodes.BaseColumns | align_episodes_to_record100time.py:68-120 | the required-column guard stops everything before any column is added; a success keeps the table rectangular with `episode_index` |
| AlignEpisodes.JoinedStats | align_episodes_to_record100time.py:174-177 | the scalar then vector joins keep every column the same height |
| AlignEpisodes.Aligned | align_episodes_to_record100time.py:179-206 | the aligned table exists exactly when every earlier stage succeeds, has exactly the reference columns, and otherwise carries the earlier stage's error |
| AlignEpisodes.PreparedHasReference | align_episodes_to_record100time.py:179-185 | once the remaining reference columns are filled, every reference column exists, so the selection cannot miss one |
| AlignEpisodes.AlignedGuard | align_episodes_to_record100time.py:68-73 | with a required column missing, the whole script ends with that error |
| AlignEpisodes.AlignedColumn | align_episodes_to_record100time.py:188-206 | each reference column of the result is the prepared column coerced when it is an integer column, and unchanged otherwise |
| AlignEpisodes.PreparedFill | align_episodes_to_record100time.py:179-185 | a reference column still missing after the joins holds its fill value (0 or NaN) in every row |
| AlignEpisodes.AppendMissing | align_episodes_to_record100time.py:103 | assigning columns keeps the old column order as a prefix and adds exactly the new names |
| AlignEpisodes.AddTasks | align_episodes_to_record100time.py:77-94 | the table's new cells and outcome are those of `WithTasks`; `tasks`, when new, is appended last |
| AlignEpisodes.AddDefaults | align_episodes_to_record100time.py:96-103 | the loop's new cells are `WithDefaults` and its new column order appends the missing names |
| AlignEpisodes.SetFrom | align_episodes_to_record100time.py:106-110 | the table's new cells and outcome are those of `WithFrom` |
| AlignEpisodes.SetTo | align_episodes_to_record100time.py:111-117 | the table's new cells and outcome are those of `WithTo` |
| AlignEpisodes.SetLength | align_episodes_to_record100time.py:119-120 | the table's new cells and outcome are those of `WithLength` |
| AlignEpisodes.JoinStats | align_episodes_to_record100time.py:174-177 | the table's new cells and outcome are those of `Join`; the statistics columns are appended in order and `episode_index` stays |
| AlignEpisodes.CoerceIntColumns | align_episodes_to_record100time.py:204-206 | the coercion loop leaves the column order alone and gives exactly `CoerceColumns` |
| AlignEpisodes.JoinAll | align_episodes_to_record100time.py:174-177 | the two joins on the table match `JoinedStats` |
| AlignEpisodes.PrepareBase | align_episodes_to_record100time.py:68-120 | the guard and the base-column stages on the table match `BaseColumns` |
| AlignEpisodes.Prepare | align_episodes_to_record100time.py:68-185 | every stage up to the reference defaults, on the table, matches `Prepared` |
| AlignEpisodes.Align | align_episodes_to_record100time.py:68-206 | the script succeeds exactly when `Aligned` does, with its error otherwise; the result has exactly the reference columns in reference order and the cells `Aligned` gives |
| FixEpisodeColumns.FallbackUnreachable | fix_episodes_parquet_columns.py:24-43 | past the guard, a table without `dataset_to_index` always has `end_index`, so the `from + length` fallback is dead code |
| FixEpisodeColumns.EmptyCount | fix_episodes_parquet_columns.py:55 | the count of rows with `to <= from` is at most the row count, and is 0 exactly when every row has `from < to` |
| FixEpisodeColumns.InclusiveRangesNonEmpty | fix_episodes_parquet_columns.py:38-55 | an inclusive `[start, end]` range with `start <= end` turned into `[start, end + 1)` is never counted as empty |
| FixEpisodeColumns.AddIfAbsent | fix_episodes_parquet_columns.py:34-47 | an existing column is left alone; a missing one becomes the source column cast to int64 plus the offset, and a failed cast is an error; other columns are unchanged |
| FixEpisodeColumns.CastKeys | fix_episodes_parquet_columns.py:50-52 | each key column present becomes its int64 cast; the other columns are unchanged; the only error is a failed cast |
| FixEpisodeColumns.DeriveShape | fix_episodes_parquet_columns.py:34-47 | the derivation adds `dataset_from_index`, `dataset_to_index` and, when `length` exists, `episode_length`, and nothing else; existing columns are unchanged |
| FixEpisodeColumns.DeriveValues | fix_episodes_parquet_columns.py:34-47 | a derived `dataset_from_index` is `start_index`, a derived `dataset_to_index` is `end_index + 1`, and a derived `episode_length` is `length`, all as integers |
| FixEpisodeColumns.Checked | fix_episodes_parquet_columns.py:50-57 | the cast and the check fail only on a non-integer key or an empty range; on success both range columns are integer and every range is non-empty |
| FixEpisodeColumns.Fixed | fix_episodes_parquet_columns.py:24-57 | the script stops at the guard exactly when neither index pair exists; a table it writes has integer ranges with `from < to` in every row |
| FixEpisodeColumns.FixedRangeSources | fix_episodes_parquet_columns.py:34-52 | the written range columns are the existing ones cast to integers, or `start_index` and `end_index + 1` when absent |
| FixEpisodeColumns.FixedOtherColumns | fix_episodes_parquet_columns.py:46-52 | a missing `episode_length` is `length`; every non-key column is unchanged; no other column is added |
| FixEpisodeColumns.AddColumnIfAbsent | fix_episodes_parquet_columns.py:34-47 | the assignment on the table gives exactly the outcome and cells of `AddIfAbsent` and keeps the old column order as a prefix |
| FixEpisodeColumns.DeriveColumns | fix_episodes_parquet_columns.py:34-47 | the three derivations on the table give exactly the outcome and cells of `Derive` |
| FixEpisodeColumns.CastKeyColumns | fix_episodes_parquet_columns.py:50-52 | the cast loop on the table gives exactly `CastKeys` and keeps the column order |
| FixEpisodeColumns.CastAndCheck | fix_episodes_parquet_columns.py:50-57 | the cast and the check on the table give exactly the outcome and cells of `Checked` |
| FixEpisodeColumns.FixColumns | fix_episodes_parquet_columns.py:24-57 | the script on the table gives exactly the outcome and cells of `Fixed`, with new columns appended after the existing ones |
| EpisodesMeta.MissingRequired | make_missing_episodes_parquet.py:45-48 | the list of missing required columns is empty exactly when `episode_index` and `index` are both present, and holds exactly the absent ones |
| EpisodesMeta.RowsOf | make_missing_episodes_parquet.py:74 | an episode's group holds exactly the frames of that episode |
| EpisodesMeta.Indices | make_missing_episodes_parquet.py:63-64 | the `index` column of a group, row for row |
| EpisodesMeta.Frames | make_missing_episodes_parquet.py:68-69 | the `frame_index` column of a group, row for row |
| EpisodesMeta.Min | make_missing_episodes_parquet.py:63-68 | the `min` aggregate is a value of the group no larger than any other |
| EpisodesMeta.Max | make_missing_episodes_parquet.py:64-69 | the `max` aggregate is a value of the group no smaller than any other |
| EpisodesMeta.FirstTask | make_missing_episodes_parquet.py:54-71 | `first` of `task_index` finds a frame with a task exactly when the group has one |
| EpisodesMeta.FirstAtShift | make_missing_episodes_parquet.py:54-60 | a frame that sorts first in the tail still sorts first when the head has no task or a larger key |
| EpisodesMeta.FirstAtHead | make_missing_episodes_parquet.py:54-60 | the head sorts first when it has a task and no key after it is smaller |
| EpisodesMeta.FirstTaskIsFirst | make_missing_episodes_parquet.py:54-71 | the task chosen is that of the frame the stable sort puts first among those with a task: no frame has a smaller key, and every earlier frame has a larger one |
| EpisodesMeta.RowsOfNonEmpty | make_missing_episodes_parquet.py:74 | an episode that has a frame has a non-empty group |
| EpisodesMeta.Episodes | make_missing_episodes_parquet.py:74-77 | the output episodes are exactly those of the frames, ascending, each once |
| EpisodesMeta.Insert | make_missing_episodes_parquet.py:74-77 | adding an episode to an ascending list keeps it ascending and without repeats |
| EpisodesMeta.Aggregate | make_missing_episodes_parquet.py:62-71 | an episode row has the group's least and greatest `index`, its size as `length`, frame bounds exactly when `frame_index` exists, and the first task exactly when `task_index` exists |
| EpisodesMeta.EpisodesTableOf | make_missing_episodes_parquet.py:45-78 | the script fails exactly when a required column is missing, naming the missing ones; otherwise its columns are the episode, the aggregates and the optional columns |
| EpisodesMeta.EpisodesTableRows | make_missing_episodes_parquet.py:54-78 | the output has one row per input episode, in ascending order, each holding its own frames' aggregates |
| EpisodesMeta.LengthsAddUp | make_missing_episodes_parquet.py:65-74 | when each frame's episode is listed once, the group sizes add up to the frame count |
| EpisodesMeta.SumCountsOfNoFrames | make_missing_episodes_parquet.py:65 | without frames every group size is zero |
| EpisodesMeta.SumCountsStep | make_missing_episodes_parquet.py:65-74 | dropping one frame lowers the sum of group sizes by one exactly when its episode is listed |
| EpisodesMeta.TotalLength | make_missing_episodes_parquet.py:65-78 | the `length` values of the output add up to the number of frames |
| DeleteEpisode.Kept | delete_episode_76.py:28-29 | the filtered table is no longer than the input and holds no row of episode 76 |
| DeleteEpisode.EpisodeRows | delete_episode_76.py:23 | `episode_indices.count(e)` is at most the row count |
| DeleteEpisode.KeptAppend | delete_episode_76.py:28-29 | filtering a concatenation filters each part and keeps them in order |
| DeleteEpisode.KeptMembers | delete_episode_76.py:28-29 | a row survives exactly when it is an input row outside episode 76 |
| DeleteEpisode.KeptCount | delete_episode_76.py:22-31 | the rows left are the total less the rows of episode 76 |
| DeleteEpisode.KeptUnchanged | delete_episode_76.py:28-29 | a data file without episode 76 comes out unchanged |
| DeleteEpisode.KeptIdempotent | delete_episode_76.py:28-29 | running the filter again removes nothing more |
| DeleteEpisode.UpdatedInfo | delete_episode_76.py:53-54 | `info.json` gets `total_episodes` 76 and `total_frames` the rows left; every other field and no new one besides those two |
| DeleteEpisode.FilterDataFile | delete_episode_76.py:15-40 | a missing or unreadable data file is an error that changes nothing; otherwise the backup is made only if absent, the data file becomes the filtered table, the count of rows left is returned, and no other file changes |
| DeleteEpisode.UpdateInfoFile | delete_episode_76.py:44-65 | a missing file, unreadable file or missing total is an error that changes nothing; otherwise the backup is made only if absent and `info.json` gets the new totals; no other file changes |
| DeleteEpisode.DeleteEpisode76 | delete_episode_76.py:14-75 | the data step, then the `info.json` step, then both videos deleted; a missing or unreadable data file fails with nothing changed; an error in the `info.json` step leaves the data file filtered, its backup made and every other file as it was; on success only the touched paths change |
| GripperNoneFix.FillGripper | fix_gripper_none.py:35-37 | a row whose last action value is missing gets the state's last value there; every other value, and every row with a gripper, is unchanged |
| GripperNoneFix.StillMissingOnlyIfBoth | fix_gripper_none.py:35-37 | after the repair a gripper is missing exactly when both the action's and the state's were |
| GripperNoneFix.FillGripperIdempotent | fix_gripper_none.py:35-37 | repairing a repaired row changes nothing more |
| GripperNoneFix.Filled | fix_gripper_none.py:34-38 | the repaired column is the per-row repair of each row |
| GripperNoneFix.MissingCount | fix_gripper_none.py:31-38 | the number of rows with a missing gripper is at most the row count |
| GripperNoneFix.MissingCountZero | fix_gripper_none.py:34-38 | the count is zero exactly when no row has a missing gripper |
| GripperNoneFix.FillMissingGrippers | fix_gripper_none.py:31-38 | the loop succeeds exactly when every row can be indexed, and then leaves each row repaired in place and returns the number of rows whose gripper was missing; otherwise it stops at the first row it cannot index (an empty action, or an empty state for a missing gripper) with the rows before it repaired and the rest untouched |
| GripperNoneFix.FirstUnrepairable | fix_gripper_none.py:34-37 | names the first row the loop cannot index, and none exactly when every row can be repaired |
| GripperNoneFix.BackupPath | fix_gripper_none.py:43 | the backup path extends the data file's path, so it never names the data file itself |
| GripperNoneFix.FirstWrongWidth | fix_gripper_none.py:49 | `pa.list_(pa.float32(), 7)` refuses the column exactly when some row does not have seven values, and the row named is one |
| GripperNoneFix.RepairFile | fix_gripper_none.py:24-56 | a row the loop cannot index fails, naming the first such row, with every file as it was; otherwise the backup is taken (only if absent) before the column is rebuilt; a row without seven values fails after the backup and before the write; otherwise the file holds the repaired actions and the fixed count is returned |
| Backups.FileStore.constructor | delete_episode_76.py:10 | the store holds exactly the given files |
| Backups.FileStore.BackupIfAbsent | delete_episode_76.py:34-37 | an existing backup is left untouched; otherwise the backup becomes a copy of the file; nothing else changes |
| Backups.FileStore.Write | delete_episode_76.py:40 | writing replaces that file's contents only |
| Backups.FileStore.DeleteIfPresent | delete_episode_76.py:71-75 | deleting removes that path only, and is a no-op when it is absent |
| Backups.FileStore.RepairWithBackup | delete_episode_76.py:33-40 | after a backup-then-rewrite, the file holds the new contents and the backup holds the contents from before the first repair that made one; no other file changes and only the backup can appear |
| Frames.Truncate | fix_episodes_parquet_columns.py:35 | a float cast to an integer is truncated toward zero: within one of the value and never further from zero |
| Frames.ToInt64 | fix_episodes_parquet_columns.py:35 | `astype("int64")` of a cell succeeds exactly on an integer or a float, and keeps an integer as it is |
| Frames.ToNumber | align_episodes_to_record100time.py:120 | a cell is a number exactly when it is an integer or a float |
| Frames.NumericOrZero | align_episodes_to_record100time.py:206 | `to_numeric(errors="coerce").fillna(0).astype("int64")` is the cast of a number and 0 for anything else |
| Frames.IntCells | fix_episodes_parquet_columns.py:35 | an integer column holds the given integers, row for row |
| Frames.PlusOffset | fix_episodes_parquet_columns.py:40 | `column + 1` adds the offset to each row |
| Frames.Constant | align_episodes_to_record100time.py:103 | assigning a scalar gives a column holding it in every row |
| Frames.ColumnToInt64 | fix_episodes_parquet_columns.py:50-52 | a column casts exactly when every cell does, giving each cell's cast |
| Frames.IntCellsCast | fix_episodes_parquet_columns.py:50-52 | casting an integer column gives back its integers |
| Frames.CastIdempotent | fix_episodes_parquet_columns.py:50-52 | casting a cast column again changes nothing |
| Frames.ToInt64TowardZero | fix_episodes_parquet_columns.py:35 | the cast integer lies between zero and the number it came from |
| Frames.Frame.constructor | fix_episodes_parquet_columns.py:21 | a table read from a file has the given columns, cells and height |
| Frames.Frame.SetColumn | fix_episodes_parquet_columns.py:35 | `df[name] = values` replaces an existing column where it stands and appends a new one at the end, keeping the table well formed |
| GripperWriteLog.Parsed | test_gripper_writer.py:71-75 | lines that are empty or all white space in Python's `isspace()` sense are skipped; reading succeeds exactly when every other line decodes; a failure names the first non-blank line that does not decode; every record is the decoding of a non-blank line, and there are never more records than lines |
| GripperWriteLog.ReadLogs | test_gripper_writer.py:71-75 | the reading loop, skipping lines that `strip()` empties (Unicode white space included), gives exactly the records or the failing line `Parsed` gives |
| GripperWriteLog.ErrorPersists | test_gripper_writer.py:73-75 | once a line fails to decode, reading more lines ends with the same failure |
| GripperWriteLog.Sources | test_gripper_writer.py:84-89 | the keys of `sources` are exactly the programs that wrote, each once |
| GripperWriteLog.SourcesStep | test_gripper_writer.py:86-88 | one more record appends its program to the key order only when it is new |
| GripperWriteLog.GroupStep | test_gripper_writer.py:89 | one more record extends its own program's group and no other |
| GripperWriteLog.GroupOfSilent | test_gripper_writer.py:87-89 | a program that wrote nothing has an empty group |
| GripperWriteLog.Group | test_gripper_writer.py:84-89 | a program's group holds exactly its own records |
| GripperWriteLog.InExactlyOneGroup | test_gripper_writer.py:84-89 | every record is in the group of its own program and in no other |
| GripperWriteLog.GroupOfAppend | test_gripper_writer.py:85-89 | a group keeps file order: the group of a concatenation is the concatenation of the groups |
| GripperWriteLog.GroupBySource | test_gripper_writer.py:84-89 | the grouping loop gives the programs in first-appearance order and, for each, exactly its records in file order |
| GripperWriteLog.InsertByTime | test_gripper_writer.py:130 | inserting one record adds exactly that record |
| GripperWriteLog.SortByTime | test_gripper_writer.py:130 | the sort is a permutation of the records |
| GripperWriteLog.InsertNotLater | test_gripper_writer.py:130 | inserting a record no later than a bound keeps every record no later than it |
| GripperWriteLog.SortedSnoc | test_gripper_writer.py:130 | a record no earlier than all of a time-ordered list may follow it |
| GripperWriteLog.InsertKeepsSorted | test_gripper_writer.py:130 | insertion into a time-ordered list keeps it time-ordered |
| GripperWriteLog.SortedByTime | test_gripper_writer.py:130 | `sorted(logs, key=timestamp)` is in ascending timestamp order |
| GripperWriteLog.AtTimeInsert | test_gripper_writer.py:130 | inserting a record places it after every record with the same timestamp |
| GripperWriteLog.SortIsStable | test_gripper_writer.py:130 | the sort is stable: records with the same timestamp keep their file order |
| GripperWriteLog.Conflicts | test_gripper_writer.py:132-139 | there are at most as many conflicts as neighbouring pairs |
| GripperWriteLog.ConflictsExactly | test_gripper_writer.py:133-139 | the conflicts are exactly the neighbouring pairs by different programs less than 0.1 s apart, with their gap |
| GripperWriteLog.FindConflicts | test_gripper_writer.py:132-139 | the scan gives exactly `Conflicts` |
| GripperWriteLog.VerdictOf | test_gripper_writer.py:153-164 | no program gives "none detected", several give "both write"; with one, a name containing `LeRobot` or `rm65_follower` gives LeRobot only, else one containing `External` gives the other program only, else that program by name |
| GripperWriteLog.Shown | test_gripper_writer.py:143 | at most the first five conflicts are shown, and all of them when there are no more than five |
| GripperWriteLog.AnalyzeLogs | test_gripper_writer.py:65-164 | a missing file, a malformed line and an empty log each end the analysis; otherwise the report holds the record count, the programs and their groups, the timeline conflicts exactly when two or more programs wrote, the first five shown, and the verdict |
| GripperWriteLog.ReportNamesWriter | test_gripper_writer.py:153-164 | a log with at least one record always gets a verdict naming a writer |
| BiRm65Follower.SideId | src/lerobot/robots/bi_rm65_follower/bi_rm65_follower.py:48-58 | an arm's id is the pair's id plus `_left` or `_right`, and is absent exactly when the pair's id is absent or empty |
| BiRm65Follower.SideIdsDiffer | src/lerobot/robots/bi_rm65_follower/bi_rm65_follower.py:48-58 | with a non-empty pair id the two arms get different ids |
| BiRm65Follower.ArmConfigOf | src/lerobot/robots/bi_rm65_follower/bi_rm65_follower.py:47-64 | each arm gets its side's address, the shared port, speed and calibration directory, no cameras, and the gripper defaults (gripper off, device 9, force 60, speed 255) |
| BiRm65Follower.GripperSettingsIgnored | src/lerobot/robots/bi_rm65_follower/bi_rm65_follower.py:47-64 | the pair's gripper settings never reach either arm's configuration |
| BiRm65Follower.SidesDisjoint | src/lerobot/robots/bi_rm65_follower/bi_rm65_follower.py:160-165 | a `left_` key is never a `right_` key, so no key goes to both arms |
| BiRm65Follower.SideKeys | src/lerobot/robots/bi_rm65_follower/bi_rm65_follower.py:76-77 | one side's keys are its prefix on each of the six joint keys, in order |
| BiRm65Follower.BiMotorFeatures | src/lerobot/robots/bi_rm65_follower/bi_rm65_follower.py:73-96 | `_motors_ft` and `action_features` are exactly the twelve prefixed joint keys, each a float |
| BiRm65Follower.BiObservationFeatures | src/lerobot/robots/bi_rm65_follower/bi_rm65_follower.py:80-91 | `observation_features` has exactly the twelve joint keys and the camera names |
| BiRm65Follower.BiObservationMatchesFeatures | src/lerobot/robots/bi_rm65_follower/bi_rm65_follower.py:136-155 | when each arm reports its six joints and every camera an image, the observation's keys are exactly `observation_features` |
| BiRm65Follower.MergedJointKeys | src/lerobot/robots/bi_rm65_follower/bi_rm65_follower.py:140-146 | both arms' joint readings under their prefixes have exactly the pair's motor keys |
| BiRm65Follower.JointsOnly | src/lerobot/robots/bi_rm65_follower/bi_rm65_follower.py:63 | an arm configured without cameras observes exactly its six joints |
| BiRm65Follower.PrefixedJoints | src/lerobot/robots/bi_rm65_follower/bi_rm65_follower.py:142-146 | prefixing a reading of the six joints gives exactly that side's keys |
| BiRm65Follower.LeftGoalReadsLeftKeys | src/lerobot/robots/bi_rm65_follower/bi_rm65_follower.py:160-168 | the goal sent to the left arm is the action's `left_` joint values in joint order |
| BiRm65Follower.BiActionKeysAreFeatures | src/lerobot/robots/bi_rm65_follower/bi_rm65_follower.py:157-169 | both arms find all their joint keys exactly when the action has every key of `action_features` |
| BiRm65Follower.BiRM65Follower.constructor | src/lerobot/robots/bi_rm65_follower/bi_rm65_follower.py:42-71 | a new pair is not connected; each arm gets its side's address, the shared port and speed; the cameras are the configured ones |
| BiRm65Follower.BiRM65Follower.Connect | src/lerobot/robots/bi_rm65_follower/bi_rm65_follower.py:107-119 | the left arm, then the right arm, then the cameras; an arm already connected stops everything after it; success means both arms and every camera connected |
| BiRm65Follower.BiRM65Follower.GetObservation | src/lerobot/robots/bi_rm65_follower/bi_rm65_follower.py:136-155 | the observation is the left arm's and then the right arm's readings under their prefixes, then the camera images, or the first arm error |
| BiRm65Follower.BiRM65Follower.SendAction | src/lerobot/robots/bi_rm65_follower/bi_rm65_follower.py:157-175 | the action is split by prefix; the left goal is sent first and a left failure sends nothing to the right; success returns exactly the prefixed entries of the action |
| BiRm65Follower.BiRM65Follower.Disconnect | src/lerobot/robots/bi_rm65_follower/bi_rm65_follower.py:177-189 | a connected arm loses its handle (left, then right); then the shared cameras are disconnected in order, and the first one that raises (a down FFmpeg camera without a reader) ends the call with its name, the cameras before it down and the ones after it as they were; otherwise every camera ends disconnected |
| EpgGripper.WriteRegisters | src/lerobot/robots/bi_rm65_follower/epg_gripper.py:145-185 | a register write is a `write_registers` JSON command on port 1 ending in CR LF |
| EpgGripper.InitCommands | src/lerobot/robots/bi_rm65_follower/epg_gripper.py:134-157 | initialisation issues exactly five commands: tool voltage, Modbus mode, register 1000 `[0,0]`, register 1000 `[0,1]`, register 1002 `[force,speed]` |
| EpgGripper.Trunc | src/lerobot/robots/bi_rm65_follower/epg_gripper.py:176 | `int(position)` truncates toward zero |
| EpgGripper.Clamp | src/lerobot/robots/bi_rm65_follower/epg_gripper.py:176 | the position sent is always in 0..255, equals the request inside that range, and is 0 below it and 255 above it |
| EpgGripper.HighByte | src/lerobot/robots/bi_rm65_follower/epg_gripper.py:237 | `(data >> 8) & 0xFF` is always a byte |
| EpgGripper.HighByteOfPacked | src/lerobot/robots/bi_rm65_follower/epg_gripper.py:233-239 | for a register packing position and speed, the high byte read back is the position |
| EpgGripper.ClassifyLine | src/lerobot/robots/bi_rm65_follower/epg_gripper.py:227-243 | a blank line is skipped, and a line that answers the read gives a byte |
| EpgGripper.FirstPositionIsFirstMatch | src/lerobot/robots/bi_rm65_follower/epg_gripper.py:226-246 | the reply gives position p exactly when some line answers with p and every line before it was skipped |
| EpgGripper.FirstPositionIsByte | src/lerobot/robots/bi_rm65_follower/epg_gripper.py:237-241 | every position read back from reply lines is in 0..255 |
| EpgGripper.ReplyPosition | src/lerobot/robots/bi_rm65_follower/epg_gripper.py:220-246 | the chunk is stripped of Python's full white-space set and split into lines, and the position it gives is always in 0..255 |
| EpgGripper.ReplyPositionIsFirstMatch | src/lerobot/robots/bi_rm65_follower/epg_gripper.py:226-242 | a reply gives position `p` exactly when one of its lines answers the read with `p` and every line before it is skipped |
| EpgGripper.BlankReplyGivesNone | src/lerobot/robots/bi_rm65_follower/epg_gripper.py:220-246 | a reply of white space only gives no position |
| EpgGripper.ParseReply | src/lerobot/robots/bi_rm65_follower/epg_gripper.py:220-246 | the loop over the stripped reply lines gives exactly `ReplyPosition` |
| EpgGripper.Receive | src/lerobot/robots/bi_rm65_follower/epg_gripper.py:220 | a failed `recv` gives no position; a received chunk gives `ReplyPosition` |
| EpgGripper.FirstPositionAt | src/lerobot/robots/bi_rm65_follower/epg_gripper.py:226-243 | one loop step: a skipped line moves on, an answering line returns its position, and a line that raises ends the call with None |
| EpgGripper.EPGGripperClient.constructor | src/lerobot/robots/bi_rm65_follower/epg_gripper.py:38-62 | a new client is not connected and has no socket; the defaults are device 9, force 60, speed 255 |
| EpgGripper.EPGGripperClient.SendCommand | src/lerobot/robots/bi_rm65_follower/epg_gripper.py:108-128 | a command is sent only when the client is connected and the socket send works; the result says whether it was sent |
| EpgGripper.EPGGripperClient.Initialize | src/lerobot/robots/bi_rm65_follower/epg_gripper.py:130-159 | the five initialisation commands go through the guarded send, so they are sent only when connected |
| EpgGripper.EPGGripperClient.Connect | src/lerobot/robots/bi_rm65_follower/epg_gripper.py:69-106 | a no-op when already connected; an unreachable controller raises and leaves no socket; otherwise the client ends connected and, as written, has sent nothing |
| EpgGripper.EPGGripperClient.ConnectInitialized | src/lerobot/robots/bi_rm65_follower/epg_gripper.py:69-106 | with the connected flag set before initialisation, a successful connect sends the five initialisation commands |
| EpgGripper.EPGGripperClient.SetPosition | src/lerobot/robots/bi_rm65_follower/epg_gripper.py:161-190 | refused when not connected; otherwise register 1001 `[clamped position, speed]` is written and, only if that worked, register 1000 `[0,9]`, whose result is returned |
| EpgGripper.EPGGripperClient.Drain | src/lerobot/robots/bi_rm65_follower/epg_gripper.py:204-212 | the non-blocking read loop leaves the socket buffer empty |
| EpgGripper.EPGGripperClient.GetPosition | src/lerobot/robots/bi_rm65_follower/epg_gripper.py:192-250 | None without sending when not connected; otherwise the buffer is drained, the read command sent, and the position is that of the reply, always a byte, or None when a send or receive fails |
| EpgGripper.EPGGripperClient.RequestPosition | src/lerobot/robots/bi_rm65_follower/epg_gripper.py:204-217 | the buffer is drained, then the read command is sent if the send works |
| EpgGripper.EPGGripperClient.Disconnect | src/lerobot/robots/bi_rm65_follower/epg_gripper.py:252-262 | afterwards there is no socket and no connection |
| EpgGripper.ConnectSendsNothing | src/lerobot/robots/bi_rm65_follower/epg_gripper.py:87-120 | a fresh client whose socket opens and whose sends all work ends up connected with nothing sent |
| EpgGripper.ConnectInitializedSendsInit | src/lerobot/robots/bi_rm65_follower/epg_gripper.py:87-157 | with the flag set first, the same connect sends exactly the five initialisation commands |
| Rm65Follower.JointNamesSpelled | src/lerobot/robots/bi_rm65_follower/rm65_follower.py:63-67 | joint i is named `joint_{i+1}` and its feature key adds `.pos` |
| Rm65Follower.MotorKeysDistinct | src/lerobot/robots/bi_rm65_follower/rm65_follower.py:63-67 | the six joints have six different feature keys |
| Rm65Follower.MotorFeatures | src/lerobot/robots/bi_rm65_follower/rm65_follower.py:65-67 | `_motors_ft` is exactly the six joint keys, each a float |
| Rm65Follower.MotorFeatureCount | src/lerobot/robots/bi_rm65_follower/rm65_follower.py:62-67 | there are exactly six motor features |
| Rm65Follower.ObservationFeatures | src/lerobot/robots/bi_rm65_follower/rm65_follower.py:76-78 | `observation_features` has exactly the joint keys and the camera names; a joint key no camera shadows stays a float |
| Rm65Follower.CameraFeatures | src/lerobot/robots/bi_rm65_follower/rm65_follower.py:69-74 | `_cameras_ft` has one 3-channel image feature per camera name |
| Rm65Follower.AnglesOf | src/lerobot/robots/bi_rm65_follower/rm65_follower.py:141-148 | a dict with `joint` gives that list, a list gives itself, any other dict gives `joint_1..6` with 0.0 for each missing one, and anything else fails |
| Rm65Follower.JointObservation | src/lerobot/robots/bi_rm65_follower/rm65_follower.py:151 | `zip` pairs the first min(6, n) angles with the joint keys, and there are no other keys |
| Rm65Follower.ObservationMatchesFeatures | src/lerobot/robots/bi_rm65_follower/rm65_follower.py:128-163 | with six angles or more and an image from every camera, the observation has exactly the keys of `observation_features`, a float exactly at each float feature |
| Rm65Follower.FirstMissing | src/lerobot/robots/bi_rm65_follower/rm65_follower.py:170 | the goal lookup raises exactly when some joint key is missing, and names one that is |
| Rm65Follower.Goal | src/lerobot/robots/bi_rm65_follower/rm65_follower.py:170 | the six goal angles are the action's joint values in joint order |
| Rm65Follower.RM65Follower.constructor | src/lerobot/robots/bi_rm65_follower/rm65_follower.py:42-63 | a new arm has no handle, has commanded nothing, and is not connected |
| Rm65Follower.RM65Follower.ActionFeatures | src/lerobot/robots/bi_rm65_follower/rm65_follower.py:80-82 | `action_features` is `_motors_ft` |
| Rm65Follower.RM65Follower.Connect | src/lerobot/robots/bi_rm65_follower/rm65_follower.py:88-111 | refused when connected; otherwise the handle is taken whatever its id, and the cameras connect in order; it succeeds exactly when every camera does, and otherwise names the failing one |
| Rm65Follower.RM65Follower.GetObservation | src/lerobot/robots/bi_rm65_follower/rm65_follower.py:128-163 | refused when not connected; a non-zero status raises; otherwise the joints and camera images |
| Rm65Follower.RM65Follower.SendAction | src/lerobot/robots/bi_rm65_follower/rm65_follower.py:165-186 | refused when not connected; a missing joint key raises before anything is sent; otherwise the goal is sent whatever the SDK returns, and the action is returned unchanged |
| Rm65Follower.RM65Follower.Disconnect | src/lerobot/robots/bi_rm65_follower/rm65_follower.py:188-201 | nothing happens unless connected; otherwise the handle is released and every camera disconnected (all are connected then, so none raises) |
| Rm65Follower.ActionKeysAreFeatures | src/lerobot/robots/bi_rm65_follower/rm65_follower.py:170 | `send_action` finds every key exactly when the action has all keys of `action_features` |
| Rm65Leader.ZeroAction | src/lerobot/teleoperators/bi_rm65_leader/rm65_leader.py:145-148 | the fallback action has exactly the six joint keys, each 0.0 |
| Rm65Leader.AnglesAction | src/lerobot/teleoperators/bi_rm65_leader/rm65_leader.py:157-160 | with six angles or more, joint i takes angle i and there are exactly the six joint keys |
| Rm65Leader.ActionOf | src/lerobot/teleoperators/bi_rm65_leader/rm65_leader.py:143-160 | a response that is not a dict or has no `joint` gives zeros; fewer than six angles raises; otherwise the first six angles; a result always has the six joint keys |
| Rm65Leader.LeaderAction | src/lerobot/teleoperators/bi_rm65_leader/rm65_leader.py:137-140 | refused exactly when not connected; otherwise the action of the joint response |
| Rm65Leader.RM65Leader.constructor | src/lerobot/teleoperators/bi_rm65_leader/rm65_leader.py:39-46 | a new leader holds no handle and no arm, so it is not connected and not teaching |
| Rm65Leader.RM65Leader.Configure | src/lerobot/teleoperators/bi_rm65_leader/rm65_leader.py:107-122 | refused when not connected; a failed drag-teach start raises; otherwise teaching starts (a failed sensitivity call only warns) |
| Rm65Leader.RM65Leader.Connect | src/lerobot/teleoperators/bi_rm65_leader/rm65_leader.py:63-96 | refused when connected, with nothing changed; otherwise the handle is kept even when it is not 0, which raises; it succeeds exactly when the handle is 0 and drag-teach starts |
| Rm65Leader.RM65Leader.GetAction | src/lerobot/teleoperators/bi_rm65_leader/rm65_leader.py:128-165 | the action is `LeaderAction` and always has the six joint keys |
| Rm65Leader.RM65Leader.Disconnect | src/lerobot/teleoperators/bi_rm65_leader/rm65_leader.py:171-187 | refused when not connected, with nothing changed; otherwise drag-teach stops and the handle and arm are released |
| Rm65Leader.LeaderActionDrivesFollower | src/lerobot/teleoperators/bi_rm65_leader/rm65_leader.py:157-160 | every action a leader reads holds each goal key an RM65 follower's `send_action` looks up |
| BiRm65Leader.LeaderConfigOf | src/lerobot/teleoperators/bi_rm65_leader/bi_rm65_leader.py:41-59 | each arm gets its side's address, the shared port, sensitivity and directory, and the pair's id with `_left`/`_right`, absent when the pair's id is absent or empty |
| BiRm65Leader.BiActionRoutesSides | src/lerobot/teleoperators/bi_rm65_leader/bi_rm65_leader.py:104-121 | with six joints from each arm, the pair's action has exactly the keys of `action_features`, and each side's key holds its own arm's value |
| BiRm65Leader.LeftEntryKept | src/lerobot/teleoperators/bi_rm65_leader/bi_rm65_leader.py:115-119 | a `left_` entry is never overwritten by the right arm's update |
| BiRm65Leader.BiLeaderDrivesFollower | src/lerobot/teleoperators/bi_rm65_leader/bi_rm65_leader.py:104-121 | whatever the two joint responses, an action the pair reads holds every goal the bimanual follower's `send_action` looks up |
| BiRm65Leader.BiRM65Leader.constructor | src/lerobot/teleoperators/bi_rm65_leader/bi_rm65_leader.py:37-62 | a new pair is not connected; each arm gets its side's address and the shared port and sensitivity |
| BiRm65Leader.BiRM65Leader.Connect | src/lerobot/teleoperators/bi_rm65_leader/bi_rm65_leader.py:81-84 | the left arm then the right; a connected left arm refuses with both arms untouched; a left handle other than 0 or a failed left drag start raises with the right arm untouched; a right arm already connected raises after the left one connected; otherwise the right arm's own outcome decides; success means both are connected and teaching |
| BiRm65Leader.BiRM65Leader.GetAction | src/lerobot/teleoperators/bi_rm65_leader/bi_rm65_leader.py:104-121 | the left action then the right, merged under their prefixes; a result has exactly the twelve prefixed keys |
| BiRm65Leader.BiRM65Leader.Disconnect | src/lerobot/teleoperators/bi_rm65_leader/bi_rm65_leader.py:127-130 | both arms end released when both were connected; a left arm not connected refuses with both arms untouched; a right arm not connected raises after the left arm was released, with the right untouched |
| DragTeachProcessor.DragTeachAction | src/lerobot/teleoperators/bi_rm65_leader/processor_bi_rm65_leader.py:4-19 | the action is exactly the observation's entries whose key contains `.pos` and not `image`, values copied; the teleoperator action is ignored |
| DragTeachProcessor.DragTeachIdempotent | src/lerobot/teleoperators/bi_rm65_leader/processor_bi_rm65_leader.py:14-17 | feeding the processor its own output gives it back |
| DragTeachProcessor.ContainedCharsOccur | src/lerobot/teleoperators/bi_rm65_leader/processor_bi_rm65_leader.py:17 | a character of a contained substring occurs in the string |
| DragTeachProcessor.SuffixContained | src/lerobot/teleoperators/bi_rm65_leader/processor_bi_rm65_leader.py:17 | a key ending in `.pos` contains `.pos` |
| DragTeachProcessor.PositionKeyKept | src/lerobot/teleoperators/bi_rm65_leader/processor_bi_rm65_leader.py:17 | a key ending in `.pos` without the letter `m` is kept, which covers every joint key |
| DragTeachProcessor.SideKeyKept | src/lerobot/teleoperators/bi_rm65_leader/processor_bi_rm65_leader.py:17 | every `left_`/`right_` joint key is kept |
| DragTeachProcessor.BiObservationToAction | src/lerobot/teleoperators/bi_rm65_leader/processor_bi_rm65_leader.py:14-17 | on a bimanual observation whose camera names are not position keys, the action has exactly the twelve joint keys |
| Cameras.AddImages | src/lerobot/robots/bi_rm65_follower/rm65_follower.py:157-161 | the images are added exactly when every camera has a shot: each camera's key holds its image and the other keys are unchanged; otherwise it names a camera without one |
| Cameras.CameraRig.constructor | src/lerobot/robots/bi_rm65_follower/rm65_follower.py:60 | a new group of cameras has every camera disconnected |
| Cameras.CameraRig.ConnectAll | src/lerobot/robots/bi_rm65_follower/rm65_follower.py:108-109 | the cameras connect in order; it succeeds exactly when every `connect()` returns, leaving all connected; otherwise the first failing camera is named, those before it are connected and the rest unchanged |
| Cameras.CameraRig.DisconnectAll | src/lerobot/robots/bi_rm65_follower/bi_rm65_follower.py:185-187 | the loop completes exactly when no camera raises (a connected camera never does); then every camera ends disconnected; otherwise it stops at the first camera that raises, with the ones before it disconnected and the rest unchanged |
| Cameras.CameraRig.ReadAll | src/lerobot/robots/bi_rm65_follower/rm65_follower.py:157-161 | the loop of `async_read()` calls gives exactly `AddImages` |
| FrameMailbox.Publish | src/lerobot/cameras/ffmpeg/camera_ffmpeg.py:143-145 | publishing stores the frame as the latest and raises the flag |
| FrameMailbox.Consume | src/lerobot/cameras/ffmpeg/camera_ffmpeg.py:180-189 | with the flag down there is no new frame and nothing changes; with it up and a frame stored, that frame is returned; the flag is lowered only by a clearing consumer |
| FrameMailbox.Run | src/lerobot/cameras/ffmpeg/camera_ffmpeg.py:138-189 | every event of a run has exactly one outcome |
| FrameMailbox.RunAt | src/lerobot/cameras/ffmpeg/camera_ffmpeg.py:138-189 | each event is judged against the slot the events before it left |
| FrameMailbox.LatestIsLastPut | src/lerobot/cameras/ffmpeg/camera_ffmpeg.py:143-145 | the slot always holds the most recently published frame, if any |
| FrameMailbox.AfterConsistent | src/lerobot/cameras/ffmpeg/camera_ffmpeg.py:143-189 | the flag is never up without a frame, whatever the events |
| FrameMailbox.GotIsLatest | src/lerobot/cameras/ffmpeg/camera_ffmpeg.py:187-194 | a consumer that gets a frame gets the most recently published one |
| FrameMailbox.NeverMissing | src/lerobot/cameras/ffmpeg/camera_ffmpeg.py:191-192 | the "event set but no frame" internal error never happens |
| FrameMailbox.NoPutKeepsFlagDown | src/lerobot/cameras/ffmpeg/camera_ffmpeg.py:180-185 | without a publication, a lowered flag stays down |
| FrameMailbox.TakeThenNothingNew | src/lerobot/cameras/ffmpeg/camera_ffmpeg.py:180-189 | after a clearing consumer gets a frame, every later call finds no new frame until the reader publishes again |
| FrameMailbox.AfterConcat | src/lerobot/cameras/ffmpeg/camera_ffmpeg.py:138-189 | running two event sequences in turn is running their concatenation |
| FrameMailbox.GotsBoundedByPuts | src/lerobot/cameras/ffmpeg/camera_ffmpeg.py:143-189 | a clearing consumer gets at most one frame per publication, plus one pending |
| FrameMailbox.FlagStaysUp | src/lerobot/cameras/orbbec/camera_orbbec.py:309-330 | with a consumer that never clears, once anything was published the flag stays up |
| FrameMailbox.PeekAfterPublish | src/lerobot/cameras/orbbec/camera_orbbec.py:300-330 | with a consumer that never clears, every call after a publication returns the latest frame at once |
| FrameMailbox.LastPutExists | src/lerobot/cameras/ffmpeg/camera_ffmpeg.py:143-145 | a sequence with a publication has a last one |
| CameraFfmpeg.DecodeFrame | src/lerobot/cameras/ffmpeg/camera_ffmpeg.py:119-131 | a read yields a frame exactly when all `frame_size` bytes arrive, reshaped to height × width × 3; a pipe error and a short read each raise |
| CameraFfmpeg.FullReadReshapes | src/lerobot/cameras/ffmpeg/camera_ffmpeg.py:98-131 | once `frame_size` is set from this width and height, a full read always reshapes |
| CameraFfmpeg.FFmpegCamera.constructor | src/lerobot/cameras/ffmpeg/camera_ffmpeg.py:45-61 | a new camera has no process, no thread, no stop event, frame size 0 and an empty mailbox |
| CameraFfmpeg.FFmpegCamera.ProcessExits | src/lerobot/cameras/ffmpeg/camera_ffmpeg.py:67-68 | a running process that exits is no longer connected |
| CameraFfmpeg.FFmpegCamera.ThreadEnds | src/lerobot/cameras/ffmpeg/camera_ffmpeg.py:138-150 | a reader thread that ends is no longer alive |
| CameraFfmpeg.FFmpegCamera.Connect | src/lerobot/cameras/ffmpeg/camera_ffmpeg.py:70-111 | refused when connected; a failed spawn raises and changes nothing; otherwise the process runs, and `frame_size` is width × height × 3 for `rgb24` while any other format raises after the spawn |
| CameraFfmpeg.FFmpegCamera.Read | src/lerobot/cameras/ffmpeg/camera_ffmpeg.py:113-136 | refused when not connected; with the frame size set, a frame comes back exactly when a full frame is read, and it has the camera's height, width and 3 channels |
| CameraFfmpeg.FFmpegCamera.ReadLoop | src/lerobot/cameras/ffmpeg/camera_ffmpeg.py:138-150 | the loop leaves the mailbox as publishing every complete frame would, and changes nothing when stopped or not connected |
| CameraFfmpeg.FFmpegCamera.StartReadThread | src/lerobot/cameras/ffmpeg/camera_ffmpeg.py:152-161 | afterwards a fresh stop event is clear and a reader is running |
| CameraFfmpeg.FFmpegCamera.StopReadThread | src/lerobot/cameras/ffmpeg/camera_ffmpeg.py:163-171 | afterwards there is no thread and no stop event |
| CameraFfmpeg.FFmpegCamera.AsyncRead | src/lerobot/cameras/ffmpeg/camera_ffmpeg.py:173-194 | refused when not connected; otherwise a reader is made sure to run; with no new frame it times out reporting whether the reader is still alive after the wait, otherwise it returns the latest frame and lowers the flag |
| CameraFfmpeg.FFmpegCamera.Disconnect | src/lerobot/cameras/ffmpeg/camera_ffmpeg.py:196-211 | refused when there is neither a live process nor a thread; otherwise it ends with no process, no thread and no stop event |
| CameraFfmpeg.Published | src/lerobot/cameras/ffmpeg/camera_ffmpeg.py:138-150 | a reader run publishes only frames, at most one per pipe read |
| CameraOrbbec.CaptureSize | src/lerobot/cameras/orbbec/camera_orbbec.py:93-96 | a capture size exists exactly when width and height are both non-zero; it is the configured size swapped exactly for a quarter turn (or when the sides are equal) |
| CameraOrbbec.FindProfile | src/lerobot/cameras/orbbec/camera_orbbec.py:183-191 | the index found is the first profile matching width, height and fps exactly; none is found only when no profile matches |
| CameraOrbbec.DecodeColor | src/lerobot/cameras/orbbec/camera_orbbec.py:252-266 | a colour frame decodes exactly when its data has height × width × 2 bytes for YUYV and × 3 otherwise, into a height × width × 3 image; YUYV is converted, other formats are taken as RGB |
| CameraOrbbec.Rotate | src/lerobot/cameras/orbbec/camera_orbbec.py:274-275 | a quarter turn exchanges rows and columns, any other rotation keeps them; channels are kept |
| CameraOrbbec.ConvertFrame | src/lerobot/cameras/orbbec/camera_orbbec.py:240-277 | a missing frame set and a missing colour frame each raise their own error; otherwise the frame converts exactly when it decodes, always to 3 channels |
| CameraOrbbec.ReadShapeIsCaptureSize | src/lerobot/cameras/orbbec/camera_orbbec.py:93-96 | a frame delivered at the configured size comes out of `read` with the capture size `__init__` computed |
| CameraOrbbec.OrbbecCamera.constructor | src/lerobot/cameras/orbbec/camera_orbbec.py:71-96 | a new camera keeps its configuration, has no pipeline, context, configuration, thread or stop event, an empty mailbox, and the capture size above |
| CameraOrbbec.OrbbecCamera.Connect | src/lerobot/cameras/orbbec/camera_orbbec.py:141-225 | refused when connected and when the SDK is missing; succeeds exactly when a device exists at the index, colour profiles exist, the pipeline starts and any warm-up succeeds; the stream is the exact match when one exists and otherwise the first profile, whose size and fps are adopted; every other failure leaves no pipeline |
| CameraOrbbec.OrbbecCamera.Read | src/lerobot/cameras/orbbec/camera_orbbec.py:227-281 | refused when not connected; otherwise exactly the frame conversion with the temporary colour mode when given and the configured one otherwise |
| CameraOrbbec.OrbbecCamera.ReadDepth | src/lerobot/cameras/orbbec/camera_orbbec.py:283-298 | depth is never returned, whether or not depth is enabled |
| CameraOrbbec.OrbbecCamera.StartAsyncThread | src/lerobot/cameras/orbbec/camera_orbbec.py:313-321 | a running reader is kept with its stop event; otherwise a fresh clear stop event and a new reader |
| CameraOrbbec.OrbbecCamera.ThreadEnds | src/lerobot/cameras/orbbec/camera_orbbec.py:306 | a reader thread that ends is no longer alive |
| CameraOrbbec.OrbbecCamera.AsyncRead | src/lerobot/cameras/orbbec/camera_orbbec.py:300-311 | without a connection check, a reader is made sure to run and the latest image is returned while the flag stays raised and the mailbox unchanged |
| CameraOrbbec.OrbbecCamera.AsyncLoop | src/lerobot/cameras/orbbec/camera_orbbec.py:323-333 | until the stop event is set every frame set is read, failures included, and the mailbox is as publishing each decoded image would leave it; a disconnected camera publishes nothing |
| CameraOrbbec.OrbbecCamera.Disconnect | src/lerobot/cameras/orbbec/camera_orbbec.py:335-357 | does nothing when not connected; otherwise sets the stop event, drops the reader, pipeline, context and configuration |
| CameraOrbbec.PublishedImages | src/lerobot/cameras/orbbec/camera_orbbec.py:323-333 | a reader run only publishes, and a disconnected camera publishes nothing |
| MotorSetup.YesConfirms | src/lerobot/robots/so101_follower/so101_follower.py:272 | "yes" in any letter case with any white space around it (Unicode spaces included) confirms |
| MotorSetup.ConfirmedIsPaddedYes | src/lerobot/robots/so101_follower/so101_follower.py:272 | conversely, an answer that confirms is "yes" in some letter case with only white space around it |
| MotorSetup.Fallback | src/lerobot/robots/so101_follower/so101_follower.py:228-237 | the fallback pings no more rates than are available |
| MotorSetup.FallbackInOrder | src/lerobot/robots/so101_follower/so101_follower.py:230-235 | the rates the fallback pings are a leading part of the other available rates, in their order, with the current one skipped |
| MotorSetup.FallbackStopsAtAnswer | src/lerobot/robots/so101_follower/so101_follower.py:236-237 | every rate the fallback pings before its last went unanswered |
| MotorSetup.FallbackFindsAnswer | src/lerobot/robots/so101_follower/so101_follower.py:228-237 | the fallback ends on an answer exactly when some rate other than the current one answers |
| MotorSetup.Others | src/lerobot/robots/so101_follower/so101_follower.py:230-232 | the rates other than the current one are exactly the available rates without it |
| MotorSetup.ScanOrder | src/lerobot/robots/so101_follower/so101_follower.py:222-226 | a scan always pings the current rate first |
| MotorSetup.FallbackFoundIsLast | src/lerobot/robots/so101_follower/so101_follower.py:228-237 | what the fallback finds is the answer at the last rate it pinged |
| MotorSetup.ScanResultIsLastPinged | src/lerobot/robots/so101_follower/so101_follower.py:221-240 | what a scan finds is the answer at the last rate it pinged, if that rate answered |
| MotorSetup.ScanFindsIff | src/lerobot/robots/so101_follower/so101_follower.py:221-240 | a scan finds motors exactly when the current rate or another available rate answers, and the current rate's answer wins |
| MotorSetup.ConfirmSetupRules | src/lerobot/robots/so101_follower/so101_follower.py:242-279 | none or several motors raise; one motor is set up when it has id 1, skipped when it already has its target id (other than 1), and otherwise set up exactly when the operator answers yes, else cancelled |
| MotorSetup.FactoryIdWinsOverTarget | src/lerobot/robots/so101_follower/so101_follower.py:258-265 | a lone motor with id 1 is set up even when its target id is 1: rule b comes before rule c |
| MotorSetup.RunOkIff | src/lerobot/robots/so101_follower/so101_follower.py:188-201 | setup succeeds exactly when every visited motor's check succeeds |
| MotorSetup.RunFailsAtFirstError | src/lerobot/robots/so101_follower/so101_follower.py:188-201 | a failed setup raises the first failing visit's error, every earlier visit having succeeded |
| MotorSetup.RunExpected | src/lerobot/robots/so101_follower/so101_follower.py:181-201 | a successful setup leaves `expected_ids` as its visits' ids after the initial 1 |
| MotorSetup.RunCallsAccepted | src/lerobot/robots/so101_follower/so101_follower.py:193-197 | a motor is set up only when its check said to set it up |
| MotorSetup.RunStep | src/lerobot/robots/so101_follower/so101_follower.py:188-201 | one more visit adds its scan's pings; an error ends the run with that error, otherwise the motor's id is appended and the motor set up when the check said so |
| MotorSetup.RunStopsAtError | src/lerobot/robots/so101_follower/so101_follower.py:188-201 | after the first error nothing further happens |
| MotorSetup.ExpectedAfterLists | src/lerobot/robots/so101_follower/so101_follower.py:181-201 | `expected_ids` after k visits is 1 followed by the ids of the motors visited, last declared first |
| MotorSetup.So101ExpectedIds | src/lerobot/robots/so101_follower/so101_follower.py:181-201 | with the SO-101 motors a full setup leaves `expected_ids` as 1, 6, 5, 4, 3, 2, 1 |
| MotorSetup.Ids | src/lerobot/robots/so101_follower/so101_follower.py:436 | the ids a ping found, in the order it reports them |
| MotorSetup.Unexpected | src/lerobot/robots/so101_follower/so101_follower.py:436 | exactly the found ids that are not expected, never more than were found |
| MotorSetup.RaiseOr | src/lerobot/robots/so101_follower/so101_follower.py:358-363 | an error is raised exactly when `raise_on_error`, and otherwise the check reports a retry |
| MotorSetup.FeetechBus.constructor | src/lerobot/robots/so101_follower/so101_follower.py:47-60 | a new bus is disconnected, at its rate, with nothing pinged or written |
| MotorSetup.FeetechBus.Scan | src/lerobot/robots/so101_follower/so101_follower.py:221-240 | the bus is connected, its rate restored afterwards, the pings are the scan order and the result is the scan result |
| MotorSetup.FeetechBus.CheckAndConfirm | src/lerobot/robots/so101_follower/so101_follower.py:203-279 | the scan followed by the confirmation rules |
| MotorSetup.FeetechBus.Visit | src/lerobot/robots/so101_follower/so101_follower.py:188-201 | one visit decides as the rules say for its motor and sets the motor up exactly when told to |
| MotorSetup.FeetechBus.SetupMotors | src/lerobot/robots/so101_follower/so101_follower.py:180-201 | the loop's outcome, `expected_ids`, setup calls and pings are those of the setup run over the motors' decisions |
| So101Follower.TargetOr | src/lerobot/robots/so101_follower/so101_follower.py:369-370 | the target id is the one given, else the first expected id, else 1 |
| So101Follower.UnexpectedVerdict | src/lerobot/robots/so101_follower/so101_follower.py:354-478 | errors are raised only with `raise_on_error`; no motors found asks for a retry; an id change is requested only in the setup loop, for one motor with another id than the target, after a yes; the normal check passes when no found id is unexpected |
| So101Follower.LoneTargetPasses | src/lerobot/robots/so101_follower/so101_follower.py:365-433 | in the setup loop or with a target, a lone motor that already has the target id passes |
| So101Follower.NotOneMotorFails | src/lerobot/robots/so101_follower/so101_follower.py:356-407 | in the setup loop or with a target, any count but one raises or asks for a retry, as `raise_on_error` says |
| So101Follower.NormalCheckPasses | src/lerobot/robots/so101_follower/so101_follower.py:435-476 | the normal check passes exactly when every motor found is expected, or a single unexpected motor was confirmed with yes |
| So101Follower.FirstModel | src/lerobot/robots/so101_follower/so101_follower.py:292-299 | the model is the first in the table with this number, and none exactly when no entry has it |
| So101Follower.SO101Follower.constructor | src/lerobot/robots/so101_follower/so101_follower.py:45-62 | a new follower has a disconnected bus at its rate with nothing written, its cameras and its configuration |
| So101Follower.SO101Follower.CheckAndConfirmMotorSetup | src/lerobot/robots/so101_follower/so101_follower.py:203-279 | the bus scan followed by the confirmation rules |
| So101Follower.SO101Follower.SetupMotors | src/lerobot/robots/so101_follower/so101_follower.py:180-201 | the setup run over the six SO-101 motors, gripper first |
| So101Follower.SO101Follower.ForceModifyMotorId | src/lerobot/robots/so101_follower/so101_follower.py:281-313 | raises exactly when no model has the number, writing nothing; otherwise one id write for the first model with that number |
| So101Follower.SO101Follower.CheckUnexpectedMotors | src/lerobot/robots/so101_follower/so101_follower.py:315-478 | the scan followed by the verdict; an agreed id change in the setup loop writes the new id, raising instead when the model is unknown |
| So101Follower.SO101Follower.SendAction | src/lerobot/robots/so101_follower/so101_follower.py:500-527 | refused when not connected; otherwise the `.pos` goals are written and returned with the suffix restored, the safe goals instead when `max_relative_target` is set |
| So101Leader.ActionFeatures | src/lerobot/teleoperators/so101_leader/so101_leader.py:58-60 | the action features are exactly the motor names with `.pos` |
| So101Leader.LeaderVerdict | src/lerobot/teleoperators/so101_leader/so101_leader.py:261-279 | no motors asks for a retry; an error is raised only with `raise_on_error` and names the unexpected ids; otherwise a pass or a retry |
| So101Leader.LeaderPassesIff | src/lerobot/teleoperators/so101_leader/so101_leader.py:261-277 | the leader's check passes exactly when every motor found is expected |
| So101Leader.LeaderAgreesWithFollower | src/lerobot/teleoperators/so101_leader/so101_leader.py:230-279 | except for a single unexpected motor, the leader's check decides as the follower's normal check |
| So101Leader.ActionKeysAreFeatures | src/lerobot/teleoperators/so101_leader/so101_leader.py:281-287 | positions read for the six motors give exactly the action feature keys |
| So101Leader.SO101Leader.constructor | src/lerobot/teleoperators/so101_leader/so101_leader.py:41-57 | a new leader has a disconnected bus at its rate with nothing written |
| So101Leader.SO101Leader.Connect | src/lerobot/teleoperators/so101_leader/so101_leader.py:70-84 | refused exactly when already connected; afterwards the bus is connected |
| So101Leader.SO101Leader.CheckAndConfirmMotorSetup | src/lerobot/teleoperators/so101_leader/so101_leader.py:152-228 | the bus scan followed by the confirmation rules |
| So101Leader.SO101Leader.SetupMotors | src/lerobot/teleoperators/so101_leader/so101_leader.py:134-150 | the setup run over the six SO-101 motors, gripper first |
| So101Leader.SO101Leader.CheckUnexpectedMotors | src/lerobot/teleoperators/so101_leader/so101_leader.py:230-279 | the scan followed by the leader's verdict |
| So101Leader.SO101Leader.GetAction | src/lerobot/teleoperators/so101_leader/so101_leader.py:281-287 | each present position comes back under its motor's `.pos` key, and no other key |
| So101Leader.SO101Leader.SendFeedback | src/lerobot/teleoperators/so101_leader/so101_leader.py:289-291 | feedback is always refused |
| So101Leader.SO101Leader.Disconnect | src/lerobot/teleoperators/so101_leader/so101_leader.py:293-298 | the bus ends disconnected |
| RobotFactory.TypeName | src/lerobot/robots/utils.py:37-72 | every robot kind has a type name the factory accepts |
| RobotFactory.UnknownRobotMessage | src/lerobot/robots/utils.py:74-79 | the error message starts by naming the unknown type |
| RobotFactory.MakeRobot | src/lerobot/robots/utils.py:25-79 | a robot is built exactly when the type is one of the accepted names, and it is the kind that name selects; otherwise the error carries the type |
| RobotFactory.MakeRobotFromTypeName | src/lerobot/robots/utils.py:37-72 | every robot kind is built from its own type name |
| RobotFactory.ListedTypesAccepted | src/lerobot/robots/utils.py:74-79 | the types the error message lists are exactly the accepted ones |
| TeleopFactory.EventValue | src/lerobot/teleoperators/utils.py:26-33 | every event has a non-empty value |
| TeleopFactory.EventOf | src/lerobot/teleoperators/utils.py:26-33 | the event looked up by a value has that value, and none is found only when no event has it |
| TeleopFactory.EventValueRoundTrip | src/lerobot/teleoperators/utils.py:26-33 | every event is found again from its value |
| TeleopFactory.EventValueInjective | src/lerobot/teleoperators/utils.py:26-33 | distinct events have distinct values |
| TeleopFactory.TypeName | src/lerobot/teleoperators/utils.py:48-91 | every teleoperator kind has a type name the factory accepts |
| TeleopFactory.UnknownTeleopMessage | src/lerobot/teleoperators/utils.py:94-99 | the error message starts by naming the unknown type |
| TeleopFactory.MakeTeleoperator | src/lerobot/teleoperators/utils.py:36-99 | a teleoperator is built exactly when the type is one of the accepted names, and it is the kind that name selects; otherwise the error carries the type |
| TeleopFactory.MakeTeleoperatorFromTypeName | src/lerobot/teleoperators/utils.py:48-91 | every teleoperator kind is built from its own type name |
| TeleopFactory.ListedTypesAccepted | src/lerobot/teleoperators/utils.py:94-99 | the types the error message lists are exactly the accepted ones |

## Left out

- Sockets, subprocess pipes, the Realman and Orbbec SDKs and the Feetech bus protocol. Their results are inputs: success flags, status codes, byte strings, frame sets, ping replies.
- Threads, `Event.wait` timeouts, `time.sleep` and thread joins. The mailbox is modelled as a sequence of publish and consume steps. Thread liveness and timeouts are inputs.
- Floating point. Joint angles and positions are reals. Rounding to float32 and int64 overflow are not modelled. Timestamps are exact reals.
- Log and exception message text, except the factories' error-message prefix and list of types.
- `ensure_safe_goal_position` is not part of this model. The safe goals `send_action` writes when `max_relative_target` is set are an input.
- `MODEL_NUMBER_TABLE` from the Feetech tables is not part of this model. It is a parameter of the follower.
- The Feetech bus internals are not modelled: `setup_motor`, `_disable_torque`, `_write` and `sync_read`. They are recorded as calls or taken as inputs. `calibrate`, `configure` and the calibration prompts are left out.
- MotorSetup.FeetechBus.SetupMotors: does not state that the bus ends connected when no motor is visited. Its ensures covers the outcome, `expected_ids`, setup calls and pings.
- So101Leader.SO101Leader.Disconnect: does not model a bus that raises on disconnect. The leader's own guard never raises, and the model states only that the bus ends disconnected.
- The unexpected ids in the follower's and the leader's errors are kept in the order found. The messages print them sorted.
- `vec_stats_from_series` and the float statistics in `align_episodes_to_record100time.py` are left out. Their per-episode statistics tables are inputs to the model.
- Text-to-number parsing inside `astype`, `int()` and `pd.to_numeric` is not modelled. Text cells count as non-numeric, and list cells are opaque lists of strings.
- Joining the aligned table on its key columns compares cells with `Cell` equality, not pandas dtype-aware equality.
- JSON decoding of a gripper reply line is a `decode` function parameter. The dataset's `info.json` is modelled as already decoded: a map from field names to integers, so fields whose values are not integers are not represented. A missing total is its own `KeyMissing` error.
- AlignEpisodes.Align: requires that the reference column names are distinct. The source does not check this, and a reference file with a repeated column name is not modelled.
- GripperNoneFix.RepairFile: a null `action` or `observation.state` cell is not represented. A row is a list of optional values, and the empty list stands for a cell the loop cannot index. The two columns of one table are taken to have the same number of rows.
- Text.LowerChar: lowers only ASCII capitals. Python also maps the Kelvin sign to `k` and the dotted capital I to `i` and a combining dot; neither matters for the only comparison made, with "yes".
- Output file paths, directory creation and the loops over several files (`rglob`) are left out. Each model handles one table.
- EpgGripper.EPGGripperClient.Drain: on a closed peer `recv` returns an empty chunk forever and the source loops. The model drains only the chunks that were delivered.
- EpgGripper.EPGGripperClient.GetPosition: parses the reply before it sends the read request. Parsing touches no state, so the result is the same.
- The warm-up reads in the FFmpeg camera's `connect` are left out. So are the `find_cameras` static methods of both cameras, which enumerate hardware.
- The remaining scripts are left out: the interactive, recording, inspection and video-timestamp scripts, `patch_video_utils_tolerance.py` and `test_inference_timing.py`. Configuration dataclasses appear only as record types.

## Findings

| source | as written | input that shows it | evidently intended | confidence | as-written member | corrected member |
|---|---|---|---|---|---|---|
| src/lerobot/robots/bi_rm65_follower/epg_gripper.py:87-155 | `connect` calls `_initialize` before setting `_is_connected`, so `_send_command` refuses and all five initialisation commands are dropped | a fresh client whose socket opens and whose sends succeed | the five initialisation commands are sent once the socket is open | not executed | EpgGripper.ConnectSendsNothing | EpgGripper.ConnectInitializedSendsInit |

/**
 * The repair of recorded actions whose gripper value is missing: in each row of a data
 * file, a missing last element of `action` (the gripper) is replaced by the last element
 * of `observation.state`, and the number of rows repaired is counted.
 */
module GripperNoneFix {
  import opened Wrappers
  import opened Backups

  /** A row of a list-valued column; `None` is a missing value. */
  type Row = seq<Option<real>>

  /** Whether a row's last element, the gripper, is missing. */
  predicate LastMissing(r: Row)
    requires |r| > 0
  {
    r[|r| - 1].None?
  }

  /** The row condition the repair needs: an action to index, and a state to read when the gripper is missing. */
  predicate Repairable(action: Row, state: Row) {
    |action| > 0 && (LastMissing(action) ==> |state| > 0)
  }

  /** Every row of the file can be repaired. */
  predicate AllRepairable(actions: seq<Row>, states: seq<Row>) {
    |actions| == |states| && forall i :: 0 <= i < |actions| ==> Repairable(actions[i], states[i])
  }

  /** The action row after the repair of one row. */
  function FillGripper(action: Row, state: Row): (r: Row)
    requires Repairable(action, state)
    ensures |r| == |action| && r[..|r| - 1] == action[..|action| - 1]
    ensures LastMissing(action) ==> r[|r| - 1] == state[|state| - 1]
    ensures !LastMissing(action) ==> r == action
  {
    if LastMissing(action) then action[|action| - 1 := state[|state| - 1]] else action
  }

  /** After the repair a gripper is missing only when both the action's and the state's were. */
  lemma StillMissingOnlyIfBoth(action: Row, state: Row)
    requires Repairable(action, state)
    ensures LastMissing(FillGripper(action, state))
      <==> LastMissing(action) && state[|state| - 1].None?
  {
  }

  /** Repairing a repaired row changes nothing more. */
  lemma FillGripperIdempotent(action: Row, state: Row)
    requires Repairable(action, state)
    ensures Repairable(FillGripper(action, state), state)
    ensures FillGripper(FillGripper(action, state), state) == FillGripper(action, state)
  {
  }

  /** The action column after the repair of every row. */
  function Filled(actions: seq<Row>, states: seq<Row>): (r: seq<Row>)
    requires AllRepairable(actions, states)
    ensures |r| == |actions|
    ensures forall i :: 0 <= i < |r| ==> r[i] == FillGripper(actions[i], states[i])
  {
    seq(|actions|, i requires 0 <= i < |actions| && AllRepairable(actions, states) => FillGripper(actions[i], states[i]))
  }

  /** The number of rows whose gripper is missing. */
  function MissingCount(actions: seq<Row>): (n: nat)
    requires forall i :: 0 <= i < |actions| ==> |actions[i]| > 0
    ensures n <= |actions|
  {
    if actions == [] then 0
    else MissingCount(actions[..|actions| - 1]) + (if LastMissing(actions[|actions| - 1]) then 1 else 0)
  }

  /** No row is left to repair exactly when the count is zero. */
  lemma {:induction false} MissingCountZero(actions: seq<Row>)
    requires forall i :: 0 <= i < |actions| ==> |actions[i]| > 0
    ensures MissingCount(actions) == 0 <==> forall i :: 0 <= i < |actions| ==> !LastMissing(actions[i])
  {
    if actions != [] {
      var init := actions[..|actions| - 1];
      MissingCountZero(init);
      assert forall i :: 0 <= i < |init| ==> init[i] == actions[i];
    }
  }

  /**
   * The loop over the rows: fill each missing gripper in place from the state, and
   * count the rows filled. A row it cannot index raises, leaving the rows before it
   * filled and the rest as they were; the error carries that row.
   */
  method FillMissingGrippers(actions: array<Row>, states: seq<Row>) returns (r: Result<nat, nat>)
    requires actions.Length == |states|
    modifies actions
    ensures r.Ok? <==> AllRepairable(old(actions[..]), states)
    ensures r.Ok? ==> forall i :: 0 <= i < |states| ==> actions[i] == FillGripper(old(actions[i]), states[i])
    ensures r.Ok? ==> r.value == MissingCount(old(actions[..]))
    ensures r.Err? ==>
      && r.error < actions.Length && !Repairable(old(actions[r.error]), states[r.error])
      && (forall j :: 0 <= j < r.error ==> Repairable(old(actions[j]), states[j]))
      && (forall j :: 0 <= j < r.error ==> actions[j] == FillGripper(old(actions[j]), states[j]))
      && (forall j :: r.error <= j < actions.Length ==> actions[j] == old(actions[j]))
  {
    var fixedCount := 0;
    for i := 0 to actions.Length
      invariant forall j :: 0 <= j < i ==> Repairable(old(actions[j]), states[j])
      invariant forall j :: 0 <= j < i ==> actions[j] == FillGripper(old(actions[j]), states[j])
      invariant forall j :: i <= j < actions.Length ==> actions[j] == old(actions[j])
      invariant fixedCount == MissingCount(old(actions[..])[..i])
    {
      if !Repairable(actions[i], states[i]) {
        return Err(i);
      }
      assert old(actions[..])[..i + 1][..i] == old(actions[..])[..i];
      if LastMissing(actions[i]) {
        actions[i] := actions[i][|actions[i]| - 1 := states[i][|states[i]| - 1]];
        fixedCount := fixedCount + 1;
      }
    }
    assert old(actions[..])[..actions.Length] == old(actions[..]);
    r := Ok(fixedCount);
  }

  /** The two columns of a data file the repair reads; the others pass through untouched. */
  datatype GripperTable = GripperTable(actions: seq<Row>, states: seq<Row>)

  /** The rebuilt `action` column is a list of exactly seven values per row. */
  const ActionWidth := 7

  /**
   * Why a file is not repaired: a row the loop cannot index (an empty action, or an
   * empty state where the gripper is missing), which raises before anything is
   * written, or a rebuilt action that is not seven values wide.
   */
  datatype RepairError = UnrepairableRow(row: nat) | WrongActionWidth(row: nat)

  /** The first row the loop over the rows cannot repair, if any. */
  function FirstUnrepairable(actions: seq<Row>, states: seq<Row>): (r: Option<nat>)
    requires |actions| == |states|
    ensures r.None? <==> AllRepairable(actions, states)
    ensures r.Some? ==> r.value < |actions| && !Repairable(actions[r.value], states[r.value])
    ensures r.Some? ==> forall j :: 0 <= j < r.value ==> Repairable(actions[j], states[j])
  {
    if actions == [] then None
    else if !Repairable(actions[0], states[0]) then Some(0)
    else match FirstUnrepairable(actions[1..], states[1..])
      case None => None
      case Some(i) => Some(i + 1)
  }

  /** The backup beside a data file: `file.parquet` gets `file.parquet.backup`. */
  function BackupPath(path: string): (b: string)
    ensures b != path && |b| > |path| && b[..|path|] == path
  {
    path + ".backup"
  }

  /** The first row whose action does not have seven values, if any. */
  function FirstWrongWidth(actions: seq<Row>): (r: Option<nat>)
    ensures r.None? <==> forall i :: 0 <= i < |actions| ==> |actions[i]| == ActionWidth
    ensures r.Some? ==> r.value < |actions| && |actions[r.value]| != ActionWidth
  {
    if actions == [] then None
    else if |actions[0]| != ActionWidth then Some(0)
    else match FirstWrongWidth(actions[1..])
      case None => None
      case Some(i) => Some(i + 1)
  }

  /**
   * One data file: fill the missing grippers, back the file up unless a backup
   * exists, and write the repaired actions back. A row the loop cannot index stops
   * the repair before the backup, with the files as they were. The backup is taken
   * before the action column is rebuilt, so a row of the wrong width leaves the
   * backup made and the file as it was. The two columns of one table have the same
   * number of rows.
   */
  method RepairFile(store: FileStore<GripperTable>, path: string) returns (r: Result<nat, RepairError>)
    requires path in store.files
    requires |store.files[path].actions| == |store.files[path].states|
    modifies store
    ensures var t := old(store.files)[path];
      var backedUp := if BackupPath(path) in old(store.files) then old(store.files)
                      else old(store.files)[BackupPath(path) := t];
      && (!AllRepairable(t.actions, t.states) <==> r.Err? && r.error.UnrepairableRow?)
      && (r.Err? && r.error.UnrepairableRow? ==>
            && FirstUnrepairable(t.actions, t.states) == Some(r.error.row)
            && store.files == old(store.files))
      && (AllRepairable(t.actions, t.states) ==>
            && (r.Ok? ==> r.value == MissingCount(t.actions))
            && (r.Ok? <==> forall i :: 0 <= i < |t.actions| ==> |t.actions[i]| == ActionWidth)
            && (r.Err? ==> r.error.WrongActionWidth? && r.error.row < |t.actions|
                           && |t.actions[r.error.row]| != ActionWidth && store.files == backedUp)
            && (r.Ok? ==> store.files == backedUp[path := GripperTable(Filled(t.actions, t.states), t.states)]))
  {
    var t := store.files[path];
    var actions := new Row[|t.actions|](i requires 0 <= i < |t.actions| => t.actions[i]);
    assert actions[..] == t.actions;
    var filled := FillMissingGrippers(actions, t.states);
    if filled.Err? {
      return Err(UnrepairableRow(filled.error));
    }
    var fixedCount := filled.value;
    assert actions[..] == Filled(t.actions, t.states);
    store.BackupIfAbsent(path, BackupPath(path));
    var wrong := FirstWrongWidth(actions[..]);
    if wrong.Some? {
      return Err(WrongActionWidth(wrong.value));
    }
    store.Write(path, GripperTable(actions[..], t.states));
    r := Ok(fixedCount);
  }
}

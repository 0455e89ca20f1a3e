/**
 * The SO-101 follower arm: six Feetech motors on one bus, and cameras. Modelled here are
 * its motor-setup procedure, its check for unexpected motors on the bus with the id
 * rewrite that check may perform, and `send_action`.
 */
module So101Follower {
  import opened Wrappers
  import opened Text
  import opened Keys
  import opened MotorSetup
  import opened Cameras

  /** The id a check aims at: `target_motor_id`, else the first expected id, else 1. */
  function TargetOr(target: Option<int>, expected: seq<int>): (t: int)
    ensures target.Some? ==> t == target.value
    ensures target.None? && expected != [] ==> t == expected[0]
    ensures target.None? && expected == [] ==> t == 1
  {
    if target.Some? then target.value else if expected != [] then expected[0] else 1
  }

  /**
   * `_check_unexpected_motors_on_bus` once the scan is done. In the setup loop, and when
   * a target is given, exactly one motor must answer and carry the target id, or the
   * operator must agree to change it (in the setup loop the id is then rewritten).
   * Otherwise every motor found must have an expected id, a single stray motor being
   * accepted on the operator's word. A failure raises when `raiseOnError`, and asks for a
   * retry otherwise.
   */
  function UnexpectedVerdict(found: Option<Found>, expected: seq<int>, raiseOnError: bool,
                             target: Option<int>, inSetupLoop: bool, answer: string): (r: Result<Verdict, SetupError>)
    ensures r.Err? ==> raiseOnError
    ensures found.None? ==> r == Ok(Retry(NoMotorsFound))
    ensures r.Ok? && r.value.ForceModify? ==>
      inSetupLoop && found.Some? && |found.value| == 1 && IsYes(answer)
      && r.value.currentId == found.value[0].0 && r.value.modelNumber == found.value[0].1
      && r.value.targetId == TargetOr(target, expected) && r.value.currentId != r.value.targetId
    ensures found.Some? && !inSetupLoop && target.None? && Unexpected(Ids(found.value), expected) == [] ==>
      r == Ok(Pass)
  {
    if found.None? then Ok(Retry(NoMotorsFound))
    else
      var motors := found.value;
      if inSetupLoop || target.Some? then
        if |motors| != 1 then RaiseOr(raiseOnError, WrongMotorCount(|motors|), WrongCount(|motors|))
        else
          var id := motors[0].0;
          var t := TargetOr(target, expected);
          if id == t then Ok(Pass)
          else if IsYes(answer) then (if inSetupLoop then Ok(ForceModify(id, motors[0].1, t)) else Ok(Pass))
          else RaiseOr(raiseOnError, Cancelled(id, t), UnplugMotor)
      else
        var stray := Unexpected(Ids(motors), expected);
        if stray == [] then Ok(Pass)
        else if |motors| == 1 && |stray| == 1 then
          if IsYes(answer) then Ok(Pass)
          else RaiseOr(raiseOnError, Cancelled(stray[0], TargetOr(None, expected)), UnplugMotor)
        else RaiseOr(raiseOnError, UnexpectedMotors(stray), UnplugLast)
  }

  /**
   * In the setup loop or with a target, a lone motor that already has the target id
   * passes, whatever the operator types and whether or not errors raise.
   */
  lemma LoneTargetPasses(model: int, expected: seq<int>, raiseOnError: bool, target: Option<int>,
                         inSetupLoop: bool, answer: string)
    requires inSetupLoop || target.Some?
    ensures UnexpectedVerdict(Some([(TargetOr(target, expected), model)]), expected, raiseOnError,
                              target, inSetupLoop, answer) == Ok(Pass)
  {
  }

  /**
   * In the setup loop or with a target, any number of motors other than one fails: a
   * raise of `WrongMotorCount`, or a retry.
   */
  lemma NotOneMotorFails(motors: Found, expected: seq<int>, raiseOnError: bool, target: Option<int>,
                         inSetupLoop: bool, answer: string)
    requires inSetupLoop || target.Some?
    requires |motors| != 1
    ensures var r := UnexpectedVerdict(Some(motors), expected, raiseOnError, target, inSetupLoop, answer);
      r == (if raiseOnError then Err(WrongMotorCount(|motors|)) else Ok(Retry(WrongCount(|motors|))))
  {
  }

  /**
   * The normal check passes exactly when every motor found has an expected id, or a
   * single motor with another id is on the bus and the operator agrees.
   */
  lemma NormalCheckPasses(motors: Found, expected: seq<int>, raiseOnError: bool, answer: string)
    ensures UnexpectedVerdict(Some(motors), expected, raiseOnError, None, false, answer) == Ok(Pass)
      <==> (forall i :: 0 <= i < |motors| ==> motors[i].0 in expected)
           || (|motors| == 1 && motors[0].0 !in expected && IsYes(answer))
  {
    var ids := Ids(motors);
    var stray := Unexpected(ids, expected);
    if forall i :: 0 <= i < |motors| ==> motors[i].0 in expected {
      if stray != [] {
        assert stray[0] in ids;
      }
    } else {
      var i :| 0 <= i < |motors| && motors[i].0 !in expected;
      assert ids[i] in stray;
      if |motors| == 1 {
        assert stray == [motors[0].0] by {
          assert ids == [motors[0].0];
        }
      }
    }
  }

  /** The model `_force_modify_motor_id` takes: the first in the table with this model number. */
  function FirstModel(table: seq<(string, int)>, number: int): (model: Option<string>)
    ensures model.None? <==> forall i :: 0 <= i < |table| ==> table[i].1 != number
    ensures model.Some? ==>
      exists i :: 0 <= i < |table| && table[i] == (model.value, number)
        && forall j :: 0 <= j < i ==> table[j].1 != number
  {
    if table == [] then None
    else if table[0].1 == number then Some(table[0].0)
    else
      var rest := FirstModel(table[1..], number);
      assert rest.Some? ==>
        exists i :: 1 <= i < |table| && table[i] == (rest.value, number) && forall j :: 0 <= j < i ==> table[j].1 != number
      by {
        if rest.Some? {
          var i :| 0 <= i < |table[1..]| && table[1..][i] == (rest.value, number)
            && forall j :: 0 <= j < i ==> table[1..][j].1 != number;
          assert table[i + 1] == (rest.value, number);
          forall j | 0 <= j < i + 1 ensures table[j].1 != number {
            if j > 0 {
              assert table[j] == table[1..][j - 1];
            }
          }
        }
      }
      assert rest.None? ==> forall i :: 0 <= i < |table| ==> table[i].1 != number by {
        if rest.None? {
          forall i | 0 <= i < |table| ensures table[i].1 != number {
            if i > 0 {
              assert table[i] == table[1..][i - 1];
            }
          }
        }
      }
      rest
  }

  class SO101Follower {
    const bus: FeetechBus
    const cameras: CameraRig
    /** `config.max_relative_target` */
    const maxRelativeTarget: Option<real>
    /** The Feetech `MODEL_NUMBER_TABLE`: (model name, model number) pairs in table order. */
    const modelTable: seq<(string, int)>

    ghost predicate Valid()
      reads this, bus, cameras
    {
      bus.Valid() && cameras.Valid() && bus.motorNames == So101MotorNames && bus.motorIds == So101MotorIds
    }

    /** `is_connected`: the bus and every camera are connected. */
    predicate IsConnected()
      reads this, bus, cameras
    {
      bus.connected && cameras.AllConnected()
    }

    constructor (availableBaudrates: seq<int>, baudrate: int, cameraNames: seq<string>, cameraShapes: seq<(int, int)>,
                 maxRelativeTarget: Option<real>, modelTable: seq<(string, int)>)
      requires |cameraShapes| == |cameraNames|
      ensures Valid() && !IsConnected() && fresh(bus) && fresh(cameras)
      ensures bus.availableBaudrates == availableBaudrates && bus.baudrate == baudrate
      ensures bus.pinged == [] && bus.setupCalls == [] && bus.idWrites == [] && bus.goalWrites == []
      ensures cameras.names == cameraNames
      ensures this.maxRelativeTarget == maxRelativeTarget && this.modelTable == modelTable
    {
      bus := new FeetechBus(So101MotorNames, So101MotorIds, availableBaudrates, baudrate);
      cameras := new CameraRig(cameraNames, cameraShapes);
      this.maxRelativeTarget := maxRelativeTarget;
      this.modelTable := modelTable;
    }

    /** `_check_and_confirm_motor_setup`: the bus scan and rules a to d. */
    method CheckAndConfirmMotorSetup(target: int, replies: map<int, Found>, answer: string) returns (r: Result<bool, SetupError>)
      requires Valid()
      modifies bus`connected, bus`baudrate, bus`pinged
      ensures Valid() && bus.connected && bus.baudrate == old(bus.baudrate)
      ensures bus.pinged == old(bus.pinged) + ScanOrder(old(bus.baudrate), bus.availableBaudrates, replies)
      ensures r == ConfirmSetup(ScanResult(old(bus.baudrate), bus.availableBaudrates, replies), target, answer)
    {
      r := bus.CheckAndConfirm(target, replies, answer);
    }

    /** `setup_motors`: the six motors, gripper first, each checked and set up by the rules. */
    method SetupMotors(steps: seq<SetupStep>) returns (r: Result<(), SetupError>, expected: seq<int>)
      requires Valid() && |steps| >= 6
      modifies bus`connected, bus`baudrate, bus`pinged, bus`setupCalls
      ensures Valid() && bus.baudrate == old(bus.baudrate)
      ensures var run := SetupRun(So101MotorNames, So101MotorIds,
                                  Decisions(old(bus.baudrate), bus.availableBaudrates, So101MotorIds, steps, 6),
                                  Scans(old(bus.baudrate), bus.availableBaudrates, steps, 6), 6);
        r == run.outcome && expected == run.expected
        && bus.setupCalls == old(bus.setupCalls) + run.calls && bus.pinged == old(bus.pinged) + run.pings
    {
      r, expected := bus.SetupMotors(steps);
    }

    /**
     * `_force_modify_motor_id`: look the model up by its number, raising when no model
     * has it, then disable the motor's torque and write its new id; the baud rate ends
     * where it was.
     */
    method ForceModifyMotorId(currentId: int, modelNumber: int, targetId: int) returns (r: Result<(), SetupError>)
      requires Valid()
      modifies bus`idWrites
      ensures Valid()
      ensures r.Err? <==> FirstModel(modelTable, modelNumber).None?
      ensures r.Err? ==> r.error == UnknownModel(modelNumber) && bus.idWrites == old(bus.idWrites)
      ensures r.Ok? ==>
        bus.idWrites == old(bus.idWrites) + [IdWrite(currentId, FirstModel(modelTable, modelNumber).value, targetId)]
    {
      var model: Option<string> := None;
      var i := 0;
      while i < |modelTable| && model.None?
        invariant 0 <= i <= |modelTable|
        invariant FirstModel(modelTable, modelNumber)
          == if model.Some? then model else FirstModel(modelTable[i..], modelNumber)
      {
        assert modelTable[i..][1..] == modelTable[i + 1..];
        if modelTable[i].1 == modelNumber {
          model := Some(modelTable[i].0);
        }
        i := i + 1;
      }
      if model.None? {
        assert modelTable[i..] == [];
        return Err(UnknownModel(modelNumber));
      }
      bus.idWrites := bus.idWrites + [IdWrite(currentId, model.value, targetId)];
      r := Ok(());
    }

    /**
     * `_check_unexpected_motors_on_bus`: scan the bus, decide, and when the operator
     * agreed to change a lone motor's id in the setup loop, rewrite it before passing.
     * `Pass` stands for `(True, "OK")`, `Retry` for `(False, msg)`.
     */
    method CheckUnexpectedMotors(expected: seq<int>, raiseOnError: bool, target: Option<int>, inSetupLoop: bool,
                                 replies: map<int, Found>, answer: string) returns (r: Result<Verdict, SetupError>)
      requires Valid()
      modifies bus`connected, bus`baudrate, bus`pinged, bus`idWrites
      ensures Valid() && bus.connected && bus.baudrate == old(bus.baudrate)
      ensures bus.pinged == old(bus.pinged) + ScanOrder(old(bus.baudrate), bus.availableBaudrates, replies)
      ensures var v := UnexpectedVerdict(ScanResult(old(bus.baudrate), bus.availableBaudrates, replies),
                                         expected, raiseOnError, target, inSetupLoop, answer);
        (!(v.Ok? && v.value.ForceModify?) ==> r == v && bus.idWrites == old(bus.idWrites))
        && (v.Ok? && v.value.ForceModify? ==>
              var model := FirstModel(modelTable, v.value.modelNumber);
              (model.None? ==> r == Err(UnknownModel(v.value.modelNumber)) && bus.idWrites == old(bus.idWrites))
              && (model.Some? ==>
                    r == Ok(Pass)
                    && bus.idWrites == old(bus.idWrites) + [IdWrite(v.value.currentId, model.value, v.value.targetId)]))
    {
      var found := bus.Scan(replies);
      var v := UnexpectedVerdict(found, expected, raiseOnError, target, inSetupLoop, answer);
      if v.Ok? && v.value.ForceModify? {
        var w := ForceModifyMotorId(v.value.currentId, v.value.modelNumber, v.value.targetId);
        if w.Err? {
          return Err(w.error);
        }
        return Ok(Pass);
      }
      return v;
    }

    /**
     * `send_action`: refuse when not connected; take the goals from the `.pos` entries
     * with the suffix removed (or, with `max_relative_target` set, the goals
     * `ensure_safe_goal_position` gives, here the input `safeGoals`), write them, and
     * return them with the suffix put back.
     */
    method SendAction(action: map<string, real>, safeGoals: map<string, real>) returns (r: Result<map<string, real>, SetupError>)
      requires Valid()
      modifies bus`goalWrites
      ensures !old(IsConnected()) ==> r == Err(NotConnected) && bus.goalWrites == old(bus.goalWrites)
      ensures old(IsConnected()) && maxRelativeTarget.None? ==>
        r == Ok(WithSuffix(action, ".pos")) && bus.goalWrites == old(bus.goalWrites) + [StripSuffix(action, ".pos")]
      ensures old(IsConnected()) && maxRelativeTarget.Some? ==>
        r == Ok(AddSuffix(safeGoals, ".pos")) && bus.goalWrites == old(bus.goalWrites) + [safeGoals]
    {
      if !IsConnected() {
        return Err(NotConnected);
      }
      var goal := StripSuffix(action, ".pos");
      if maxRelativeTarget.Some? {
        goal := safeGoals;
      } else {
        StripThenAddSuffix(action, ".pos");
      }
      bus.goalWrites := bus.goalWrites + [goal];
      r := Ok(AddSuffix(goal, ".pos"));
    }
  }
}

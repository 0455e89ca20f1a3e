/**
 * The SO-101 leader arm: the same six Feetech motors as the follower, moved by hand.
 * Modelled here are its connection, motor setup, its check for unexpected motors and
 * `get_action`, whose keys are the ones the follower's `send_action` takes.
 */
module So101Leader {
  import opened Wrappers
  import opened Text
  import opened Keys
  import opened MotorSetup
  import Follower = So101Follower

  /** `action_features`: `{motor}.pos` for each motor of the bus. */
  function ActionFeatures(names: seq<string>): (features: set<string>)
    ensures forall i :: 0 <= i < |names| ==> names[i] + ".pos" in features
    ensures forall k :: k in features ==> exists i :: 0 <= i < |names| && k == names[i] + ".pos"
  {
    set i | 0 <= i < |names| :: names[i] + ".pos"
  }

  /**
   * `_check_unexpected_motors_on_bus` of the leader once the scan is done: pass when
   * every motor found has an expected id; otherwise raise, or ask to unplug the last
   * motor; ask to connect the arm when no rate got an answer.
   */
  function LeaderVerdict(found: Option<Found>, expected: seq<int>, raiseOnError: bool): (r: Result<Verdict, SetupError>)
    ensures found.None? ==> r == Ok(Retry(NoMotorsFound))
    ensures r.Err? ==> raiseOnError && found.Some? && r.error == UnexpectedMotors(Unexpected(Ids(found.value), expected))
    ensures r.Ok? ==> r.value == Pass || r.value.Retry?
  {
    if found.None? then Ok(Retry(NoMotorsFound))
    else
      var stray := Unexpected(Ids(found.value), expected);
      if stray == [] then Ok(Pass)
      else RaiseOr(raiseOnError, UnexpectedMotors(stray), UnplugLast)
  }

  /** The leader's check passes exactly when every motor found has an expected id. */
  lemma LeaderPassesIff(motors: Found, expected: seq<int>, raiseOnError: bool)
    ensures LeaderVerdict(Some(motors), expected, raiseOnError) == Ok(Pass)
      <==> forall i :: 0 <= i < |motors| ==> motors[i].0 in expected
  {
    var ids := Ids(motors);
    var stray := Unexpected(ids, expected);
    if forall i :: 0 <= i < |motors| ==> motors[i].0 in expected {
      if stray != [] {
        assert stray[0] in ids;
      }
    } else {
      var i :| 0 <= i < |motors| && motors[i].0 !in expected;
      assert ids[i] in stray;
    }
  }

  /**
   * The leader's check and the follower's normal check (no target, outside the setup
   * loop) agree, except when a single motor with an unexpected id is on the bus: the
   * follower then asks the operator, the leader does not.
   */
  lemma LeaderAgreesWithFollower(motors: Found, expected: seq<int>, raiseOnError: bool, answer: string)
    requires !(|motors| == 1 && motors[0].0 !in expected)
    ensures LeaderVerdict(Some(motors), expected, raiseOnError)
      == Follower.UnexpectedVerdict(Some(motors), expected, raiseOnError, None, false, answer)
  {
    if |motors| == 1 {
      assert Ids(motors) == [motors[0].0];
    }
  }

  /** `NotImplementedError`: the leader has no force feedback. */
  datatype FeedbackError = FeedbackNotImplemented

  class SO101Leader {
    const bus: FeetechBus

    ghost predicate Valid()
      reads this, bus
    {
      bus.Valid() && bus.motorNames == So101MotorNames && bus.motorIds == So101MotorIds
    }

    /** `is_connected`: the bus is connected. */
    predicate IsConnected()
      reads this, bus
    {
      bus.connected
    }

    constructor (availableBaudrates: seq<int>, baudrate: int)
      ensures Valid() && !IsConnected() && fresh(bus)
      ensures bus.availableBaudrates == availableBaudrates && bus.baudrate == baudrate
      ensures bus.pinged == [] && bus.setupCalls == [] && bus.idWrites == [] && bus.goalWrites == []
    {
      bus := new FeetechBus(So101MotorNames, So101MotorIds, availableBaudrates, baudrate);
    }

    /** `connect`: refuse when already connected, otherwise connect the bus. */
    method Connect() returns (r: Result<(), SetupError>)
      requires Valid()
      modifies bus`connected
      ensures Valid() && IsConnected()
      ensures r.Err? <==> old(IsConnected())
      ensures r.Err? ==> r.error == AlreadyConnected
    {
      if IsConnected() {
        return Err(AlreadyConnected);
      }
      bus.connected := true;
      r := Ok(());
    }

    /** `_check_and_confirm_motor_setup`: the bus scan and rules a to d. */
    method CheckAndConfirmMotorSetup(target: int, replies: map<int, Found>, answer: string) returns (r: Result<bool, SetupError>)
      requires Valid()
      modifies bus`connected, bus`baudrate, bus`pinged
      ensures Valid() && bus.connected && bus.baudrate == old(bus.baudrate)
      ensures bus.pinged == old(bus.pinged) + ScanOrder(old(bus.baudrate), bus.availableBaudrates, replies)
      ensures r == ConfirmSetup(ScanResult(old(bus.baudrate), bus.availableBaudrates, replies), target, answer)
    {
      r := bus.CheckAndConfirm(target, replies, answer);
    }

    /** `setup_motors`: the six motors, gripper first, each checked and set up by the rules. */
    method SetupMotors(steps: seq<SetupStep>) returns (r: Result<(), SetupError>, expected: seq<int>)
      requires Valid() && |steps| >= 6
      modifies bus`connected, bus`baudrate, bus`pinged, bus`setupCalls
      ensures Valid() && bus.baudrate == old(bus.baudrate)
      ensures var run := SetupRun(So101MotorNames, So101MotorIds,
                                  Decisions(old(bus.baudrate), bus.availableBaudrates, So101MotorIds, steps, 6),
                                  Scans(old(bus.baudrate), bus.availableBaudrates, steps, 6), 6);
        r == run.outcome && expected == run.expected
        && bus.setupCalls == old(bus.setupCalls) + run.calls && bus.pinged == old(bus.pinged) + run.pings
    {
      r, expected := bus.SetupMotors(steps);
    }

    /** `_check_unexpected_motors_on_bus`: scan the bus, then decide by `LeaderVerdict`. */
    method CheckUnexpectedMotors(expected: seq<int>, raiseOnError: bool, replies: map<int, Found>)
      returns (r: Result<Verdict, SetupError>)
      requires Valid()
      modifies bus`connected, bus`baudrate, bus`pinged
      ensures Valid() && bus.connected && bus.baudrate == old(bus.baudrate)
      ensures bus.pinged == old(bus.pinged) + ScanOrder(old(bus.baudrate), bus.availableBaudrates, replies)
      ensures r == LeaderVerdict(ScanResult(old(bus.baudrate), bus.availableBaudrates, replies), expected, raiseOnError)
    {
      var found := bus.Scan(replies);
      r := LeaderVerdict(found, expected, raiseOnError);
    }

    /**
     * `get_action`: the present positions the bus reads, one per motor, under the keys
     * `{motor}.pos`. The positions are the input `positions`.
     */
    method GetAction(positions: map<string, real>) returns (action: map<string, real>)
      requires Valid()
      ensures forall m :: m in positions ==> m + ".pos" in action && action[m + ".pos"] == positions[m]
      ensures forall k :: k in action ==> EndsWith(k, ".pos") && k[..|k| - 4] in positions
    {
      action := AddSuffix(positions, ".pos");
    }

    /** `send_feedback`: always refused, whatever the feedback. */
    method SendFeedback(feedback: map<string, real>) returns (r: Result<(), FeedbackError>)
      requires Valid()
      ensures r.Err?
    {
      r := Err(FeedbackNotImplemented);
    }

    /**
     * `disconnect`: the bus is disconnected. The leader's own guard builds a
     * `DeviceNotConnectedError` without raising it, so the call goes on to the bus
     * whether or not it was connected.
     */
    method Disconnect()
      requires Valid()
      modifies bus`connected
      ensures Valid() && !IsConnected()
    {
      bus.connected := false;
    }
  }

  /** Read positions for exactly the six motors give exactly the `action_features` keys. */
  lemma ActionKeysAreFeatures(positions: map<string, real>)
    requires positions.Keys == (set i | 0 <= i < 6 :: So101MotorNames[i])
    ensures AddSuffix(positions, ".pos").Keys == ActionFeatures(So101MotorNames)
  {
    var action := AddSuffix(positions, ".pos");
    forall k | k in action ensures k in ActionFeatures(So101MotorNames) {
      var i :| 0 <= i < 6 && So101MotorNames[i] == k[..|k| - 4];
      assert k == So101MotorNames[i] + ".pos" by {
        Unsuffix(k, ".pos");
      }
    }
  }
}

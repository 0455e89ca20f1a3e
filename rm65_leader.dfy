/**
 * One RealMan RM65 arm used as a leader: the operator moves it by hand in the SDK's
 * drag-teach mode, and its six joint angles are read as the action.
 *
 * The SDK is replaced by what it returns: the value `rm_create_robot_arm` gives, the
 * return code of `rm_start_drag_teach`, and the response of `rm_get_joint_degree`.
 */
module Rm65Leader {
  import opened Wrappers
  import Follower = Rm65Follower

  /**
   * The response of `rm_get_joint_degree`: a dict, which may hold the angle list under
   * `"joint"`, or anything else.
   */
  datatype JointStatus = StatusDict(joint: Option<seq<real>>) | StatusOther

  datatype LeaderError =
    | NotConnected             // DeviceNotConnectedError
    | AlreadyConnected         // DeviceAlreadyConnectedError
    | ConnectFailed(handle: int) // ConnectionError: the SDK gave a non-zero handle
    | DragStartFailed(code: int) // RuntimeError: drag-teach mode did not start
    | TooFewAngles(count: nat)   // IndexError: fewer than six angles in the response

  /** The fallback action: every joint at 0.0. */
  function ZeroAction(): (a: map<string, real>)
    ensures a.Keys == Follower.MotorFeatures().Keys
    ensures forall k :: k in a ==> a[k] == 0.0
  {
    map k | k in Follower.MotorKeys :: 0.0
  }

  /** Joint `i` takes the `i`-th angle; angles past the sixth are not read. */
  function AnglesAction(angles: seq<real>): (a: map<string, real>)
    requires |angles| >= 6
    ensures a.Keys == Follower.MotorFeatures().Keys
    ensures forall i :: 0 <= i < 6 ==> a[Follower.MotorKeys[i]] == angles[i]
  {
    assert forall i, j :: 0 <= i < 6 && 0 <= j < 6 && Follower.MotorKeys[i] == Follower.MotorKeys[j] ==> i == j by {
      forall i, j | 0 <= i < 6 && 0 <= j < 6 ensures Follower.MotorKeys[i] == Follower.MotorKeys[j] ==> i == j {
        Follower.MotorKeysDistinct(i, j);
      }
    }
    map i | 0 <= i < 6 :: Follower.MotorKeys[i] := angles[i]
  }

  /**
   * The action `get_action` builds from a joint response once connected: zeros for a
   * response that is not a dict or has no `"joint"`; otherwise the first six angles, a
   * list of another length only warning, and a list shorter than six raising.
   */
  function ActionOf(status: JointStatus): (r: Result<map<string, real>, LeaderError>)
    ensures r.Ok? ==> r.value.Keys == Follower.MotorFeatures().Keys
    ensures r.Err? <==> status.StatusDict? && status.joint.Some? && |status.joint.value| < 6
    ensures r.Err? ==> r.error == TooFewAngles(|status.joint.value|)
    ensures (status.StatusOther? || status.joint.None?) ==>
      r.Ok? && forall k :: k in r.value ==> r.value[k] == 0.0
    ensures status.StatusDict? && status.joint.Some? && |status.joint.value| >= 6 ==>
      r.Ok? && forall i :: 0 <= i < 6 ==> r.value[Follower.MotorKeys[i]] == status.joint.value[i]
  {
    match status
    case StatusDict(Some(angles)) =>
      if |angles| < 6 then Err(TooFewAngles(|angles|)) else Ok(AnglesAction(angles))
    case _ => Ok(ZeroAction())
  }

  /** The outcome of `get_action` on a leader that is `connected` or not. */
  function LeaderAction(connected: bool, status: JointStatus): (r: Result<map<string, real>, LeaderError>)
    ensures !connected <==> r == Err(NotConnected)
    ensures connected ==> r == ActionOf(status)
  {
    if !connected then Err(NotConnected) else ActionOf(status)
  }

  class RM65Leader {
    const ip: string
    const port: int
    const dragSensitivity: int
    /** `self.handle`: the value the SDK gave at connect, when one is held. */
    var handle: Option<int>
    /** `self.arm is not None` */
    var armPresent: bool
    /** Whether the arm has accepted the request to start drag-teach mode since connect. */
    var teaching: bool

    ghost predicate Valid()
      reads this
    {
      handle.Some? == armPresent && (teaching ==> armPresent)
    }

    /** `is_connected`: both a handle and an arm are held. */
    predicate IsConnected()
      reads this
    {
      handle.Some? && armPresent
    }

    constructor (ip: string, port: int := 8080, dragSensitivity: int := 5)
      ensures Valid() && !IsConnected() && !teaching
      ensures this.ip == ip && this.port == port && this.dragSensitivity == dragSensitivity
    {
      this.ip := ip;
      this.port := port;
      this.dragSensitivity := dragSensitivity;
      handle := None;
      armPresent := false;
      teaching := false;
    }

    /**
     * `configure`: refuse when not connected; ask for the drag sensitivity (a failure
     * only warns, so its return code plays no part); start drag-teach mode, raising when
     * the arm answers `startRet != 0`.
     */
    method Configure(startRet: int) returns (r: Result<(), LeaderError>)
      requires Valid()
      modifies this`teaching
      ensures Valid()
      ensures !IsConnected() ==> r == Err(NotConnected) && teaching == old(teaching)
      ensures IsConnected() && startRet != 0 ==> r == Err(DragStartFailed(startRet)) && teaching == old(teaching)
      ensures IsConnected() && startRet == 0 ==> r == Ok(()) && teaching
    {
      if !IsConnected() {
        return Err(NotConnected);
      }
      if startRet != 0 {
        return Err(DragStartFailed(startRet));
      }
      teaching := true;
      return Ok(());
    }

    /**
     * `connect`: refuse when connected; create the arm and keep the handle the SDK gives;
     * raise unless that handle is 0; then configure drag-teach mode. The arm and the
     * handle are kept on every path past the first check, so a failed connect leaves the
     * leader reporting itself connected.
     */
    method Connect(handleValue: int, startRet: int) returns (r: Result<(), LeaderError>)
      requires Valid()
      modifies this
      ensures Valid()
      ensures old(IsConnected()) ==> r == Err(AlreadyConnected) && unchanged(this)
      ensures !old(IsConnected()) ==> handle == Some(handleValue) && IsConnected()
      ensures !old(IsConnected()) ==> (r.Ok? <==> handleValue == 0 && startRet == 0)
      ensures !old(IsConnected()) ==> (teaching <==> r.Ok?)
      ensures !old(IsConnected()) && handleValue != 0 ==> r == Err(ConnectFailed(handleValue))
      ensures !old(IsConnected()) && handleValue == 0 && startRet != 0 ==> r == Err(DragStartFailed(startRet))
    {
      if IsConnected() {
        return Err(AlreadyConnected);
      }
      armPresent := true;
      handle := Some(handleValue);
      if handleValue != 0 {
        return Err(ConnectFailed(handleValue));
      }
      r := Configure(startRet);
    }

    /** `get_action`: refuse when not connected, otherwise the action of the joint response. */
    method GetAction(status: JointStatus) returns (r: Result<map<string, real>, LeaderError>)
      requires Valid()
      ensures r == LeaderAction(IsConnected(), status)
      ensures r.Ok? ==> r.value.Keys == Follower.MotorFeatures().Keys
    {
      if !IsConnected() {
        return Err(NotConnected);
      }
      var action := ActionOf(status);
      return action;
    }

    /**
     * `disconnect`: refuse when not connected; stop drag-teach mode (a failure only
     * warns); release the arm and the handle.
     */
    method Disconnect() returns (r: Result<(), LeaderError>)
      requires Valid()
      modifies this
      ensures Valid()
      ensures !old(IsConnected()) ==> r == Err(NotConnected) && unchanged(this)
      ensures old(IsConnected()) ==> r == Ok(()) && handle == None && !armPresent && !teaching
    {
      if !IsConnected() {
        return Err(NotConnected);
      }
      teaching := false;
      handle := None;
      armPresent := false;
      return Ok(());
    }
  }

  /** Every action the leader reads holds each joint goal an RM65 follower's `send_action` looks up. */
  lemma LeaderActionDrivesFollower(status: JointStatus)
    ensures ActionOf(status).Ok? ==> Follower.FirstMissing(ActionOf(status).value, 0).None?
  {
    Follower.ActionKeysAreFeatures(if ActionOf(status).Ok? then ActionOf(status).value else map[]);
  }
}

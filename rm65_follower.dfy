/**
 * One RealMan RM65 arm driven over the network through the vendor SDK: six joints read
 * and commanded in degrees, plus the cameras of its configuration.
 *
 * The SDK is replaced by what it returns: the handle id `rm_create_robot_arm` gives,
 * the status and state `rm_get_current_arm_state` gives, and the return code of
 * `rm_movej`. Every joint goal sent to the arm is recorded in `commanded`.
 */
module Rm65Follower {
  import opened Wrappers
  import opened Text
  import opened Cameras

  /** `[f"joint_{i}" for i in range(1, 7)]` */
  const JointNames: seq<string> := ["joint_1", "joint_2", "joint_3", "joint_4", "joint_5", "joint_6"]

  /** The feature key of a joint: `f"{joint}.pos"`. */
  function PosKey(joint: string): string {
    joint + ".pos"
  }

  /** The feature keys of the six joints, in joint order. */
  const MotorKeys: seq<string> := ["joint_1.pos", "joint_2.pos", "joint_3.pos", "joint_4.pos", "joint_5.pos", "joint_6.pos"]

  /** Joint `i` is `f"joint_{i + 1}"` and its feature key is `f"joint_{i + 1}.pos"`. */
  lemma JointNamesSpelled(i: int)
    requires 0 <= i < 6
    ensures JointNames[i] == "joint_" + NatToString(i + 1)
    ensures MotorKeys[i] == PosKey(JointNames[i])
  {
  }

  /** The six joints have six different feature keys. */
  lemma MotorKeysDistinct(i: int, j: int)
    requires 0 <= i < 6 && 0 <= j < 6
    ensures MotorKeys[i] == MotorKeys[j] <==> i == j
  {
    assert MotorKeys[i][6] == "123456"[i];
    assert MotorKeys[j][6] == "123456"[j];
  }

  /** The type a feature describes: a float, or an image of (height, width, 3). */
  datatype Feature = FloatFeature | ImageFeature(height: int, width: int, channels: int)

  /** `_motors_ft`, which is also `action_features`: one float per joint key. */
  function MotorFeatures(): (ft: map<string, Feature>)
    ensures forall k :: k in ft <==> k in MotorKeys
    ensures forall k :: k in ft ==> ft[k] == FloatFeature
  {
    map k | k in MotorKeys :: FloatFeature
  }

  /** There are six motor features, one per joint. */
  lemma MotorFeatureCount()
    ensures |MotorFeatures().Keys| == 6
  {
    assert MotorFeatures().Keys == {MotorKeys[0], MotorKeys[1], MotorKeys[2], MotorKeys[3], MotorKeys[4], MotorKeys[5]};
  }

  /** `observation_features`: the motor features, then one image feature per camera. */
  function ObservationFeatures(names: seq<string>, shapes: seq<(int, int)>): (ft: map<string, Feature>)
    requires |shapes| == |names|
    ensures ft.Keys == MotorFeatures().Keys + set i | 0 <= i < |names| :: names[i]
    ensures forall k :: k in MotorFeatures() && k !in names ==> ft[k] == FloatFeature
  {
    MotorFeatures() + CameraFeatures(names, shapes)
  }

  /** `_cameras_ft`: `(height, width, 3)` for each camera, a later name overriding an earlier one. */
  function CameraFeatures(names: seq<string>, shapes: seq<(int, int)>): (ft: map<string, Feature>)
    requires |shapes| == |names|
    ensures ft.Keys == set i | 0 <= i < |names| :: names[i]
    ensures forall k :: k in ft ==> ft[k].ImageFeature? && ft[k].channels == 3
    decreases |names|
  {
    if names == [] then map[]
    else
      var n := |names| - 1;
      var ft := CameraFeatures(names[..n], shapes[..n])[names[n] := ImageFeature(shapes[n].0, shapes[n].1, 3)];
      assert (set i | 0 <= i < |names| :: names[i]) == (set i | 0 <= i < n :: names[..n][i]) + {names[n]} by {
        forall i | 0 <= i < n ensures names[i] in (set i | 0 <= i < n :: names[..n][i]) {
          assert names[..n][i] == names[i];
        }
      }
      ft
  }

  /**
   * The joint state `rm_get_current_arm_state` gives: a dict, which may hold the angle
   * list under `"joint"` and single angles under `"joint_1"` ... `"joint_6"`; a list or
   * tuple of angles; or anything else.
   */
  datatype ArmState =
    | StateDict(joint: Option<seq<real>>, named: map<string, real>)
    | StateList(items: seq<real>)
    | StateOther

  datatype FollowerError =
    | NotConnected               // DeviceNotConnectedError
    | AlreadyConnected           // DeviceAlreadyConnectedError
    | StateReadFailed(code: int) // RuntimeError: non-zero status from the state read
    | NoGet                      // AttributeError: the state has no `.get`
    | MissingKey(key: string)    // KeyError from the action lookup
    | CameraFailed(name: string) // a camera's connect or async_read raised

  /** The angle list taken from the arm state. */
  function AnglesOf(state: ArmState): (r: Result<seq<real>, FollowerError>)
    ensures state.StateDict? && state.joint.Some? ==> r == Ok(state.joint.value)
    ensures state.StateList? ==> r == Ok(state.items)
    ensures state.StateDict? && state.joint.None? ==>
      r.Ok? && |r.value| == 6
      && forall i :: 0 <= i < 6 ==>
        r.value[i] == if JointNames[i] in state.named then state.named[JointNames[i]] else 0.0
    ensures state.StateOther? <==> r.Err?
  {
    match state
    case StateDict(Some(angles), _) => Ok(angles)
    case StateDict(None, named) =>
      Ok(seq(6, i requires 0 <= i < 6 => if JointNames[i] in named then named[JointNames[i]] else 0.0))
    case StateList(items) => Ok(items)
    case StateOther => Err(NoGet)
  }

  function Min(a: int, b: int): int {
    if a < b then a else b
  }

  /** `{f"{joint}.pos": float(angle) for joint, angle in zip(joint_names, angles)}` */
  function JointObservation(angles: seq<real>): (obs: map<string, Reading>)
    ensures forall i :: 0 <= i < Min(6, |angles|) ==>
      MotorKeys[i] in obs && obs[MotorKeys[i]] == Position(angles[i])
    ensures forall k :: k in obs <==> exists i :: 0 <= i < Min(6, |angles|) && k == MotorKeys[i]
  {
    assert forall i, j :: 0 <= i < 6 && 0 <= j < 6 && MotorKeys[i] == MotorKeys[j] ==> i == j by {
      forall i, j | 0 <= i < 6 && 0 <= j < 6 ensures MotorKeys[i] == MotorKeys[j] ==> i == j {
        MotorKeysDistinct(i, j);
      }
    }
    map i | 0 <= i < Min(6, |angles|) :: MotorKeys[i] := Position(angles[i])
  }

  /** What `get_observation` returns once connected and the state read succeeded. */
  function Observe(state: ArmState, names: seq<string>, shots: map<string, Picture>): Result<map<string, Reading>, FollowerError>
  {
    match AnglesOf(state)
    case Err(e) => Err(e)
    case Ok(angles) =>
      match AddImages(JointObservation(angles), names, shots)
      case Ok(obs) => Ok(obs)
      case Err(name) => Err(CameraFailed(name))
  }

  /** The outcome of `get_observation` on an arm that is `connected` or not. */
  function ArmObservation(connected: bool, status: int, state: ArmState, names: seq<string>, shots: map<string, Picture>)
    : Result<map<string, Reading>, FollowerError>
  {
    if !connected then Err(NotConnected)
    else if status != 0 then Err(StateReadFailed(status))
    else Observe(state, names, shots)
  }

  /**
   * With at least six angles and an image from every camera, an observation has exactly
   * the keys `observation_features` declares, with positions where it declares floats.
   */
  lemma ObservationMatchesFeatures(state: ArmState, names: seq<string>, shapes: seq<(int, int)>, shots: map<string, Picture>)
    requires |shapes| == |names|
    requires !state.StateOther? && |AnglesOf(state).value| >= 6
    requires forall i :: 0 <= i < |names| ==> names[i] in shots
    ensures Observe(state, names, shots).Ok?
    ensures Observe(state, names, shots).value.Keys == ObservationFeatures(names, shapes).Keys
    ensures forall k :: k in ObservationFeatures(names, shapes) ==>
      (ObservationFeatures(names, shapes)[k] == FloatFeature <==> Observe(state, names, shots).value[k].Position?)
  {
    var angles := AnglesOf(state).value;
    var joints := JointObservation(angles);
    assert joints.Keys == MotorFeatures().Keys;
    var obs := AddImages(joints, names, shots).value;
    var ft := ObservationFeatures(names, shapes);
    forall k | k in ft ensures ft[k] == FloatFeature <==> obs[k].Position? {
      if k in names {
        var i :| 0 <= i < |names| && names[i] == k;
        assert k in CameraFeatures(names, shapes);
      }
    }
  }

  /** `[action[f"{joint}.pos"] for joint in joint_names]`: the first missing key, if any. */
  function FirstMissing(action: map<string, real>, i: nat): (r: Option<string>)
    requires i <= 6
    ensures r.None? <==> forall j :: i <= j < 6 ==> MotorKeys[j] in action
    ensures r.Some? ==> exists j :: i <= j < 6 && r.value == MotorKeys[j] && r.value !in action
    decreases 6 - i
  {
    if i == 6 then None
    else if MotorKeys[i] !in action then Some(MotorKeys[i])
    else FirstMissing(action, i + 1)
  }

  /** The six goal angles of an action that has all of them, in joint order. */
  function Goal(action: map<string, real>): (goal: seq<real>)
    requires forall j :: 0 <= j < 6 ==> MotorKeys[j] in action
    ensures |goal| == 6 && forall j :: 0 <= j < 6 ==> goal[j] == action[MotorKeys[j]]
  {
    seq(6, j requires 0 <= j < 6 => action[MotorKeys[j]])
  }

  class RM65Follower {
    const ip: string
    const port: int
    const moveSpeed: int
    const cameras: CameraRig
    /** The id of the SDK handle, when one is held (`self.handle`). */
    var handle: Option<int>
    /** Every joint goal passed to `rm_movej`, oldest first. */
    var commanded: seq<seq<real>>

    ghost predicate Valid()
      reads this, cameras
    {
      cameras.Valid()
    }

    /** `is_connected`: a handle is held and every camera is connected. */
    predicate IsConnected()
      reads this, cameras
    {
      handle.Some? && cameras.AllConnected()
    }

    constructor (ip: string, port: int := 8080, moveSpeed: int := 50,
                 cameraNames: seq<string> := [], cameraShapes: seq<(int, int)> := [])
      requires |cameraShapes| == |cameraNames|
      ensures Valid() && !IsConnected() && fresh(cameras)
      ensures this.ip == ip && this.port == port && this.moveSpeed == moveSpeed
      ensures cameras.names == cameraNames && handle == None && commanded == []
    {
      this.ip := ip;
      this.port := port;
      this.moveSpeed := moveSpeed;
      handle := None;
      commanded := [];
      cameras := new CameraRig(cameraNames, cameraShapes);
    }

    /** `action_features` */
    function ActionFeatures(): (ft: map<string, Feature>)
      ensures ft == MotorFeatures()
    {
      MotorFeatures()
    }

    /**
     * `connect`: refuse when connected; take the handle the SDK gives (an id of -1 only
     * warns); connect the cameras in order. A camera that fails leaves the handle held.
     */
    method Connect(handleId: int, cameraOks: seq<bool>) returns (r: Result<(), FollowerError>)
      requires Valid()
      modifies this`handle, cameras`up
      ensures Valid() && commanded == old(commanded)
      ensures old(IsConnected()) ==>
        r == Err(AlreadyConnected) && handle == old(handle) && cameras.up == old(cameras.up)
      ensures !old(IsConnected()) ==> handle == Some(handleId)
      ensures !old(IsConnected()) ==>
        (r.Ok? <==> forall i :: 0 <= i < |cameras.names| ==> ConnectOk(cameraOks, i))
      ensures !old(IsConnected()) && r.Ok? ==> IsConnected()
      ensures !old(IsConnected()) && r.Err? ==>
        exists i :: 0 <= i < |cameras.names| && !ConnectOk(cameraOks, i) && r == Err(CameraFailed(cameras.names[i]))
    {
      if IsConnected() {
        return Err(AlreadyConnected);
      }
      handle := Some(handleId);
      var failedAt := cameras.ConnectAll(cameraOks);
      if failedAt.Some? {
        return Err(CameraFailed(cameras.names[failedAt.value]));
      }
      return Ok(());
    }

    /**
     * `get_observation`: refuse when not connected; fail on a non-zero status; then the
     * joint positions and each camera's image.
     */
    method GetObservation(status: int, state: ArmState, shots: map<string, Picture>)
      returns (r: Result<map<string, Reading>, FollowerError>)
      requires Valid()
      ensures !IsConnected() ==> r == Err(NotConnected)
      ensures IsConnected() && status != 0 ==> r == Err(StateReadFailed(status))
      ensures IsConnected() && status == 0 ==> r == Observe(state, cameras.names, shots)
      ensures r == ArmObservation(IsConnected(), status, state, cameras.names, shots)
    {
      if !IsConnected() {
        return Err(NotConnected);
      }
      if status != 0 {
        return Err(StateReadFailed(status));
      }
      var angles := AnglesOf(state);
      if angles.Err? {
        return Err(angles.error);
      }
      var images := cameras.ReadAll(JointObservation(angles.value), shots);
      if images.Err? {
        return Err(CameraFailed(images.error));
      }
      return Ok(images.value);
    }

    /**
     * `send_action`: refuse when not connected; look up the six goals (a missing one
     * raises before anything is sent); send them; give the action back unchanged. A
     * non-zero return code from the SDK only warns.
     */
    method SendAction(action: map<string, real>, ret: int) returns (r: Result<map<string, real>, FollowerError>)
      requires Valid()
      modifies this`commanded
      ensures !IsConnected() ==> r == Err(NotConnected) && commanded == old(commanded)
      ensures IsConnected() && FirstMissing(action, 0).Some? ==>
        r == Err(MissingKey(FirstMissing(action, 0).value)) && commanded == old(commanded)
      ensures IsConnected() && FirstMissing(action, 0).None? ==>
        r == Ok(action) && commanded == old(commanded) + [Goal(action)]
    {
      if !IsConnected() {
        return Err(NotConnected);
      }
      var missing := FirstMissing(action, 0);
      if missing.Some? {
        return Err(MissingKey(missing.value));
      }
      commanded := commanded + [Goal(action)];
      return Ok(action);
    }

    /**
     * `disconnect`: nothing when not connected (also when a handle is held but a camera
     * is down); otherwise release the handle and disconnect every camera.
     */
    method Disconnect()
      requires Valid()
      modifies this`handle, cameras`up
      ensures Valid() && commanded == old(commanded)
      ensures !old(IsConnected()) ==> handle == old(handle) && cameras.up == old(cameras.up)
      ensures old(IsConnected()) ==> handle == None && forall i :: 0 <= i < |cameras.up| ==> !cameras.up[i]
    {
      if !IsConnected() {
        return;
      }
      handle := None;
      // Every camera is connected here, so none of them raises, whatever its kind.
      var failedAt := cameras.DisconnectAll([]);
    }
  }

  /** `send_action` reads exactly the keys `action_features` declares. */
  lemma ActionKeysAreFeatures(action: map<string, real>)
    ensures FirstMissing(action, 0).None? <==> MotorFeatures().Keys <= action.Keys
  {
  }
}

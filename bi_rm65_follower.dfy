/**
 * Two RM65 arms run as one robot: every key of the left arm carries the prefix `left_`,
 * every key of the right arm `right_`; the cameras are shared and belong to the pair.
 */
module BiRm65Follower {
  import opened Wrappers
  import opened Text
  import opened Keys
  import opened Cameras
  import opened Rm65Follower

  const LeftPrefix: string := "left_"
  const RightPrefix: string := "right_"

  /** The configuration of one arm (`RM65FollowerConfig`). */
  datatype ArmConfig = ArmConfig(
    id: Option<string>, calibrationDir: Option<string>, ip: string, port: int, moveSpeed: int,
    enableGripper: bool, gripperDeviceId: int, gripperForce: int, gripperSpeed: int,
    cameraNames: seq<string>)

  /** The configuration of the pair (`BiRM65FollowerConfig`). */
  datatype BiConfig = BiConfig(
    id: Option<string>, calibrationDir: Option<string>, leftIp: string, rightIp: string,
    port: int, moveSpeed: int, enableRightGripper: bool, gripperDeviceId: int,
    gripperForce: int, gripperSpeed: int, cameraNames: seq<string>, cameraShapes: seq<(int, int)>)

  /** A configuration with the defaults of every optional field. */
  function DefaultBiConfig(leftIp: string, rightIp: string): BiConfig {
    BiConfig(None, None, leftIp, rightIp, 8080, 50, false, 9, 60, 255, [], [])
  }

  /**
   * The id of one arm: the pair's id with `_left` or `_right` appended, or none when the
   * pair's id is missing or empty (`f"{config.id}_left" if config.id else None`).
   */
  function SideId(id: Option<string>, left: bool): (r: Option<string>)
    ensures (id.None? || id == Some("")) <==> r.None?
    ensures r.Some? ==> r.value == id.value + (if left then "_left" else "_right")
  {
    if id.Some? && id.value != "" then Some(id.value + (if left then "_left" else "_right")) else None
  }

  /** The two arms get different ids whenever the pair has one. */
  lemma SideIdsDiffer(id: Option<string>)
    requires id.Some? && id.value != ""
    ensures SideId(id, true) != SideId(id, false)
  {
    var l := id.value + "_left";
    var r := id.value + "_right";
    assert l[|id.value| + 1] == 'l' && r[|id.value| + 1] == 'r';
  }

  /**
   * The configuration `__init__` builds for one arm: its id from the pair's, the side's
   * address, the shared port and speed, no cameras, and every gripper field at its default.
   */
  function ArmConfigOf(c: BiConfig, left: bool): (a: ArmConfig)
    ensures a.ip == (if left then c.leftIp else c.rightIp)
    ensures a.port == c.port && a.moveSpeed == c.moveSpeed && a.calibrationDir == c.calibrationDir
    ensures a.cameraNames == [] && a.id == SideId(c.id, left)
    ensures !a.enableGripper && a.gripperDeviceId == 9 && a.gripperForce == 60 && a.gripperSpeed == 255
  {
    ArmConfig(SideId(c.id, left), c.calibrationDir, if left then c.leftIp else c.rightIp, c.port, c.moveSpeed,
              false, 9, 60, 255, [])
  }

  /** The pair's gripper settings never reach an arm: the arm configurations do not depend on them. */
  lemma GripperSettingsIgnored(c: BiConfig, enable: bool, device: int, force: int, speed: int, left: bool)
    ensures ArmConfigOf(c.(enableRightGripper := enable, gripperDeviceId := device,
                           gripperForce := force, gripperSpeed := speed), left)
         == ArmConfigOf(c, left)
  {
  }

  /** A `left_` key is never a `right_` key. */
  lemma SidesDisjoint(a: string, b: string)
    ensures LeftPrefix + a != RightPrefix + b
  {
    assert (LeftPrefix + a)[0] == 'l' && (RightPrefix + b)[0] == 'r';
  }

  /** The joint keys of one side, `f"{prefix}{motor}.pos"` for each joint in order. */
  function SideKeys(prefix: string): (keys: seq<string>)
    ensures |keys| == 6 && forall i :: 0 <= i < 6 ==> keys[i] == prefix + MotorKeys[i]
  {
    seq(6, i requires 0 <= i < 6 => prefix + MotorKeys[i])
  }

  /** `_motors_ft` of the pair, which is also its `action_features`: the left joints, then the right ones. */
  function BiMotorFeatures(): (ft: map<string, Feature>)
    ensures forall k :: k in ft <==> k in SideKeys(LeftPrefix) || k in SideKeys(RightPrefix)
    ensures forall k :: k in ft ==> ft[k] == FloatFeature
  {
    map k | k in SideKeys(LeftPrefix) + SideKeys(RightPrefix) :: FloatFeature
  }

  /** `observation_features` of the pair: both arms' joints, then the shared cameras. */
  function BiObservationFeatures(names: seq<string>, shapes: seq<(int, int)>): (ft: map<string, Feature>)
    requires |shapes| == |names|
    ensures ft.Keys == BiMotorFeatures().Keys + set i | 0 <= i < |names| :: names[i]
  {
    BiMotorFeatures() + CameraFeatures(names, shapes)
  }

  /**
   * What `get_observation` of the pair returns from the outcomes of the two arms: the
   * first arm error, or both arms' readings under their prefixes plus the cameras' images.
   */
  function BiObserve(leftObs: Result<map<string, Reading>, FollowerError>,
                     rightObs: Result<map<string, Reading>, FollowerError>,
                     names: seq<string>, shots: map<string, Picture>): Result<map<string, Reading>, FollowerError>
  {
    if leftObs.Err? then Err(leftObs.error)
    else if rightObs.Err? then Err(rightObs.error)
    else
      match AddImages(AddPrefix(leftObs.value, LeftPrefix) + AddPrefix(rightObs.value, RightPrefix), names, shots)
      case Ok(obs) => Ok(obs)
      case Err(name) => Err(CameraFailed(name))
  }

  /**
   * When each arm observes exactly its six joints and every camera gives an image, an
   * observation of the pair has exactly the keys its `observation_features` declares.
   */
  lemma BiObservationMatchesFeatures(l: map<string, Reading>, r: map<string, Reading>,
                                     names: seq<string>, shapes: seq<(int, int)>, shots: map<string, Picture>)
    requires |shapes| == |names|
    requires l.Keys == MotorFeatures().Keys && r.Keys == MotorFeatures().Keys
    requires forall i :: 0 <= i < |names| ==> names[i] in shots
    ensures BiObserve(Ok(l), Ok(r), names, shots).Ok?
    ensures BiObserve(Ok(l), Ok(r), names, shots).value.Keys == BiObservationFeatures(names, shapes).Keys
  {
    MergedJointKeys(l, r);
  }

  /** Both arms' joints under their prefixes are the pair's motor features. */
  lemma MergedJointKeys<V>(l: map<string, V>, r: map<string, V>)
    requires l.Keys == MotorFeatures().Keys && r.Keys == MotorFeatures().Keys
    ensures (AddPrefix(l, LeftPrefix) + AddPrefix(r, RightPrefix)).Keys == BiMotorFeatures().Keys
  {
    PrefixedJoints(l, LeftPrefix);
    PrefixedJoints(r, RightPrefix);
  }

  /** An arm without cameras observes exactly its six joints. */
  lemma JointsOnly(state: ArmState)
    requires !state.StateOther? && |AnglesOf(state).value| >= 6
    ensures Observe(state, [], map[]).Ok? && Observe(state, [], map[]).value.Keys == MotorFeatures().Keys
  {
    var joints := JointObservation(AnglesOf(state).value);
    assert AddImages(joints, [], map[]) == Ok(joints);
  }

  /** A map keyed by the six joint keys, prefixed, is keyed by the side's joint keys. */
  lemma PrefixedJoints<V>(m: map<string, V>, p: string)
    requires m.Keys == MotorFeatures().Keys
    ensures forall k :: k in AddPrefix(m, p) <==> k in SideKeys(p)
  {
    var side := SideKeys(p);
    forall k ensures k in AddPrefix(m, p) <==> k in side {
      if k in AddPrefix(m, p) {
        var i :| 0 <= i < 6 && MotorKeys[i] == k[|p|..];
        Unprefix(k, p);
        assert side[i] == k;
      }
      if k in side {
        var i :| 0 <= i < 6 && side[i] == k;
        assert MotorKeys[i] in m;
      }
    }
  }

  /** The goal sent to the left arm is the pair's `left_` joint entries, in joint order. */
  lemma LeftGoalReadsLeftKeys(action: map<string, real>)
    requires FirstMissing(StripPrefix(action, LeftPrefix), 0).None?
    ensures forall j :: 0 <= j < 6 ==>
      LeftPrefix + MotorKeys[j] in action
      && Goal(StripPrefix(action, LeftPrefix))[j] == action[LeftPrefix + MotorKeys[j]]
  {
  }

  /** The pair reads exactly the keys of its `action_features`. */
  lemma BiActionKeysAreFeatures(action: map<string, real>)
    ensures FirstMissing(StripPrefix(action, LeftPrefix), 0).None?
         && FirstMissing(StripPrefix(action, RightPrefix), 0).None?
        <==> BiMotorFeatures().Keys <= action.Keys
  {
    if BiMotorFeatures().Keys <= action.Keys {
      forall j | 0 <= j < 6 ensures MotorKeys[j] in StripPrefix(action, LeftPrefix)
        && MotorKeys[j] in StripPrefix(action, RightPrefix)
      {
        assert LeftPrefix + MotorKeys[j] in BiMotorFeatures();
        assert RightPrefix + MotorKeys[j] in BiMotorFeatures();
      }
    }
  }

  class BiRM65Follower {
    const config: BiConfig
    const leftArm: RM65Follower
    const rightArm: RM65Follower
    const cameras: CameraRig

    ghost predicate Valid()
      reads this, leftArm, rightArm, cameras, leftArm.cameras, rightArm.cameras
    {
      leftArm != rightArm && leftArm.cameras != rightArm.cameras
      && cameras != leftArm.cameras && cameras != rightArm.cameras
      && leftArm.Valid() && rightArm.Valid() && cameras.Valid()
      && leftArm.cameras.names == [] && rightArm.cameras.names == []
    }

    /** `is_connected`: both arms and every shared camera. */
    predicate IsConnected()
      reads this, leftArm, rightArm, cameras, leftArm.cameras, rightArm.cameras
    {
      leftArm.IsConnected() && rightArm.IsConnected() && cameras.AllConnected()
    }

    /** `__init__`: one arm per side from `ArmConfigOf`, and the shared cameras. */
    constructor (config: BiConfig)
      requires |config.cameraShapes| == |config.cameraNames|
      ensures Valid() && !IsConnected() && this.config == config
      ensures fresh(leftArm) && fresh(rightArm) && fresh(cameras) && fresh(leftArm.cameras) && fresh(rightArm.cameras)
      ensures leftArm.ip == ArmConfigOf(config, true).ip && rightArm.ip == ArmConfigOf(config, false).ip
      ensures leftArm.port == config.port && rightArm.port == config.port
      ensures leftArm.moveSpeed == config.moveSpeed && rightArm.moveSpeed == config.moveSpeed
      ensures cameras.names == config.cameraNames
    {
      this.config := config;
      var l := ArmConfigOf(config, true);
      var r := ArmConfigOf(config, false);
      leftArm := new RM65Follower(l.ip, l.port, l.moveSpeed, l.cameraNames, []);
      rightArm := new RM65Follower(r.ip, r.port, r.moveSpeed, r.cameraNames, []);
      cameras := new CameraRig(config.cameraNames, config.cameraShapes);
    }

    /**
     * `connect`: the left arm, then the right arm, then the shared cameras; the first
     * failure stops the rest.
     */
    method Connect(leftHandle: int, rightHandle: int, cameraOks: seq<bool>) returns (r: Result<(), FollowerError>)
      requires Valid()
      modifies leftArm`handle, rightArm`handle, cameras`up, leftArm.cameras`up, rightArm.cameras`up
      ensures Valid()
      ensures old(leftArm.IsConnected()) ==>
        r == Err(AlreadyConnected) && leftArm.handle == old(leftArm.handle)
        && rightArm.handle == old(rightArm.handle) && cameras.up == old(cameras.up)
      ensures !old(leftArm.IsConnected()) ==> leftArm.handle == Some(leftHandle)
      ensures !old(leftArm.IsConnected()) && old(rightArm.IsConnected()) ==>
        r == Err(AlreadyConnected) && rightArm.handle == old(rightArm.handle) && cameras.up == old(cameras.up)
      ensures r.Ok? <==>
        !old(leftArm.IsConnected()) && !old(rightArm.IsConnected())
        && forall i :: 0 <= i < |cameras.names| ==> ConnectOk(cameraOks, i)
      ensures r.Ok? ==> IsConnected() && rightArm.handle == Some(rightHandle)
    {
      r := leftArm.Connect(leftHandle, []);
      if r.Err? {
        return;
      }
      r := rightArm.Connect(rightHandle, []);
      if r.Err? {
        return;
      }
      var failedAt := cameras.ConnectAll(cameraOks);
      if failedAt.Some? {
        return Err(CameraFailed(cameras.names[failedAt.value]));
      }
    }

    /** `get_observation`: the left arm, then the right arm (both prefixed), then the cameras. */
    method GetObservation(leftStatus: int, leftState: ArmState, rightStatus: int, rightState: ArmState,
                          shots: map<string, Picture>) returns (r: Result<map<string, Reading>, FollowerError>)
      requires Valid()
      ensures r == BiObserve(ArmObservation(leftArm.IsConnected(), leftStatus, leftState, [], map[]),
                             ArmObservation(rightArm.IsConnected(), rightStatus, rightState, [], map[]),
                             cameras.names, shots)
    {
      var leftObs := leftArm.GetObservation(leftStatus, leftState, map[]);
      if leftObs.Err? {
        return Err(leftObs.error);
      }
      var rightObs := rightArm.GetObservation(rightStatus, rightState, map[]);
      if rightObs.Err? {
        return Err(rightObs.error);
      }
      var obs := AddPrefix(leftObs.value, LeftPrefix) + AddPrefix(rightObs.value, RightPrefix);
      var images := cameras.ReadAll(obs, shots);
      if images.Err? {
        return Err(CameraFailed(images.error));
      }
      return Ok(images.value);
    }

    /**
     * `send_action`: split the action by prefix, send the left part, then the right part,
     * and return both parts under their prefixes again: the action restricted to its
     * `left_` and `right_` keys. A failing right arm leaves the left arm's goal sent.
     */
    method SendAction(action: map<string, real>, leftRet: int, rightRet: int)
      returns (r: Result<map<string, real>, FollowerError>)
      requires Valid()
      modifies leftArm`commanded, rightArm`commanded
      ensures Valid()
      ensures !leftArm.IsConnected() ==>
        r == Err(NotConnected) && leftArm.commanded == old(leftArm.commanded) && rightArm.commanded == old(rightArm.commanded)
      ensures leftArm.IsConnected() && FirstMissing(StripPrefix(action, LeftPrefix), 0).Some? ==>
        r == Err(MissingKey(FirstMissing(StripPrefix(action, LeftPrefix), 0).value))
        && leftArm.commanded == old(leftArm.commanded) && rightArm.commanded == old(rightArm.commanded)
      ensures leftArm.IsConnected() && FirstMissing(StripPrefix(action, LeftPrefix), 0).None? ==>
        leftArm.commanded == old(leftArm.commanded) + [Goal(StripPrefix(action, LeftPrefix))]
      ensures r.Ok? <==>
        leftArm.IsConnected() && rightArm.IsConnected()
        && FirstMissing(StripPrefix(action, LeftPrefix), 0).None?
        && FirstMissing(StripPrefix(action, RightPrefix), 0).None?
      ensures r.Ok? ==>
        r.value == WithPrefix(action, LeftPrefix) + WithPrefix(action, RightPrefix)
        && rightArm.commanded == old(rightArm.commanded) + [Goal(StripPrefix(action, RightPrefix))]
      ensures r.Err? ==> rightArm.commanded == old(rightArm.commanded)
    {
      var leftAction := StripPrefix(action, LeftPrefix);
      var rightAction := StripPrefix(action, RightPrefix);
      var sentLeft := leftArm.SendAction(leftAction, leftRet);
      if sentLeft.Err? {
        return Err(sentLeft.error);
      }
      var sentRight := rightArm.SendAction(rightAction, rightRet);
      if sentRight.Err? {
        return Err(sentRight.error);
      }
      StripThenAddPrefix(action, LeftPrefix);
      StripThenAddPrefix(action, RightPrefix);
      return Ok(AddPrefix(sentLeft.value, LeftPrefix) + AddPrefix(sentRight.value, RightPrefix));
    }

    /**
     * `disconnect`: the left arm, then the right arm, then every shared camera. The
     * arms return when not connected; a shared camera that is down raises when
     * `cameraStrict` says so, and the cameras after it stay as they were.
     */
    method Disconnect(cameraStrict: seq<bool>) returns (r: Result<(), FollowerError>)
      requires Valid()
      modifies leftArm`handle, rightArm`handle, cameras`up, leftArm.cameras`up, rightArm.cameras`up
      ensures Valid()
      ensures old(leftArm.IsConnected()) ==> leftArm.handle == None
      ensures !old(leftArm.IsConnected()) ==> leftArm.handle == old(leftArm.handle)
      ensures old(rightArm.IsConnected()) ==> rightArm.handle == None
      ensures !old(rightArm.IsConnected()) ==> rightArm.handle == old(rightArm.handle)
      ensures r.Ok? <==> forall i :: 0 <= i < |cameras.names| ==> cameras.DisconnectOk(old(cameras.up), cameraStrict, i)
      ensures r.Ok? ==> forall i :: 0 <= i < |cameras.up| ==> !cameras.up[i]
      ensures r.Err? ==>
        exists k :: 0 <= k < |cameras.names| && r == Err(CameraFailed(cameras.names[k]))
          && !cameras.DisconnectOk(old(cameras.up), cameraStrict, k)
          && (forall i :: 0 <= i < k ==> cameras.DisconnectOk(old(cameras.up), cameraStrict, i))
          && (forall i :: 0 <= i < |cameras.up| ==> cameras.up[i] == if i < k then false else old(cameras.up)[i])
    {
      leftArm.Disconnect();
      rightArm.Disconnect();
      var failedAt := cameras.DisconnectAll(cameraStrict);
      if failedAt.Some? {
        return Err(CameraFailed(cameras.names[failedAt.value]));
      }
      r := Ok(());
    }
  }
}

/**
 * Two RM65 leaders moved by hand as one teleoperator: the left arm's keys carry the
 * prefix `left_`, the right arm's `right_`, as on the bimanual follower they drive.
 */
module BiRm65Leader {
  import opened Wrappers
  import opened Keys
  import Follower = Rm65Follower
  import BiFollower = BiRm65Follower
  import opened Rm65Leader

  /** The configuration of one leader arm (`RM65LeaderConfig`). */
  datatype LeaderConfig = LeaderConfig(
    id: Option<string>, calibrationDir: Option<string>, ip: string, port: int, dragSensitivity: int)

  /** The configuration of the pair (`BiRM65LeaderConfig`). */
  datatype BiLeaderConfig = BiLeaderConfig(
    id: Option<string>, calibrationDir: Option<string>, leftIp: string, rightIp: string,
    port: int, dragSensitivity: int)

  /** The configuration `__init__` builds for one arm: the side's address, everything else shared. */
  function LeaderConfigOf(c: BiLeaderConfig, left: bool): (a: LeaderConfig)
    ensures a.ip == (if left then c.leftIp else c.rightIp)
    ensures a.port == c.port && a.dragSensitivity == c.dragSensitivity && a.calibrationDir == c.calibrationDir
    ensures (c.id.None? || c.id == Some("")) <==> a.id.None?
    ensures a.id.Some? ==> a.id.value == c.id.value + (if left then "_left" else "_right")
  {
    LeaderConfig(BiFollower.SideId(c.id, left), c.calibrationDir,
                 if left then c.leftIp else c.rightIp, c.port, c.dragSensitivity)
  }

  /**
   * What `get_action` of the pair returns from the outcomes of the two arms: the left
   * arm's error (the right arm is then not read), the right arm's error, or both actions
   * under their prefixes, merged.
   */
  function BiAction(left: Result<map<string, real>, LeaderError>, right: Result<map<string, real>, LeaderError>)
    : Result<map<string, real>, LeaderError>
  {
    if left.Err? then Err(left.error)
    else if right.Err? then Err(right.error)
    else Ok(AddPrefix(left.value, BiFollower.LeftPrefix) + AddPrefix(right.value, BiFollower.RightPrefix))
  }

  /**
   * When both arms give an action with their six joint keys, the pair's action has
   * exactly its `action_features` keys, and each side's entry is that arm's value.
   */
  lemma BiActionRoutesSides(l: map<string, real>, r: map<string, real>)
    requires l.Keys == Follower.MotorFeatures().Keys && r.Keys == Follower.MotorFeatures().Keys
    ensures BiAction(Ok(l), Ok(r)).Ok?
    ensures BiAction(Ok(l), Ok(r)).value.Keys == BiFollower.BiMotorFeatures().Keys
    ensures forall i :: 0 <= i < 6 ==>
      BiAction(Ok(l), Ok(r)).value[BiFollower.LeftPrefix + Follower.MotorKeys[i]] == l[Follower.MotorKeys[i]]
      && BiAction(Ok(l), Ok(r)).value[BiFollower.RightPrefix + Follower.MotorKeys[i]] == r[Follower.MotorKeys[i]]
  {
    BiFollower.MergedJointKeys(l, r);
    forall i | 0 <= i < 6
      ensures BiAction(Ok(l), Ok(r)).value[BiFollower.LeftPrefix + Follower.MotorKeys[i]] == l[Follower.MotorKeys[i]]
    {
      LeftEntryKept(l, r, Follower.MotorKeys[i]);
    }
  }

  /** A `left_` entry of the merged action is never overwritten by a `right_` one. */
  lemma LeftEntryKept(l: map<string, real>, r: map<string, real>, k: string)
    requires k in l
    ensures BiFollower.LeftPrefix + k in AddPrefix(l, BiFollower.LeftPrefix) + AddPrefix(r, BiFollower.RightPrefix)
    ensures (AddPrefix(l, BiFollower.LeftPrefix) + AddPrefix(r, BiFollower.RightPrefix))[BiFollower.LeftPrefix + k] == l[k]
  {
    var key := BiFollower.LeftPrefix + k;
    if key in AddPrefix(r, BiFollower.RightPrefix) {
      assert key[0] == 'l';
    }
  }

  /**
   * Whatever the two joint responses, an action the pair reads holds every goal the
   * bimanual follower's `send_action` looks up: the leader can drive the follower.
   */
  lemma BiLeaderDrivesFollower(ls: JointStatus, rs: JointStatus)
    ensures var a := BiAction(ActionOf(ls), ActionOf(rs));
      a.Ok? ==>
        Follower.FirstMissing(StripPrefix(a.value, BiFollower.LeftPrefix), 0).None?
        && Follower.FirstMissing(StripPrefix(a.value, BiFollower.RightPrefix), 0).None?
  {
    var a := BiAction(ActionOf(ls), ActionOf(rs));
    if a.Ok? {
      BiActionRoutesSides(ActionOf(ls).value, ActionOf(rs).value);
      BiFollower.BiActionKeysAreFeatures(a.value);
    }
  }

  class BiRM65Leader {
    const config: BiLeaderConfig
    const leftArm: RM65Leader
    const rightArm: RM65Leader

    ghost predicate Valid()
      reads this, leftArm, rightArm
    {
      leftArm != rightArm && leftArm.Valid() && rightArm.Valid()
    }

    /** `is_connected`: both arms are connected. */
    predicate IsConnected()
      reads this, leftArm, rightArm
    {
      leftArm.IsConnected() && rightArm.IsConnected()
    }

    constructor (config: BiLeaderConfig)
      ensures Valid() && !IsConnected() && fresh(leftArm) && fresh(rightArm)
      ensures this.config == config
      ensures leftArm.ip == config.leftIp && rightArm.ip == config.rightIp
      ensures leftArm.port == config.port && rightArm.port == config.port
      ensures leftArm.dragSensitivity == config.dragSensitivity && rightArm.dragSensitivity == config.dragSensitivity
    {
      this.config := config;
      var l := LeaderConfigOf(config, true);
      var r := LeaderConfigOf(config, false);
      leftArm := new RM65Leader(l.ip, l.port, l.dragSensitivity);
      rightArm := new RM65Leader(r.ip, r.port, r.dragSensitivity);
    }

    /**
     * `connect`: the left arm, then the right; a left failure stops before the right
     * arm, and a right arm already connected raises after the left one connected.
     */
    method Connect(leftHandle: int, leftStart: int, rightHandle: int, rightStart: int)
      returns (r: Result<(), LeaderError>)
      requires Valid()
      modifies leftArm, rightArm
      ensures Valid()
      ensures r.Ok? ==> IsConnected() && leftArm.teaching && rightArm.teaching
      ensures !old(leftArm.IsConnected()) && !old(rightArm.IsConnected()) ==>
        (r.Ok? <==> leftHandle == 0 && leftStart == 0 && rightHandle == 0 && rightStart == 0)
      ensures old(leftArm.IsConnected()) ==> r == Err(AlreadyConnected) && unchanged(leftArm) && unchanged(rightArm)
      ensures !old(leftArm.IsConnected()) ==>
        leftArm.handle == Some(leftHandle) && leftArm.IsConnected()
        && (leftArm.teaching <==> leftHandle == 0 && leftStart == 0)
      ensures !old(leftArm.IsConnected()) && leftHandle != 0 ==>
        r == Err(ConnectFailed(leftHandle)) && unchanged(rightArm)
      ensures !old(leftArm.IsConnected()) && leftHandle == 0 && leftStart != 0 ==>
        r == Err(DragStartFailed(leftStart)) && unchanged(rightArm)
      ensures !old(leftArm.IsConnected()) && leftHandle == 0 && leftStart == 0 && old(rightArm.IsConnected()) ==>
        r == Err(AlreadyConnected) && unchanged(rightArm)
      ensures !old(leftArm.IsConnected()) && leftHandle == 0 && leftStart == 0 && !old(rightArm.IsConnected()) ==>
        && rightArm.handle == Some(rightHandle) && rightArm.IsConnected()
        && (rightArm.teaching <==> r.Ok?)
        && (rightHandle != 0 ==> r == Err(ConnectFailed(rightHandle)))
        && (rightHandle == 0 && rightStart != 0 ==> r == Err(DragStartFailed(rightStart)))
    {
      r := leftArm.Connect(leftHandle, leftStart);
      if r.Err? {
        return;
      }
      r := rightArm.Connect(rightHandle, rightStart);
    }

    /** `get_action`: the left arm's action, then the right arm's, merged under their prefixes. */
    method GetAction(leftStatus: JointStatus, rightStatus: JointStatus) returns (r: Result<map<string, real>, LeaderError>)
      requires Valid()
      ensures r == BiAction(LeaderAction(leftArm.IsConnected(), leftStatus),
                            LeaderAction(rightArm.IsConnected(), rightStatus))
      ensures r.Ok? ==> r.value.Keys == BiFollower.BiMotorFeatures().Keys
    {
      var left := leftArm.GetAction(leftStatus);
      if left.Err? {
        return Err(left.error);
      }
      var right := rightArm.GetAction(rightStatus);
      if right.Err? {
        return Err(right.error);
      }
      BiActionRoutesSides(left.value, right.value);
      var action := AddPrefix(left.value, BiFollower.LeftPrefix);
      action := action + AddPrefix(right.value, BiFollower.RightPrefix);
      return Ok(action);
    }

    /**
     * `disconnect`: the left arm, then the right; a left arm not connected stops before
     * the right arm, and a right arm not connected raises after the left one let go.
     */
    method Disconnect() returns (r: Result<(), LeaderError>)
      requires Valid()
      modifies leftArm, rightArm
      ensures Valid()
      ensures old(IsConnected()) ==> r == Ok(()) && !leftArm.IsConnected() && !rightArm.IsConnected()
      ensures !old(leftArm.IsConnected()) ==> r == Err(NotConnected) && unchanged(leftArm) && unchanged(rightArm)
      ensures old(leftArm.IsConnected()) ==>
        leftArm.handle == None && !leftArm.armPresent && !leftArm.teaching
      ensures old(IsConnected()) ==>
        rightArm.handle == None && !rightArm.armPresent && !rightArm.teaching
      ensures old(leftArm.IsConnected()) && !old(rightArm.IsConnected()) ==>
        r == Err(NotConnected) && unchanged(rightArm)
    {
      r := leftArm.Disconnect();
      if r.Err? {
        return;
      }
      r := rightArm.Disconnect();
    }
  }
}

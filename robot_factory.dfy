/**
 * `make_robot_from_config`: the robot class a configuration's `robot_type` names. The
 * result is the kind of robot built; the constructors themselves are the modules of
 * each robot.
 */
module RobotFactory {
  import opened Wrappers
  import opened Text

  /** The robot classes the factory can build. */
  datatype RobotKind =
    | SO100Follower | SO101Follower | BiSO100Follower | BiSO101Follower | BiRM65Follower
    | KochFollower | Lekiwi | HopeJR | Reachy2 | Stretch3 | ViperX | OmniBase

  /** The `robot_type` strings the factory accepts, in the order it tries them. */
  const RobotTypes: seq<string> := [
    "so100_follower", "so101_follower", "bi_so100_follower", "bi_so101_follower",
    "bi_rm65_follower", "koch_follower", "lekiwi", "hope_jr", "reachy2", "stretch3",
    "viperx", "omni_base"]

  /** The types the `ValueError` message offers, in the order it lists them. */
  const ListedTypes: seq<string> := [
    "so100_follower", "so101_follower", "bi_so100_follower", "bi_so101_follower",
    "bi_rm65_follower", "koch_follower", "lekiwi", "hope_jr", "reachy2", "stretch3", "viperx",
    "omni_base"]

  /** The list in the message: the listed types separated by `", "`. */
  function AvailableTypes(): string {
    Join(ListedTypes, ", ")
  }

  /** The `robot_type` that selects each kind. */
  function TypeName(kind: RobotKind): (name: string)
    ensures name in RobotTypes
  {
    match kind
    case SO100Follower => "so100_follower"
    case SO101Follower => "so101_follower"
    case BiSO100Follower => "bi_so100_follower"
    case BiSO101Follower => "bi_so101_follower"
    case BiRM65Follower => "bi_rm65_follower"
    case KochFollower => "koch_follower"
    case Lekiwi => "lekiwi"
    case HopeJR => "hope_jr"
    case Reachy2 => "reachy2"
    case Stretch3 => "stretch3"
    case ViperX => "viperx"
    case OmniBase => "omni_base"
  }

  /** The `ValueError` for a type the factory does not know. */
  datatype UnknownType = UnknownType(name: string)

  /** The message of the `ValueError` for an unknown type. */
  function UnknownRobotMessage(robotType: string): (msg: string)
    ensures StartsWith(msg, "Unknown robot type '" + robotType + "'")
  {
    var head := "Unknown robot type '" + robotType + "'";
    var msg := head + ". Available types: " + AvailableTypes();
    assert msg[..|head|] == head;
    msg
  }

  /** `make_robot_from_config`: the first type that matches, else the `ValueError`. */
  function MakeRobot(robotType: string): (r: Result<RobotKind, UnknownType>)
    ensures r.Ok? <==> robotType in RobotTypes
    ensures r.Ok? ==> TypeName(r.value) == robotType
    ensures r.Err? ==> r.error == UnknownType(robotType)
  {
    if robotType == "so100_follower" then Ok(SO100Follower)
    else if robotType == "so101_follower" then Ok(SO101Follower)
    else if robotType == "bi_so100_follower" then Ok(BiSO100Follower)
    else if robotType == "bi_so101_follower" then Ok(BiSO101Follower)
    else if robotType == "bi_rm65_follower" then Ok(BiRM65Follower)
    else if robotType == "koch_follower" then Ok(KochFollower)
    else if robotType == "lekiwi" then Ok(Lekiwi)
    else if robotType == "hope_jr" then Ok(HopeJR)
    else if robotType == "reachy2" then Ok(Reachy2)
    else if robotType == "stretch3" then Ok(Stretch3)
    else if robotType == "viperx" then Ok(ViperX)
    else if robotType == "omni_base" then Ok(OmniBase)
    else Err(UnknownType(robotType))
  }

  /** Every kind is built from its own type name: the factory reaches every robot. */
  lemma MakeRobotFromTypeName(kind: RobotKind)
    ensures MakeRobot(TypeName(kind)) == Ok(kind)
  {
  }

  /** The message lists exactly the accepted types. */
  lemma ListedTypesAccepted(name: string)
    ensures name in ListedTypes <==> MakeRobot(name).Ok?
  {
  }
}

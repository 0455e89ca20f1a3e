/**
 * The teleoperator side of the utilities: the `TeleopEvents` names, and
 * `make_teleoperator_from_config`, the teleoperator class a configuration's `type` names.
 */
module TeleopFactory {
  import opened Wrappers
  import opened Text

  /** `TeleopEvents`: the events a teleoperator can raise during an episode. */
  datatype TeleopEvent = IsIntervention | TerminateEpisode | Success | Failure | RerecordEpisode

  /** The string value of each event. */
  function EventValue(e: TeleopEvent): (v: string)
    ensures |v| > 0
  {
    match e
    case IsIntervention => "is_intervention"
    case TerminateEpisode => "terminate_episode"
    case Success => "success"
    case Failure => "failure"
    case RerecordEpisode => "rerecord_episode"
  }

  /** `TeleopEvents(value)`: the event with this value, if any. */
  function EventOf(value: string): (e: Option<TeleopEvent>)
    ensures e.Some? ==> EventValue(e.value) == value
    ensures e.None? ==> forall ev :: EventValue(ev) != value
  {
    if value == "is_intervention" then Some(IsIntervention)
    else if value == "terminate_episode" then Some(TerminateEpisode)
    else if value == "success" then Some(Success)
    else if value == "failure" then Some(Failure)
    else if value == "rerecord_episode" then Some(RerecordEpisode)
    else None
  }

  /** Every event is found again from its value, so no two events share a value. */
  lemma EventValueRoundTrip(e: TeleopEvent)
    ensures EventOf(EventValue(e)) == Some(e)
  {
  }

  /** Distinct events have distinct values. */
  lemma EventValueInjective(a: TeleopEvent, b: TeleopEvent)
    ensures EventValue(a) == EventValue(b) ==> a == b
  {
    EventValueRoundTrip(a);
    EventValueRoundTrip(b);
  }

  /** The teleoperator classes the factory can build. */
  datatype TeleopKind =
    | GamepadTeleop | KeyboardTeleop | Phone | KochLeader | SO100Leader | SO101Leader
    | BiSO100Leader | BiSO101Leader | BiRM65Leader | RM65Leader | Homunculus
    | Reachy2Teleoperator | Stretch3Gamepad | WidowX | XlebiSO101Leader

  /** The `type` strings the factory accepts, in the order it tries them. */
  const TeleopTypes: seq<string> := [
    "gamepad", "keyboard", "phone", "koch_leader", "so100_leader", "so101_leader",
    "bi_so100_leader", "bi_so101_leader", "bi_rm65_leader", "rm65_leader", "homunculus",
    "reachy2_teleoperator", "stretch3_gamepad", "widowx", "xlebi_so101_leader"]

  /** The types the `ValueError` message offers, in the order it lists them (`rm65_leader` before `bi_rm65_leader`). */
  const ListedTypes: seq<string> := [
    "gamepad", "keyboard", "phone", "koch_leader", "so100_leader", "so101_leader",
    "bi_so100_leader", "bi_so101_leader", "rm65_leader", "bi_rm65_leader", "homunculus",
    "reachy2_teleoperator", "stretch3_gamepad", "widowx", "xlebi_so101_leader"]

  /** The list in the message: the listed types separated by `", "`. */
  function AvailableTypes(): string {
    Join(ListedTypes, ", ")
  }

  /** The `type` that selects each kind. */
  function TypeName(kind: TeleopKind): (name: string)
    ensures name in TeleopTypes
  {
    match kind
    case GamepadTeleop => "gamepad"
    case KeyboardTeleop => "keyboard"
    case Phone => "phone"
    case KochLeader => "koch_leader"
    case SO100Leader => "so100_leader"
    case SO101Leader => "so101_leader"
    case BiSO100Leader => "bi_so100_leader"
    case BiSO101Leader => "bi_so101_leader"
    case BiRM65Leader => "bi_rm65_leader"
    case RM65Leader => "rm65_leader"
    case Homunculus => "homunculus"
    case Reachy2Teleoperator => "reachy2_teleoperator"
    case Stretch3Gamepad => "stretch3_gamepad"
    case WidowX => "widowx"
    case XlebiSO101Leader => "xlebi_so101_leader"
  }

  /** The `ValueError` for a type the factory does not know. */
  datatype UnknownType = UnknownType(name: string)

  /** The message of the `ValueError` for an unknown type. */
  function UnknownTeleopMessage(teleopType: string): (msg: string)
    ensures StartsWith(msg, "Unknown teleoperator type '" + teleopType + "'")
  {
    var head := "Unknown teleoperator type '" + teleopType + "'";
    var msg := head + ". Available types: " + AvailableTypes();
    assert msg[..|head|] == head;
    msg
  }

  /** `make_teleoperator_from_config`: the first type that matches, else the `ValueError`. */
  function MakeTeleoperator(teleopType: string): (r: Result<TeleopKind, UnknownType>)
    ensures r.Ok? <==> teleopType in TeleopTypes
    ensures r.Ok? ==> TypeName(r.value) == teleopType
    ensures r.Err? ==> r.error == UnknownType(teleopType)
  {
    if teleopType == "gamepad" then Ok(GamepadTeleop)
    else if teleopType == "keyboard" then Ok(KeyboardTeleop)
    else if teleopType == "phone" then Ok(Phone)
    else if teleopType == "koch_leader" then Ok(KochLeader)
    else if teleopType == "so100_leader" then Ok(SO100Leader)
    else if teleopType == "so101_leader" then Ok(SO101Leader)
    else if teleopType == "bi_so100_leader" then Ok(BiSO100Leader)
    else if teleopType == "bi_so101_leader" then Ok(BiSO101Leader)
    else if teleopType == "bi_rm65_leader" then Ok(BiRM65Leader)
    else if teleopType == "rm65_leader" then Ok(RM65Leader)
    else if teleopType == "homunculus" then Ok(Homunculus)
    else if teleopType == "reachy2_teleoperator" then Ok(Reachy2Teleoperator)
    else if teleopType == "stretch3_gamepad" then Ok(Stretch3Gamepad)
    else if teleopType == "widowx" then Ok(WidowX)
    else if teleopType == "xlebi_so101_leader" then Ok(XlebiSO101Leader)
    else Err(UnknownType(teleopType))
  }

  /** Every kind is built from its own type name: the factory reaches every teleoperator. */
  lemma MakeTeleoperatorFromTypeName(kind: TeleopKind)
    ensures MakeTeleoperator(TypeName(kind)) == Ok(kind)
  {
  }

  /** The message lists exactly the accepted types. */
  lemma ListedTypesAccepted(name: string)
    ensures name in ListedTypes <==> MakeTeleoperator(name).Ok?
  {
  }
}

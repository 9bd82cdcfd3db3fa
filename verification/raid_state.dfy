/**
 * The plugin's mutable raid record and the identifiers it compares against
 * (the fields and static constants of ToatimePlugin).
 */
module RaidState {
  import opened Options

  /** The callout tag. The plugin keeps it as one of five strings; here it is closed. */
  datatype Callout = Default | Pillars | Vents | DD | SightChange

  /** The three fields the event handlers read and write. */
  datatype State = State(inToaRaid: bool, callout: Callout, hasSight: bool)

  /** A scene coordinate; two points are equal when both components are. */
  datatype LocalPoint = LocalPoint(x: int, y: int)

  /** A transient graphics object as the classifier sees it: its id and where it is drawn. */
  datatype GraphicsObject = GraphicsObject(id: int, location: LocalPoint)

  const Skull1GraphicsObjectId := 2134
  const Skull2GraphicsObjectId := 2135
  const SightSoundEffectId := 6574
  const PlayerSightAnimationId := 2132
  const PlayerRemoveSightAnimationId := 2133
  const ApmekenRegionId := 15186
  const LobbyRegionId := 13454
  const NexusRegionId := 14160
  const PillarLocation := LocalPoint(7744, 7232)
  const PillarLocation2 := LocalPoint(7744, 8256)
  const VentLocation := LocalPoint(7232, 5696)
  const VentLocation2 := LocalPoint(7232, 7744)

  /** The string the plugin stores for each callout. */
  function Tag(c: Callout): (t: string)
    ensures ParseTag(t) == Some(c)
  {
    match c
    case Default => "DEFAULT"
    case Pillars => "PILLARS"
    case Vents => "VENTS"
    case DD => "DD"
    case SightChange => "SIGHT_CHANGE"
  }

  /** The callout a stored string denotes, if it is one of the five tags. */
  function ParseTag(t: string): Option<Callout>
  {
    if t == "DEFAULT" then Some(Default)
    else if t == "PILLARS" then Some(Pillars)
    else if t == "VENTS" then Some(Vents)
    else if t == "DD" then Some(DD)
    else if t == "SIGHT_CHANGE" then Some(SightChange)
    else None
  }

  /** A string that parses is exactly the tag of the callout it parses to. */
  lemma ParseTagSound(t: string)
    ensures ParseTag(t).Some? ==> Tag(ParseTag(t).value) == t
  {
  }

  /** Distinct callouts are stored as distinct strings, so the string switch sees the datatype exactly. */
  lemma TagInjective(a: Callout, b: Callout)
    ensures Tag(a) == Tag(b) ==> a == b
  {
  }
}

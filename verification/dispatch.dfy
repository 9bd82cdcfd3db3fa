/**
 * The sound-effect handler, onSoundEffectPlayed: on the sight sound inside
 * the raid it reclassifies and asks for one cue, with a chat echo for
 * pillars and vents.
 */
module Dispatch {
  import opened Options
  import opened RaidState
  import Classifier
  import Playback

  /** A public chat line the handler posts under a fixed sender name. */
  datatype ChatLine = ChatLine(sender: string, text: string)

  /** What one handler call leaves behind: the new state, the cue asked for, the chat line posted. */
  datatype Effect = Effect(state: State, cue: Option<string>, chat: Option<ChatLine>)

  const ChatSender := "Craig King"

  /** The cue resource named for each callout; Default asks for none. */
  function CueName(c: Callout): Option<string> {
    match c
    case Pillars => Some("pillars")
    case Vents => Some("vents")
    case DD => Some("DD")
    case SightChange => Some("sightchange")
    case Default => None
  }

  /** The chat echo posted alongside a callout, if any. */
  function ChatFor(c: Callout): Option<ChatLine> {
    match c
    case Pillars => Some(ChatLine(ChatSender, "Pillars, pillars, pillars."))
    case Vents => Some(ChatLine(ChatSender, "Vents, vents, vents."))
    case _ => None
  }

  /** The handler is live only inside the raid and only for the sight sound. */
  predicate Triggers(s: State, soundId: int) {
    s.inToaRaid && soundId == SightSoundEffectId
  }

  /**
   * onSoundEffectPlayed, given the sound id and the inputs of the
   * classification pass (drawn objects, the two spot-animation queries).
   */
  function OnSoundEffectPlayed(s: State, soundId: int, objs: seq<GraphicsObject>, hasSightAnim: bool, hasRemoveSightAnim: bool): (e: Effect)
    ensures !Triggers(s, soundId) ==> e == Effect(s, None, None)
    ensures Triggers(s, soundId) ==> e.state == Classifier.CheckSightTiles(s, objs, hasSightAnim, hasRemoveSightAnim)
    ensures Triggers(s, soundId) ==> (e.cue.None? <==> e.state.callout == Default)
    ensures Triggers(s, soundId) && e.state.callout == Pillars ==>
      e.cue == Some("pillars") && e.chat == Some(ChatLine("Craig King", "Pillars, pillars, pillars."))
    ensures Triggers(s, soundId) && e.state.callout == Vents ==>
      e.cue == Some("vents") && e.chat == Some(ChatLine("Craig King", "Vents, vents, vents."))
    ensures Triggers(s, soundId) && e.state.callout == DD ==> e.cue == Some("DD") && e.chat.None?
    ensures Triggers(s, soundId) && e.state.callout == SightChange ==> e.cue == Some("sightchange") && e.chat.None?
    ensures e.chat.Some? ==> e.cue.Some?
  {
    if !s.inToaRaid then Effect(s, None, None)
    else if soundId == SightSoundEffectId then
      var t := Classifier.CheckSightTiles(s, objs, hasSightAnim, hasRemoveSightAnim);
      Effect(t, CueName(t.callout), ChatFor(t.callout))
    else Effect(s, None, None)
  }

  /** Distinct callouts ask for distinct cues (Default alone asks for none), so the request determines the callout. */
  lemma CueNameInjective(a: Callout, b: Callout)
    ensures CueName(a) == CueName(b) ==> a == b
  {
  }

  /** The resource path asked for determines the callout that was classified. */
  lemma CuePathDeterminesCallout(a: Callout, b: Callout)
    requires CueName(a).Some? && CueName(b).Some?
    ensures Playback.SoundPath(CueName(a).value) == Playback.SoundPath(CueName(b).value) ==> a == b
  {
  }

  /** A spot animation overrides a skull: with the sight animation the cue is "sightchange" whatever is drawn. */
  lemma AnimationOverridesSkull(s: State, objs: seq<GraphicsObject>, removeAnim: bool)
    requires s.inToaRaid
    ensures OnSoundEffectPlayed(s, SightSoundEffectId, objs, true, removeAnim).cue == Some("sightchange")
    ensures OnSoundEffectPlayed(s, SightSoundEffectId, objs, true, removeAnim).chat.None?
  {
  }
}

/**
 * A stretch of plugin life between startUp and shutDown: the host delivers
 * varbit-change and sound-effect events one at a time, in order.
 */
module Session {
  import opened Options
  import opened RaidState
  import Presence
  import Classifier
  import Dispatch

  /** One delivered event, with the client queries it triggers resolved to values. */
  datatype Event =
    | VarbitChanged(loggedIn: bool, region: int)
    | SoundEffectPlayed(soundId: int, objects: seq<GraphicsObject>, hasSightAnim: bool, hasRemoveSightAnim: bool)

  /** The state after a run and the cues requested along the way, in order. */
  datatype Trace = Trace(state: State, cues: seq<string>)

  /** Outside the raid no callout is remembered. */
  predicate Quiet(s: State) {
    !s.inToaRaid ==> s.callout == Default
  }

  /** One event handler call. */
  function Step(s: State, e: Event): (r: Dispatch.Effect)
    ensures Quiet(s) ==> Quiet(r.state)
    ensures r.cue.Some? ==> s.inToaRaid && r.state.inToaRaid
  {
    match e
    case VarbitChanged(loggedIn, region) =>
      Dispatch.Effect(Presence.CheckInRaid(s, loggedIn, region), None, None)
    case SoundEffectPlayed(soundId, objs, a, b) =>
      Dispatch.OnSoundEffectPlayed(s, soundId, objs, a, b)
  }

  /** Deliver a sequence of events, collecting the requested cues. */
  function Run(s: State, evs: seq<Event>): (t: Trace)
    ensures Quiet(s) ==> Quiet(t.state)
    ensures |t.cues| <= |evs|
    decreases |evs|
  {
    if |evs| == 0 then Trace(s, [])
    else
      var r := Step(s, evs[0]);
      var rest := Run(r.state, evs[1..]);
      Trace(rest.state, (if r.cue.Some? then [r.cue.value] else []) + rest.cues)
  }

  /** A session started by startUp never holds a callout while outside the raid. */
  lemma SessionStaysQuiet(s: State, evs: seq<Event>)
    ensures Quiet(Run(Presence.StartUp(s), evs).state)
  {
  }

  /** After shutDown the invariant can fail: shutDown keeps the callout while leaving the raid. */
  lemma ShutDownLeavesCallout()
    ensures !Quiet(Presence.ShutDown(State(true, Vents, false)))
  {
  }

  /** A sight skull at the first vent point. */
  const VentSkull := GraphicsObject(Skull1GraphicsObjectId, VentLocation)

  /**
   * Lobby, then the Apmeken room, then an unrelated sound, then the sight
   * sound with a skull on the vents, then the lobby again: exactly one cue,
   * "vents", and the session ends outside the raid with no callout.
   */
  lemma LobbyRaidVentsLobby(s: State)
    ensures Run(s, [
      VarbitChanged(true, LobbyRegionId),
      VarbitChanged(true, ApmekenRegionId),
      SoundEffectPlayed(1, [VentSkull], false, false),
      SoundEffectPlayed(SightSoundEffectId, [VentSkull], false, false),
      VarbitChanged(true, LobbyRegionId)
    ]) == Trace(State(false, Default, s.hasSight), ["vents"])
  {
    var evs := [
      VarbitChanged(true, LobbyRegionId),
      VarbitChanged(true, ApmekenRegionId),
      SoundEffectPlayed(1, [VentSkull], false, false),
      SoundEffectPlayed(SightSoundEffectId, [VentSkull], false, false),
      VarbitChanged(true, LobbyRegionId)
    ];
    var s1 := State(false, Default, s.hasSight);
    var s2 := State(true, Default, s.hasSight);
    var s4 := State(true, Vents, s.hasSight);
    var s5 := State(false, Default, s.hasSight);
    assert Step(s, evs[0]).state == s1;
    assert Step(s1, evs[1]) == Dispatch.Effect(s2, None, None);
    assert Step(s2, evs[2]) == Dispatch.Effect(s2, None, None);
    assert Step(s2, evs[3]) == Dispatch.Effect(s4, Some("vents"), Dispatch.ChatFor(Vents)) by {
      Classifier.ScanSkullsLastMatch([VentSkull]);
      assert Classifier.IsLastMatch([VentSkull], 0);
    }
    assert Step(s4, evs[4]) == Dispatch.Effect(s5, None, None);
    assert Run(s4, evs[4..]) == Trace(s5, []) by {
      assert evs[4..][0] == evs[4] && evs[4..][1..] == [];
    }
    assert Run(s2, evs[3..]) == Trace(s5, ["vents"]) by {
      assert evs[3..][0] == evs[3] && evs[3..][1..] == evs[4..];
    }
    assert Run(s2, evs[2..]) == Trace(s5, ["vents"]) by {
      assert evs[2..][0] == evs[2] && evs[2..][1..] == evs[3..];
    }
    assert Run(s1, evs[1..]) == Trace(s5, ["vents"]) by {
      assert evs[1..][0] == evs[1] && evs[1..][1..] == evs[2..];
    }
  }
}

# Toa Time raid-state machine in Dafny

A model of the event-driven core of the Toa Time RuneLite plugin, which plays an audio cue for the
"sight" mechanic in the Tombs of Amascut raid. The plugin keeps three fields:
`inToaRaid`, `callout` and `hasSight`. Two handlers update them:

- The varbit-change handler (`checkInRaid`, `resetState`) decides from the player's map region
  whether the player is inside the raid.
- The sound-effect handler (`onSoundEffectPlayed`) reclassifies the callout whenever the sight sound
  (id 6574) plays inside the raid. It scans the drawn graphics objects for sight skulls (ids
  2134/2135) at the pillar or vent points, checks the local player's spot animations 2132 ("sight")
  and 2133 ("remove sight"), and falls back to double damage when the sight flag is remembered. It
  then asks for at most one cue (none for DEFAULT) and, for pillars and vents, posts a chat line.

Modules:

- `RaidState`: the closed `Callout` datatype, which replaces the string tags. It also holds the
  state record, the graphics-object record and the constants.
- `Presence`: region tracking, and the `startUp`/`shutDown` field resets.
- `Classifier`: the skull scan and `checkSightTiles`.
- `Dispatch`: the sound-effect handler and its cue and chat mapping.
- `Playback`: the resource path of a cue and the gain offset in Java `int` arithmetic.
- `Session`: runs of events delivered in order, with an invariant and a worked scenario.
- `Options`: a plain optional value.

Client queries are inputs to the model:

- the game state becomes `loggedIn`;
- the region becomes an `int`;
- the graphics-object deque becomes a sequence in iteration order;
- each `hasSpotAnim` query becomes a boolean.

Where the doc comment on `checkSightTiles` (ToatimePlugin.java:137-141) differs from the code, the
model follows the code:

- The spot-animation checks run after the scan whatever it found. They override a skull-derived
  callout, although the comment says animations are consulted only when there is no skull.

Further facts of the code that the model keeps:

- The `return` inside the `forEach` lambda only ends that object's step. The scan runs to the end,
  and the last matching skull wins.
- `SIGHT_CHANGE` asks for the cue `"sightchange"`.
- `resetState` keeps `hasSight`, and `shutDown` clears only `inToaRaid`.

## Model

| member | source | states |
|---|---|---|
| RaidState.Tag | src/main/java/com/toatime/ToatimePlugin.java:83-94 | every callout's stored string parses back to that callout, so the string switch distinguishes exactly the five callouts |
| RaidState.ParseTagSound | src/main/java/com/toatime/ToatimePlugin.java:83-94 | a string matched by a switch case is exactly the tag of the callout it stands for |
| RaidState.TagInjective | src/main/java/com/toatime/ToatimePlugin.java:42 | distinct callouts are stored as distinct strings |
| Presence.ResetState | src/main/java/com/toatime/ToatimePlugin.java:123-126 | a reset leaves the raid and sets the callout to DEFAULT; the sight flag survives |
| Presence.CheckInRaid | src/main/java/com/toatime/ToatimePlugin.java:111-118 | when not logged in, nothing changes. When logged in in Nexus 14160 or Apmeken 15186, only inToaRaid becomes true. In any other region, lobby included, inToaRaid is false and the callout is DEFAULT. hasSight is always preserved |
| Presence.CheckInRaidIdempotent | src/main/java/com/toatime/ToatimePlugin.java:111-118 | a second check with the same login status and region changes nothing, lobby double reset included |
| Presence.LobbyResets | src/main/java/com/toatime/ToatimePlugin.java:113-117 | the lobby region 13454 always yields inToaRaid false and callout DEFAULT, keeping hasSight |
| Presence.StartUp | src/main/java/com/toatime/ToatimePlugin.java:62-66 | startUp yields {false, DEFAULT, false} whatever the prior state |
| Presence.ShutDown | src/main/java/com/toatime/ToatimePlugin.java:73-76 | shutDown clears only inToaRaid, keeping callout and hasSight |
| Presence.DeferredCheckAfterStartUp | src/main/java/com/toatime/ToatimePlugin.java:64-69 | the deferred check after startUp leaves callout DEFAULT and hasSight false, and sets inToaRaid exactly when logged in inside a raid region |
| Classifier.SkullCallout | src/main/java/com/toatime/ToatimePlugin.java:146-155 | an object sets PILLARS iff it is skull 2134/2135 at (7744,7232) or (7744,8256). It sets VENTS iff it is such a skull at (7232,5696) or (7232,7744). Any other object leaves the callout alone |
| Classifier.ScanSkulls | src/main/java/com/toatime/ToatimePlugin.java:143-157 | the skull scan can only leave DEFAULT, PILLARS or VENTS behind |
| Classifier.ScanSkullsLastMatch | src/main/java/com/toatime/ToatimePlugin.java:143-157 | the scan yields the value set by the last matching skull in sequence order, and DEFAULT exactly when no object matches |
| Classifier.ScanGraphicsObjects | src/main/java/com/toatime/ToatimePlugin.java:143-157 | the forEach loop, which does not stop at a match, computes the last-match result: DEFAULT with no match, otherwise the last matching skull's callout |
| Classifier.ScanAppend | src/main/java/com/toatime/ToatimePlugin.java:145-157 | scanning a concatenation gives the later part's result unless that part has no match, in which case it gives the earlier part's result |
| Classifier.IrrelevantObject | src/main/java/com/toatime/ToatimePlugin.java:146-147 | inserting a non-matching object anywhere does not change the scan |
| Classifier.CheckSightTiles | src/main/java/com/toatime/ToatimePlugin.java:142-172 | spot-anim 2132 gives SIGHT_CHANGE with hasSight true, whatever skulls are drawn. Otherwise 2133 gives SIGHT_CHANGE with hasSight false. With neither, hasSight is kept and the last matching skull decides. DD results iff neither animation is present, hasSight is true and no skull matched. DEFAULT results iff neither animation is present, hasSight is false and no skull matched. inToaRaid is never touched |
| Classifier.StaleCalloutIgnored | src/main/java/com/toatime/ToatimePlugin.java:143 | the callout held before a pass never influences its result |
| Classifier.SightThenQuietIsDoubleDamage | src/main/java/com/toatime/ToatimePlugin.java:158-171 | after a pass that saw the sight animation, a pass with no skull match and no animation yields DD |
| Dispatch.OnSoundEffectPlayed | src/main/java/com/toatime/ToatimePlugin.java:79-97 | outside the raid, or for any sound but 6574, the call is a no-op with no cue and no chat. Otherwise the state is the reclassified one and a cue is asked for iff the callout is not DEFAULT. PILLARS gives "pillars" plus a chat line and VENTS gives "vents" plus a chat line. DD gives "DD" and SIGHT_CHANGE gives "sightchange", neither with a chat line. A chat line is only ever posted with a cue |
| Dispatch.CueNameInjective | src/main/java/com/toatime/ToatimePlugin.java:83-94 | distinct callouts ask for distinct cues, with DEFAULT alone asking for none, so the cue requested (or its absence) determines the callout |
| Dispatch.CuePathDeterminesCallout | src/main/java/com/toatime/ToatimePlugin.java:174-175 | the resource path asked for determines the callout that was classified |
| Dispatch.AnimationOverridesSkull | src/main/java/com/toatime/ToatimePlugin.java:158-162 | inside the raid, with the sight animation present, the sight sound always asks for "sightchange" with no chat line, whatever skulls are drawn |
| Playback.Wrap32 | src/main/java/com/toatime/ToatimePlugin.java:199 | Java int truncation: the result is congruent to the input modulo 2^32 |
| Playback.GainOffset | src/main/java/com/toatime/ToatimePlugin.java:199 | the offset is volume - 100. It wraps to volume - 100 + 2^32 only for volumes below Integer.MIN_VALUE + 100 |
| Playback.GainOffsetRoundTrip | src/main/java/com/toatime/ToatimePlugin.java:199 | adding 100 back in int arithmetic recovers the volume for every int |
| Playback.GainOffsetEndpoints | src/main/java/com/toatime/ToatimeConfig.java:15-18 | the default volume 100 maps to offset 0 and volume 0 maps to -100 |
| Playback.GainOffsetMonotone | src/main/java/com/toatime/ToatimePlugin.java:199 | on volumes 0..100 the offset lies in -100..0 and preserves order |
| Playback.SoundPath | src/main/java/com/toatime/ToatimePlugin.java:175 | the path is "/" then the name then ".wav", five characters longer than the name |
| Playback.SoundPathRoundTrip | src/main/java/com/toatime/ToatimePlugin.java:175 | every cue name is recovered from its path |
| Playback.CueOfPathSound | src/main/java/com/toatime/ToatimePlugin.java:175 | a path that parses as "/name.wav" is exactly the path of that name |
| Playback.SoundPathInjective | src/main/java/com/toatime/ToatimePlugin.java:175 | distinct cue names never share a path |
| Session.Step | src/main/java/com/toatime/ToatimePlugin.java:78-105 | each handler keeps "outside the raid the callout is DEFAULT", and a cue is only asked for inside the raid |
| Session.Run | src/main/java/com/toatime/ToatimePlugin.java:78-118 | a run of events keeps that invariant and asks for at most one cue per event |
| Session.SessionStaysQuiet | src/main/java/com/toatime/ToatimePlugin.java:62-66 | after startUp, no sequence of events leaves a callout remembered outside the raid |
| Session.ShutDownLeavesCallout | src/main/java/com/toatime/ToatimePlugin.java:73-76 | shutDown can break that invariant, because it keeps the callout while clearing inToaRaid |
| Session.LobbyRaidVentsLobby | src/main/java/com/toatime/ToatimePlugin.java:79-126 | lobby, then Apmeken, then an unrelated sound, then the sight sound with a vent skull, then lobby again: exactly one cue, "vents", ending with {false, DEFAULT, hasSight} |

## Left out

- Audio playback is left out because it is javax.sound I/O with a float gain. This covers `playSound` beyond the path and the offset, and `tryToLoadFile`: opening the resource, decoding the stream, acquiring and closing the `Clip`, setting the gain, `loop(0)`, and the exceptions. The checked ones (ToatimePlugin.java:183-192, :210) are logged and swallowed; unchecked ones from `clip.open`, `getControl` or `setValue` (:198-208) escape `playSound`.
- Presence.CheckInRaid: the model assumes the local player exists. `getRegion` dereferences `client.getLocalPlayer()` without a null check (ToatimePlugin.java:133). A null player throws at the first region read (:113), before any write, so the source leaves the state unchanged where the model may reset it.
- Classifier.CheckSightTiles: the model assumes the local player exists. `hasSpotAnim` is called on `client.getLocalPlayer()` without a null check (ToatimePlugin.java:158, :163). A null player throws after the scan (:143-157) has written its callout, so the animation checks, the DD fallback and the cue are skipped.
- Dispatch.OnSoundEffectPlayed: the chat line for PILLARS and VENTS assumes `playSound` returns normally. When an unchecked exception escapes it (an unsupported format at `clip.open`, a missing gain control, or a gain outside the control's range (below its minimum, typically -80 dB, so volumes 0..19, or above its maximum)), the source has already updated the state but posts no chat line.
- Playback.GainOffset: the conversion of the int offset to a `float` is not modelled (floating point). Beyond 2^24 in magnitude it rounds.
- `client.addChatMessage` is modelled only as the emitted `ChatLine` (sender and text). The chat type and the client call are not modelled.
- Region resolution (`getRegion`, `WorldPoint.fromLocalInstance`), `client.getGameState`, `client.getGraphicsObjects` and `hasSpotAnim` are RuneLite calls. Their results are inputs.
- Presence.CheckInRaid: `getRegion()` is called up to three times in one check. The model takes one region value for all of them, since the calls run back to back on the client thread.
- The deferral of the startup check (`clientThread.invokeLater`) is left out as host scheduling. Presence.DeferredCheckAfterStartUp states its effect as a separate later step.
- The `@Subscribe` event-bus wiring and the Guice `@Provides` config binding are left out as host lifecycle.
- Concurrency is left out: the host delivers events one at a time, which `Session.Run` models as a sequence.
- The configuration interface is not modelled beyond its default volume of 100.

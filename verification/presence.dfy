/**
 * The raid-presence tracker: checkInRaid, resetState and the plugin's
 * startUp and shutDown field resets.
 */
module Presence {
  import opened RaidState

  /** The two regions inside the raid in which the plugin is active. */
  predicate IsRaidRegion(region: int) {
    region == NexusRegionId || region == ApmekenRegionId
  }

  /** resetState: leave the raid and forget the callout; the sight flag survives. */
  function ResetState(s: State): (r: State)
    ensures !r.inToaRaid && r.callout == Default
    ensures r.hasSight == s.hasSight
  {
    s.(inToaRaid := false, callout := Default)
  }

  /**
   * checkInRaid, given whether the game is logged in and the local player's
   * region (every region lookup of one call yields the same value).
   */
  function CheckInRaid(s: State, loggedIn: bool, region: int): (r: State)
    ensures !loggedIn ==> r == s
    ensures loggedIn && IsRaidRegion(region) ==> r == s.(inToaRaid := true)
    ensures loggedIn && !IsRaidRegion(region) ==> r == s.(inToaRaid := false, callout := Default)
    ensures loggedIn ==> (r.inToaRaid <==> IsRaidRegion(region))
    ensures r.hasSight == s.hasSight
  {
    if !loggedIn then s
    else
      var afterLobby := if region == LobbyRegionId then ResetState(s) else s;
      if IsRaidRegion(region) then afterLobby.(inToaRaid := true)
      else ResetState(afterLobby)
  }

  /** Repeating a check with the same login status and region changes nothing more. */
  lemma CheckInRaidIdempotent(s: State, loggedIn: bool, region: int)
    ensures CheckInRaid(CheckInRaid(s, loggedIn, region), loggedIn, region) == CheckInRaid(s, loggedIn, region)
  {
  }

  /** The lobby always resets, whatever the state was. */
  lemma LobbyResets(s: State)
    ensures CheckInRaid(s, true, LobbyRegionId) == State(false, Default, s.hasSight)
  {
  }

  /** startUp: every field back to its initial value, whatever the state was. */
  function StartUp(s: State): (r: State)
    ensures !r.inToaRaid && r.callout == Default && !r.hasSight
  {
    State(false, Default, false)
  }

  /** shutDown: only the raid flag is cleared; callout and sight flag are kept. */
  function ShutDown(s: State): (r: State)
    ensures !r.inToaRaid
    ensures r.callout == s.callout && r.hasSight == s.hasSight
  {
    s.(inToaRaid := false)
  }

  /**
   * The check that startUp defers to the next client tick leaves the
   * callout at Default and the sight flag clear, and marks the raid exactly
   * when the player is logged in inside it.
   */
  lemma DeferredCheckAfterStartUp(s: State, loggedIn: bool, region: int)
    ensures var r := CheckInRaid(StartUp(s), loggedIn, region);
      && r.callout == Default && !r.hasSight
      && (r.inToaRaid <==> loggedIn && IsRaidRegion(region))
  {
  }
}

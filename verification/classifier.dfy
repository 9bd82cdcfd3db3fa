/**
 * The callout classifier, checkSightTiles: a scan over the drawn graphics
 * objects for sight skulls, then the local player's two spot animations,
 * then the double-damage fallback on the remembered sight flag.
 */
module Classifier {
  import opened Options
  import opened RaidState

  predicate IsSkull(o: GraphicsObject) {
    o.id == Skull1GraphicsObjectId || o.id == Skull2GraphicsObjectId
  }

  predicate AtPillars(p: LocalPoint) {
    p == PillarLocation || p == PillarLocation2
  }

  predicate AtVents(p: LocalPoint) {
    p == VentLocation || p == VentLocation2
  }

  /**
   * What one step of the scan does to the callout: Some(c) when the object
   * sets it to c, None when it leaves it alone. The pillar and vent points
   * are disjoint, so the order in which they are tested does not matter.
   */
  function SkullCallout(o: GraphicsObject): (r: Option<Callout>)
    ensures r == Some(Pillars) <==> IsSkull(o) && AtPillars(o.location)
    ensures r == Some(Vents) <==> IsSkull(o) && AtVents(o.location)
    ensures r.Some? ==> r.value == Pillars || r.value == Vents
  {
    if IsSkull(o) then
      if AtPillars(o.location) then Some(Pillars)
      else if AtVents(o.location) then Some(Vents)
      else None
    else None
  }

  /** No object in the sequence is a skull at a pillar or vent point. */
  ghost predicate NoSkullMatch(objs: seq<GraphicsObject>) {
    forall j | 0 <= j < |objs| :: SkullCallout(objs[j]).None?
  }

  /** objs[i] is a matching skull and no later object matches. */
  ghost predicate IsLastMatch(objs: seq<GraphicsObject>, i: int) {
    && 0 <= i < |objs|
    && SkullCallout(objs[i]).Some?
    && forall j | i < j < |objs| :: SkullCallout(objs[j]).None?
  }

  /**
   * The callout the scan leaves behind: the last object that sets it
   * decides, and Default stands when none does.
   */
  function ScanSkulls(objs: seq<GraphicsObject>): (r: Callout)
    ensures r == Default || r == Pillars || r == Vents
    decreases |objs|
  {
    if |objs| == 0 then Default
    else
      match SkullCallout(objs[|objs| - 1])
      case Some(c) => c
      case None => ScanSkulls(objs[..|objs| - 1])
  }

  /**
   * The scan's result is the value set by the last matching skull in
   * iteration order, and Default exactly when no object matches.
   */
  lemma {:induction false} ScanSkullsLastMatch(objs: seq<GraphicsObject>)
    ensures ScanSkulls(objs) == Default <==> NoSkullMatch(objs)
    ensures forall i | IsLastMatch(objs, i) :: ScanSkulls(objs) == SkullCallout(objs[i]).value
    decreases |objs|
  {
    if |objs| > 0 && SkullCallout(objs[|objs| - 1]).None? {
      var init := objs[..|objs| - 1];
      ScanSkullsLastMatch(init);
      assert forall j | 0 <= j < |init| :: init[j] == objs[j];
      assert forall i | IsLastMatch(objs, i) :: IsLastMatch(init, i);
    }
  }

  /**
   * The forEach over the graphics-object deque. The return inside the
   * lambda only ends the current object's step, so the scan runs to the end.
   */
  method ScanGraphicsObjects(objs: seq<GraphicsObject>) returns (callout: Callout)
    ensures callout == ScanSkulls(objs)
    ensures callout == Default <==> NoSkullMatch(objs)
    ensures forall i | IsLastMatch(objs, i) :: callout == SkullCallout(objs[i]).value
  {
    callout := Default;
    var i := 0;
    while i < |objs|
      invariant 0 <= i <= |objs|
      invariant callout == ScanSkulls(objs[..i])
    {
      ghost var next := objs[..i + 1];
      assert next[..|next| - 1] == objs[..i] && next[|next| - 1] == objs[i];
      match SkullCallout(objs[i]) {
        case Some(c) => callout := c;
        case None =>
      }
      i := i + 1;
    }
    assert objs[..|objs|] == objs;
    ScanSkullsLastMatch(objs);
  }

  /** Scanning a concatenation: the second part decides unless it has no match. */
  lemma {:induction false} ScanAppend(a: seq<GraphicsObject>, b: seq<GraphicsObject>)
    ensures ScanSkulls(a + b) == if NoSkullMatch(b) then ScanSkulls(a) else ScanSkulls(b)
    decreases |b|
  {
    if |b| == 0 {
      assert a + b == a;
    } else {
      var b' := b[..|b| - 1];
      assert (a + b)[..|a + b| - 1] == a + b';
      assert (a + b)[|a + b| - 1] == b[|b| - 1];
      assert b[..|b| - 1] == b';
      ScanAppend(a, b');
      if SkullCallout(b[|b| - 1]).None? {
        assert NoSkullMatch(b) <==> NoSkullMatch(b') by {
          assert forall j | 0 <= j < |b'| :: b'[j] == b[j];
        }
      }
    }
  }

  /** An object that is not a matching skull can be removed without changing the scan. */
  lemma IrrelevantObject(a: seq<GraphicsObject>, o: GraphicsObject, b: seq<GraphicsObject>)
    requires SkullCallout(o).None?
    ensures ScanSkulls(a + [o] + b) == ScanSkulls(a + b)
  {
    ScanAppend(a + [o], b);
    ScanAppend(a, [o]);
    ScanAppend(a, b);
  }

  /**
   * checkSightTiles over the object sequence and the two spot-animation
   * queries of the local player. The animation checks run after the scan
   * whatever it found, so they override a skull.
   */
  function CheckSightTiles(s: State, objs: seq<GraphicsObject>, hasSightAnim: bool, hasRemoveSightAnim: bool): (r: State)
    ensures r.inToaRaid == s.inToaRaid
    ensures hasSightAnim ==> r.callout == SightChange && r.hasSight
    ensures !hasSightAnim && hasRemoveSightAnim ==> r.callout == SightChange && !r.hasSight
    ensures !hasSightAnim && !hasRemoveSightAnim ==> r.hasSight == s.hasSight
    ensures !hasSightAnim && !hasRemoveSightAnim ==>
      forall i | IsLastMatch(objs, i) :: r.callout == SkullCallout(objs[i]).value
    ensures r.callout == DD <==> !hasSightAnim && !hasRemoveSightAnim && s.hasSight && NoSkullMatch(objs)
    ensures r.callout == Default <==> !hasSightAnim && !hasRemoveSightAnim && !s.hasSight && NoSkullMatch(objs)
  {
    ScanSkullsLastMatch(objs);
    var scanned := s.(callout := ScanSkulls(objs));
    if hasSightAnim then scanned.(callout := SightChange, hasSight := true)
    else if hasRemoveSightAnim then scanned.(callout := SightChange, hasSight := false)
    else if scanned.hasSight && scanned.callout == Default then scanned.(callout := DD)
    else scanned
  }

  /** The callout held before the pass never influences its result. */
  lemma StaleCalloutIgnored(s: State, c: Callout, objs: seq<GraphicsObject>, hasSightAnim: bool, hasRemoveSightAnim: bool)
    ensures CheckSightTiles(s.(callout := c), objs, hasSightAnim, hasRemoveSightAnim)
         == CheckSightTiles(s, objs, hasSightAnim, hasRemoveSightAnim)
  {
  }

  /**
   * Once the sight animation has been seen, a later pass with no skull and
   * no animation infers double damage from the remembered flag.
   */
  lemma SightThenQuietIsDoubleDamage(s: State, objs1: seq<GraphicsObject>, removeAnim: bool, objs2: seq<GraphicsObject>)
    requires NoSkullMatch(objs2)
    ensures CheckSightTiles(CheckSightTiles(s, objs1, true, removeAnim), objs2, false, false).callout == DD
  {
  }
}

/**
 * lib/formationManager.ts: `updateFormation` places every formation ship
 * relative to the leader, by its behaviour.
 */
module FormationManager {
  import opened Js
  import opened LibTypes

  /**
   * Where ship `i` goes. A trail ship takes the recorded leader position
   * `(i+1)*10` entries back, or the leader's position when the history is
   * that short; static and line ships sit at their offset from the leader;
   * orbit ships circle their offset point with radius 20 at angle
   * `now/1000 + offset`; any other behaviour leaves the ship in place.
   */
  function Follow(ship: PlayerShip, i: nat, player: Point, trailHistory: seq<Point>,
                  now: real, trig: Trig): (r: PlayerShip)
    ensures r == ship.(x := r.x, y := r.y)
    ensures ship.behavior == Some("trail") ==>
              Point(r.x, r.y) == (if (i + 1) * 10 < |trailHistory| then trailHistory[(i + 1) * 10] else player)
    ensures ship.behavior == Some("static") || ship.behavior == Some("line") ==>
              r.x == player.x + Coalesce(ship.baseOffsetX, 0.0) && r.y == player.y + Coalesce(ship.baseOffsetY, 0.0)
    ensures ship.behavior !in {Some("trail"), Some("static"), Some("line"), Some("orbit")} ==> r == ship
  {
    if ship.behavior == Some("trail") then
      var delay := (i + 1) * 10;
      if delay < |trailHistory| then ship.(x := trailHistory[delay].x, y := trailHistory[delay].y)
      else ship.(x := player.x, y := player.y)
    else if ship.behavior == Some("static") || ship.behavior == Some("line") then
      ship.(x := player.x + Coalesce(ship.baseOffsetX, 0.0), y := player.y + Coalesce(ship.baseOffsetY, 0.0))
    else if ship.behavior == Some("orbit") then
      var t := now / 1000.0;
      var ox, oy := Coalesce(ship.baseOffsetX, 0.0), Coalesce(ship.baseOffsetY, 0.0);
      ship.(x := player.x + ox + trig.cos(t + ox) * 20.0, y := player.y + oy + trig.sin(t + oy) * 20.0)
    else ship
  }

  /** The whole formation after one call. */
  function FollowAll(f: seq<PlayerShip>, player: Point, trailHistory: seq<Point>, now: real, trig: Trig): (r: seq<PlayerShip>)
    ensures |r| == |f|
  {
    seq(|f|, i requires 0 <= i < |f| => Follow(f[i], i, player, trailHistory, now, trig))
  }

  /**
   * updateFormation: every ship's `x`/`y` is rewritten by its behaviour; no
   * other field changes, and the leader and history are only read.
   */
  method UpdateFormation(playerFormation: List<PlayerShip>, player: Point, trailHistory: seq<Point>,
                         now: real, trig: Trig)
    modifies playerFormation
    ensures playerFormation.elems == FollowAll(old(playerFormation.elems), player, trailHistory, now, trig)
  {
    if |playerFormation.elems| == 0 {
      return;
    }
    ghost var f0 := playerFormation.elems;
    for i := 0 to |playerFormation.elems|
      invariant |playerFormation.elems| == |f0|
      invariant forall j :: 0 <= j < i ==> playerFormation.elems[j] == Follow(f0[j], j, player, trailHistory, now, trig)
      invariant forall j :: i <= j < |f0| ==> playerFormation.elems[j] == f0[j]
    {
      var ship := playerFormation.elems[i];
      if ship.behavior == Some("trail") {
        var delay := (i + 1) * 10;
        if delay < |trailHistory| {
          ship := ship.(x := trailHistory[delay].x, y := trailHistory[delay].y);
        } else {
          ship := ship.(x := player.x, y := player.y);
        }
      } else if ship.behavior == Some("static") || ship.behavior == Some("line") {
        ship := ship.(x := player.x + Coalesce(ship.baseOffsetX, 0.0), y := player.y + Coalesce(ship.baseOffsetY, 0.0));
      } else if ship.behavior == Some("orbit") {
        var t := now / 1000.0;
        var ox, oy := Coalesce(ship.baseOffsetX, 0.0), Coalesce(ship.baseOffsetY, 0.0);
        ship := ship.(x := player.x + ox + trig.cos(t + ox) * 20.0, y := player.y + oy + trig.sin(t + oy) * 20.0);
      }
      playerFormation.elems := playerFormation.elems[i := ship];
    }
  }

  /**
   * A ship's new position never depends on where it was, so a second call
   * with the same leader, history and time changes nothing.
   */
  lemma FollowIdempotent(f: seq<PlayerShip>, player: Point, trailHistory: seq<Point>, now: real, trig: Trig)
    ensures FollowAll(FollowAll(f, player, trailHistory, now, trig), player, trailHistory, now, trig)
              == FollowAll(f, player, trailHistory, now, trig)
  {
    var once := FollowAll(f, player, trailHistory, now, trig);
    forall i | 0 <= i < |f|
      ensures Follow(once[i], i, player, trailHistory, now, trig) == once[i]
    {
      var s := f[i];
      assert once[i] == Follow(s, i, player, trailHistory, now, trig);
      assert once[i] == s.(x := once[i].x, y := once[i].y);
    }
  }

  /**
   * With an empty history (the canvas game passes `[]`) every trail ship
   * sits on the leader.
   */
  lemma TrailWithoutHistory(f: seq<PlayerShip>, player: Point, now: real, trig: Trig, i: nat)
    requires i < |f| && f[i].behavior == Some("trail")
    ensures var r := FollowAll(f, player, [], now, trig)[i]; r.x == player.x && r.y == player.y
  {
  }
}

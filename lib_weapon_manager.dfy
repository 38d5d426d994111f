/**
 * lib/weaponManager.ts: the player's fire cooldown and the weapon table
 * of `fireFromShip`.
 */
module WeaponManager {
  import opened Js
  import opened LibTypes

  /** The reload time each weapon sets after a volley; unknown names are `basic`. */
  function Reload(weapon: string): (c: real)
    ensures c > 0.0
  {
    if weapon == "spread" then 0.5
    else if weapon == "laser" then 0.8
    else if weapon == "wide" then 0.6
    else 0.4
  }

  /** What one call does to a ship: its new cooldown and the bullets it pushes. */
  datatype Volley = Volley(cooldown: real, shots: seq<Bullet>)

  function PlayerShot(x: real, y: real, vx: Option<real>, vy: real, kind: string): Bullet
  {
    Bullet(x, y, vx, vy, kind, PlayerOwned, None)
  }

  /**
   * fireFromShip for `ship` over a tick of `dt` seconds with `weapon`.
   * The ship fires exactly when its counted-down cooldown is 0; every bullet
   * is player-owned and flies upward.
   */
  function ShipVolley(ship: PlayerShip, dt: real, weapon: string): (r: Volley)
    ensures r.cooldown >= 0.0
    ensures r.shots == [] <==> CooldownTick(ship.cooldown, dt) > 0.0
    ensures r.shots == [] ==> r.cooldown == CooldownTick(ship.cooldown, dt)
    ensures r.shots != [] ==> r.cooldown == Reload(weapon)
    ensures forall i :: 0 <= i < |r.shots| ==>
              r.shots[i].owner == PlayerOwned && r.shots[i].vy < 0.0 && r.shots[i].hp.None?
  {
    var cd := CooldownTick(ship.cooldown, dt);
    if cd > 0.0 then Volley(cd, [])
    else if weapon == "spread" then
      Volley(0.5, [PlayerShot(ship.x, ship.y - 20.0, Some(-80.0), -300.0, "spread"),
                   PlayerShot(ship.x, ship.y - 20.0, None, -300.0, "spread"),
                   PlayerShot(ship.x, ship.y - 20.0, Some(80.0), -300.0, "spread")])
    else if weapon == "laser" then
      Volley(0.8, [PlayerShot(ship.x, ship.y - 30.0, None, -600.0, "laser")])
    else if weapon == "wide" then
      Volley(0.6, [PlayerShot(ship.x - 10.0, ship.y - 20.0, None, -350.0, "wide"),
                   PlayerShot(ship.x + 10.0, ship.y - 20.0, None, -350.0, "wide")])
    else
      Volley(0.4, [PlayerShot(ship.x, ship.y - 20.0, None, -400.0, "small")])
  }

  /** The weapon table: the bullets each weapon pushes once the ship may fire. */
  lemma WeaponTable(ship: PlayerShip, dt: real, weapon: string)
    requires CooldownTick(ship.cooldown, dt) == 0.0
    ensures var r := ShipVolley(ship, dt, weapon);
      if weapon == "spread" then
        && |r.shots| == 3
        && r.shots[0].vx == Some(-80.0) && r.shots[1].vx.None? && r.shots[2].vx == Some(80.0)
        && (forall i :: 0 <= i < 3 ==> r.shots[i].x == ship.x && r.shots[i].y == ship.y - 20.0 && r.shots[i].vy == -300.0)
      else if weapon == "laser" then
        |r.shots| == 1 && r.shots[0] == Bullet(ship.x, ship.y - 30.0, None, -600.0, "laser", PlayerOwned, None)
      else if weapon == "wide" then
        && |r.shots| == 2
        && r.shots[0].x == ship.x - 10.0 && r.shots[1].x == ship.x + 10.0
        && (forall i :: 0 <= i < 2 ==> r.shots[i].y == ship.y - 20.0 && r.shots[i].vy == -350.0 && r.shots[i].vx.None?)
      else
        |r.shots| == 1 && r.shots[0] == Bullet(ship.x, ship.y - 20.0, None, -400.0, "small", PlayerOwned, None)
  {
  }

  /**
   * fireFromShip on the ship at index `k` of `ships`: write its cooldown and
   * push the volley onto `bullets`; no other ship or bullet changes.
   */
  method FireFromShip(ships: List<PlayerShip>, k: nat, bullets: List<Bullet>, dt: real, weapon: string)
    requires k < |ships.elems|
    modifies ships, bullets
    ensures var v := ShipVolley(old(ships.elems[k]), dt, weapon);
              && ships.elems == old(ships.elems)[k := old(ships.elems[k]).(cooldown := Some(v.cooldown))]
              && bullets.elems == old(bullets.elems) + v.shots
  {
    var ship := ships.elems[k];
    var cd := if FalsyNum(ship.cooldown) then 0.0 else ship.cooldown.value;
    cd := Max(0.0, cd - dt);
    ships.elems := ships.elems[k := ship.(cooldown := Some(cd))];
    if cd > 0.0 {
      return;
    }
    var x, y := ship.x, ship.y;
    if weapon == "spread" {
      bullets.elems := bullets.elems + [PlayerShot(x, y - 20.0, Some(-80.0), -300.0, "spread")];
      bullets.elems := bullets.elems + [PlayerShot(x, y - 20.0, None, -300.0, "spread")];
      bullets.elems := bullets.elems + [PlayerShot(x, y - 20.0, Some(80.0), -300.0, "spread")];
      cd := 0.5;
    } else if weapon == "laser" {
      bullets.elems := bullets.elems + [PlayerShot(x, y - 30.0, None, -600.0, "laser")];
      cd := 0.8;
    } else if weapon == "wide" {
      bullets.elems := bullets.elems + [PlayerShot(x - 10.0, y - 20.0, None, -350.0, "wide")];
      bullets.elems := bullets.elems + [PlayerShot(x + 10.0, y - 20.0, None, -350.0, "wide")];
      cd := 0.6;
    } else {
      bullets.elems := bullets.elems + [PlayerShot(x, y - 20.0, None, -400.0, "small")];
      cd := 0.4;
    }
    ships.elems := ships.elems[k := ship.(cooldown := Some(cd))];
  }

  /**
   * A ship called once per tick with the tick lengths `dts`: how many of
   * those calls push bullets.
   */
  function VolleyCount(ship: PlayerShip, dts: seq<real>, weapon: string): nat
    decreases |dts|
  {
    if dts == [] then 0
    else
      var v := ShipVolley(ship, dts[0], weapon);
      (if v.shots == [] then 0 else 1) + VolleyCount(ship.(cooldown := Some(v.cooldown)), dts[1..], weapon)
  }

  /** The ship after it has been called once per tick with the tick lengths `dts`. */
  function AfterTicks(ship: PlayerShip, dts: seq<real>, weapon: string): PlayerShip
    decreases |dts|
  {
    if dts == [] then ship
    else AfterTicks(ship.(cooldown := Some(ShipVolley(ship, dts[0], weapon).cooldown)), dts[1..], weapon)
  }

  /**
   * Rate limit: a ship whose cooldown is `c > 0` fires on none of the next
   * ticks while they add up to less than `c` seconds, and its cooldown is
   * then `c` minus the elapsed time.
   */
  lemma {:induction false} NoVolleyWhileReloading(ship: PlayerShip, dts: seq<real>, weapon: string)
    requires ship.cooldown.Some? && ship.cooldown.value > 0.0
    requires NonNegative(dts) && Sum(dts) < ship.cooldown.value
    ensures VolleyCount(ship, dts, weapon) == 0
    ensures AfterTicks(ship, dts, weapon).cooldown == Some(ship.cooldown.value - Sum(dts))
    decreases |dts|
  {
    if dts != [] {
      SumNonNegative(dts[1..]);
      var v := ShipVolley(ship, dts[0], weapon);
      assert v.cooldown == ship.cooldown.value - dts[0];
      assert NonNegative(dts[1..]);
      NoVolleyWhileReloading(ship.(cooldown := Some(v.cooldown)), dts[1..], weapon);
    }
  }

  /**
   * Right after a volley, the same weapon cannot fire again until its
   * reload time has fully elapsed.
   */
  lemma ReloadAfterVolley(ship: PlayerShip, dt: real, dts: seq<real>, weapon: string)
    requires ShipVolley(ship, dt, weapon).shots != []
    requires NonNegative(dts) && Sum(dts) < Reload(weapon)
    ensures VolleyCount(ship.(cooldown := Some(ShipVolley(ship, dt, weapon).cooldown)), dts, weapon) == 0
  {
    NoVolleyWhileReloading(ship.(cooldown := Some(ShipVolley(ship, dt, weapon).cooldown)), dts, weapon);
  }
}

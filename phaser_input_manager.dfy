/**
 * Keyboard and pointer handling in the Phaser build
 * (phaser/systems/InputManager.ts): the cursor keys set the player's velocity
 * and the fire button, throttled by a cooldown, makes the player fire from
 * the shared bullet pool.
 */
module PhaserInput {
  import PhaserBullet
  import PhaserPlayer

  /** Which cursor keys are down; a key the keyboard lacks counts as up. */
  datatype Cursors = Cursors(left: bool, right: bool, up: bool, down: bool, space: bool)

  const Speed: real := 280.0
  const FireInterval: real := 0.15

  /** `(neg ? -1 : 0) + (pos ? 1 : 0)`. */
  function Axis(neg: bool, pos: bool): (r: int)
    ensures r in {-1, 0, 1}
    ensures r == 0 <==> neg == pos
    ensures r == 1 <==> pos && !neg
  {
    (if neg then -1 else 0) + (if pos then 1 else 0)
  }

  /** Whether this update fires, given the cooldown left before it. */
  predicate Fires(c: Cursors, pointerDown: bool, cooldown: real, delta: real)
  {
    (c.space || pointerDown) && cooldown - delta / 1000.0 <= 0.0
  }

  /** The cooldown after one update of `delta` ms. */
  function NextCooldown(c: Cursors, pointerDown: bool, cooldown: real, delta: real): real
  {
    if Fires(c, pointerDown, cooldown, delta) then FireInterval else cooldown - delta / 1000.0
  }

  class InputManager {
    const player: PhaserPlayer.Player
    var fireCooldown: real

    constructor (player0: PhaserPlayer.Player)
      ensures player == player0 && fireCooldown == 0.0
    {
      player := player0;
      fireCooldown := 0.0;
    }

    /**
     * `update(delta)`: `b` is what the bullet pool's `get` returns if the
     * player fires (null on a miss). Reports whether `player.fire` ran.
     */
    method Update(delta: real, c: Cursors, pointerDown: bool, b: PhaserBullet.Bullet?) returns (fired: bool)
      modifies this, player, b
      ensures player.vx == Axis(c.left, c.right) as real * Speed && player.vy == Axis(c.up, c.down) as real * Speed
      ensures player.x == old(player.x) && player.y == old(player.y) && player.State() == old(player.State())
      ensures fired == Fires(c, pointerDown, old(fireCooldown), delta)
      ensures fireCooldown == NextCooldown(c, pointerDown, old(fireCooldown), delta)
      ensures fired && b != null ==>
                b.State() == PhaserBullet.Initialised(old(b.State()), player.x, player.y - 20.0, 0.0, -400.0, "bullet", "player")
      ensures !fired && b != null ==> b.State() == old(b.State())
    {
      var dt := delta / 1000.0;
      var vx := Axis(c.left, c.right);
      var vy := Axis(c.up, c.down);
      player.SetVelocity(vx as real * Speed, vy as real * Speed);
      fireCooldown := fireCooldown - dt;
      fired := false;
      if (c.space || pointerDown) && fireCooldown <= 0.0 {
        fireCooldown := FireInterval;
        player.Fire(b);
        fired := true;
      }
    }
  }

  /** Opposite keys cancel; the speed on each axis is 0 or 280. */
  lemma OppositeKeysCancel(neg: bool, pos: bool)
    ensures Axis(neg, pos) as real * Speed in {-280.0, 0.0, 280.0}
    ensures Axis(true, true) == 0 && Axis(false, false) == 0
  {
  }

  /**
   * The cooldown is not clamped: it keeps falling while the button is up;
   * after a shot the next one needs at least 150 ms of updates.
   */
  lemma CooldownRule(c: Cursors, pointerDown: bool, cooldown: real, delta: real, delta2: real)
    requires delta >= 0.0 && delta2 >= 0.0
    ensures !(c.space || pointerDown) ==> NextCooldown(c, pointerDown, cooldown, delta) == cooldown - delta / 1000.0
    ensures Fires(c, pointerDown, cooldown, delta) && delta2 < 150.0 ==>
              !Fires(c, pointerDown, NextCooldown(c, pointerDown, cooldown, delta), delta2)
    ensures Fires(c, pointerDown, cooldown, delta) && delta2 >= 150.0 ==>
              Fires(c, pointerDown, NextCooldown(c, pointerDown, cooldown, delta), delta2)
  {
  }
}

/**
 * The pooled projectile of the Phaser build (phaser/entities/Bullet.ts):
 * a sprite whose `init` readies it for reuse and whose `kill` returns it to
 * its group. Sprite position, velocity and the flags the engine keeps
 * (active, visible, body enabled) are fields of the class.
 */
module PhaserBullet {

  /** Everything `init` and `kill` read or write, as one value. */
  datatype BulletState = BulletState(
    x: real, y: real, vx: real, vy: real,
    active: bool, visible: bool, bodyEnabled: bool,
    texture: string, owner: string, damage: real)

  /** `init`: placed, moving, shown and active; damage is always reset to 1. */
  function Initialised(s: BulletState, x: real, y: real, vx: real, vy: real, texture: string, owner: string): BulletState
  {
    s.(x := x, y := y, vx := vx, vy := vy, active := true, visible := true,
       texture := texture, owner := owner, damage := 1.0)
  }

  /** `kill`: hidden, inactive, its body stopped and disabled. */
  function Killed(s: BulletState): BulletState
  {
    s.(active := false, visible := false, vx := 0.0, vy := 0.0, bodyEnabled := false)
  }

  class Bullet {
    var x: real
    var y: real
    var vx: real
    var vy: real
    var active: bool
    var visible: bool
    var bodyEnabled: bool
    var texture: string
    var owner: string
    var damage: real

    function State(): BulletState
      reads this
    {
      BulletState(x, y, vx, vy, active, visible, bodyEnabled, texture, owner, damage)
    }

    /**
     * A fresh sprite at `(x, y)`: the engine makes it active and visible with
     * an enabled body; the bullet itself sets damage 1 and owner "player".
     */
    constructor (x0: real, y0: real, texture0: string)
      ensures State() == BulletState(x0, y0, 0.0, 0.0, true, true, true, texture0, "player", 1.0)
    {
      x, y, vx, vy := x0, y0, 0.0, 0.0;
      active, visible, bodyEnabled := true, true, true;
      texture, owner, damage := texture0, "player", 1.0;
    }

    method Init(x0: real, y0: real, vx0: real, vy0: real, texture0: string, owner0: string)
      modifies this
      ensures State() == Initialised(old(State()), x0, y0, vx0, vy0, texture0, owner0)
    {
      texture := texture0;
      x, y := x0, y0;
      active, visible := true, true;
      vx, vy := vx0, vy0;
      owner := owner0;
      damage := 1.0;
    }

    method Kill()
      modifies this
      ensures State() == Killed(old(State()))
    {
      active := false;
      visible := false;
      vx, vy := 0.0, 0.0;
      bodyEnabled := false;
    }
  }

  /** Killing twice leaves the bullet as killing once does. */
  lemma KillIdempotent(s: BulletState)
    ensures Killed(Killed(s)) == Killed(s)
  {
  }

  /** After `kill` nothing of the bullet is live, whatever its state before. */
  lemma KilledIsInert(s: BulletState)
    ensures var k := Killed(s); !k.active && !k.visible && !k.bodyEnabled && k.vx == 0.0 && k.vy == 0.0
    ensures Killed(s).owner == s.owner && Killed(s).damage == s.damage
  {
  }

  /**
   * `init` depends only on its arguments for everything but the body flag:
   * two bullets initialised alike differ at most in `bodyEnabled`, and
   * `init` never turns a body that `kill` disabled back on.
   */
  lemma InitForgetsThePast(s: BulletState, t: BulletState, x: real, y: real, vx: real, vy: real, texture: string, owner: string)
    ensures Initialised(s, x, y, vx, vy, texture, owner) == Initialised(t, x, y, vx, vy, texture, owner).(bodyEnabled := s.bodyEnabled)
    ensures !Initialised(Killed(s), x, y, vx, vy, texture, owner).bodyEnabled
    ensures Initialised(s, x, y, vx, vy, texture, owner).damage == 1.0
  {
  }
}

/**
 * The pooled projectile of the second Phaser build (entities/Bullet.ts). Its
 * constructor registers a physics body, so the body always exists; what
 * changes is whether it is enabled, where it was last reset to, and the
 * sprite's own flags.
 */
module EntityBullet {
  import opened Js

  datatype BulletState = BulletState(
    x: real, y: real, vx: real, vy: real,
    active: bool, visible: bool, bodyEnabled: bool,
    texture: string, owner: string, damage: real)

  /**
   * `init`: texture, position, owner and damage stored (defaults "bullet",
   * "player" and 1 for missing arguments); the body reset to `(x, y)` and
   * enabled; the sprite active, visible and moving at `(vx, vy)`.
   */
  function Initialised(s: BulletState, x: real, y: real, vx: real, vy: real,
                       texture: Option<string>, owner: Option<string>, damage: Option<real>): BulletState
  {
    s.(x := x, y := y, vx := vx, vy := vy, active := true, visible := true, bodyEnabled := true,
       texture := Coalesce(texture, "bullet"), owner := Coalesce(owner, "player"), damage := Coalesce(damage, 1.0))
  }

  /**
   * `kill`: with an enabled body, `disableBody(true, true)` stops and disables
   * it and hides and deactivates the sprite; otherwise only the sprite's
   * flags are cleared.
   */
  function Killed(s: BulletState): BulletState
  {
    if s.bodyEnabled then s.(active := false, visible := false, vx := 0.0, vy := 0.0, bodyEnabled := false)
    else s.(active := false, visible := false)
  }

  class Bullet {
    var x: real
    var y: real
    var vx: real
    var vy: real
    var active: bool
    var visible: bool
    var bodyEnabled: bool
    var texture: string
    var owner: string
    var damage: real

    function State(): BulletState
      reads this
    {
      BulletState(x, y, vx, vy, active, visible, bodyEnabled, texture, owner, damage)
    }

    /** A new bullet waits in its pool: inactive, hidden, body disabled. */
    constructor (x0: real, y0: real, texture0: string)
      ensures State() == BulletState(x0, y0, 0.0, 0.0, false, false, false, texture0, "player", 1.0)
    {
      x, y, vx, vy := x0, y0, 0.0, 0.0;
      damage, owner, texture := 1.0, "player", texture0;
      active := false;
      visible := false;
      bodyEnabled := false;
    }

    method Init(x0: real, y0: real, vx0: real, vy0: real,
                texture0: Option<string>, owner0: Option<string>, damage0: Option<real>)
      modifies this
      ensures State() == Initialised(old(State()), x0, y0, vx0, vy0, texture0, owner0, damage0)
    {
      texture := Coalesce(texture0, "bullet");
      x, y := x0, y0;
      owner := Coalesce(owner0, "player");
      damage := Coalesce(damage0, 1.0);
      // body.reset(x, y) puts the body at rest at the new position
      vx, vy := 0.0, 0.0;
      bodyEnabled := true;
      active := true;
      visible := true;
      vx, vy := vx0, vy0;
    }

    method Kill()
      modifies this
      ensures State() == Killed(old(State()))
    {
      if bodyEnabled {
        active := false;
        visible := false;
        vx, vy := 0.0, 0.0;
        bodyEnabled := false;
      } else {
        active := false;
        visible := false;
      }
    }
  }

  /** Whichever branch `kill` takes, the bullet ends inactive, hidden and without an enabled body. */
  lemma KilledIsInert(s: BulletState)
    ensures !Killed(s).active && !Killed(s).visible && !Killed(s).bodyEnabled
    ensures Killed(s).owner == s.owner && Killed(s).damage == s.damage && Killed(s).x == s.x && Killed(s).y == s.y
  {
  }

  /** Killing a killed bullet changes nothing. */
  lemma KillIdempotent(s: BulletState)
    ensures Killed(Killed(s)) == Killed(s)
  {
  }

  /** A bullet back from the pool is fully live again, unlike the other build's. */
  lemma InitRevivesKilled(s: BulletState, x: real, y: real, vx: real, vy: real)
    ensures var t := Initialised(Killed(s), x, y, vx, vy, None, None, None);
      t.active && t.visible && t.bodyEnabled && t.owner == "player" && t.damage == 1.0 && t.texture == "bullet"
    ensures Initialised(Killed(s), x, y, vx, vy, None, None, None) == Initialised(s, x, y, vx, vy, None, None, None)
  {
  }
}

/**
 * The pooled enemy of the Phaser build (phaser/entities/Enemy.ts). The
 * module-level id counter is an object of its own; the looping fire timer
 * is the pending event the enemy holds, if any.
 */
module PhaserEnemy {
  import opened Js
  import PhaserBullet

  /** The module variable `nextEnemyId`, starting at 1. */
  class EnemyIds {
    var next: int

    constructor ()
      ensures next == 1
    {
      next := 1;
    }
  }

  /** A looping timer event of `delay` ms that runs the fire callback. */
  datatype FireTimer = FireTimer(delay: int)

  datatype EnemyState = EnemyState(
    id: int, hp: real,
    x: real, y: real, vx: real, vy: real, size: real,
    active: bool, visible: bool, bodyEnabled: bool,
    fireTimer: Option<FireTimer>)

  /** `init`: id, hp, position, velocity and size set; active, visible, body on. */
  function Initialised(s: EnemyState, id: int, x: real, y: real, vx: real, vy: real, size: real, hp: real): EnemyState
  {
    s.(id := id, hp := hp, x := x, y := y, vx := vx, vy := vy, size := size,
       active := true, visible := true, bodyEnabled := true)
  }

  /** `stopFiring`: the fire timer, if any, is removed. */
  function Stopped(s: EnemyState): EnemyState
  {
    s.(fireTimer := None)
  }

  /** `kill`: firing stopped, hidden, inactive, body stopped and disabled. */
  function Killed(s: EnemyState): EnemyState
  {
    Stopped(s).(active := false, visible := false, vx := 0.0, vy := 0.0, bodyEnabled := false)
  }

  /** `takeDamage`: hp drops by `amount` with no clamp, and the enemy dies at hp <= 0. */
  function Damaged(s: EnemyState, amount: real): (r: EnemyState)
    ensures r.hp == s.hp - amount && r.id == s.id && r.x == s.x && r.y == s.y
    ensures r.active <==> s.active && s.hp - amount > 0.0
  {
    var t := s.(hp := s.hp - amount);
    if t.hp <= 0.0 then Killed(t) else t
  }

  /** `startFiring`: any earlier timer is removed before the new one is added. */
  function Firing(s: EnemyState, delay: int): EnemyState
  {
    s.(fireTimer := Some(FireTimer(delay)))
  }

  class Enemy {
    var id: int
    var hp: real
    var x: real
    var y: real
    var vx: real
    var vy: real
    var size: real
    var active: bool
    var visible: bool
    var bodyEnabled: bool
    var fireTimer: Option<FireTimer>

    function State(): EnemyState
      reads this
    {
      EnemyState(id, hp, x, y, vx, vy, size, active, visible, bodyEnabled, fireTimer)
    }

    /** A new enemy takes the next id, has hp 1 and is inactive and hidden. */
    constructor (ids: EnemyIds, x0: real, y0: real)
      modifies ids
      ensures State() == EnemyState(old(ids.next), 1.0, x0, y0, 0.0, 0.0, 40.0, false, false, true, None)
      ensures ids.next == old(ids.next) + 1
    {
      id := ids.next;
      ids.next := ids.next + 1;
      hp := 1.0;
      x, y, vx, vy := x0, y0, 0.0, 0.0;
      size := 40.0;
      active, visible, bodyEnabled := false, false, true;
      fireTimer := None;
    }

    method Init(id0: int, x0: real, y0: real, vx0: real, vy0: real, size0: real, hp0: real)
      modifies this
      ensures State() == Initialised(old(State()), id0, x0, y0, vx0, vy0, size0, hp0)
    {
      id := id0;
      hp := hp0;
      x, y := x0, y0;
      vx, vy := vx0, vy0;
      size := size0;
      active, visible, bodyEnabled := true, true, true;
    }

    method SetVelocity(vx0: real, vy0: real)
      modifies this
      ensures State() == old(State()).(vx := vx0, vy := vy0)
    {
      vx, vy := vx0, vy0;
    }

    /** `delay` is the `Phaser.Math.Between(800, 1600)` draw. */
    method StartFiring(delay: int)
      requires 800 <= delay <= 1600
      modifies this
      ensures State() == Firing(old(State()), delay)
    {
      fireTimer := Some(FireTimer(delay));
    }

    method StopFiring()
      modifies this
      ensures State() == Stopped(old(State()))
    {
      if fireTimer.Some? {
        fireTimer := None;
      }
    }

    method Kill()
      modifies this
      ensures State() == Killed(old(State()))
    {
      StopFiring();
      active := false;
      visible := false;
      vx, vy := 0.0, 0.0;
      bodyEnabled := false;
    }

    method TakeDamage(amount: real) returns (killed: bool)
      modifies this
      ensures State() == Damaged(old(State()), amount)
      ensures killed <==> old(hp) - amount <= 0.0
    {
      hp := hp - amount;
      if hp <= 0.0 {
        Kill();
        return true;
      }
      return false;
    }

    /**
     * One run of the fire timer's callback. `b` is what the bullet group's
     * `get` returned (null when the pool is exhausted). An active enemy
     * readies that bullet just below itself, heading down at 200 px/s.
     */
    method FireTick(b: PhaserBullet.Bullet?)
      modifies b
      ensures b != null && active ==>
                b.State() == PhaserBullet.Initialised(old(b.State()), x, y + 20.0, 0.0, 200.0, "bullet", "enemy")
      ensures b != null && !active ==> b.State() == old(b.State())
    {
      if !active {
        return;
      }
      if b == null {
        return;
      }
      b.Init(x, y + 20.0, 0.0, 200.0, "bullet", "enemy");
    }
  }

  /** `takeDamage` reports a kill exactly when the enemy ends dead, and then it no longer fires. */
  lemma DamageKillsAtZero(s: EnemyState, amount: real)
    ensures Damaged(s, amount).hp == s.hp - amount
    ensures s.hp - amount <= 0.0 ==> Damaged(s, amount) == Killed(s.(hp := s.hp - amount))
    ensures s.hp - amount > 0.0 ==> Damaged(s, amount) == s.(hp := s.hp - amount)
    ensures !Damaged(s, amount).active ==> !s.active || s.hp - amount <= 0.0
  {
  }

  /** Damage is cumulative: two hits that leave the enemy alive equal one hit of their sum. */
  lemma DamageAdds(s: EnemyState, a: real, b: real)
    requires s.hp - a > 0.0
    ensures Damaged(Damaged(s, a), b) == Damaged(s, a + b)
  {
  }

  /** `stopFiring` and `kill` are idempotent; `kill` leaves no timer. */
  lemma StopAndKillIdempotent(s: EnemyState)
    ensures Stopped(Stopped(s)) == Stopped(s)
    ensures Killed(Killed(s)) == Killed(s)
    ensures Killed(s).fireTimer.None? && !Killed(s).active && !Killed(s).visible && !Killed(s).bodyEnabled
  {
  }

  /** Starting to fire twice leaves exactly the second timer. */
  lemma StartFiringReplaces(s: EnemyState, d1: int, d2: int)
    ensures Firing(Firing(s, d1), d2) == Firing(s, d2)
    ensures Stopped(Firing(s, d1)) == Stopped(s)
  {
  }
}

/**
 * The enemy of the second Phaser build (entities/Enemy.ts): a kind-dependent
 * shooting profile, a looping fire timer that captures the profile when it
 * is started, and a fire routine that readies one pooled bullet per angle
 * offset of the pattern.
 */
module EntityEnemy {
  import opened Js

  const Pi: real := 3.141592653589793

  /** `getShootingProfile`'s record: pattern name, timer period in ms, bullet speed. */
  datatype Profile = Profile(pattern: string, rate: int, speed: real)

  /** A looping timer event carrying the profile captured by `startFiring`. */
  datatype FireTimer = FireTimer(delay: int, profile: Profile)

  /** A pooled bullet as `spawnBullet` leaves it: placed, shown and launched. */
  datatype Shot = Shot(x: real, y: real, angle: real, speed: real)

  function ShootingProfile(kind: string): (p: Profile)
    ensures kind == "bruiser" ==> p == Profile("spread", 2000, 120.0)
    ensures kind == "scout" ==> p == Profile("straight", 1500, 180.0)
    ensures kind != "bruiser" && kind != "scout" ==> p == Profile("random", 2500, 150.0)
    ensures p.rate > 0 && p.speed > 0.0
  {
    match kind
    case "bruiser" => Profile("spread", 2000, 120.0)
    case "scout" => Profile("straight", 1500, 180.0)
    case _ => Profile("random", 2500, 150.0)
  }

  /**
   * The angle offsets `fire` tries, in order; `draw` is the `Math.random()`
   * of the "random" pattern. An unknown pattern fires nothing.
   */
  function Offsets(pattern: string, draw: real): seq<real>
  {
    match pattern
    case "straight" => [0.0]
    case "spread" => [-0.2, 0.0, 0.2]
    case "burst" => seq(5, k => (k - 2) as real * 0.15)
    case "random" => if draw < 0.5 then [0.0] else []
    case _ => []
  }

  /**
   * The bullets readied by the first `n` offsets, fired from `(x, y)`: the
   * `k`-th `group.get` call returns nothing exactly when `k` is in `misses`.
   */
  function Shots(x: real, y: real, offs: seq<real>, n: nat, speed: real, misses: set<nat>): seq<Shot>
    requires n <= |offs|
  {
    if n == 0 then []
    else
      var fired := if n - 1 in misses then [] else [Shot(x, y, Pi / 2.0 + offs[n - 1], speed)];
      Shots(x, y, offs, n - 1, speed, misses) + fired
  }

  class Enemy {
    var x: real
    var y: real
    var vx: real
    var vy: real
    var size: real
    var hp: real
    var kind: string
    var active: bool
    var fireTimer: Option<FireTimer>

    /** A new enemy has hp 1, kind "scout" and no timer. */
    constructor (x0: real, y0: real)
      ensures x == x0 && y == y0 && hp == 1.0 && kind == "scout" && fireTimer.None? && active
    {
      x, y, vx, vy := x0, y0, 0.0, 0.0;
      size := 48.0;
      hp := 1.0;
      kind := "scout";
      active := true;
      fireTimer := None;
    }

    /** `init(idx, x, y, vx, vy, size, hp, type = "scout")`; `idx` is unused. */
    method Init(idx: real, x0: real, y0: real, vx0: real, vy0: real, size0: real, hp0: real, kind0: Option<string>)
      modifies this
      ensures x == x0 && y == y0 && vx == vx0 && vy == vy0 && size == size0
      ensures hp == hp0 && kind == Coalesce(kind0, "scout")
      ensures active == old(active) && fireTimer == old(fireTimer)
    {
      x, y := x0, y0;
      vx, vy := vx0, vy0;
      size := size0;
      hp := hp0;
      kind := Coalesce(kind0, "scout");
    }

    /** Any earlier timer is removed; the new one loops at the profile's rate. */
    method StartFiring()
      modifies this
      ensures fireTimer == Some(FireTimer(ShootingProfile(kind).rate, ShootingProfile(kind)))
      ensures x == old(x) && y == old(y) && hp == old(hp) && kind == old(kind) && active == old(active)
    {
      if fireTimer.Some? {
        fireTimer := None;
      }
      var profile := ShootingProfile(kind);
      fireTimer := Some(FireTimer(profile.rate, profile));
    }

    /**
     * One run of the timer's callback with the captured `profile`. Every
     * bullet readied is appended to `group`; an inactive enemy does nothing.
     */
    method Fire(group: List<Shot>, profile: Profile, draw: real, misses: set<nat>)
      modifies group
      ensures active ==> group.elems == old(group.elems) + Shots(x, y, Offsets(profile.pattern, draw),
                                                                  |Offsets(profile.pattern, draw)|, profile.speed, misses)
      ensures !active ==> group.elems == old(group.elems)
    {
      if !active {
        return;
      }
      var offs := Offsets(profile.pattern, draw);
      var k := 0;
      while k < |offs|
        invariant 0 <= k <= |offs|
        invariant group.elems == old(group.elems) + Shots(x, y, offs, k, profile.speed, misses)
      {
        SpawnBullet(group, k, offs[k], profile.speed, misses);
        k := k + 1;
      }
    }

    /** `spawnBullet`: the `k`-th pool request; a miss skips this bullet only. */
    method SpawnBullet(group: List<Shot>, k: nat, offset: real, speed: real, misses: set<nat>)
      modifies group
      ensures group.elems == old(group.elems) + (if k in misses then [] else [Shot(x, y, Pi / 2.0 + offset, speed)])
    {
      if k in misses {
        return;
      }
      group.elems := group.elems + [Shot(x, y, Pi / 2.0 + offset, speed)];
    }
  }

  /** Every readied bullet leaves from the enemy at its pattern's speed, heading down plus one offset. */
  lemma {:induction false} ShotsHeadDown(x: real, y: real, offs: seq<real>, n: nat, speed: real, misses: set<nat>)
    requires n <= |offs|
    ensures |Shots(x, y, offs, n, speed, misses)| <= n
    ensures forall s :: s in Shots(x, y, offs, n, speed, misses) ==>
              s.x == x && s.y == y && s.speed == speed && exists k :: 0 <= k < n && s.angle == Pi / 2.0 + offs[k]
  {
    if n > 0 {
      ShotsHeadDown(x, y, offs, n - 1, speed, misses);
    }
  }

  /** Without pool misses every offset yields exactly one bullet, in order. */
  lemma {:induction false} ShotsWithoutMisses(x: real, y: real, offs: seq<real>, n: nat, speed: real)
    requires n <= |offs|
    ensures |Shots(x, y, offs, n, speed, {})| == n
    ensures forall k :: 0 <= k < n ==> Shots(x, y, offs, n, speed, {})[k] == Shot(x, y, Pi / 2.0 + offs[k], speed)
  {
    if n > 0 {
      ShotsWithoutMisses(x, y, offs, n - 1, speed);
    }
  }

  /** The bullet counts per pattern: 1, 3, 5, one iff the draw is below 0.5, and none otherwise. */
  lemma PatternSizes(draw: real)
    ensures |Offsets("straight", draw)| == 1 && |Offsets("spread", draw)| == 3 && |Offsets("burst", draw)| == 5
    ensures |Offsets("random", draw)| == (if draw < 0.5 then 1 else 0)
    ensures Offsets("burst", draw) == [-0.3, -0.15, 0.0, 0.15, 0.3]
    ensures Offsets("spread", draw) == [-0.2, 0.0, 0.2]
    ensures Offsets("zigzag", draw) == []
  {
    assert Offsets("burst", draw)[0] == -0.3;
  }
}

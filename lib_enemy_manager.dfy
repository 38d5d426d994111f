/**
 * lib/enemyManager.ts: the time-cursor spawn scheduler and the per-tick
 * enemy update (movement, fire cooldown, three fire patterns).
 */
module EnemyManager {
  import opened Js
  import opened LibTypes

  /** One timed entry of a spawn file's `spawn` array. */
  datatype SpawnEntry = SpawnEntry(
    t_ms: real,
    x_norm: Option<real>, y_norm: Option<real>,
    vx_px_s: Option<real>, vy_px_s: Option<real>,
    hp: Option<real>)

  /** A loaded spawn file; `spawn` may be missing. */
  datatype EnemySpec = EnemySpec(spawn: Option<seq<SpawnEntry>>)

  /** The `spawn` array of the spec, or nothing when either is missing. */
  function Entries(spec: Option<EnemySpec>): seq<SpawnEntry>
  {
    if spec.Some? && spec.value.spawn.Some? then spec.value.spawn.value else []
  }

  /** The enemy one spawn entry becomes on a `cw` x `ch` canvas. */
  function Materialize(s: SpawnEntry, cw: real, ch: real): (e: Enemy)
    ensures e.x == Coalesce(s.x_norm, 50.0) / 100.0 * cw
    ensures e.y == Coalesce(s.y_norm, 0.0) / 100.0 * ch
    ensures e.vx == Coalesce(s.vx_px_s, 0.0) && e.vy == Coalesce(s.vy_px_s, 50.0)
    ensures e.hp == Coalesce(s.hp, 1.0) && e.cooldown.None?
  {
    Enemy(Coalesce(s.x_norm, 50.0) / 100.0 * cw, Coalesce(s.y_norm, 0.0) / 100.0 * ch,
          Coalesce(s.vx_px_s, 0.0), Coalesce(s.vy_px_s, 50.0), Coalesce(s.hp, 1.0), None)
  }

  /**
   * Where the cursor stops when it starts at `i` at elapsed time `t`: the
   * first index at or after `i` whose entry is not yet due, or the end.
   */
  function DueEnd(spawns: seq<SpawnEntry>, i: nat, t: real): (j: nat)
    ensures i <= j
    ensures j > i ==> j <= |spawns|
    ensures forall k :: i <= k < j ==> spawns[k].t_ms <= t
    ensures j < |spawns| ==> spawns[j].t_ms > t
    decreases |spawns| - i
  {
    if i < |spawns| && spawns[i].t_ms <= t then DueEnd(spawns, i + 1, t) else i
  }

  /** The enemies materialised from entries `lo .. hi-1`, in order. */
  function MaterializeRange(spawns: seq<SpawnEntry>, lo: nat, hi: nat, cw: real, ch: real): (r: seq<Enemy>)
    requires lo <= hi <= |spawns|
    decreases hi
    ensures |r| == hi - lo
    ensures forall k :: 0 <= k < hi - lo ==> r[k] == Materialize(spawns[lo + k], cw, ch)
  {
    if lo == hi then [] else MaterializeRange(spawns, lo, hi - 1, cw, ch) + [Materialize(spawns[hi - 1], cw, ch)]
  }

  lemma MaterializeRangeStep(spawns: seq<SpawnEntry>, lo: nat, hi: nat, cw: real, ch: real)
    requires lo <= hi < |spawns|
    ensures MaterializeRange(spawns, lo, hi + 1, cw, ch) == MaterializeRange(spawns, lo, hi, cw, ch) + [Materialize(spawns[hi], cw, ch)]
  {
    assert hi + 1 - 1 == hi;
  }

  /**
   * spawnEnemies: materialise every consecutive due entry starting at the
   * cursor, append them to `enemies`, and return the advanced cursor.
   * `now` is the value `performance.now()` returns.
   */
  method SpawnEnemies(enemies: List<Enemy>, enemySpec: Option<EnemySpec>, spawnIndex: nat,
                      startTime: real, now: real, cw: real, ch: real) returns (next: nat)
    modifies enemies
    ensures enemySpec.None? || enemySpec.value.spawn.None? ==>
              next == spawnIndex && enemies.elems == old(enemies.elems)
    ensures next == DueEnd(Entries(enemySpec), spawnIndex, now - startTime)
    ensures enemies.elems == old(enemies.elems) +
              (if next == spawnIndex then [] else MaterializeRange(Entries(enemySpec), spawnIndex, next, cw, ch))
  {
    if enemySpec.None? || enemySpec.value.spawn.None? {
      return spawnIndex;
    }
    var spawns := enemySpec.value.spawn.value;
    var tElapsed := now - startTime;
    next := spawnIndex;
    while next < |spawns| && spawns[next].t_ms <= tElapsed
      invariant spawnIndex <= next
      invariant next > spawnIndex ==> next <= |spawns|
      invariant DueEnd(spawns, next, tElapsed) == DueEnd(spawns, spawnIndex, tElapsed)
      invariant enemies.elems == old(enemies.elems) +
                  (if next == spawnIndex then [] else MaterializeRange(spawns, spawnIndex, next, cw, ch))
      decreases |spawns| - next
    {
      var s := spawns[next];
      MaterializeRangeStep(spawns, spawnIndex, next, cw, ch);
      enemies.elems := enemies.elems + [Materialize(s, cw, ch)];
      next := next + 1;
    }
  }

  /** The entries appear in non-decreasing trigger-time order. */
  predicate SortedByTime(spawns: seq<SpawnEntry>)
  {
    forall i, j :: 0 <= i < j < |spawns| ==> spawns[i].t_ms <= spawns[j].t_ms
  }

  /**
   * The boundary is inclusive and a later cursor never moves back: a
   * cursor run at a later elapsed time stops no earlier.
   */
  lemma {:induction false} DueEndMonotonic(spawns: seq<SpawnEntry>, i: nat, t1: real, t2: real)
    requires t1 <= t2
    ensures DueEnd(spawns, i, t1) <= DueEnd(spawns, i, t2)
    decreases |spawns| - i
  {
    if i < |spawns| && spawns[i].t_ms <= t1 {
      DueEndMonotonic(spawns, i + 1, t1, t2);
    }
  }

  /**
   * For a time-sorted spawn list run from the start, an entry has been
   * materialised exactly when its trigger time is at most the elapsed time.
   */
  lemma SortedCursorCountsDue(spawns: seq<SpawnEntry>, t: real, k: nat)
    requires SortedByTime(spawns)
    requires k < |spawns|
    ensures k < DueEnd(spawns, 0, t) <==> spawns[k].t_ms <= t
  {
    var j := DueEnd(spawns, 0, t);
    if k >= j {
      assert j < |spawns| && spawns[j].t_ms > t;
      assert spawns[j].t_ms <= spawns[k].t_ms;
    }
  }

  /**
   * The cursor stops at the first entry not yet due, so a due entry that sits
   * behind a later one waits: entries at 100 ms then 0 ms, at 50 ms, spawn
   * nothing.
   */
  lemma DueEntryBehindLaterOneWaits()
    ensures var spawns := [SpawnEntry(100.0, None, None, None, None, None),
                           SpawnEntry(0.0, None, None, None, None, None)];
            DueEnd(spawns, 0, 50.0) == 0 && spawns[1].t_ms <= 50.0
  {
  }

  // ---------------------------------------------------------------- update

  /** Manhattan distance from a ship to the point (x, y). */
  function Manhattan(s: PlayerShip, x: real, y: real): real
  {
    Abs(s.x - x) + Abs(s.y - y)
  }

  /** `k` is the first ship at the least Manhattan distance from (x, y). */
  predicate IsFirstNearest(f: seq<PlayerShip>, x: real, y: real, k: nat)
  {
    && k < |f|
    && (forall j :: 0 <= j < |f| ==> Manhattan(f[k], x, y) <= Manhattan(f[j], x, y))
    && (forall j :: 0 <= j < k ==> Manhattan(f[j], x, y) > Manhattan(f[k], x, y))
  }

  /** At most one index is the first nearest ship. */
  lemma FirstNearestUnique(f: seq<PlayerShip>, x: real, y: real, k1: nat, k2: nat)
    requires IsFirstNearest(f, x, y, k1) && IsFirstNearest(f, x, y, k2)
    ensures k1 == k2
  {
    assert Manhattan(f[k1], x, y) == Manhattan(f[k2], x, y);
  }

  /** Scan from `i` having kept `k` as the best so far. */
  function NearestFrom(f: seq<PlayerShip>, x: real, y: real, i: nat, k: nat): (r: nat)
    requires 0 < i <= |f| && k < i
    requires forall j :: 0 <= j < i ==> Manhattan(f[k], x, y) <= Manhattan(f[j], x, y)
    requires forall j :: 0 <= j < k ==> Manhattan(f[j], x, y) > Manhattan(f[k], x, y)
    ensures IsFirstNearest(f, x, y, r)
    decreases |f| - i
  {
    if i == |f| then k
    else if Manhattan(f[i], x, y) < Manhattan(f[k], x, y) then NearestFrom(f, x, y, i + 1, i)
    else NearestFrom(f, x, y, i + 1, k)
  }

  /** The ship an aimed shot targets. */
  function FirstNearest(f: seq<PlayerShip>, x: real, y: real): (k: nat)
    requires |f| > 0
    ensures IsFirstNearest(f, x, y, k)
  {
    NearestFrom(f, x, y, 1, 0)
  }

  /**
   * The target scan of updateEnemies: keep the first ship whose Manhattan
   * distance is strictly below the best so far (initially infinite).
   */
  method NearestShip(f: seq<PlayerShip>, x: real, y: real) returns (k: nat)
    requires |f| > 0
    ensures IsFirstNearest(f, x, y, k)
  {
    k := 0;
    var best: Option<real> := None;
    var i := 0;
    while i < |f|
      invariant 0 <= i <= |f|
      invariant i == 0 <==> best.None?
      invariant k < |f| && (i > 0 ==> k < i && best == Some(Manhattan(f[k], x, y)))
      invariant forall j :: 0 <= j < i ==> Manhattan(f[k], x, y) <= Manhattan(f[j], x, y)
      invariant forall j :: 0 <= j < k ==> Manhattan(f[j], x, y) > Manhattan(f[k], x, y)
    {
      var d := Manhattan(f[i], x, y);
      if best.None? || d < best.value {
        best := Some(d);
        k := i;
      }
      i := i + 1;
    }
  }

  /** An enemy after one tick, and the bullets it fired during it. */
  datatype Step = Step(enemy: Enemy, shots: seq<Bullet>)

  /**
   * One iteration of updateEnemies for enemy `e`. `draw` is what
   * `Math.random()` returns if this enemy consults it; `aim` is the aimed
   * velocity `(dx/|d|*200, dy/|d|*200)` for a displacement `d`, which needs a
   * square root.
   */
  function EnemyStep(e: Enemy, dt: real, draw: real, formation: seq<PlayerShip>,
                     aim: (real, real) -> (real, real)): (r: Step)
    ensures r.enemy == e.(x := e.x + e.vx * dt, y := e.y + e.vy * dt, cooldown := r.enemy.cooldown)
    ensures r.shots != [] <==> CooldownTick(e.cooldown, dt) == 0.0
    ensures |r.shots| <= 3
  {
    var x := e.x + e.vx * dt;
    var y := e.y + e.vy * dt;
    var moved := e.(x := x, y := y);
    var cd := CooldownTick(e.cooldown, dt);
    if cd != 0.0 then
      Step(moved.(cooldown := Some(cd)), [])
    else if e.hp > 2.0 then
      Step(moved.(cooldown := Some(1.2)),
           [Bullet(x, y + 10.0, None, 200.0, "enemy_spread", EnemyOwned, None),
            Bullet(x, y + 10.0, Some(-80.0), 200.0, "enemy_spread", EnemyOwned, None),
            Bullet(x, y + 10.0, Some(80.0), 200.0, "enemy_spread", EnemyOwned, None)])
    else if draw < 0.3 && |formation| > 0 then
      var target := formation[FirstNearest(formation, x, y)];
      var v := aim(target.x - x, target.y - y);
      Step(moved.(cooldown := Some(2.0)),
           [Bullet(x, y + 10.0, Some(v.0), v.1, "enemy_sniper", EnemyOwned, None)])
    else
      Step(moved.(cooldown := Some(1.0)),
           [Bullet(x, y + 10.0, None, 250.0, "enemy_basic", EnemyOwned, None)])
  }

  /**
   * What every tick does to an enemy: it moves by its velocity, keeps its
   * velocity and hp, ends with a non-negative cooldown, and fires exactly
   * when the counted-down cooldown is 0; every shot is enemy-owned, has no
   * damage of its own and starts 10 px below the moved enemy.
   */
  lemma EnemyStepFacts(e: Enemy, dt: real, draw: real, formation: seq<PlayerShip>,
                       aim: (real, real) -> (real, real))
    ensures var r := EnemyStep(e, dt, draw, formation, aim);
      && r.enemy.x == e.x + e.vx * dt && r.enemy.y == e.y + e.vy * dt
      && r.enemy.vx == e.vx && r.enemy.vy == e.vy && r.enemy.hp == e.hp
      && r.enemy.cooldown.Some? && r.enemy.cooldown.value >= 0.0
      && (r.shots != [] <==> CooldownTick(e.cooldown, dt) == 0.0)
      && (r.shots == [] ==> r.enemy.cooldown == Some(CooldownTick(e.cooldown, dt)))
      && forall i :: 0 <= i < |r.shots| ==>
           r.shots[i].owner == EnemyOwned && r.shots[i].x == r.enemy.x &&
           r.shots[i].y == r.enemy.y + 10.0 && r.shots[i].hp.None?
  {
  }

  /** The choice among the three fire patterns, by its observable result. */
  lemma FirePatterns(e: Enemy, dt: real, draw: real, formation: seq<PlayerShip>,
                     aim: (real, real) -> (real, real))
    requires CooldownTick(e.cooldown, dt) == 0.0
    ensures var r := EnemyStep(e, dt, draw, formation, aim);
      if e.hp > 2.0 then
        && |r.shots| == 3 && r.enemy.cooldown == Some(1.2)
        && r.shots[0].vx.None? && r.shots[1].vx == Some(-80.0) && r.shots[2].vx == Some(80.0)
        && (forall i :: 0 <= i < 3 ==> r.shots[i].vy == 200.0)
      else if draw < 0.3 && |formation| > 0 then
        && |r.shots| == 1 && r.enemy.cooldown == Some(2.0)
        && var k := FirstNearest(formation, r.enemy.x, r.enemy.y);
           IsFirstNearest(formation, r.enemy.x, r.enemy.y, k) &&
           r.shots[0].vx == Some(aim(formation[k].x - r.enemy.x, formation[k].y - r.enemy.y).0) &&
           r.shots[0].vy == aim(formation[k].x - r.enemy.x, formation[k].y - r.enemy.y).1
      else
        |r.shots| == 1 && r.enemy.cooldown == Some(1.0) && r.shots[0].vx.None? && r.shots[0].vy == 250.0
  {
  }

  /** Each enemy's tick in an updateEnemies pass; enemy `i` takes draw `random(i)`. */
  function Steps(es: seq<Enemy>, dt: real, random: nat -> real, formation: seq<PlayerShip>,
                 aim: (real, real) -> (real, real)): (r: seq<Step>)
    ensures |r| == |es|
  {
    seq(|es|, i requires 0 <= i < |es| => EnemyStep(es[i], dt, random(i), formation, aim))
  }

  /** The enemies after one updateEnemies pass. */
  function StepAll(es: seq<Enemy>, dt: real, random: nat -> real, formation: seq<PlayerShip>,
                   aim: (real, real) -> (real, real)): (r: seq<Enemy>)
    ensures |r| == |es|
  {
    var steps := Steps(es, dt, random, formation, aim);
    seq(|es|, i requires 0 <= i < |es| => steps[i].enemy)
  }

  /** The bullets fired in the first `n` ticks, in enemy order. */
  function ShotsOf(steps: seq<Step>, n: nat): seq<Bullet>
    requires n <= |steps|
  {
    if n == 0 then [] else ShotsOf(steps, n - 1) + steps[n - 1].shots
  }

  /** Every bullet an update pass appends is enemy-owned. */
  lemma {:induction false} ShotsAreEnemyOwned(es: seq<Enemy>, n: nat, dt: real, random: nat -> real,
                                              formation: seq<PlayerShip>, aim: (real, real) -> (real, real))
    requires n <= |es|
    ensures forall b :: b in ShotsOf(Steps(es, dt, random, formation, aim), n) ==> b.owner == EnemyOwned
  {
    if n > 0 {
      ShotsAreEnemyOwned(es, n - 1, dt, random, formation, aim);
      EnemyStepFacts(es[n - 1], dt, random(n - 1), formation, aim);
      var s := Steps(es, dt, random, formation, aim)[n - 1].shots;
      assert forall b :: b in s ==> b.owner == EnemyOwned;
    }
  }

  /**
   * The body of the updateEnemies loop for one enemy: move it, count its
   * cooldown down, and pick a fire pattern once the cooldown is exactly 0.
   */
  method TickEnemy(e: Enemy, dt: real, draw: real, formation: seq<PlayerShip>,
                   aim: (real, real) -> (real, real)) returns (next: Enemy, fired: seq<Bullet>)
    ensures Step(next, fired) == EnemyStep(e, dt, draw, formation, aim)
  {
    var x := e.x + e.vx * dt;
    var y := e.y + e.vy * dt;
    var cd := CooldownTick(e.cooldown, dt);
    fired := [];
    if cd == 0.0 {
      if e.hp > 2.0 {
        fired := [Bullet(x, y + 10.0, None, 200.0, "enemy_spread", EnemyOwned, None),
                  Bullet(x, y + 10.0, Some(-80.0), 200.0, "enemy_spread", EnemyOwned, None),
                  Bullet(x, y + 10.0, Some(80.0), 200.0, "enemy_spread", EnemyOwned, None)];
        cd := 1.2;
      } else if draw < 0.3 && |formation| > 0 {
        var k := NearestShip(formation, x, y);
        FirstNearestUnique(formation, x, y, k, FirstNearest(formation, x, y));
        var v := aim(formation[k].x - x, formation[k].y - y);
        fired := [Bullet(x, y + 10.0, Some(v.0), v.1, "enemy_sniper", EnemyOwned, None)];
        cd := 2.0;
      } else {
        fired := [Bullet(x, y + 10.0, None, 250.0, "enemy_basic", EnemyOwned, None)];
        cd := 1.0;
      }
    }
    next := e.(x := x, y := y, cooldown := Some(cd));
  }

  /**
   * updateEnemies: move every enemy, run its cooldown and append what it
   * fires to `bullets`; bullets already there are untouched. `random(i)` is
   * the draw enemy `i` would take.
   */
  method UpdateEnemies(enemies: List<Enemy>, bullets: List<Bullet>, dt: real, formation: seq<PlayerShip>,
                       random: nat -> real, aim: (real, real) -> (real, real))
    modifies enemies, bullets
    ensures enemies.elems == StepAll(old(enemies.elems), dt, random, formation, aim)
    ensures bullets.elems == old(bullets.elems) + ShotsOf(Steps(old(enemies.elems), dt, random, formation, aim), |old(enemies.elems)|)
  {
    ghost var es0 := enemies.elems;
    ghost var steps := Steps(es0, dt, random, formation, aim);
    var i := 0;
    while i < |enemies.elems|
      invariant |enemies.elems| == |es0| && 0 <= i <= |es0|
      invariant forall j :: 0 <= j < i ==> enemies.elems[j] == steps[j].enemy
      invariant forall j :: i <= j < |es0| ==> enemies.elems[j] == es0[j]
      invariant bullets.elems == old(bullets.elems) + ShotsOf(steps, i)
    {
      var e, fired := TickEnemy(enemies.elems[i], dt, random(i), formation, aim);
      assert Step(e, fired) == steps[i];
      assert ShotsOf(steps, i + 1) == ShotsOf(steps, i) + fired;
      enemies.elems := enemies.elems[i := e];
      bullets.elems := bullets.elems + fired;
      i := i + 1;
    }
  }
}

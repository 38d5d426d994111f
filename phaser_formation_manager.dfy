/**
 * Formation spawning in the Phaser build (phaser/systems/FormationManager.ts):
 * cycling through the loaded formations, spawning a formation's ships from
 * the enemy pool, scheduling timed spawns, and clearing everything that is
 * active. The enemy group's `get` is given as the enemy it hands out for
 * each request (null when the pool is exhausted); `Date.now()` and the
 * random draws are parameters; a scheduled timer is the pending entry it
 * stands for.
 */
module PhaserFormation {
  import opened Js
  import PhaserEnemy

  type EnemyState = PhaserEnemy.EnemyState

  /** One ship of a formation; every field is optional. */
  datatype ShipSpec = ShipSpec(
    x_norm: Option<real>, x: Option<real>, y_norm: Option<real>, y: Option<real>,
    vx: Option<real>, vy: Option<real>, size: Option<real>, hp: Option<real>)

  /** One timed spawn; `x` and `y` are present only when they are numbers. */
  datatype SpawnSpec = SpawnSpec(
    t: Option<real>, x: Option<real>, y: Option<real>,
    vx: Option<real>, vy: Option<real>, size: Option<real>, hp: Option<real>)

  /**
   * What `spawnFormation` may be handed: nothing, a bare array of ships, or
   * an object whose `ships` and `spawns` are present only when they are arrays.
   */
  datatype Formation =
    | Missing
    | ShipArray(list: seq<ShipSpec>)
    | Object(ships: Option<seq<ShipSpec>>, behavior: Option<string>, spawns: Option<seq<SpawnSpec>>)

  /** A pending `time.addEvent` that will call `spawnSpec(spec)` after `delay` ms. */
  datatype PendingSpawn = PendingSpawn(delay: real, spec: SpawnSpec)

  /** The endless orbit tween attached to the ship at position `i`. */
  datatype Tween = Orbit(i: nat)

  /** The ships `spawnFormationImmediate` spawns, or None when it returns at once. */
  function ShipsOf(f: Formation): Option<seq<ShipSpec>>
  {
    match f
    case Missing => None
    case ShipArray(list) => Some(list)
    case Object(ships, _, _) => ships
  }

  function BehaviorOf(f: Formation): string
  {
    if f.Object? then Coalesce(f.behavior, "static") else "static"
  }

  /** Where ship `s` is placed on a `w` by `h` canvas. */
  function ShipX(s: ShipSpec, w: real): real { Coalesce(s.x_norm, Coalesce(s.x, 50.0)) / 100.0 * w }
  function ShipY(s: ShipSpec, h: real): real { Coalesce(s.y_norm, Coalesce(s.y, 10.0)) / 100.0 * h }

  /** The velocity a behaviour finally gives a ship; None keeps `init`'s (the orbit tween moves it). */
  function BehaviorVelocity(behavior: string, s: ShipSpec): Option<(real, real)>
  {
    if behavior == "orbit" then None
    else if behavior == "follow" then Some((0.0, Coalesce(s.vy, 40.0)))
    else if behavior == "line" then Some((0.0, Coalesce(s.vy, 60.0)))
    else Some((0.0, 0.0))
  }

  /**
   * A pooled enemy after spawning ship `s` at index `i`: `init` with id
   * `now + i` and the defaults vx 0, vy 40, size 40, hp 1, then a fire timer
   * of `delay` ms when there is an enemy bullet group, then the behaviour's
   * velocity.
   */
  function Spawned(e: EnemyState, s: ShipSpec, i: nat, w: real, h: real, now: int,
                   fires: bool, delay: int, behavior: string): EnemyState
  {
    var a := PhaserEnemy.Initialised(e, now + i, ShipX(s, w), ShipY(s, h),
                                     Coalesce(s.vx, 0.0), Coalesce(s.vy, 40.0), Coalesce(s.size, 40.0), Coalesce(s.hp, 1.0));
    var b := if fires then PhaserEnemy.Firing(a, delay) else a;
    match BehaviorVelocity(behavior, s)
    case None => b
    case Some(v) => b.(vx := v.0, vy := v.1)
  }

  /** The orbit tweens for the ships the pool served, in order. */
  function OrbitTweens(got: seq<bool>, n: nat): seq<Tween>
    requires n <= |got|
  {
    if n == 0 then [] else OrbitTweens(got, n - 1) + (if got[n - 1] then [Orbit(n - 1)] else [])
  }

  lemma OrbitTweensStep(got: seq<bool>, n: nat)
    requires n < |got|
    ensures OrbitTweens(got, n + 1) == OrbitTweens(got, n) + (if got[n] then [Orbit(n)] else [])
  {
    assert n + 1 - 1 == n;
  }

  /** A pooled enemy after a `spawnSpec`: defaults y -40, vx 0, vy 120, size 48, hp 1. */
  function SpecSpawned(e: EnemyState, spec: SpawnSpec, between: real, now: int, fires: bool, delay: int): EnemyState
  {
    var x := if spec.x.Some? then spec.x.value else between;
    var a := PhaserEnemy.Initialised(e, now, x, Coalesce(spec.y, -40.0), Coalesce(spec.vx, 0.0),
                                     Coalesce(spec.vy, 120.0), Coalesce(spec.size, 48.0), Coalesce(spec.hp, 1.0));
    if fires then PhaserEnemy.Firing(a, delay) else a
  }

  /** `clearActive` on one group member: a live enemy stops firing and is killed. */
  function Cleared(e: EnemyState): EnemyState
  {
    if e.active then PhaserEnemy.Killed(PhaserEnemy.Stopped(e)) else e
  }

  /** The timers `spawnFormation` schedules: one per spawn, never with a negative delay. */
  function Schedule(spawns: seq<SpawnSpec>): (r: seq<PendingSpawn>)
    ensures |r| == |spawns|
    ensures forall k :: 0 <= k < |r| ==> r[k] == PendingSpawn(Max(0.0, Coalesce(spawns[k].t, 0.0)), spawns[k])
  {
    seq(|spawns|, k requires 0 <= k < |spawns| => PendingSpawn(Max(0.0, Coalesce(spawns[k].t, 0.0)), spawns[k]))
  }

  function NonNull(picks: seq<PhaserEnemy.Enemy?>): seq<bool>
  {
    seq(|picks|, k requires 0 <= k < |picks| => picks[k] != null)
  }

  predicate Distinct(picks: seq<PhaserEnemy.Enemy?>)
  {
    forall a, b :: 0 <= a < b < |picks| && picks[a] != null ==> picks[a] != picks[b]
  }

  class FormationManager {
    const w: real
    const h: real
    const fires: bool                         // an enemy bullet group was supplied
    const group: seq<PhaserEnemy.Enemy>       // the enemy group's children
    var formations: seq<Formation>
    var index: nat
    var activeTimers: seq<PendingSpawn>
    var activeTweens: seq<Tween>

    predicate Valid()
      reads this
    {
      (formations == [] ==> index == 0) && (formations != [] ==> index < |formations|) &&
      forall a, b :: 0 <= a < b < |group| ==> group[a] != group[b]
    }

    /** `cached` is the preloaded formation list, if any. */
    constructor (w0: real, h0: real, fires0: bool, group0: seq<PhaserEnemy.Enemy>, cached: seq<Formation>)
      requires forall a, b :: 0 <= a < b < |group0| ==> group0[a] != group0[b]
      ensures Valid()
      ensures w == w0 && h == h0 && fires == fires0 && group == group0
      ensures formations == cached && index == 0 && activeTimers == [] && activeTweens == []
    {
      w, h, fires, group := w0, h0, fires0, group0;
      formations := cached;
      index := 0;
      activeTimers, activeTweens := [], [];
    }

    method ClearActive()
      requires Valid()
      modifies this`activeTimers, this`activeTweens, set e | e in group
      ensures Valid()
      ensures activeTimers == [] && activeTweens == []
      ensures forall k :: 0 <= k < |group| ==> group[k].State() == Cleared(old(group[k].State()))
    {
      activeTimers := [];
      activeTweens := [];
      var i := 0;
      while i < |group|
        invariant 0 <= i <= |group|
        invariant activeTimers == [] && activeTweens == []
        invariant forall k :: 0 <= k < i ==> group[k].State() == Cleared(old(group[k].State()))
        invariant forall k :: i <= k < |group| ==> group[k].State() == old(group[k].State())
      {
        var e := group[i];
        if e.active {
          e.StopFiring();
          e.Kill();
        }
        i := i + 1;
      }
    }

    /**
     * `picks[i]` is what the pool hands out for ship `i`, `delays[i]` the
     * fire timer's `Between(800, 1600)` draw for it, `now` the clock.
     */
    method SpawnFormationImmediate(f: Formation, picks: seq<PhaserEnemy.Enemy?>, delays: seq<int>, now: int)
      requires ShipsOf(f).Some? ==> |picks| == |ShipsOf(f).value| && |delays| == |picks|
      requires forall k :: 0 <= k < |delays| ==> 800 <= delays[k] <= 1600
      requires Distinct(picks)
      modifies this`activeTweens, set e | e in picks
      ensures ShipsOf(f).None? ==> activeTweens == old(activeTweens)
      ensures ShipsOf(f).None? ==> forall k :: 0 <= k < |picks| && picks[k] != null ==> picks[k].State() == old(picks[k].State())
      ensures ShipsOf(f).Some? ==> forall k :: 0 <= k < |picks| && picks[k] != null ==>
                picks[k].State() == Spawned(old(picks[k].State()), ShipsOf(f).value[k], k, w, h, now, fires, delays[k], BehaviorOf(f))
      ensures ShipsOf(f).Some? ==>
                activeTweens == old(activeTweens) + (if BehaviorOf(f) == "orbit" then OrbitTweens(NonNull(picks), |picks|) else [])
    {
      if ShipsOf(f).None? {
        return;
      }
      SpawnShips(ShipsOf(f).value, BehaviorOf(f), picks, delays, now);
    }

    /** The `ships.forEach` loop of `spawnFormationImmediate`. */
    method SpawnShips(ships: seq<ShipSpec>, behavior: string, picks: seq<PhaserEnemy.Enemy?>, delays: seq<int>, now: int)
      requires |picks| == |ships| && |delays| == |picks|
      requires forall k :: 0 <= k < |delays| ==> 800 <= delays[k] <= 1600
      requires Distinct(picks)
      modifies this`activeTweens, set e | e in picks
      ensures forall k :: 0 <= k < |picks| && picks[k] != null ==>
                picks[k].State() == Spawned(old(picks[k].State()), ships[k], k, w, h, now, fires, delays[k], behavior)
      ensures activeTweens == old(activeTweens) + (if behavior == "orbit" then OrbitTweens(NonNull(picks), |picks|) else [])
    {
      ghost var got := NonNull(picks);
      var i := 0;
      while i < |ships|
        invariant 0 <= i <= |ships|
        invariant forall k :: 0 <= k < i && picks[k] != null ==>
                    picks[k].State() == Spawned(old(picks[k].State()), ships[k], k, w, h, now, fires, delays[k], behavior)
        invariant forall k :: i <= k < |picks| && picks[k] != null ==> picks[k].State() == old(picks[k].State())
        invariant activeTweens == old(activeTweens) + (if behavior == "orbit" then OrbitTweens(got, i) else [])
      {
        OrbitTweensStep(got, i);
        assert forall k :: 0 <= k < |picks| && k != i && picks[k] != null ==> picks[k] != picks[i];
        SpawnSlot(picks[i], ships[i], i, delays[i], now, behavior);
        i := i + 1;
      }
    }

    /** One pass of the `forEach` body: nothing when the pool is empty (`e` null). */
    method SpawnSlot(e: PhaserEnemy.Enemy?, s: ShipSpec, i: nat, delay: int, now: int, behavior: string)
      requires 800 <= delay <= 1600
      modifies this`activeTweens, e
      ensures e != null ==> e.State() == Spawned(old(e.State()), s, i, w, h, now, fires, delay, behavior)
      ensures activeTweens == old(activeTweens) + (if e != null && behavior == "orbit" then [Orbit(i)] else [])
    {
      if e != null {
        SpawnShip(e, s, i, delay, now, behavior);
        if behavior == "orbit" {
          activeTweens := activeTweens + [Orbit(i)];
        }
      }
    }

    /** The `forEach` body for a ship the pool served. */
    method SpawnShip(e: PhaserEnemy.Enemy, s: ShipSpec, i: nat, delay: int, now: int, behavior: string)
      requires 800 <= delay <= 1600
      modifies e
      ensures e.State() == Spawned(old(e.State()), s, i, w, h, now, fires, delay, behavior)
    {
      var x := Coalesce(s.x_norm, Coalesce(s.x, 50.0)) / 100.0 * w;
      var y := Coalesce(s.y_norm, Coalesce(s.y, 10.0)) / 100.0 * h;
      e.Init(now + i, x, y, Coalesce(s.vx, 0.0), Coalesce(s.vy, 40.0), Coalesce(s.size, 40.0), Coalesce(s.hp, 1.0));
      if fires {
        e.StartFiring(delay);
      }
      if behavior == "orbit" {
      } else if behavior == "follow" {
        e.SetVelocity(0.0, Coalesce(s.vy, 40.0));
      } else if behavior == "line" {
        e.SetVelocity(0.0, Coalesce(s.vy, 60.0));
      } else {
        e.SetVelocity(0.0, 0.0);
      }
    }

    /**
     * `cycleNext`: nothing without formations; otherwise the formation at
     * `index` is spawned after everything active is cleared, and `index`
     * moves on cyclically. The pool serves members of the group.
     */
    method CycleNext(picks: seq<PhaserEnemy.Enemy?>, delays: seq<int>, now: int)
      requires Valid()
      requires formations != [] && ShipsOf(formations[index]).Some? ==>
                 |picks| == |ShipsOf(formations[index]).value| && |delays| == |picks|
      requires forall k :: 0 <= k < |delays| ==> 800 <= delays[k] <= 1600
      requires Distinct(picks)
      requires forall k :: 0 <= k < |picks| && picks[k] != null ==> picks[k] in group
      modifies this`index, this`activeTimers, this`activeTweens, set e | e in group
      ensures Valid()
      ensures old(formations) == [] ==> index == old(index) && activeTimers == old(activeTimers) && activeTweens == old(activeTweens)
      ensures old(formations) == [] ==> forall k :: 0 <= k < |group| ==> group[k].State() == old(group[k].State())
      ensures old(formations) != [] ==> index == (old(index) + 1) % |formations| && activeTimers == []
      ensures old(formations) != [] ==> forall k :: 0 <= k < |group| && group[k] !in picks ==>
                group[k].State() == Cleared(old(group[k].State()))
      ensures old(formations) != [] && ShipsOf(formations[old(index)]).Some? ==>
                forall k :: 0 <= k < |picks| && picks[k] != null ==>
                  picks[k].State() == Spawned(Cleared(old(picks[k].State())), ShipsOf(formations[old(index)]).value[k],
                                              k, w, h, now, fires, delays[k], BehaviorOf(formations[old(index)]))
      ensures old(formations) != [] && ShipsOf(formations[old(index)]).None? ==>
                forall k :: 0 <= k < |group| ==> group[k].State() == Cleared(old(group[k].State()))
      ensures old(formations) != [] ==>
                activeTweens == (if ShipsOf(formations[old(index)]).Some? && BehaviorOf(formations[old(index)]) == "orbit"
                                 then OrbitTweens(NonNull(picks), |picks|) else [])
    {
      if formations == [] {
        return;
      }
      var f := formations[index];
      index := (index + 1) % |formations|;
      ClearActive();
      SpawnFormationImmediate(f, picks, delays, now);
    }

    /**
     * `spawnFormation`: an object with a `spawns` array clears everything and
     * schedules one timer per spawn; anything else is spawned at once.
     */
    method SpawnFormation(f: Formation, picks: seq<PhaserEnemy.Enemy?>, delays: seq<int>, now: int)
      requires Valid()
      requires ShipsOf(f).Some? ==> |picks| == |ShipsOf(f).value| && |delays| == |picks|
      requires forall k :: 0 <= k < |delays| ==> 800 <= delays[k] <= 1600
      requires Distinct(picks)
      modifies this`activeTimers, this`activeTweens, set e | e in group, set e | e in picks
      ensures Valid()
      ensures f.Object? && f.spawns.Some? ==> activeTimers == Schedule(f.spawns.value) && activeTweens == []
      ensures f.Object? && f.spawns.Some? ==> forall k :: 0 <= k < |group| ==> group[k].State() == Cleared(old(group[k].State()))
      ensures !(f.Object? && f.spawns.Some?) ==> activeTimers == old(activeTimers)
      ensures !(f.Object? && f.spawns.Some?) && ShipsOf(f).Some? ==> forall k :: 0 <= k < |picks| && picks[k] != null ==>
                picks[k].State() == Spawned(old(picks[k].State()), ShipsOf(f).value[k], k, w, h, now, fires, delays[k], BehaviorOf(f))
      ensures !(f.Object? && f.spawns.Some?) ==>
                activeTweens == old(activeTweens) + (if ShipsOf(f).Some? && BehaviorOf(f) == "orbit"
                                                     then OrbitTweens(NonNull(picks), |picks|) else [])
      ensures !(f.Object? && f.spawns.Some?) ==> forall k :: 0 <= k < |group| && (ShipsOf(f).None? || group[k] !in picks) ==>
                group[k].State() == old(group[k].State())
    {
      if f.Object? && f.spawns.Some? {
        ClearActive();
        ScheduleSpawns(f.spawns.value);
        return;
      }
      SpawnFormationImmediate(f, picks, delays, now);
    }

    /** The `for` loop pushing one timer per spawn. */
    method ScheduleSpawns(spawns: seq<SpawnSpec>)
      modifies this`activeTimers
      ensures activeTimers == old(activeTimers) + Schedule(spawns)
    {
      var i := 0;
      while i < |spawns|
        invariant 0 <= i <= |spawns|
        invariant activeTimers == old(activeTimers) + Schedule(spawns[..i])
      {
        activeTimers := activeTimers + [PendingSpawn(Max(0.0, Coalesce(spawns[i].t, 0.0)), spawns[i])];
        i := i + 1;
        assert Schedule(spawns[..i]) == Schedule(spawns[..i - 1]) + [PendingSpawn(Max(0.0, Coalesce(spawns[i - 1].t, 0.0)), spawns[i - 1])];
      }
      assert spawns[..i] == spawns;
    }

    /**
     * `spawnSpec`, the action of a scheduled timer: `between` is the
     * `Between(32, w - 32)` draw used when `x` is not a number, `pick` the
     * pooled enemy (null on a miss), `delay` its fire timer's draw.
     */
    method SpawnSpec(spec: SpawnSpec, between: real, pick: PhaserEnemy.Enemy?, now: int, delay: int)
      requires 32.0 <= between <= w - 32.0
      requires 800 <= delay <= 1600
      modifies pick
      ensures pick != null ==> pick.State() == SpecSpawned(old(pick.State()), spec, between, now, fires, delay)
    {
      var x := if spec.x.Some? then spec.x.value else between;
      var y := Coalesce(spec.y, -40.0);
      if pick == null {
        return;
      }
      pick.Init(now, x, y, Coalesce(spec.vx, 0.0), Coalesce(spec.vy, 120.0), Coalesce(spec.size, 48.0), Coalesce(spec.hp, 1.0));
      if fires {
        pick.StartFiring(delay);
      }
    }
  }

  /** `index` stays a valid position: the cyclic step never leaves `[0, len)`. */
  lemma CycleStaysInRange(index: nat, len: nat)
    requires index < len
    ensures 0 <= (index + 1) % len < len
    ensures index + 1 < len ==> (index + 1) % len == index + 1
    ensures index + 1 == len ==> (index + 1) % len == 0
  {
  }

  /**
   * A spawned ship: active, placed by the ship's coordinates or their
   * defaults, with size 40 and hp 1 by default and the behaviour's velocity.
   */
  lemma SpawnDefaults(e: EnemyState, i: nat, w: real, h: real, now: int, fires: bool, delay: int, behavior: string)
    ensures var r := Spawned(e, ShipSpec(None, None, None, None, None, None, None, None), i, w, h, now, fires, delay, behavior);
      r.active && r.visible && r.x == 0.5 * w && r.y == 0.1 * h && r.size == 40.0 && r.hp == 1.0 && r.id == now + i &&
      (behavior == "follow" ==> r.vx == 0.0 && r.vy == 40.0) &&
      (behavior == "line" ==> r.vx == 0.0 && r.vy == 60.0) &&
      (behavior !in {"orbit", "follow", "line"} ==> r.vx == 0.0 && r.vy == 0.0) &&
      (behavior == "orbit" ==> r.vx == 0.0 && r.vy == 40.0) &&
      (r.fireTimer.Some? <==> fires || e.fireTimer.Some?)
  {
  }

  /** `x_norm` wins over `x`, which wins over the default 50. */
  lemma PositionPrecedence(s: ShipSpec, w: real)
    ensures s.x_norm.Some? ==> ShipX(s, w) == s.x_norm.value / 100.0 * w
    ensures s.x_norm.None? && s.x.Some? ==> ShipX(s, w) == s.x.value / 100.0 * w
  {
  }

  /** Timed spawns are never scheduled in the past, and keep their order. */
  lemma ScheduleDelaysNonNegative(spawns: seq<SpawnSpec>)
    ensures forall k :: 0 <= k < |spawns| ==> Schedule(spawns)[k].delay >= 0.0 && Schedule(spawns)[k].spec == spawns[k]
    ensures forall k :: 0 <= k < |spawns| && spawns[k].t.Some? && spawns[k].t.value >= 0.0 ==> Schedule(spawns)[k].delay == spawns[k].t.value
  {
  }

  /** After clearing, no group member is active or firing. */
  lemma {:induction false} ClearedIsQuiet(e: EnemyState)
    ensures !Cleared(e).active && (e.active ==> Cleared(e).fireTimer.None?)
    ensures !e.active ==> Cleared(e) == e
    ensures Cleared(Cleared(e)) == Cleared(e)
  {
  }

  /** One orbit tween per served ship. */
  lemma {:induction false} OrbitTweensCount(got: seq<bool>, n: nat)
    requires n <= |got|
    ensures |OrbitTweens(got, n)| <= n
    ensures (forall k :: 0 <= k < n ==> got[k]) ==> |OrbitTweens(got, n)| == n
    ensures forall t :: t in OrbitTweens(got, n) ==> t.i < n && got[t.i]
  {
    if n > 0 {
      OrbitTweensCount(got, n - 1);
    }
  }

  /** A spec spawn keeps its numeric x and y and otherwise uses the random column and -40. */
  lemma SpecDefaults(e: EnemyState, spec: SpawnSpec, between: real, now: int, fires: bool, delay: int)
    ensures var r := SpecSpawned(e, spec, between, now, fires, delay);
      r.active && r.x == (if spec.x.Some? then spec.x.value else between) && r.y == Coalesce(spec.y, -40.0) &&
      (spec.vy.None? ==> r.vy == 120.0) && (spec.size.None? ==> r.size == 48.0) && (spec.hp.None? ==> r.hp == 1.0)
  {
  }
}

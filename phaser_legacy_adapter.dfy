/**
 * `legacyToFormation` of the Phaser build (phaser/systems/LegacyAdapter.ts):
 * legacy waves or spawn lists become the `{ spawns }` formation schema,
 * with every field falling back from the enemy to its wave to a default.
 */
module PhaserLegacyAdapter {
  import opened Js
  import opened LegacyShapes

  /** One output spawn; `x` is None where the source writes `null`. */
  datatype Spawn = Spawn(t: real, x: Option<real>, vy: real, vx: real, size: real)

  function FromEnemy(e: LegacyEnemy, w: Wave): Spawn
  {
    Spawn(Coalesce(e.delay, Coalesce(w.delay, 0.0)), OrElse(e.x, w.x),
          Coalesce(e.speed, Coalesce(w.speed, 120.0)), Coalesce(e.vx, 0.0), Coalesce(e.size, Coalesce(w.size, 48.0)))
  }

  function FromSpawn(s: LegacySpawn): Spawn
  {
    Spawn(Coalesce(s.t, Coalesce(s.delay, 0.0)), s.x, Coalesce(s.vy, Coalesce(s.speed, 120.0)),
          Coalesce(s.vx, 0.0), Coalesce(s.size, 48.0))
  }

  /** The first `n` enemies of wave `w`, converted. */
  function WaveSpawns(es: seq<LegacyEnemy>, w: Wave, n: nat): (r: seq<Spawn>)
    requires n <= |es|
    ensures |r| == n && forall k :: 0 <= k < n ==> r[k] == FromEnemy(es[k], w)
  {
    if n == 0 then [] else WaveSpawns(es, w, n - 1) + [FromEnemy(es[n - 1], w)]
  }

  /** The outputs of the waves, wave by wave, enemies in order. */
  function FromWaves(waves: seq<Wave>): seq<Spawn>
  {
    if waves == [] then []
    else
      var w := waves[|waves| - 1];
      FromWaves(waves[..|waves| - 1]) + WaveSpawns(EnemiesOf(w), w, |EnemiesOf(w)|)
  }

  function FromSpawns(ss: seq<LegacySpawn>): (r: seq<Spawn>)
    ensures |r| == |ss| && forall k :: 0 <= k < |ss| ==> r[k] == FromSpawn(ss[k])
  {
    seq(|ss|, k requires 0 <= k < |ss| => FromSpawn(ss[k]))
  }

  lemma WaveSpawnsStep(es: seq<LegacyEnemy>, w: Wave, n: nat)
    requires n < |es|
    ensures WaveSpawns(es, w, n + 1) == WaveSpawns(es, w, n) + [FromEnemy(es[n], w)]
  {
    assert n + 1 - 1 == n;
  }

  lemma FromWavesStep(waves: seq<Wave>, k: nat)
    requires k < |waves|
    ensures FromWaves(waves[..k + 1]) == FromWaves(waves[..k]) + WaveSpawns(EnemiesOf(waves[k]), waves[k], |EnemiesOf(waves[k])|)
  {
    assert waves[..k + 1][..k] == waves[..k];
  }

  lemma FromSpawnsStep(ss: seq<LegacySpawn>, i: nat)
    requires i < |ss|
    ensures FromSpawns(ss[..i + 1]) == FromSpawns(ss[..i]) + [FromSpawn(ss[i])]
  {
    assert FromSpawns(ss[..i + 1])[..i] == FromSpawns(ss[..i]);
  }

  /** The converter's result: null gives no spawns; `waves` wins over `spawns`. */
  function Convert(legacy: Option<Legacy>): (r: seq<Spawn>)
    ensures legacy.None? ==> r == []
    ensures legacy.Some? && legacy.value.waves.None? && legacy.value.spawns.None? ==> r == []
    ensures legacy.Some? && legacy.value.waves.None? && legacy.value.spawns.Some? ==>
              |r| == |legacy.value.spawns.value| &&
              forall k :: 0 <= k < |r| ==> r[k] == FromSpawn(legacy.value.spawns.value[k])
  {
    if legacy.None? then []
    else if legacy.value.waves.Some? then FromWaves(legacy.value.waves.value)
    else if legacy.value.spawns.Some? then FromSpawns(legacy.value.spawns.value)
    else []
  }

  method LegacyToFormation(legacy: Option<Legacy>) returns (spawns: seq<Spawn>)
    ensures spawns == Convert(legacy)
  {
    spawns := [];
    if legacy.None? {
      return;
    }
    if legacy.value.waves.Some? {
      spawns := ConvertWaves(legacy.value.waves.value);
    } else if legacy.value.spawns.Some? {
      spawns := ConvertSpawns(legacy.value.spawns.value);
    }
  }

  /** The `for (const wave of legacy.waves)` loop. */
  method ConvertWaves(waves: seq<Wave>) returns (spawns: seq<Spawn>)
    ensures spawns == FromWaves(waves)
  {
    spawns := [];
    var k := 0;
    while k < |waves|
      invariant 0 <= k <= |waves|
      invariant spawns == FromWaves(waves[..k])
    {
      var wave := waves[k];
      FromWavesStep(waves, k);
      if wave.enemies.Some? {
        var part := ConvertWave(wave.enemies.value, wave);
        spawns := spawns + part;
      }
      k := k + 1;
    }
    assert waves[..k] == waves;
  }

  /** The `for (const e of wave.enemies)` loop, returning what it pushes. */
  method ConvertWave(es: seq<LegacyEnemy>, wave: Wave) returns (part: seq<Spawn>)
    ensures part == WaveSpawns(es, wave, |es|)
  {
    part := [];
    var i := 0;
    while i < |es|
      invariant 0 <= i <= |es|
      invariant part == WaveSpawns(es, wave, i)
    {
      WaveSpawnsStep(es, wave, i);
      part := part + [FromEnemy(es[i], wave)];
      i := i + 1;
    }
  }

  /** The `for (const s of legacy.spawns)` loop. */
  method ConvertSpawns(ss: seq<LegacySpawn>) returns (spawns: seq<Spawn>)
    ensures spawns == FromSpawns(ss)
  {
    spawns := [];
    var i := 0;
    while i < |ss|
      invariant 0 <= i <= |ss|
      invariant spawns == FromSpawns(ss[..i])
    {
      FromSpawnsStep(ss, i);
      spawns := spawns + [FromSpawn(ss[i])];
      i := i + 1;
    }
    assert ss[..i] == ss;
  }

  /** One output per enemy of each wave with an `enemies` array. */
  lemma {:induction false} WavesCount(waves: seq<Wave>)
    ensures |FromWaves(waves)| == EnemyCount(waves)
  {
    if waves != [] {
      WavesCount(waves[..|waves| - 1]);
    }
  }

  /** Wave outputs are the concatenation of each wave's outputs, so a prefix of waves gives a prefix of spawns. */
  lemma {:induction false} WavesAppend(a: seq<Wave>, b: seq<Wave>)
    ensures FromWaves(a + b) == FromWaves(a) + FromWaves(b)
    decreases |b|
  {
    if b != [] {
      var bi := b[..|b| - 1];
      assert (a + b)[..|a + b| - 1] == a + bi;
      assert (a + b)[|a + b| - 1] == b[|b| - 1];
      WavesAppend(a, bi);
    } else {
      assert a + b == a;
    }
  }

  /** A wave without an `enemies` array contributes nothing. */
  lemma WaveWithoutEnemies(waves: seq<Wave>, w: Wave)
    requires w.enemies.None?
    ensures FromWaves(waves + [w]) == FromWaves(waves)
  {
    assert (waves + [w])[..|waves + [w]| - 1] == waves;
  }

  /** `waves` takes precedence: with a waves array the spawns list is ignored. */
  lemma WavesWin(ws: seq<Wave>, s1: Option<seq<LegacySpawn>>, s2: Option<seq<LegacySpawn>>)
    ensures Convert(Some(Legacy(Some(ws), s1))) == Convert(Some(Legacy(Some(ws), s2)))
    ensures Convert(None) == [] && Convert(Some(Legacy(None, None))) == []
  {
  }

  /** The fallback chains, enemy before wave before default. */
  lemma FallbackChains(e: LegacyEnemy, w: Wave)
    ensures e.delay.None? && w.delay.None? ==> FromEnemy(e, w).t == 0.0
    ensures e.delay.None? && w.delay.Some? ==> FromEnemy(e, w).t == w.delay.value
    ensures e.x.None? && w.x.None? ==> FromEnemy(e, w).x.None?
    ensures e.speed.None? && w.speed.None? ==> FromEnemy(e, w).vy == 120.0
    ensures e.size.None? && w.size.None? ==> FromEnemy(e, w).size == 48.0
    ensures e.vx.None? ==> FromEnemy(e, w).vx == 0.0
    ensures e.speed.Some? ==> FromEnemy(e, w).vy == e.speed.value
  {
  }
}

/**
 * `legacyToFormation` of the Next.js build (systems/LegacyAdapter.ts): the
 * same conversion as the Phaser build's adapter, but the output spawns carry
 * no horizontal velocity `vx`.
 */
module LegacyAdapter {
  import opened Js
  import opened LegacyShapes
  import PhaserLegacyAdapter

  /** One output spawn `{ t, x, vy, size }`; `x` is None where the source writes `null`. */
  datatype Spawn = Spawn(t: real, x: Option<real>, vy: real, size: real)

  function FromEnemy(e: LegacyEnemy, w: Wave): Spawn
  {
    Spawn(Coalesce(e.delay, Coalesce(w.delay, 0.0)), OrElse(e.x, w.x),
          Coalesce(e.speed, Coalesce(w.speed, 120.0)), Coalesce(e.size, Coalesce(w.size, 48.0)))
  }

  function FromSpawn(s: LegacySpawn): Spawn
  {
    Spawn(Coalesce(s.t, Coalesce(s.delay, 0.0)), s.x, Coalesce(s.vy, Coalesce(s.speed, 120.0)), Coalesce(s.size, 48.0))
  }

  /** The first `n` enemies of wave `w`, converted. */
  function WaveSpawns(es: seq<LegacyEnemy>, w: Wave, n: nat): (r: seq<Spawn>)
    requires n <= |es|
    ensures |r| == n && forall k :: 0 <= k < n ==> r[k] == FromEnemy(es[k], w)
  {
    if n == 0 then [] else WaveSpawns(es, w, n - 1) + [FromEnemy(es[n - 1], w)]
  }

  function FromWaves(waves: seq<Wave>): seq<Spawn>
  {
    if waves == [] then []
    else
      var w := waves[|waves| - 1];
      FromWaves(waves[..|waves| - 1]) + WaveSpawns(EnemiesOf(w), w, |EnemiesOf(w)|)
  }

  function FromSpawns(ss: seq<LegacySpawn>): (r: seq<Spawn>)
    ensures |r| == |ss| && forall k :: 0 <= k < |ss| ==> r[k] == FromSpawn(ss[k])
  {
    seq(|ss|, k requires 0 <= k < |ss| => FromSpawn(ss[k]))
  }

  lemma WaveSpawnsStep(es: seq<LegacyEnemy>, w: Wave, n: nat)
    requires n < |es|
    ensures WaveSpawns(es, w, n + 1) == WaveSpawns(es, w, n) + [FromEnemy(es[n], w)]
  {
    assert n + 1 - 1 == n;
  }

  lemma FromWavesStep(waves: seq<Wave>, k: nat)
    requires k < |waves|
    ensures FromWaves(waves[..k + 1]) == FromWaves(waves[..k]) + WaveSpawns(EnemiesOf(waves[k]), waves[k], |EnemiesOf(waves[k])|)
  {
    assert waves[..k + 1][..k] == waves[..k];
  }

  lemma FromSpawnsStep(ss: seq<LegacySpawn>, i: nat)
    requires i < |ss|
    ensures FromSpawns(ss[..i + 1]) == FromSpawns(ss[..i]) + [FromSpawn(ss[i])]
  {
    assert FromSpawns(ss[..i + 1])[..i] == FromSpawns(ss[..i]);
  }

  /** `legacy?.waves` and `legacy?.spawns`: a null `legacy` gives no spawns. */
  function Convert(legacy: Option<Legacy>): (r: seq<Spawn>)
    ensures legacy.None? ==> r == []
    ensures legacy.Some? && legacy.value.waves.None? && legacy.value.spawns.None? ==> r == []
    ensures legacy.Some? && legacy.value.waves.None? && legacy.value.spawns.Some? ==>
              |r| == |legacy.value.spawns.value| &&
              forall k :: 0 <= k < |r| ==> r[k] == FromSpawn(legacy.value.spawns.value[k])
  {
    if legacy.None? then []
    else if legacy.value.waves.Some? then FromWaves(legacy.value.waves.value)
    else if legacy.value.spawns.Some? then FromSpawns(legacy.value.spawns.value)
    else []
  }

  method LegacyToFormation(legacy: Option<Legacy>) returns (spawns: seq<Spawn>)
    ensures spawns == Convert(legacy)
  {
    spawns := [];
    if legacy.None? {
      return;
    }
    if legacy.value.waves.Some? {
      spawns := ConvertWaves(legacy.value.waves.value);
    } else if legacy.value.spawns.Some? {
      spawns := ConvertSpawns(legacy.value.spawns.value);
    }
  }

  /** The `for (const wave of legacy.waves)` loop. */
  method ConvertWaves(waves: seq<Wave>) returns (spawns: seq<Spawn>)
    ensures spawns == FromWaves(waves)
  {
    spawns := [];
    var k := 0;
    while k < |waves|
      invariant 0 <= k <= |waves|
      invariant spawns == FromWaves(waves[..k])
    {
      var wave := waves[k];
      FromWavesStep(waves, k);
      if wave.enemies.Some? {
        var part := ConvertWave(wave.enemies.value, wave);
        spawns := spawns + part;
      }
      k := k + 1;
    }
    assert waves[..k] == waves;
  }

  /** The `for (const e of wave.enemies)` loop, returning what it pushes. */
  method ConvertWave(es: seq<LegacyEnemy>, wave: Wave) returns (part: seq<Spawn>)
    ensures part == WaveSpawns(es, wave, |es|)
  {
    part := [];
    var i := 0;
    while i < |es|
      invariant 0 <= i <= |es|
      invariant part == WaveSpawns(es, wave, i)
    {
      WaveSpawnsStep(es, wave, i);
      part := part + [FromEnemy(es[i], wave)];
      i := i + 1;
    }
  }

  /** The `for (const s of legacy.spawns)` loop. */
  method ConvertSpawns(ss: seq<LegacySpawn>) returns (spawns: seq<Spawn>)
    ensures spawns == FromSpawns(ss)
  {
    spawns := [];
    var i := 0;
    while i < |ss|
      invariant 0 <= i <= |ss|
      invariant spawns == FromSpawns(ss[..i])
    {
      FromSpawnsStep(ss, i);
      spawns := spawns + [FromSpawn(ss[i])];
      i := i + 1;
    }
    assert ss[..i] == ss;
  }

  /** A Phaser-build spawn without its `vx`. */
  function Drop(s: PhaserLegacyAdapter.Spawn): Spawn
  {
    Spawn(s.t, s.x, s.vy, s.size)
  }

  function DropAll(ss: seq<PhaserLegacyAdapter.Spawn>): (r: seq<Spawn>)
    ensures |r| == |ss| && forall k :: 0 <= k < |ss| ==> r[k] == Drop(ss[k])
  {
    seq(|ss|, k requires 0 <= k < |ss| => Drop(ss[k]))
  }

  lemma {:induction false} DropAppend(a: seq<PhaserLegacyAdapter.Spawn>, b: seq<PhaserLegacyAdapter.Spawn>)
    ensures DropAll(a + b) == DropAll(a) + DropAll(b)
  {
    assert forall k :: 0 <= k < |a + b| ==> DropAll(a + b)[k] == (DropAll(a) + DropAll(b))[k];
  }

  lemma {:induction false} DropWaves(waves: seq<Wave>)
    ensures FromWaves(waves) == DropAll(PhaserLegacyAdapter.FromWaves(waves))
  {
    if waves != [] {
      var init := waves[..|waves| - 1];
      var w := waves[|waves| - 1];
      var es := EnemiesOf(w);
      DropWaves(init);
      DropAppend(PhaserLegacyAdapter.FromWaves(init), PhaserLegacyAdapter.WaveSpawns(es, w, |es|));
      assert WaveSpawns(es, w, |es|) == DropAll(PhaserLegacyAdapter.WaveSpawns(es, w, |es|));
    }
  }

  /**
   * Both builds' adapters agree on everything but `vx`: the same spawns in
   * the same order with the same `t`, `x`, `vy` and `size`.
   */
  lemma SameAsPhaserBuild(legacy: Option<Legacy>)
    ensures Convert(legacy) == DropAll(PhaserLegacyAdapter.Convert(legacy))
  {
    if legacy.Some? && legacy.value.waves.Some? {
      DropWaves(legacy.value.waves.value);
    }
  }

  /** One output per enemy of each wave with an `enemies` array, or per legacy spawn. */
  lemma OutputCount(legacy: Legacy)
    ensures legacy.waves.Some? ==> |Convert(Some(legacy))| == EnemyCount(legacy.waves.value)
    ensures legacy.waves.None? && legacy.spawns.Some? ==> |Convert(Some(legacy))| == |legacy.spawns.value|
  {
    SameAsPhaserBuild(Some(legacy));
    if legacy.waves.Some? {
      PhaserLegacyAdapter.WavesCount(legacy.waves.value);
    }
  }

  /** The spawn-list fallbacks: `t` before `delay`, `vy` before `speed`. */
  lemma SpawnFallbacks(s: LegacySpawn)
    ensures s.t.Some? ==> FromSpawn(s).t == s.t.value
    ensures s.t.None? && s.delay.Some? ==> FromSpawn(s).t == s.delay.value
    ensures s.t.None? && s.delay.None? ==> FromSpawn(s).t == 0.0
    ensures s.vy.None? && s.speed.None? ==> FromSpawn(s).vy == 120.0
    ensures s.vy.None? && s.speed.Some? ==> FromSpawn(s).vy == s.speed.value
    ensures s.size.None? ==> FromSpawn(s).size == 48.0
    ensures FromSpawn(s).x == s.x
  {
  }
}

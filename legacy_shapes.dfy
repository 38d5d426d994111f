/**
 * The legacy wave description both `legacyToFormation` converters read
 * (phaser/systems/LegacyAdapter.ts and systems/LegacyAdapter.ts). A field is
 * None when it is missing or null; `waves`, `enemies` and `spawns` are None
 * when they are not arrays.
 */
module LegacyShapes {
  import opened Js

  datatype LegacyEnemy = LegacyEnemy(delay: Option<real>, x: Option<real>, speed: Option<real>, vx: Option<real>, size: Option<real>)

  datatype Wave = Wave(delay: Option<real>, x: Option<real>, speed: Option<real>, size: Option<real>,
                       enemies: Option<seq<LegacyEnemy>>)

  datatype LegacySpawn = LegacySpawn(t: Option<real>, delay: Option<real>, x: Option<real>, vy: Option<real>,
                                     speed: Option<real>, vx: Option<real>, size: Option<real>)

  datatype Legacy = Legacy(waves: Option<seq<Wave>>, spawns: Option<seq<LegacySpawn>>)

  /** `a ?? b` where both sides may be null. */
  function OrElse(a: Option<real>, b: Option<real>): Option<real>
  {
    if a.Some? then a else b
  }

  /** The enemies a wave contributes: none unless `enemies` is an array. */
  function EnemiesOf(w: Wave): seq<LegacyEnemy>
  {
    if w.enemies.Some? then w.enemies.value else []
  }

  /** Σ over the waves of their enemy counts. */
  function EnemyCount(waves: seq<Wave>): nat
  {
    if waves == [] then 0 else EnemyCount(waves[..|waves| - 1]) + |EnemiesOf(waves[|waves| - 1])|
  }
}

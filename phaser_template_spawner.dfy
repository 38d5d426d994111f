/**
 * Spawning enemies from named templates in the Phaser build
 * (phaser/systems/TemplateSpawner.ts). Each spawn constructs a new enemy,
 * which draws the next enemy id, stores the template's hp as sprite data
 * and moves it leftwards; the group's contents are the spawns' records.
 */
module TemplateSpawning {
  import opened Js
  import PhaserEnemy

  /** A template record; `hp` and `speed` are optional. */
  datatype Template = Template(hp: Option<real>, speed: Option<real>)

  /** The `templates` argument: which of the three keys hold a template. */
  datatype Templates = Templates(stinger: Option<Template>, drone: Option<Template>, boss: Option<Template>)

  /** What one spawn adds to the group: the enemy's id and position, its `hp` data and x-velocity. */
  datatype Spawn = Spawn(id: int, x: real, y: real, dataHp: real, vx: real)

  /** The boss template after `{...boss, hp: max(150, hp ?? 150), speed: speed ?? 40}`. */
  function BossTemplate(t: Template): Template
  {
    Template(Some(Max(150.0, Coalesce(t.hp, 150.0))), Some(Coalesce(t.speed, 40.0)))
  }

  /** The templates spawned, in order: stinger, drone, then the adjusted boss. */
  function Planned(ts: Templates): seq<Template>
  {
    (if ts.stinger.Some? then [ts.stinger.value] else [])
    + (if ts.drone.Some? then [ts.drone.value] else [])
    + (if ts.boss.Some? then [BossTemplate(ts.boss.value)] else [])
  }

  /** The records of spawning `plan` at `(x, y)` with ids counting from `id`. */
  function Spawns(plan: seq<Template>, id: int, x: real, y: real): (r: seq<Spawn>)
    ensures |r| == |plan|
    ensures forall k :: 0 <= k < |plan| ==>
              r[k] == Spawn(id + k, x, y, Coalesce(plan[k].hp, 10.0), -Coalesce(plan[k].speed, 80.0))
  {
    seq(|plan|, k requires 0 <= k < |plan| => Spawn(id + k, x, y, Coalesce(plan[k].hp, 10.0), -Coalesce(plan[k].speed, 80.0)))
  }

  class TemplateSpawner {
    const width: real
    const height: real
    var group: seq<Spawn>

    constructor (width0: real, height0: real)
      ensures width == width0 && height == height0 && group == []
    {
      width, height := width0, height0;
      group := [];
    }

    /** `opts.x` / `opts.y` default to 80% of the width and 30% of the height. */
    method SpawnFromTemplates(ts: Templates, optX: Option<real>, optY: Option<real>, ids: PhaserEnemy.EnemyIds)
      modifies this`group, ids
      ensures group == old(group) + Spawns(Planned(ts), old(ids.next), Coalesce(optX, width * 0.8), Coalesce(optY, height * 0.3))
      ensures ids.next == old(ids.next) + |Planned(ts)|
    {
      var x := Coalesce(optX, width * 0.8);
      var y := Coalesce(optY, height * 0.3);
      ghost var id0 := ids.next;
      ghost var plan: seq<Template> := [];
      if ts.stinger.Some? {
        SpawnOne(ts.stinger.value, x, y, ids);
        SpawnsSnoc(plan, ts.stinger.value, id0, x, y);
        plan := plan + [ts.stinger.value];
      }
      assert group == old(group) + Spawns(plan, id0, x, y) && ids.next == id0 + |plan|;
      if ts.drone.Some? {
        SpawnOne(ts.drone.value, x, y, ids);
        SpawnsSnoc(plan, ts.drone.value, id0, x, y);
        plan := plan + [ts.drone.value];
      }
      assert group == old(group) + Spawns(plan, id0, x, y) && ids.next == id0 + |plan|;
      if ts.boss.Some? {
        SpawnOne(BossTemplate(ts.boss.value), x, y, ids);
        SpawnsSnoc(plan, BossTemplate(ts.boss.value), id0, x, y);
        plan := plan + [BossTemplate(ts.boss.value)];
      }
      assert plan == Planned(ts);
    }

    /** The `spawn` closure: a new enemy at `(x, y)` with `hp ?? 10` and velocity `-(speed ?? 80)`. */
    method SpawnOne(t: Template, x: real, y: real, ids: PhaserEnemy.EnemyIds)
      modifies this`group, ids
      ensures group == old(group) + [Spawn(old(ids.next), x, y, Coalesce(t.hp, 10.0), -Coalesce(t.speed, 80.0))]
      ensures ids.next == old(ids.next) + 1
    {
      var id := ids.next;
      ids.next := ids.next + 1;
      group := group + [Spawn(id, x, y, Coalesce(t.hp, 10.0), -Coalesce(t.speed, 80.0))];
    }
  }

  /** Spawning one more template appends its record, with the next id. */
  lemma SpawnsSnoc(plan: seq<Template>, t: Template, id: int, x: real, y: real)
    ensures Spawns(plan + [t], id, x, y) == Spawns(plan, id, x, y) + [Spawn(id + |plan|, x, y, Coalesce(t.hp, 10.0), -Coalesce(t.speed, 80.0))]
  {
    var a := Spawns(plan + [t], id, x, y);
    var b := Spawns(plan, id, x, y) + [Spawn(id + |plan|, x, y, Coalesce(t.hp, 10.0), -Coalesce(t.speed, 80.0))];
    forall k | 0 <= k < |a|
      ensures a[k] == b[k]
    {
      if k < |plan| {
        assert (plan + [t])[k] == plan[k];
      }
    }
    assert a == b;
  }

  /** The boss always has at least 150 hp and moves at 40 px/s by default. */
  lemma BossIsTough(t: Template, x: real, y: real, id: int)
    ensures Spawns([BossTemplate(t)], id, x, y)[0].dataHp >= 150.0
    ensures t.speed.None? ==> Spawns([BossTemplate(t)], id, x, y)[0].vx == -40.0
    ensures t.hp.Some? && t.hp.value > 150.0 ==> Spawns([BossTemplate(t)], id, x, y)[0].dataHp == t.hp.value
  {
  }

  /** Absent templates are skipped and the order is stinger, drone, boss. */
  lemma PlanOrder(s: Template, d: Template, b: Template)
    ensures Planned(Templates(Some(s), Some(d), Some(b))) == [s, d, BossTemplate(b)]
    ensures Planned(Templates(None, Some(d), None)) == [d]
    ensures Planned(Templates(None, None, None)) == []
    ensures |Planned(Templates(Some(s), None, Some(b)))| == 2
  {
  }

  /** A plain template spawn defaults to 10 hp and drifts left at 80 px/s. */
  lemma TemplateDefaults(x: real, y: real, id: int)
    ensures Spawns([Template(None, None)], id, x, y) == [Spawn(id, x, y, 10.0, -80.0)]
  {
  }
}

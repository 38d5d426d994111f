/**
 * Records shared by the canvas simulation library (lib/types.ts) and the
 * fire-cooldown rule that its enemy and weapon managers both apply.
 */
module LibTypes {
  import opened Js

  /** `BulletOwner`: who fired a bullet. */
  datatype Owner = PlayerOwned | EnemyOwned

  /** A projectile; `vx` and `hp` are optional in the source record. */
  datatype Bullet = Bullet(
    x: real, y: real,
    vx: Option<real>, vy: real,
    kind: string,
    owner: Owner,
    hp: Option<real>)

  /** A live enemy; `cooldown` is absent until its first update. */
  datatype Enemy = Enemy(
    x: real, y: real,
    vx: real, vy: real,
    hp: real,
    cooldown: Option<real>)

  /** One member of the player formation. */
  datatype PlayerShip = PlayerShip(
    x: real, y: real,
    baseOffsetX: Option<real>, baseOffsetY: Option<real>,
    behavior: Option<string>,
    cooldown: Option<real>,
    weapon: Option<string>)

  datatype Point = Point(x: real, y: real)

  /**
   * `if (!cd) cd = 0; cd = Math.max(0, cd - dt)`: the cooldown after one
   * tick of `dt` seconds; a missing or zero cooldown counts as 0.
   */
  function CooldownTick(cd: Option<real>, dt: real): (r: real)
    ensures r >= 0.0
    ensures FalsyNum(cd) ==> r == Max(0.0, -dt)
    ensures !FalsyNum(cd) && cd.value - dt >= 0.0 ==> r == cd.value - dt
  {
    Max(0.0, (if FalsyNum(cd) then 0.0 else cd.value) - dt)
  }

  /** The cooldown after several ticks in which nothing fires. */
  function Elapse(cd: real, dts: seq<real>): real
    decreases |dts|
  {
    if dts == [] then cd else Elapse(CooldownTick(Some(cd), dts[0]), dts[1..])
  }

  predicate NonNegative(dts: seq<real>)
  {
    forall i :: 0 <= i < |dts| ==> dts[i] >= 0.0
  }

  lemma {:induction false} SumNonNegative(dts: seq<real>)
    requires NonNegative(dts)
    ensures Sum(dts) >= 0.0
  {
    if dts != [] {
      SumNonNegative(dts[1..]);
    }
  }

  /**
   * The clamped countdown in closed form: after ticks totalling `T` seconds
   * a cooldown `cd >= 0` has become `max(0, cd - T)`.
   */
  lemma {:induction false} ElapseClosedForm(cd: real, dts: seq<real>)
    requires cd >= 0.0
    requires NonNegative(dts)
    ensures Elapse(cd, dts) == Max(0.0, cd - Sum(dts))
    decreases |dts|
  {
    if dts != [] {
      var next := CooldownTick(Some(cd), dts[0]);
      assert next == Max(0.0, cd - dts[0]);
      ElapseClosedForm(next, dts[1..]);
      SumNonNegative(dts[1..]);
    }
  }

  /**
   * A cooldown of `cd` stays strictly positive (so nothing fires) while less
   * than `cd` seconds have elapsed, and reaches exactly 0 once they have.
   */
  lemma ReloadTime(cd: real, dts: seq<real>)
    requires cd > 0.0
    requires NonNegative(dts)
    ensures Elapse(cd, dts) > 0.0 <==> Sum(dts) < cd
    ensures Elapse(cd, dts) == 0.0 <==> Sum(dts) >= cd
  {
    ElapseClosedForm(cd, dts);
  }
}

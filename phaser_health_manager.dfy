/**
 * The player's hit points as the Phaser build's health manager keeps them
 * (phaser/systems/HealthManager.ts). Starting the menu scene is recorded as
 * a count of `scene.start('menu')` calls.
 */
module Health {
  import opened Js

  /** `damage(amount)`: hp falls by `amount` but not below 0. */
  function Damaged(hp: real, amount: real): (r: real)
    ensures r >= 0.0
    ensures hp - amount >= 0.0 ==> r == hp - amount
  {
    Max(0.0, hp - amount)
  }

  class HealthManager {
    var hp: real
    const maxHp: real
    var menuStarts: nat

    /** `maxHp` defaults to 10; the manager starts at full health. */
    constructor (maxHp0: Option<real>)
      ensures maxHp == Coalesce(maxHp0, 10.0) && hp == maxHp && menuStarts == 0
    {
      maxHp := Coalesce(maxHp0, 10.0);
      hp := maxHp;
      menuStarts := 0;
    }

    method Damage(amount: real)
      modifies this`hp, this`menuStarts
      ensures hp == Damaged(old(hp), amount)
      ensures menuStarts == old(menuStarts) + (if hp <= 0.0 then 1 else 0)
    {
      hp := if 0.0 > hp - amount then 0.0 else hp - amount;
      if hp <= 0.0 {
        menuStarts := menuStarts + 1;
      }
    }

    method GetHp() returns (r: real)
      ensures r == hp
    {
      return hp;
    }
  }

  /**
   * Once hp is non-negative it stays so; a damage leaving 0 is exactly what
   * starts the menu, and further damage at 0 starts it again.
   */
  lemma DamageBounds(hp: real, amount: real)
    requires hp >= 0.0
    ensures Damaged(hp, amount) <= 0.0 <==> amount >= hp
    ensures amount >= 0.0 ==> Damaged(hp, amount) <= hp
    ensures Damaged(0.0, amount) == 0.0 || amount < 0.0
  {
  }

  /** There is no upper clamp: a negative amount heals beyond `maxHp`. */
  lemma NegativeDamageHealsPastMax()
    ensures Damaged(10.0, -5.0) == 15.0
  {
  }
}

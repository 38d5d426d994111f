/**
 * The player sprite of the Phaser build (phaser/entities/Player.ts): its
 * integer hit points, its invulnerability window after a hit (a flag plus
 * the pending expiry event) and the game-over events its death schedules.
 */
module PhaserPlayer {
  import opened Js
  import PhaserBullet

  datatype PlayerState = PlayerState(
    hp: int, maxHp: int,
    invulnerable: bool,
    invulTimer: Option<int>,        // delay in ms of the pending expiry, if any
    gameOverCalls: seq<int>)        // delays in ms of the scheduled "game-over" emits

  /** The hit points an accepted hit of `amount` takes: at least 1, otherwise whole. */
  function HitCost(amount: real): int
  {
    if Floor(amount) > 1 then Floor(amount) else 1
  }

  /**
   * `takeDamage`: ignored while invulnerable; otherwise hp drops by
   * `HitCost(amount)` down to 0, a 1000 ms invulnerability window replaces
   * any earlier one, and a death at hp 0 schedules "game-over" in 600 ms.
   */
  function Hit(s: PlayerState, amount: real): (r: PlayerState)
    ensures s.invulnerable ==> r == s
    ensures !s.invulnerable ==> r.invulnerable && r.invulTimer == Some(1000) && r.maxHp == s.maxHp && 0 <= r.hp
    ensures !s.invulnerable && s.hp >= 1 ==> r.hp < s.hp
    ensures !s.invulnerable ==> (r.hp == 0 <==> s.hp <= HitCost(amount))
    ensures r.gameOverCalls == s.gameOverCalls + (if !s.invulnerable && r.hp == 0 then [600] else [])
  {
    if s.invulnerable then s
    else
      var hp := if s.hp - HitCost(amount) > 0 then s.hp - HitCost(amount) else 0;
      s.(hp := hp, invulnerable := true, invulTimer := Some(1000),
         gameOverCalls := if hp <= 0 then s.gameOverCalls + [600] else s.gameOverCalls)
  }

  /** The expiry callback: the flag is cleared and no expiry is pending. */
  function Expired(s: PlayerState): PlayerState
  {
    s.(invulnerable := false, invulTimer := None)
  }

  /** What every reachable player state satisfies. */
  predicate Good(s: PlayerState)
  {
    0 <= s.hp <= s.maxHp && s.maxHp == 10 && (s.invulnerable <==> s.invulTimer.Some?)
  }

  class Player {
    var x: real
    var y: real
    var vx: real
    var vy: real
    var hp: int
    var maxHp: int
    var invulnerable: bool
    var invulTimer: Option<int>
    var gameOverCalls: seq<int>

    function State(): PlayerState
      reads this
    {
      PlayerState(hp, maxHp, invulnerable, invulTimer, gameOverCalls)
    }

    constructor (x0: real, y0: real)
      ensures State() == PlayerState(10, 10, false, None, [])
      ensures Good(State())
      ensures x == x0 && y == y0
    {
      x, y, vx, vy := x0, y0, 0.0, 0.0;
      maxHp := 10;
      hp := maxHp;
      invulnerable := false;
      invulTimer := None;
      gameOverCalls := [];
    }

    /** Velocity as `setVelocity` leaves it. */
    method SetVelocity(vx0: real, vy0: real)
      modifies this
      ensures vx == vx0 && vy == vy0
      ensures State() == old(State()) && x == old(x) && y == old(y)
    {
      vx, vy := vx0, vy0;
    }

    /** `b` is what the bullet group's `get` returned; nothing happens on a pool miss. */
    method Fire(b: PhaserBullet.Bullet?)
      modifies b
      ensures b != null ==> b.State() == PhaserBullet.Initialised(old(b.State()), x, y - 20.0, 0.0, -400.0, "bullet", "player")
    {
      if b == null {
        return;
      }
      b.Init(x, y - 20.0, 0.0, -400.0, "bullet", "player");
    }

    method TakeDamage(amount: real)
      modifies this
      ensures State() == Hit(old(State()), amount)
      ensures x == old(x) && y == old(y) && vx == old(vx) && vy == old(vy)
    {
      if invulnerable {
        return;
      }
      var cost := if Floor(amount) > 1 then Floor(amount) else 1;
      hp := if hp - cost > 0 then hp - cost else 0;
      SetInvulnerable(1000);
      if hp <= 0 {
        Die();
      }
    }

    /** Any pending expiry is removed and a new one `ms` from now replaces it. */
    method SetInvulnerable(ms: int)
      modifies this
      ensures invulnerable && invulTimer == Some(ms)
      ensures hp == old(hp) && maxHp == old(maxHp) && gameOverCalls == old(gameOverCalls)
      ensures x == old(x) && y == old(y) && vx == old(vx) && vy == old(vy)
    {
      if invulTimer.Some? {
        invulTimer := None;
      }
      invulnerable := true;
      invulTimer := Some(ms);
    }

    /** The invulnerability timer fires. */
    method ExpireInvulnerability()
      requires invulTimer.Some?
      modifies this
      ensures State() == Expired(old(State()))
      ensures x == old(x) && y == old(y) && vx == old(vx) && vy == old(vy)
    {
      invulnerable := false;
      invulTimer := None;
    }

    method Die()
      modifies this
      ensures gameOverCalls == old(gameOverCalls) + [600]
      ensures hp == old(hp) && maxHp == old(maxHp) && invulnerable == old(invulnerable) && invulTimer == old(invulTimer)
      ensures x == old(x) && y == old(y) && vx == old(vx) && vy == old(vy)
    {
      gameOverCalls := gameOverCalls + [600];
    }
  }

  /** A hit costs at least one point, and whole points only. */
  lemma HitCostAtLeastOne(amount: real)
    ensures HitCost(amount) >= 1
    ensures amount >= 1.0 ==> HitCost(amount) == Floor(amount)
    ensures amount < 2.0 ==> HitCost(amount) == 1
  {
  }

  /** Both transitions keep `Good`: hp stays within `[0, maxHp]`. */
  lemma GoodIsKept(s: PlayerState, amount: real)
    requires Good(s)
    ensures Good(Hit(s, amount))
    ensures s.invulnerable ==> Good(Expired(s))
  {
  }

  /**
   * hp never grows; a hit while invulnerable changes nothing; an accepted hit
   * on a living player costs `HitCost(amount)` or leaves it at 0, and always
   * opens a fresh 1000 ms window.
   */
  lemma HitEffect(s: PlayerState, amount: real)
    ensures Hit(s, amount).hp <= s.hp || s.hp < 0
    ensures s.invulnerable ==> Hit(s, amount) == s
    ensures !s.invulnerable ==> Hit(s, amount).invulnerable && Hit(s, amount).invulTimer == Some(1000)
    ensures !s.invulnerable && s.hp > HitCost(amount) ==> Hit(s, amount).hp == s.hp - HitCost(amount)
    ensures !s.invulnerable && s.hp <= HitCost(amount) ==> Hit(s, amount).hp == 0
  {
    HitCostAtLeastOne(amount);
  }

  /** Exactly the accepted hits that leave hp at 0 schedule one "game-over" event each. */
  lemma GameOverOnDeath(s: PlayerState, amount: real)
    requires Good(s)
    ensures var t := Hit(s, amount);
      t.gameOverCalls == (if !s.invulnerable && s.hp <= HitCost(amount) then s.gameOverCalls + [600] else s.gameOverCalls)
  {
  }

  /** Two hits in a row: the second lands inside the first one's window and is ignored. */
  lemma SecondHitIgnored(s: PlayerState, a: real, b: real)
    ensures Hit(Hit(s, a), b) == Hit(s, a)
  {
  }
}

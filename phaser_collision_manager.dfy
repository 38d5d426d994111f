/**
 * The overlap callbacks and the off-screen cleanup of the Phaser build's
 * collision manager (phaser/systems/CollisionManager.ts). The engine calls a
 * callback with the two overlapping objects; which pairs overlap is the
 * engine's business and is not modelled. The optional callbacks the game
 * passes in are recorded as the events they raise.
 */
module PhaserCollision {
  import PhaserBullet
  import PhaserEnemy
  import opened Js

  type BulletState = PhaserBullet.BulletState
  type EnemyState = PhaserEnemy.EnemyState

  /** A raised callback: `onPlayerHit({by: cause})` or `onEnemyKilled(e, points)`. */
  datatype Event = PlayerHit(cause: string) | EnemyKilled(points: int)

  /** The state one bullet-vs-enemy callback reads and writes. */
  datatype Contact = Contact(bullet: BulletState, enemy: EnemyState, score: int, events: seq<Event>)

  /** The callback's guard: both objects live and the bullet not the enemy's. */
  predicate Counts(c: Contact)
  {
    c.bullet.active && c.enemy.active && c.bullet.owner != "enemy"
  }

  /**
   * The callback as written: `e.receiveDamage` is not a method of the enemy
   * class, so `killed` is always false; the bullet is still killed.
   */
  function ContactAsWritten(c: Contact): (r: Contact)
    ensures r.enemy == c.enemy && r.score == c.score && r.events == c.events
    ensures Counts(c) ==> !r.bullet.active
    ensures !Counts(c) ==> r == c
  {
    if !Counts(c) then c
    else c.(bullet := PhaserBullet.Killed(c.bullet))
  }

  /**
   * The callback with the enemy's own `takeDamage`: the enemy loses the
   * bullet's damage, the bullet is killed, and a kill scores 100 and raises
   * `onEnemyKilled` when the game supplied one.
   */
  function ContactCorrected(c: Contact, notifyKill: bool): (r: Contact)
    ensures !Counts(c) ==> r == c
    ensures Counts(c) ==> !r.bullet.active && r.enemy.hp == c.enemy.hp - c.bullet.damage
    ensures r.score == c.score + 100 <==> Counts(c) && c.enemy.hp - c.bullet.damage <= 0.0
    ensures r.score == c.score || r.score == c.score + 100
  {
    if !Counts(c) then c
    else
      var e := PhaserEnemy.Damaged(c.enemy, c.bullet.damage);
      var killed := c.enemy.hp - c.bullet.damage <= 0.0;
      Contact(PhaserBullet.Killed(c.bullet), e,
              if killed then c.score + 100 else c.score,
              if killed && notifyKill then c.events + [EnemyKilled(100)] else c.events)
  }

  /** `performCleanup` on one player bullet: killed when live and above -40 or below `h + 40`. */
  function CleanPlayerBullet(s: BulletState, h: real): BulletState
  {
    if s.active && (s.y < -40.0 || s.y > h + 40.0) then PhaserBullet.Killed(s) else s
  }

  /** On one enemy bullet: killed only when live and below `h + 40`. */
  function CleanEnemyBullet(s: BulletState, h: real): BulletState
  {
    if s.active && s.y > h + 40.0 then PhaserBullet.Killed(s) else s
  }

  /** On one enemy: killed only when live and below `h + 120`. */
  function CleanEnemy(s: EnemyState, h: real): EnemyState
  {
    if s.active && s.y > h + 120.0 then PhaserEnemy.Killed(s) else s
  }

  class CollisionManager {
    var score: int
    var events: seq<Event>
    const notifyHit: bool        // an `onPlayerHit` callback was supplied
    const notifyKill: bool       // an `onEnemyKilled` callback was supplied
    const hasEnemyBullets: bool  // an enemy bullet group was supplied

    /** Score and events only ever move as the callbacks allow. */
    predicate Valid()
      reads this
    {
      score >= 0 && score % 100 == 0
    }

    constructor (notifyHit0: bool, notifyKill0: bool, hasEnemyBullets0: bool)
      ensures Valid() && score == 0 && events == []
      ensures notifyHit == notifyHit0 && notifyKill == notifyKill0 && hasEnemyBullets == hasEnemyBullets0
    {
      score := 0;
      events := [];
      notifyHit, notifyKill, hasEnemyBullets := notifyHit0, notifyKill0, hasEnemyBullets0;
    }

    /** The player-bullet vs enemy callback as the source has it. */
    method BulletHitsEnemyAsWritten(b: PhaserBullet.Bullet, e: PhaserEnemy.Enemy)
      modifies this, b, e
      ensures Contact(b.State(), e.State(), score, events) == ContactAsWritten(old(Contact(b.State(), e.State(), score, events)))
    {
      if !b.active || !e.active {
        return;
      }
      if b.owner == "enemy" {
        return;
      }
      // the enemy has no `receiveDamage`, so `killed` is false and nothing is scored
      b.Kill();
    }

    /** The same callback damaging the enemy through `takeDamage`. */
    method BulletHitsEnemy(b: PhaserBullet.Bullet, e: PhaserEnemy.Enemy)
      requires Valid()
      modifies this, b, e
      ensures Valid()
      ensures Contact(b.State(), e.State(), score, events) == ContactCorrected(old(Contact(b.State(), e.State(), score, events)), notifyKill)
    {
      if !b.active || !e.active {
        return;
      }
      if b.owner == "enemy" {
        return;
      }
      var killed := e.TakeDamage(b.damage);
      b.Kill();
      if killed {
        score := score + 100;
        if notifyKill {
          events := events + [EnemyKilled(100)];
        }
      }
    }

    /** Enemy bullet vs player: a live bullet is killed and the hit reported once. */
    method EnemyBulletHitsPlayer(b: PhaserBullet.Bullet)
      requires hasEnemyBullets
      modifies this, b
      ensures score == old(score)
      ensures !old(b.active) ==> b.State() == old(b.State()) && events == old(events)
      ensures old(b.active) ==> b.State() == PhaserBullet.Killed(old(b.State()))
      ensures old(b.active) ==> events == old(events) + (if notifyHit then [PlayerHit("bullet")] else [])
    {
      if !b.active {
        return;
      }
      b.Kill();
      if notifyHit {
        events := events + [PlayerHit("bullet")];
      }
    }

    /** Player vs enemy: a live enemy reports a hit and is left as it is. */
    method PlayerTouchesEnemy(e: PhaserEnemy.Enemy)
      modifies this
      ensures score == old(score)
      ensures events == old(events) + (if e.active && notifyHit then [PlayerHit("enemy")] else [])
    {
      if !e.active {
        return;
      }
      if notifyHit {
        events := events + [PlayerHit("enemy")];
      }
    }

    method CleanPlayerBullets(bs: seq<PhaserBullet.Bullet>, h: real)
      requires forall i, j :: 0 <= i < j < |bs| ==> bs[i] != bs[j]
      modifies set b | b in bs
      ensures forall i :: 0 <= i < |bs| ==> bs[i].State() == CleanPlayerBullet(old(bs[i].State()), h)
    {
      var i := 0;
      while i < |bs|
        invariant 0 <= i <= |bs|
        invariant forall j :: 0 <= j < i ==> bs[j].State() == CleanPlayerBullet(old(bs[j].State()), h)
        invariant forall j :: i <= j < |bs| ==> bs[j].State() == old(bs[j].State())
      {
        var b := bs[i];
        if b.active && (b.y < -40.0 || b.y > h + 40.0) {
          b.Kill();
        }
        i := i + 1;
      }
    }

    method CleanEnemyBullets(bs: seq<PhaserBullet.Bullet>, h: real)
      requires forall i, j :: 0 <= i < j < |bs| ==> bs[i] != bs[j]
      modifies set b | b in bs
      ensures forall i :: 0 <= i < |bs| ==> bs[i].State() == CleanEnemyBullet(old(bs[i].State()), h)
    {
      var i := 0;
      while i < |bs|
        invariant 0 <= i <= |bs|
        invariant forall j :: 0 <= j < i ==> bs[j].State() == CleanEnemyBullet(old(bs[j].State()), h)
        invariant forall j :: i <= j < |bs| ==> bs[j].State() == old(bs[j].State())
      {
        var b := bs[i];
        if b.active && b.y > h + 40.0 {
          b.Kill();
        }
        i := i + 1;
      }
    }

    method CleanEnemies(es: seq<PhaserEnemy.Enemy>, h: real)
      requires forall i, j :: 0 <= i < j < |es| ==> es[i] != es[j]
      modifies set e | e in es
      ensures forall i :: 0 <= i < |es| ==> es[i].State() == CleanEnemy(old(es[i].State()), h)
    {
      var i := 0;
      while i < |es|
        invariant 0 <= i <= |es|
        invariant forall j :: 0 <= j < i ==> es[j].State() == CleanEnemy(old(es[j].State()), h)
        invariant forall j :: i <= j < |es| ==> es[j].State() == old(es[j].State())
      {
        var e := es[i];
        if e.active && e.y > h + 120.0 {
          e.Kill();
        }
        i := i + 1;
      }
    }

    /**
     * `performCleanup` over the three groups' children at canvas height `h`;
     * the enemy bullet group is swept only when there is one.
     */
    method PerformCleanup(bullets: seq<PhaserBullet.Bullet>, enemyBullets: seq<PhaserBullet.Bullet>,
                          enemies: seq<PhaserEnemy.Enemy>, h: real)
      requires forall i, j :: 0 <= i < j < |bullets| ==> bullets[i] != bullets[j]
      requires forall i, j :: 0 <= i < j < |enemyBullets| ==> enemyBullets[i] != enemyBullets[j]
      requires forall i, j :: 0 <= i < j < |enemies| ==> enemies[i] != enemies[j]
      requires forall i, j :: 0 <= i < |bullets| && 0 <= j < |enemyBullets| ==> bullets[i] != enemyBullets[j]
      modifies (set b | b in bullets), (set b | b in enemyBullets), (set e | e in enemies)
      ensures forall i :: 0 <= i < |bullets| ==> bullets[i].State() == CleanPlayerBullet(old(bullets[i].State()), h)
      ensures forall i :: 0 <= i < |enemyBullets| ==>
                enemyBullets[i].State() == if hasEnemyBullets then CleanEnemyBullet(old(enemyBullets[i].State()), h)
                                           else old(enemyBullets[i].State())
      ensures forall i :: 0 <= i < |enemies| ==> enemies[i].State() == CleanEnemy(old(enemies[i].State()), h)
    {
      CleanPlayerBullets(bullets, h);
      if hasEnemyBullets {
        CleanEnemyBullets(enemyBullets, h);
      }
      CleanEnemies(enemies, h);
    }

    method GetScore() returns (s: int)
      ensures s == score
    {
      return score;
    }
  }

  /** The only thing the callback as written changes is the bullet it kills. */
  lemma AsWrittenNeverScores(c: Contact)
    ensures ContactAsWritten(c).score == c.score && ContactAsWritten(c).enemy == c.enemy
    ensures ContactAsWritten(c).events == c.events
    ensures Counts(c) ==> !ContactAsWritten(c).bullet.active
  {
  }

  /** A kill scores exactly 100; the score never falls and stays a multiple of 100. */
  lemma ScoreSteps(c: Contact, notifyKill: bool)
    requires c.score >= 0 && c.score % 100 == 0
    ensures var r := ContactCorrected(c, notifyKill);
      r.score >= c.score && r.score % 100 == 0 && (r.score == c.score || r.score == c.score + 100)
    ensures ContactCorrected(c, notifyKill).score == c.score + 100 <==> Counts(c) && c.enemy.hp - c.bullet.damage <= 0.0
  {
  }

  /** A counted contact always kills the bullet, whether or not the enemy dies. */
  lemma BulletAlwaysSpent(c: Contact, notifyKill: bool)
    ensures Counts(c) ==> ContactCorrected(c, notifyKill).bullet == PhaserBullet.Killed(c.bullet)
    ensures !Counts(c) ==> ContactCorrected(c, notifyKill) == c
  {
  }

  /**
   * The discrepancy: a fresh player bullet (damage 1) meeting a live enemy of
   * hp 1 leaves the enemy alive and the score at 0 as written, while with
   * `takeDamage` the enemy dies and the score becomes 100.
   */
  lemma ReceiveDamageNeverLands()
    ensures var b := PhaserBullet.BulletState(0.0, 0.0, 0.0, -400.0, true, true, true, "bullet", "player", 1.0);
      var e := PhaserEnemy.EnemyState(1, 1.0, 0.0, 0.0, 0.0, 40.0, 40.0, true, true, true, None);
      var c := Contact(b, e, 0, []);
      ContactAsWritten(c).enemy.active && ContactAsWritten(c).score == 0 &&
      !ContactCorrected(c, true).enemy.active && ContactCorrected(c, true).score == 100 &&
      ContactCorrected(c, true).events == [EnemyKilled(100)]
  {
  }

  /** Cleanup never touches an inactive object, and a kept object is left exactly as it was. */
  lemma CleanupSparesInactive(b: BulletState, e: EnemyState, h: real)
    requires h >= 0.0
    ensures !b.active ==> CleanPlayerBullet(b, h) == b && CleanEnemyBullet(b, h) == b
    ensures !e.active ==> CleanEnemy(e, h) == e
    ensures CleanPlayerBullet(b, h) != b ==> !CleanPlayerBullet(b, h).active
    ensures b.active && -40.0 <= b.y <= h + 40.0 ==> CleanPlayerBullet(b, h) == b && CleanEnemyBullet(b, h) == b
    ensures b.active && b.y < -40.0 ==> CleanEnemyBullet(b, h) == b && !CleanPlayerBullet(b, h).active
    ensures e.active && h + 40.0 < e.y <= h + 120.0 ==> CleanEnemy(e, h) == e
  {
  }
}

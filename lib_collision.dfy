/**
 * lib/collision.ts: `handleCollisions`. Pass 1 runs over the enemies back
 * to front and, for each, over the bullets back to front: a player bullet
 * closer than 20 px damages the enemy and is spliced out, and an enemy
 * brought to hp <= 0 is spliced out and checked no further. Pass 2 splices
 * out every enemy bullet closer than 16 px to some ship.
 */
module Collision {
  import opened Js
  import opened LibTypes

  /** A player bullet strictly within 20 px of (x, y): `dx*dx + dy*dy < 20*20`. */
  predicate Strikes(x: real, y: real, b: Bullet)
  {
    var dx := x - b.x;
    var dy := y - b.y;
    IsPlayerBullet(b) && dx * dx + dy * dy < 400.0
  }

  /** The damage a bullet deals: `b.hp ?? 1`. */
  function Damage(b: Bullet): real
  {
    Coalesce(b.hp, 1.0)
  }

  predicate IsEnemyBullet(b: Bullet)
  {
    b.owner == EnemyOwned
  }

  predicate IsPlayerBullet(b: Bullet)
  {
    b.owner == PlayerOwned
  }

  /** The bullets of `s` that do not strike (x, y), in order. */
  function Missed(x: real, y: real, s: seq<Bullet>): (r: seq<Bullet>)
    ensures |r| <= |s|
  {
    if s == [] then []
    else
      var last := s[|s| - 1];
      Missed(x, y, s[..|s| - 1]) + (if Strikes(x, y, last) then [] else [last])
  }

  /** Nothing that strikes (x, y) is left. */
  lemma {:induction false} MissedClean(x: real, y: real, s: seq<Bullet>)
    ensures forall b :: b in Missed(x, y, s) ==> !Strikes(x, y, b)
  {
    if s != [] {
      MissedClean(x, y, s[..|s| - 1]);
    }
  }

  /** The damage the bullets of `s` that strike (x, y) deal together. */
  function DamageTaken(x: real, y: real, s: seq<Bullet>): real
  {
    if s == [] then 0.0
    else DamageTaken(x, y, s[..|s| - 1]) + (if Strikes(x, y, s[|s| - 1]) then Damage(s[|s| - 1]) else 0.0)
  }

  /**
   * One enemy after its inner loop, the bullets left, whether it was
   * spliced, and the index of the bullet that killed it (0 when none did).
   */
  datatype Duel = Duel(enemy: Enemy, bullets: seq<Bullet>, killed: bool, at: nat)

  /**
   * The inner loop for enemy `e`, with bullet indices `n-1` down to 0 still
   * to visit. Visiting stops at the killing bullet `at`; DuelOutcome gives
   * the bullets and hp it leaves.
   */
  function DuelFrom(e: Enemy, bs: seq<Bullet>, n: nat): (r: Duel)
    requires n <= |bs|
    ensures r.at <= n && (!r.killed ==> r.at == 0)
    ensures r.killed ==> r.at < n && Strikes(e.x, e.y, bs[r.at]) && r.enemy.hp <= 0.0 && |r.bullets| < |bs|
    ensures r.enemy == e.(hp := r.enemy.hp)
    ensures !r.killed && |r.bullets| < |bs| ==> r.enemy.hp > 0.0
    ensures |r.bullets| <= |bs|
    ensures |r.bullets| == |bs| ==> r == Duel(e, bs, false, 0)
    decreases n
  {
    if n == 0 then Duel(e, bs, false, 0)
    else
      var b := bs[n - 1];
      if !Strikes(e.x, e.y, b) then DuelFrom(e, bs, n - 1)
      else
        var e2 := e.(hp := e.hp - Damage(b));
        var bs2 := bs[..n - 1] + bs[n..];
        assert bs == bs[..n - 1] + [b] + bs[n..];
        if e2.hp <= 0.0 then Duel(e2, bs2, true, n - 1) else DuelFrom(e2, bs2, n - 1)
  }

  /** Missed and DamageTaken over `bs[a..n]` take one more bullet at the back. */
  lemma MissedSnoc(x: real, y: real, bs: seq<Bullet>, a: nat, n: nat)
    requires a < n <= |bs|
    ensures Missed(x, y, bs[a..n]) == Missed(x, y, bs[a..n - 1]) + (if Strikes(x, y, bs[n - 1]) then [] else [bs[n - 1]])
    ensures DamageTaken(x, y, bs[a..n]) == DamageTaken(x, y, bs[a..n - 1]) + (if Strikes(x, y, bs[n - 1]) then Damage(bs[n - 1]) else 0.0)
  {
    var u := bs[a..n];
    assert u[..|u| - 1] == bs[a..n - 1] && u[|u| - 1] == bs[n - 1];
  }

  /** `p + m + ([b] + q) == p + (m + [b]) + q`, and the same with `[]` for `[b]`. */
  lemma Regroup(p: seq<Bullet>, m: seq<Bullet>, k: seq<Bullet>, q: seq<Bullet>)
    ensures p + m + (k + q) == p + (m + k) + q
  {
  }

  /**
   * What the inner loop leaves: every bullet from the killing index `at` to
   * `n-1` that strikes the enemy is spliced out and deals its `b.hp ?? 1`;
   * the bullets below `at` (never visited after a kill) and from `n` on stay.
   */
  predicate LeavesOutcome(e: Enemy, bs: seq<Bullet>, n: nat)
    requires n <= |bs|
  {
    var r := DuelFrom(e, bs, n);
    && r.bullets == bs[..r.at] + Missed(e.x, e.y, bs[r.at..n]) + bs[n..]
    && r.enemy.hp == e.hp - DamageTaken(e.x, e.y, bs[r.at..n])
  }

  lemma {:induction false} DuelOutcome(e: Enemy, bs: seq<Bullet>, n: nat)
    requires n <= |bs|
    ensures var r := DuelFrom(e, bs, n);
      && r.bullets == bs[..r.at] + Missed(e.x, e.y, bs[r.at..n]) + bs[n..]
      && r.enemy.hp == e.hp - DamageTaken(e.x, e.y, bs[r.at..n])
    decreases n
  {
    if n == 0 {
      assert bs[..0] == [] && bs[0..0] == [] && bs[0..] == bs;
    } else if !Strikes(e.x, e.y, bs[n - 1]) {
      DuelOutcome(e, bs, n - 1);
      OutcomeSkip(e, bs, n);
    } else if e.hp - Damage(bs[n - 1]) <= 0.0 {
      OutcomeKill(e, bs, n);
    } else {
      DuelOutcome(e.(hp := e.hp - Damage(bs[n - 1])), bs[..n - 1] + bs[n..], n - 1);
      OutcomeHit(e, bs, n);
    }
  }

  lemma OutcomeSkip(e: Enemy, bs: seq<Bullet>, n: nat)
    requires 0 < n <= |bs| && !Strikes(e.x, e.y, bs[n - 1])
    requires LeavesOutcome(e, bs, n - 1)
    ensures LeavesOutcome(e, bs, n)
  {
    var b := bs[n - 1];
    var r := DuelFrom(e, bs, n - 1);
    assert DuelFrom(e, bs, n) == r;
    MissedSnoc(e.x, e.y, bs, r.at, n);
    assert bs[n - 1..] == [b] + bs[n..];
    Regroup(bs[..r.at], Missed(e.x, e.y, bs[r.at..n - 1]), [b], bs[n..]);
  }

  lemma OutcomeKill(e: Enemy, bs: seq<Bullet>, n: nat)
    requires 0 < n <= |bs| && Strikes(e.x, e.y, bs[n - 1]) && e.hp - Damage(bs[n - 1]) <= 0.0
    ensures LeavesOutcome(e, bs, n)
  {
    MissedSnoc(e.x, e.y, bs, n - 1, n);
    assert bs[n - 1..n - 1] == [];
    assert DuelFrom(e, bs, n) == Duel(e.(hp := e.hp - Damage(bs[n - 1])), bs[..n - 1] + bs[n..], true, n - 1);
  }

  lemma OutcomeHit(e: Enemy, bs: seq<Bullet>, n: nat)
    requires 0 < n <= |bs| && Strikes(e.x, e.y, bs[n - 1]) && e.hp - Damage(bs[n - 1]) > 0.0
    requires LeavesOutcome(e.(hp := e.hp - Damage(bs[n - 1])), bs[..n - 1] + bs[n..], n - 1)
    ensures LeavesOutcome(e, bs, n)
  {
    var e2 := e.(hp := e.hp - Damage(bs[n - 1]));
    var bs2 := bs[..n - 1] + bs[n..];
    var r := DuelFrom(e2, bs2, n - 1);
    assert DuelFrom(e, bs, n) == r;
    var k := r.at;
    assert bs2[..k] == bs[..k] && bs2[k..n - 1] == bs[k..n - 1] && bs2[n - 1..] == bs[n..];
    var m := Missed(e.x, e.y, bs[k..n - 1]);
    var d := DamageTaken(e.x, e.y, bs[k..n - 1]);
    assert r.bullets == bs[..k] + m + bs[n..] && r.enemy.hp == e2.hp - d;
    MissedSnoc(e.x, e.y, bs, k, n);
    assert Missed(e.x, e.y, bs[k..n]) == m + [];
  }

  /** Pass 1 with enemy indices `m-1` down to 0 still to visit. */
  function Pass1From(es: seq<Enemy>, bs: seq<Bullet>, m: nat): (r: (seq<Enemy>, seq<Bullet>))
    requires m <= |es|
    ensures |r.0| <= |es| && |r.1| <= |bs|

    ensures |es| - |r.0| <= |bs| - |r.1|
    decreases m
  {
    if m == 0 then (es, bs)
    else
      var d := DuelFrom(es[m - 1], bs, |bs|);
      var es2 := if d.killed then es[..m - 1] + es[m..] else es[m - 1 := d.enemy];
      Pass1From(es2, d.bullets, m - 1)
  }

  /** Pass 1 over whole lists. */
  function Pass1(es: seq<Enemy>, bs: seq<Bullet>): (seq<Enemy>, seq<Bullet>)
  {
    Pass1From(es, bs, |es|)
  }

  /** Pass 2: a bullet stays unless it is an enemy bullet within 16 px of a ship. */
  predicate Survives(ships: seq<Point>, b: Bullet)
  {
    !(IsEnemyBullet(b) && exists s :: s in ships && NearShip(s, b))
  }

  predicate NearShip(s: Point, b: Bullet)
  {
    var dx := s.x - b.x;
    var dy := s.y - b.y;
    dx * dx + dy * dy < 256.0
  }

  // ------------------------------------------------------------- methods

  /**
   * The inner loop of pass 1 for the enemy at `ei`: on each hit the enemy's
   * hp drops in place and the bullet is spliced; a kill splices the enemy
   * and ends the loop.
   */
  method DuelEnemy(enemies: List<Enemy>, ei: nat, bullets: List<Bullet>)
    requires ei < |enemies.elems|
    modifies enemies, bullets
    ensures var d := DuelFrom(old(enemies.elems[ei]), old(bullets.elems), |old(bullets.elems)|);
      && bullets.elems == d.bullets
      && enemies.elems == (if d.killed then old(enemies.elems[..ei] + enemies.elems[ei + 1..])
                           else old(enemies.elems)[ei := d.enemy])
  {
    ghost var target := DuelFrom(enemies.elems[ei], bullets.elems, |bullets.elems|);
    ghost var es0 := enemies.elems;
    var e := enemies.elems[ei];
    var bi := |bullets.elems|;
    var killed := false;
    while bi > 0 && !killed
      invariant 0 <= bi <= |bullets.elems|
      invariant !killed ==> DuelFrom(e, bullets.elems, bi) == target
      invariant killed ==> target == Duel(e, bullets.elems, true, bi)
      invariant enemies.elems == es0[ei := e]
    {
      bi := bi - 1;
      var b := bullets.elems[bi];
      if Strikes(e.x, e.y, b) {
        e := e.(hp := e.hp - Damage(b));
        enemies.elems := enemies.elems[ei := e];
        bullets.elems := bullets.elems[..bi] + bullets.elems[bi + 1..];
        killed := e.hp <= 0.0;
      }
    }
    if killed {
      enemies.elems := enemies.elems[..ei] + enemies.elems[ei + 1..];
      assert enemies.elems == es0[..ei] + es0[ei + 1..];
    }
  }

  /** Pass 2's inner loop: whether some ship is within 16 px of `b`. */
  method NearAnyShip(ships: seq<Point>, b: Bullet) returns (hit: bool)
    ensures hit <==> exists s :: s in ships && NearShip(s, b)
  {
    hit := false;
    var k := 0;
    while k < |ships|
      invariant 0 <= k <= |ships|
      invariant forall j :: 0 <= j < k ==> !NearShip(ships[j], b)
    {
      var dx, dy := ships[k].x - b.x, ships[k].y - b.y;
      if dx * dx + dy * dy < 16.0 * 16.0 {
        assert NearShip(ships[k], b);
        return true;
      }
      k := k + 1;
    }
  }

  /** Pass 1: player bullets against enemies, both lists back to front. */
  method PlayerBulletsVsEnemies(bullets: List<Bullet>, enemies: List<Enemy>)
    modifies bullets, enemies
    ensures (enemies.elems, bullets.elems) == Pass1(old(enemies.elems), old(bullets.elems))
  {
    ghost var p1 := Pass1(enemies.elems, bullets.elems);
    var ei := |enemies.elems|;
    while ei > 0
      invariant 0 <= ei <= |enemies.elems|
      invariant Pass1From(enemies.elems, bullets.elems, ei) == p1
    {
      ei := ei - 1;
      DuelEnemy(enemies, ei, bullets);
    }
  }

  /** Pass 2: enemy bullets against ships, bullets back to front. */
  method EnemyBulletsVsShips(bullets: List<Bullet>, ships: seq<Point>)
    modifies bullets
    ensures bullets.elems == Filter(old(bullets.elems), b => Survives(ships, b))
  {
    ghost var m := bullets.elems;
    var bi := |bullets.elems|;
    assert m[bi..] == [];
    while bi > 0
      invariant 0 <= bi <= |m|
      invariant bullets.elems == m[..bi] + Filter(m[bi..], b => Survives(ships, b))
    {
      CullBackStep(m, bi, b => Survives(ships, b));
      var b := bullets.elems[bi - 1];
      var near := false;
      if b.owner == EnemyOwned {
        near := NearAnyShip(ships, b);
      }
      if near {
        bullets.elems := bullets.elems[..bi - 1] + bullets.elems[bi..];
      }
      bi := bi - 1;
    }
    CullBackDone(m, b => Survives(ships, b));
  }

  /**
   * handleCollisions. Afterwards `enemies` and `bullets` are the result of
   * pass 1 followed by pass 2; ships are only read.
   */
  method HandleCollisions(bullets: List<Bullet>, enemies: List<Enemy>, ships: seq<Point>)
    modifies bullets, enemies
    ensures enemies.elems == Pass1(old(enemies.elems), old(bullets.elems)).0
    ensures bullets.elems == Filter(Pass1(old(enemies.elems), old(bullets.elems)).1, b => Survives(ships, b))
  {
    PlayerBulletsVsEnemies(bullets, enemies);
    EnemyBulletsVsShips(bullets, ships);
  }

  // -------------------------------------------------------------- lemmas

  /** Pass 1 removes only player bullets: the enemy bullets come through it intact. */
  lemma {:induction false} DuelKeepsEnemyBullets(e: Enemy, bs: seq<Bullet>, n: nat)
    requires n <= |bs|
    ensures Filter(DuelFrom(e, bs, n).bullets, IsEnemyBullet) == Filter(bs, IsEnemyBullet)
    decreases n
  {
    if n > 0 {
      var b := bs[n - 1];
      if !Strikes(e.x, e.y, b) {
        DuelKeepsEnemyBullets(e, bs, n - 1);
      } else {
        var e2 := e.(hp := e.hp - Damage(b));
        var bs2 := bs[..n - 1] + bs[n..];
        FilterSplice(bs, n - 1, IsEnemyBullet);
        if e2.hp > 0.0 {
          DuelKeepsEnemyBullets(e2, bs2, n - 1);
        }
      }
    }
  }

  lemma {:induction false} Pass1KeepsEnemyBullets(es: seq<Enemy>, bs: seq<Bullet>, m: nat)
    requires m <= |es|
    ensures Filter(Pass1From(es, bs, m).1, IsEnemyBullet) == Filter(bs, IsEnemyBullet)
    decreases m
  {
    if m > 0 {
      var d := DuelFrom(es[m - 1], bs, |bs|);
      DuelKeepsEnemyBullets(es[m - 1], bs, |bs|);
      var es2 := if d.killed then es[..m - 1] + es[m..] else es[m - 1 := d.enemy];
      Pass1KeepsEnemyBullets(es2, d.bullets, m - 1);
    }
  }

  /** With unit bullets (no `hp` field) the damage is the number of bullets that strike. */
  lemma {:induction false} UnitDamageCounts(x: real, y: real, s: seq<Bullet>)
    requires forall i :: 0 <= i < |s| ==> s[i].hp.None?
    ensures DamageTaken(x, y, s) == (|s| - |Missed(x, y, s)|) as real
  {
    if s != [] {
      UnitDamageCounts(x, y, s[..|s| - 1]);
    }
  }

  /**
   * With unit bullets an enemy loses exactly one hit point per bullet
   * spliced out on it.
   */
  lemma DuelUnitDamage(e: Enemy, bs: seq<Bullet>, n: nat)
    requires n <= |bs|
    requires forall i :: 0 <= i < |bs| ==> bs[i].hp.None?
    ensures var r := DuelFrom(e, bs, n); r.enemy.hp == e.hp - (|bs| - |r.bullets|) as real
  {
    var r := DuelFrom(e, bs, n);
    DuelOutcome(e, bs, n);
    UnitDamageCounts(e.x, e.y, bs[r.at..n]);
  }

  /** Where nothing strikes, nothing is dealt. */
  lemma {:induction false} NoStrikeNoDamage(x: real, y: real, bs: seq<Bullet>, a: nat, n: nat)
    requires a <= n <= |bs|
    requires forall i :: a <= i < n ==> !Strikes(x, y, bs[i])
    ensures DamageTaken(x, y, bs[a..n]) == 0.0
    decreases n
  {
    if a < n {
      NoStrikeNoDamage(x, y, bs, a, n - 1);
      MissedSnoc(x, y, bs, a, n);
    }
  }

  /**
   * A kill ends the enemy's loop at the first bullet that takes it to 0 hp
   * or below: no bullet below the killing one is spliced, and just before the
   * killing bullet the enemy had either not been struck at all or still had
   * hp above 0.
   */
  lemma KillStopsTheLoop(e: Enemy, bs: seq<Bullet>, n: nat)
    requires n <= |bs|
    ensures var r := DuelFrom(e, bs, n);
      r.killed ==> |r.bullets| >= r.at && r.bullets[..r.at] == bs[..r.at]
                   && ((forall i :: r.at < i < n ==> !Strikes(e.x, e.y, bs[i]))
                       || e.hp - DamageTaken(e.x, e.y, bs[r.at + 1..n]) > 0.0)
  {
    DuelOutcome(e, bs, n);
    KillAliveBefore(e, bs, n);
  }

  /** Just before the killing bullet the enemy was unstruck or still above 0 hp. */
  predicate AliveBefore(e: Enemy, bs: seq<Bullet>, n: nat)
    requires n <= |bs|
  {
    var r := DuelFrom(e, bs, n);
    r.killed ==> ((forall i :: r.at < i < n ==> !Strikes(e.x, e.y, bs[i]))
                  || e.hp - DamageTaken(e.x, e.y, bs[r.at + 1..n]) > 0.0)
  }

  lemma {:induction false} KillAliveBefore(e: Enemy, bs: seq<Bullet>, n: nat)
    requires n <= |bs|
    ensures AliveBefore(e, bs, n)
    decreases n
  {
    if n > 0 {
      if !Strikes(e.x, e.y, bs[n - 1]) {
        KillAliveBefore(e, bs, n - 1);
        AliveSkip(e, bs, n);
      } else if e.hp - Damage(bs[n - 1]) > 0.0 {
        KillAliveBefore(e.(hp := e.hp - Damage(bs[n - 1])), bs[..n - 1] + bs[n..], n - 1);
        AliveHit(e, bs, n);
      }
    }
  }

  lemma AliveSkip(e: Enemy, bs: seq<Bullet>, n: nat)
    requires 0 < n <= |bs| && !Strikes(e.x, e.y, bs[n - 1])
    requires AliveBefore(e, bs, n - 1)
    ensures AliveBefore(e, bs, n)
  {
    var r := DuelFrom(e, bs, n - 1);
    assert DuelFrom(e, bs, n) == r;
    if r.killed {
      DamageBeforeSkip(e.x, e.y, bs, r.at + 1, n, e.hp);
    }
  }

  /** The bullet at `n-1` misses: unstruck or above 0 hp carries over to `bs[a..n]`. */
  lemma DamageBeforeSkip(x: real, y: real, bs: seq<Bullet>, a: nat, n: nat, hp: real)
    requires a < n <= |bs| && !Strikes(x, y, bs[n - 1])
    requires (forall i :: a <= i < n - 1 ==> !Strikes(x, y, bs[i]))
             || hp - DamageTaken(x, y, bs[a..n - 1]) > 0.0
    ensures (forall i :: a <= i < n ==> !Strikes(x, y, bs[i]))
            || hp - DamageTaken(x, y, bs[a..n]) > 0.0
  {
    MissedSnoc(x, y, bs, a, n);
  }

  lemma AliveHit(e: Enemy, bs: seq<Bullet>, n: nat)
    requires 0 < n <= |bs| && Strikes(e.x, e.y, bs[n - 1]) && e.hp - Damage(bs[n - 1]) > 0.0
    requires AliveBefore(e.(hp := e.hp - Damage(bs[n - 1])), bs[..n - 1] + bs[n..], n - 1)
    ensures AliveBefore(e, bs, n)
  {
    var e2 := e.(hp := e.hp - Damage(bs[n - 1]));
    var bs2 := bs[..n - 1] + bs[n..];
    var r := DuelFrom(e2, bs2, n - 1);
    assert DuelFrom(e, bs, n) == r;
    if r.killed {
      var a := r.at + 1;
      assert bs2[a..n - 1] == bs[a..n - 1];
      assert forall i :: 0 <= i < n - 1 ==> bs2[i] == bs[i];
      DamageBeforeHit(e.x, e.y, bs, a, n, e.hp);
    }
  }

  /** The bullet at `n-1` strikes and leaves `hp` above 0: so do the ones before. */
  lemma DamageBeforeHit(x: real, y: real, bs: seq<Bullet>, a: nat, n: nat, hp: real)
    requires a < n <= |bs| && Strikes(x, y, bs[n - 1]) && hp - Damage(bs[n - 1]) > 0.0
    requires (forall i :: a <= i < n - 1 ==> !Strikes(x, y, bs[i]))
             || hp - Damage(bs[n - 1]) - DamageTaken(x, y, bs[a..n - 1]) > 0.0
    ensures hp - DamageTaken(x, y, bs[a..n]) > 0.0
  {
    MissedSnoc(x, y, bs, a, n);
    if forall i :: a <= i < n - 1 ==> !Strikes(x, y, bs[i]) {
      NoStrikeNoDamage(x, y, bs, a, n - 1);
    }
  }

  /** No bullet is removed twice or made up: the bullets left are a sub-multiset. */
  lemma {:induction false} DuelSpends(e: Enemy, bs: seq<Bullet>, n: nat)
    requires n <= |bs|
    ensures multiset(DuelFrom(e, bs, n).bullets) <= multiset(bs)
    decreases n
  {
    if n > 0 && Strikes(e.x, e.y, bs[n - 1]) {
      var bs2 := bs[..n - 1] + bs[n..];
      assert bs == bs[..n - 1] + [bs[n - 1]] + bs[n..];
      if e.hp - Damage(bs[n - 1]) > 0.0 {
        DuelSpends(e.(hp := e.hp - Damage(bs[n - 1])), bs2, n - 1);
      }
    } else if n > 0 {
      DuelSpends(e, bs, n - 1);
    }
  }

  /** A survivor's loop ran over every bullet: nothing left strikes it. */
  lemma DuelClears(e: Enemy, bs: seq<Bullet>)
    ensures var r := DuelFrom(e, bs, |bs|);
      !r.killed ==> forall b :: b in r.bullets ==> !Strikes(e.x, e.y, b)
  {
    DuelOutcome(e, bs, |bs|);
    var r := DuelFrom(e, bs, |bs|);
    if !r.killed {
      assert bs[..0] == [] && bs[0..|bs|] == bs && bs[|bs|..] == [];
      assert r.bullets == Missed(e.x, e.y, bs);
      MissedClean(e.x, e.y, bs);
    }
  }

  /** Only player bullets damage: without one, the inner loop changes nothing. */
  lemma {:induction false} DuelWithoutPlayerBullets(e: Enemy, bs: seq<Bullet>, n: nat)
    requires n <= |bs|
    requires forall i :: 0 <= i < |bs| ==> !IsPlayerBullet(bs[i])
    ensures DuelFrom(e, bs, n) == Duel(e, bs, false, 0)
    decreases n
  {
    if n > 0 {
      DuelWithoutPlayerBullets(e, bs, n - 1);
    }
  }

  /** Without player bullets pass 1 leaves both lists as they were. */
  lemma {:induction false} Pass1WithoutPlayerBullets(es: seq<Enemy>, bs: seq<Bullet>, m: nat)
    requires m <= |es|
    requires forall i :: 0 <= i < |bs| ==> !IsPlayerBullet(bs[i])
    ensures Pass1From(es, bs, m) == (es, bs)
    decreases m
  {
    if m > 0 {
      DuelWithoutPlayerBullets(es[m - 1], bs, |bs|);
      assert es[m - 1 := es[m - 1]] == es;
      Pass1WithoutPlayerBullets(es, bs, m - 1);
    }
  }

  /** `r` is `es` with some enemies removed and the rest changed only in hp, in order. */
  predicate Thins(r: seq<Enemy>, es: seq<Enemy>)
    decreases |es|
  {
    if es == [] then r == []
    else (r != [] && r[0] == es[0].(hp := r[0].hp) && Thins(r[1..], es[1..])) || Thins(r, es[1..])
  }

  lemma {:induction false} ThinsRefl(es: seq<Enemy>)
    ensures Thins(es, es)
  {
    if es != [] {
      ThinsRefl(es[1..]);
    }
  }

  lemma {:induction false} ThinsTrans(x: seq<Enemy>, y: seq<Enemy>, z: seq<Enemy>)
    requires Thins(x, y) && Thins(y, z)
    ensures Thins(x, z)
    decreases |z|
  {
    if z != [] {
      if Thins(y, z[1..]) {
        ThinsTrans(x, y, z[1..]);
      } else if Thins(x, y[1..]) {
        ThinsTrans(x, y[1..], z[1..]);
      } else {
        ThinsTrans(x[1..], y[1..], z[1..]);
      }
    }
  }

  lemma {:induction false} ThinsDrop(es: seq<Enemy>, i: nat)
    requires i < |es|
    ensures Thins(es[..i] + es[i + 1..], es)
  {
    if i == 0 {
      assert es[..0] + es[1..] == es[1..];
      ThinsRefl(es[1..]);
    } else {
      var r := es[..i] + es[i + 1..];
      assert r[0] == es[0] && r[1..] == es[1..][..i - 1] + es[1..][i..];
      ThinsDrop(es[1..], i - 1);
    }
  }

  lemma {:induction false} ThinsUpdate(es: seq<Enemy>, i: nat, x: Enemy)
    requires i < |es| && x == es[i].(hp := x.hp)
    ensures Thins(es[i := x], es)
  {
    var r := es[i := x];
    if i == 0 {
      assert r[1..] == es[1..];
      ThinsRefl(es[1..]);
    } else {
      assert r[0] == es[0] && r[1..] == es[1..][i - 1 := x];
      ThinsUpdate(es[1..], i - 1, x);
    }
  }

  /** The enemies pass 1 leaves are input enemies, in order, changed only in hp. */
  lemma {:induction false} Pass1Survivors(es: seq<Enemy>, bs: seq<Bullet>, m: nat)
    requires m <= |es|
    ensures Thins(Pass1From(es, bs, m).0, es)
    decreases m
  {
    if m == 0 {
      ThinsRefl(es);
    } else {
      var d := DuelFrom(es[m - 1], bs, |bs|);
      var es2 := if d.killed then es[..m - 1] + es[m..] else es[m - 1 := d.enemy];
      Pass1Survivors(es2, d.bullets, m - 1);
      if d.killed {
        ThinsDrop(es, m - 1);
      } else {
        ThinsUpdate(es, m - 1, d.enemy);
      }
      ThinsTrans(Pass1From(es2, d.bullets, m - 1).0, es2, es);
    }
  }

  lemma {:induction false} Pass1NoOverlapFrom(es: seq<Enemy>, bs: seq<Bullet>, m: nat)
    requires m <= |es|
    requires forall j, b :: m <= j < |es| && b in bs ==> !Strikes(es[j].x, es[j].y, b)
    ensures var r := Pass1From(es, bs, m); forall s, b :: s in r.0 && b in r.1 ==> !Strikes(s.x, s.y, b)
    decreases m
  {
    if m == 0 {
      assert Pass1From(es, bs, m) == (es, bs);
      forall s, b | s in es && b in bs
        ensures !Strikes(s.x, s.y, b)
      {
        var j :| 0 <= j < |es| && es[j] == s;
        assert !Strikes(es[j].x, es[j].y, b);
      }
    } else {
      var e := es[m - 1];
      var d := DuelFrom(e, bs, |bs|);
      var es2 := if d.killed then es[..m - 1] + es[m..] else es[m - 1 := d.enemy];
      DuelSpends(e, bs, |bs|);
      DuelClears(e, bs);
      forall j, b | m - 1 <= j < |es2| && b in d.bullets
        ensures !Strikes(es2[j].x, es2[j].y, b)
      {
        assert multiset(d.bullets)[b] > 0;
        assert b in bs;
        if d.killed {
          assert es2[j] == es[j + 1];
          assert !Strikes(es[j + 1].x, es[j + 1].y, b);
        } else if j >= m {
          assert es2[j] == es[j];
          assert !Strikes(es[j].x, es[j].y, b);
        } else {
          assert es2[j].x == e.x && es2[j].y == e.y;
        }
      }
      Pass1NoOverlapFrom(es2, d.bullets, m - 1);
      assert Pass1From(es, bs, m) == Pass1From(es2, d.bullets, m - 1);
    }
  }

  /** Pass 1 consumes each bullet at most once and adds none. */
  lemma {:induction false} Pass1Spends(es: seq<Enemy>, bs: seq<Bullet>, m: nat)
    requires m <= |es|
    ensures multiset(Pass1From(es, bs, m).1) <= multiset(bs)
    decreases m
  {
    if m > 0 {
      var d := DuelFrom(es[m - 1], bs, |bs|);
      var es2 := if d.killed then es[..m - 1] + es[m..] else es[m - 1 := d.enemy];
      DuelSpends(es[m - 1], bs, |bs|);
      Pass1Spends(es2, d.bullets, m - 1);
    }
  }

  /**
   * After pass 1 no surviving enemy has a player bullet within 20 px: each
   * survivor's loop ran over every bullet, and later loops only remove some.
   */
  lemma Pass1LeavesNoOverlap(es: seq<Enemy>, bs: seq<Bullet>)
    ensures forall s, b :: s in Pass1(es, bs).0 && b in Pass1(es, bs).1 ==> !Strikes(s.x, s.y, b)
  {
    assert Pass1(es, bs) == Pass1From(es, bs, |es|);
    Pass1NoOverlapFrom(es, bs, |es|);
  }

  /** Pass 2 removes only enemy bullets: the player bullets come through it intact. */
  lemma Pass2KeepsPlayerBullets(bs: seq<Bullet>, ships: seq<Point>)
    ensures Filter(Filter(bs, b => Survives(ships, b)), IsPlayerBullet) == Filter(bs, IsPlayerBullet)
  {
    FilterAbsorb(bs, b => Survives(ships, b), IsPlayerBullet);
  }
}

/**
 * lib/bulletManager.ts: `updateBullets` moves every bullet by its velocity
 * and then splices out, back to front, those that left the canvas
 * vertically.
 */
module BulletManager {
  import opened Js
  import opened LibTypes

  /** One bullet after `dt` seconds; a missing `vx` counts as 0. */
  function Advance(b: Bullet, dt: real): (r: Bullet)
    ensures r.x == b.x + Coalesce(b.vx, 0.0) * dt && r.y == b.y + b.vy * dt
    ensures r.(x := b.x, y := b.y) == b
  {
    b.(x := b.x + Coalesce(b.vx, 0.0) * dt, y := b.y + b.vy * dt)
  }

  /** The bullets after the movement loop. */
  function AdvanceAll(bs: seq<Bullet>, dt: real): (r: seq<Bullet>)
    ensures |r| == |bs|
    ensures forall i :: 0 <= i < |bs| ==> r[i] == Advance(bs[i], dt)
  {
    seq(|bs|, i requires 0 <= i < |bs| => Advance(bs[i], dt))
  }

  /** A bullet is kept while `-20 <= y <= ch + 20`; the bounds themselves stay. */
  predicate OnScreen(ch: real, b: Bullet)
  {
    !(b.y < -20.0 || b.y > ch + 20.0)
  }

  /** The movement loop of `updateBullets`. */
  method MoveAll(bullets: List<Bullet>, dt: real)
    modifies bullets
    ensures bullets.elems == AdvanceAll(old(bullets.elems), dt)
  {
    var i := 0;
    while i < |bullets.elems|
      invariant |bullets.elems| == |old(bullets.elems)| && 0 <= i <= |bullets.elems|
      invariant forall j :: 0 <= j < i ==> bullets.elems[j] == Advance(old(bullets.elems[j]), dt)
      invariant forall j :: i <= j < |bullets.elems| ==> bullets.elems[j] == old(bullets.elems[j])
    {
      var b := bullets.elems[i];
      bullets.elems := bullets.elems[i := b.(x := b.x + Coalesce(b.vx, 0.0) * dt, y := b.y + b.vy * dt)];
      i := i + 1;
    }
  }

  /** The backward splice loop of `updateBullets`. */
  method CullAll(bullets: List<Bullet>, ch: real)
    modifies bullets
    ensures bullets.elems == Filter(old(bullets.elems), b => OnScreen(ch, b))
  {
    ghost var m := bullets.elems;
    // `i` is one past the index the source's `for (let i = length - 1; ...)` visits.
    var i := |bullets.elems|;
    assert m[i..] == [];
    while i > 0
      invariant 0 <= i <= |m|
      invariant bullets.elems == m[..i] + Filter(m[i..], b => OnScreen(ch, b))
    {
      CullBackStep(m, i, b => OnScreen(ch, b));
      if bullets.elems[i - 1].y < -20.0 || bullets.elems[i - 1].y > ch + 20.0 {
        bullets.elems := bullets.elems[..i - 1] + bullets.elems[i..];
      }
      i := i - 1;
    }
    CullBackDone(m, b => OnScreen(ch, b));
  }

  /**
   * updateBullets: afterwards `bullets` holds exactly the moved bullets that
   * are still on screen, in their original order.
   */
  method UpdateBullets(bullets: List<Bullet>, dt: real, ch: real)
    modifies bullets
    ensures bullets.elems == Filter(AdvanceAll(old(bullets.elems), dt), b => OnScreen(ch, b))
  {
    MoveAll(bullets, dt);
    CullAll(bullets, ch);
  }

  /**
   * The cull removes exactly the bullets that are vertically out of range:
   * a moved bullet survives as often as it occurs when it is on screen, and
   * not at all otherwise. Nothing is added.
   */
  lemma CullExactly(bs: seq<Bullet>, dt: real, ch: real, b: Bullet)
    ensures var r := Filter(AdvanceAll(bs, dt), c => OnScreen(ch, c));
      && multiset(r)[b] == (if -20.0 <= b.y <= ch + 20.0 then multiset(AdvanceAll(bs, dt))[b] else 0)
      && (b in r <==> b in AdvanceAll(bs, dt) && -20.0 <= b.y <= ch + 20.0)
  {
    FilterCount(AdvanceAll(bs, dt), c => OnScreen(ch, c), b);
    FilterMembership(AdvanceAll(bs, dt), c => OnScreen(ch, c), b);
  }

  /** Culling a concatenation culls each part, so survivors keep their order. */
  lemma CullKeepsOrder(a: seq<Bullet>, c: seq<Bullet>, dt: real, ch: real)
    ensures Filter(AdvanceAll(a + c, dt), b => OnScreen(ch, b)) ==
            Filter(AdvanceAll(a, dt), b => OnScreen(ch, b)) + Filter(AdvanceAll(c, dt), b => OnScreen(ch, b))
  {
    assert AdvanceAll(a + c, dt) == AdvanceAll(a, dt) + AdvanceAll(c, dt);
    FilterAppend(AdvanceAll(a, dt), AdvanceAll(c, dt), b => OnScreen(ch, b));
  }

  /**
   * Horizontal position never causes removal: two bullet lists that differ
   * only in `x` keep the same bullets, position by position, up to `x`.
   */
  lemma {:induction false} CullIgnoresX(s: seq<Bullet>, t: seq<Bullet>, ch: real)
    requires |s| == |t|
    requires forall i :: 0 <= i < |s| ==> s[i] == t[i].(x := s[i].x)
    ensures var fs := Filter(s, b => OnScreen(ch, b));
      var ft := Filter(t, b => OnScreen(ch, b));
      |fs| == |ft| && forall k :: 0 <= k < |fs| ==> fs[k] == ft[k].(x := fs[k].x)
  {
    if s != [] {
      assert forall i :: 0 <= i < |s[1..]| ==> s[1..][i] == s[i + 1] && t[1..][i] == t[i + 1];
      CullIgnoresX(s[1..], t[1..], ch);
      assert s[0] == t[0].(x := s[0].x);
    }
  }
}

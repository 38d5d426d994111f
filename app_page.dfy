/**
 * app/page.jsx: the original single-file game. Pure helpers `clamp` and
 * `cubicAt`, the spawn cursor `spawnFromSpec`, the per-enemy motion rules of
 * `updateEnemy`, and the input, fire, collision and cull passes of `loop`.
 * The closure's world variables (enemies, bullets, player, spawnIndex,
 * lastTime) are the fields of `World`.
 */
module Page {
  import opened Js
  import InputManager

  const Pi: real := 3.141592653589793

  /** `clamp(n, min, max) = Math.max(min, Math.min(max, n))`. */
  function Clamp(n: real, lo: real, hi: real): (r: real)
    ensures lo <= hi ==> lo <= r <= hi
    ensures lo <= n <= hi ==> r == n
    ensures hi < lo ==> r == lo
  {
    Max(lo, Min(hi, n))
  }

  /** The cubic Bezier blend of four coordinates at parameter `t`. */
  function CubicAt(t: real, p0: real, p1: real, p2: real, p3: real): (r: real)
    ensures t == 0.0 ==> r == p0
    ensures t == 1.0 ==> r == p3
  {
    var u := 1.0 - t;
    (u * u * u) * p0 + 3.0 * (u * u) * t * p1 + 3.0 * u * (t * t) * p2 + (t * t * t) * p3
  }

  /** The four Bernstein weights sum to 1, so four equal points give that point for every `t`. */
  lemma CubicOfEqualPoints(t: real, p: real)
    ensures CubicAt(t, p, p, p, p) == p
  {
    var u := 1.0 - t;
    assert u * u * u + 3.0 * (u * u) * t + 3.0 * u * (t * t) + t * t * t == (u + t) * (u + t) * (u + t);
    assert CubicAt(t, p, p, p, p) == (u * u * u + 3.0 * (u * u) * t + 3.0 * u * (t * t) + t * t * t) * p;
  }

  // ------------------------------------------------------------------ data

  /** A control point in percent of the canvas. */
  datatype Point = Point(x: real, y: real)

  /** An enemy's `path`; every field may be missing. */
  datatype Path = Path(
    kind: Option<string>,
    amplitude_norm: Option<real>, frequency_hz: Option<real>, phase: Option<real>, axis: Option<string>,
    duration_ms: Option<real>, points_norm: Option<seq<Point>>,
    angle_deg: Option<real>, speed_px_s: Option<real>)

  /** One entry of the spec's `spawn` array. */
  datatype Spawn = Spawn(
    t_ms: real, kind: Option<string>, hp: Option<real>,
    x_norm: Option<real>, y_norm: Option<real>,
    vx_px_s: Option<real>, vy_px_s: Option<real>,
    path: Option<Path>)

  datatype Enemy = Enemy(
    x: real, y: real, x0: real, y0: real, vx: real, vy: real,
    kind: string, hp: real, size: real, born: real, path: Option<Path>)

  /** A player bullet; `dead` is the flag the collision pass sets. */
  datatype Bullet = Bullet(x: real, y: real, vy: real, size: real, dead: bool)

  /** What a throwing statement leaves: a value, or an exception out of `loop`. */
  datatype Outcome<T> = Ok(value: T) | Threw

  // ----------------------------------------------------------------- spawn

  /** The enemy one spawn entry becomes at time `nowMs` on a `w` x `h` canvas. */
  function Materialize(s: Spawn, nowMs: real, w: real, h: real): (e: Enemy)
    ensures e.kind == OrStr(s.kind, "scout") && e.hp == Coalesce(s.hp, 1.0)
    ensures e.size == (if e.kind == "bruiser" then 12.0 else 10.0)
    ensures e.x == e.x0 == Coalesce(s.x_norm, 50.0) / 100.0 * w
    ensures e.y == e.y0 == Coalesce(s.y_norm, 0.0) / 100.0 * h
    ensures e.vx == OrNum(s.vx_px_s, 0.0) && e.vy == OrNum(s.vy_px_s, 60.0) && e.vy != 0.0
    ensures e.born == nowMs && e.path == s.path
  {
    var kind := OrStr(s.kind, "scout");
    var x0 := Coalesce(s.x_norm, 50.0) / 100.0 * w;
    var y0 := Coalesce(s.y_norm, 0.0) / 100.0 * h;
    Enemy(x0, y0, x0, y0, OrNum(s.vx_px_s, 0.0), OrNum(s.vy_px_s, 60.0),
          kind, Coalesce(s.hp, 1.0), if kind == "bruiser" then 12.0 else 10.0, nowMs, s.path)
  }

  /** `||` on a speed: a spawn that asks for `vy = 0` moves at 60 px/s instead. */
  lemma ZeroSpeedBecomesDefault(s: Spawn, nowMs: real, w: real, h: real)
    requires s.vy_px_s == Some(0.0)
    ensures Materialize(s, nowMs, w, h).vy == 60.0
  {
  }

  /** The cursor's stopping point: the first entry at or after `i` not yet due. */
  function DueEnd(spawns: seq<Spawn>, i: nat, t: real): (j: nat)
    ensures i <= j
    ensures j > i ==> j <= |spawns|
    ensures forall k :: i <= k < j ==> spawns[k].t_ms <= t
    ensures j < |spawns| ==> spawns[j].t_ms > t
    decreases |spawns| - i
  {
    if i < |spawns| && spawns[i].t_ms <= t then DueEnd(spawns, i + 1, t) else i
  }

  function MaterializeRange(spawns: seq<Spawn>, lo: nat, hi: nat, nowMs: real, w: real, h: real): (r: seq<Enemy>)
    requires lo <= hi <= |spawns|
    ensures |r| == hi - lo
    ensures forall k :: 0 <= k < hi - lo ==> r[k] == Materialize(spawns[lo + k], nowMs, w, h)
    decreases hi
  {
    if lo == hi then [] else MaterializeRange(spawns, lo, hi - 1, nowMs, w, h) + [Materialize(spawns[hi - 1], nowMs, w, h)]
  }

  /** What one `spawnFromSpec` call pushes: spawns `from` up to `to`, none when the cursor did not move. */
  function Arrivals(spawns: seq<Spawn>, from: nat, to: nat, nowMs: real, w: real, h: real): seq<Enemy>
    requires from <= to && (to > from ==> to <= |spawns|)
  {
    if to == from then [] else MaterializeRange(spawns, from, to, nowMs, w, h)
  }

  /** The `while` loop of `spawnFromSpec`: the spawns due from index `from` on, materialised. */
  method SpawnDue(spawns: seq<Spawn>, from: nat, t: real, nowMs: real, w: real, h: real) returns (i: nat, added: seq<Enemy>)
    ensures i == DueEnd(spawns, from, t)
    ensures added == if i == from then [] else MaterializeRange(spawns, from, i, nowMs, w, h)
  {
    i, added := from, [];
    while i < |spawns| && spawns[i].t_ms <= t
      invariant from <= i
      invariant i > from ==> i <= |spawns|
      invariant DueEnd(spawns, i, t) == DueEnd(spawns, from, t)
      invariant added == if i == from then [] else MaterializeRange(spawns, from, i, nowMs, w, h)
      decreases |spawns| - i
    {
      assert MaterializeRange(spawns, from, i + 1, nowMs, w, h) ==
             MaterializeRange(spawns, from, i, nowMs, w, h) + [Materialize(spawns[i], nowMs, w, h)];
      added := added + [Materialize(spawns[i], nowMs, w, h)];
      i := i + 1;
    }
  }

  // ---------------------------------------------------------------- motion

  /** The control points a Bezier path uses: `points_norm || default`. */
  function BezierPoints(e: Enemy, p: Path, w: real, h: real): seq<Point>
    requires w != 0.0 && h != 0.0
  {
    if p.points_norm.Some? then p.points_norm.value
    else [Point(e.x0 / w * 100.0, e.y0 / h * 100.0), Point(50.0, 10.0), Point(60.0, 30.0), Point(50.0, 60.0)]
  }

  /** `t = Math.min(1, age / Math.max(0.0001, dur))`, with dur defaulting to 4000 ms. */
  function BezierT(e: Enemy, p: Path, now: real): real
  {
    var age := (now - e.born) / 1000.0;
    var dur := Coalesce(p.duration_ms, 4000.0) / 1000.0;
    Min(1.0, age / Max(0.0001, dur))
  }

  /**
   * The four control points after `P.length >= 4 ? P.slice(0, 4) : [P[0], P[0], P[0], P[0]]`;
   * an empty array leaves `P[0]` undefined.
   */
  function Controls(pts: seq<Point>): Outcome<seq<Point>>
  {
    if |pts| >= 4 then Ok(pts[..4]) else if |pts| >= 1 then Ok([pts[0], pts[0], pts[0], pts[0]]) else Threw
  }

  /** A control point given in percent of the canvas, in pixels. */
  function Scale(p: Point, w: real, h: real): Point
  {
    Point(p.x / 100.0 * w, p.y / 100.0 * h)
  }

  /** The cubic Bezier blend of four points, coordinate by coordinate. */
  function Blend(t: real, a: Point, b: Point, c: Point, d: Point): Point
  {
    Point(CubicAt(t, a.x, b.x, c.x, d.x), CubicAt(t, a.y, b.y, c.y, d.y))
  }

  /** `e` moved to pixel position `q`. */
  function PlacedAt(e: Enemy, q: Point): Enemy
  {
    e.(x := q.x, y := q.y)
  }

  /** The Bezier branch: the blend of the four control points, scaled to the canvas. */
  function BezierMotion(e: Enemy, p: Path, now: real, w: real, h: real): Outcome<Enemy>
    requires w != 0.0 && h != 0.0
  {
    var t := BezierT(e, p, now);
    match Controls(BezierPoints(e, p, w, h))
    case Threw => Threw
    case Ok(c) => Ok(PlacedAt(e, Blend(t, Scale(c[0], w, h), Scale(c[1], w, h), Scale(c[2], w, h), Scale(c[3], w, h))))
  }

  /**
   * updateEnemy: the new position of `e` at time `now` after `dt` seconds.
   * Only `x` and `y` change. A Bezier path whose `points_norm` is an empty
   * array throws (reading `.x` of `undefined`).
   */
  function Motion(e: Enemy, dt: real, now: real, w: real, h: real, trig: Trig): (r: Outcome<Enemy>)
    requires w != 0.0 && h != 0.0
    ensures r.Ok? ==> r.value == e.(x := r.value.x, y := r.value.y)
    ensures r.Threw? <==> e.path.Some? && e.path.value.kind == Some("bezier") && e.path.value.points_norm == Some([])
    ensures e.path.None? || e.path.value.kind == Some("line") ==>
              r == Ok(e.(x := e.x + OrNum(Some(e.vx), 0.0) * dt, y := e.y + OrNum(Some(e.vy), 70.0) * dt))
    ensures e.path.Some? && e.path.value.kind !in {Some("line"), Some("sine"), Some("bezier"), Some("bulletml")} ==>
              r == Ok(e)
  {
    var age := (now - e.born) / 1000.0;
    if e.path.None? || e.path.value.kind == Some("line") then
      Ok(e.(x := e.x + OrNum(Some(e.vx), 0.0) * dt, y := e.y + OrNum(Some(e.vy), 70.0) * dt))
    else
      var p := e.path.value;
      if p.kind == Some("sine") then
        var a := Coalesce(p.amplitude_norm, 10.0) / 100.0 * (if p.axis == Some("y") then h else w);
        var f := Coalesce(p.frequency_hz, 0.5);
        var ph := Coalesce(p.phase, 0.0);
        var wave := a * trig.sin(2.0 * Pi * f * age + ph);
        if OrStr(p.axis, "x") == "x" then Ok(e.(x := e.x0 + wave, y := e.y + OrNum(Some(e.vy), 70.0) * dt))
        else Ok(e.(y := e.y0 + wave, x := e.x + OrNum(Some(e.vx), 0.0) * dt))
      else if p.kind == Some("bezier") then BezierMotion(e, p, now, w, h)
      else if p.kind == Some("bulletml") then
        var ang := Coalesce(p.angle_deg, 90.0) * Pi / 180.0;
        var speed := Coalesce(p.speed_px_s, 100.0);
        Ok(e.(x := e.x + trig.cos(ang) * speed * dt, y := e.y + trig.sin(ang) * speed * dt))
      else Ok(e)
  }

  /**
   * With one to three control points the enemy sits on the first point,
   * scaled to the canvas, at every moment.
   */
  lemma BezierFewPointsStandStill(e: Enemy, dt: real, now: real, w: real, h: real, trig: Trig)
    requires w != 0.0 && h != 0.0
    requires e.path.Some? && e.path.value.kind == Some("bezier")
    requires 1 <= |BezierPoints(e, e.path.value, w, h)| < 4
    ensures Motion(e, dt, now, w, h, trig) == Ok(PlacedAt(e, Scale(BezierPoints(e, e.path.value, w, h)[0], w, h)))
  {
    var q := Scale(BezierPoints(e, e.path.value, w, h)[0], w, h);
    var t := BezierT(e, e.path.value, now);
    CubicOfEqualPoints(t, q.x);
    CubicOfEqualPoints(t, q.y);
    assert Blend(t, q, q, q, q) == q;
  }

  /** Once the path's duration has elapsed the enemy sits on the fourth control point. */
  lemma BezierEndsOnLastPoint(e: Enemy, dt: real, now: real, w: real, h: real, trig: Trig)
    requires w != 0.0 && h != 0.0
    requires e.path.Some? && e.path.value.kind == Some("bezier")
    requires |BezierPoints(e, e.path.value, w, h)| >= 4
    requires (now - e.born) / 1000.0 >= Max(0.0001, Coalesce(e.path.value.duration_ms, 4000.0) / 1000.0)
    ensures Motion(e, dt, now, w, h, trig) == Ok(PlacedAt(e, Scale(BezierPoints(e, e.path.value, w, h)[3], w, h)))
  {
    var age := (now - e.born) / 1000.0;
    var m := Max(0.0001, Coalesce(e.path.value.duration_ms, 4000.0) / 1000.0);
    assert age / m >= 1.0 by { assert age / m * m == age; }
    assert BezierT(e, e.path.value, now) == 1.0;
  }

  /** At its birth time an enemy on a Bezier path sits on the first control point. */
  lemma BezierStartsOnFirstPoint(e: Enemy, dt: real, w: real, h: real, trig: Trig)
    requires w != 0.0 && h != 0.0
    requires e.path.Some? && e.path.value.kind == Some("bezier")
    requires |BezierPoints(e, e.path.value, w, h)| >= 1
    ensures Motion(e, dt, e.born, w, h, trig) == Ok(PlacedAt(e, Scale(BezierPoints(e, e.path.value, w, h)[0], w, h)))
  {
    assert BezierT(e, e.path.value, e.born) == 0.0;
  }

  function MotionAll(es: seq<Enemy>, dt: real, now: real, w: real, h: real, trig: Trig): (r: Outcome<seq<Enemy>>)
    requires w != 0.0 && h != 0.0
    ensures r.Ok? <==> forall i :: 0 <= i < |es| ==> Motion(es[i], dt, now, w, h, trig).Ok?
    ensures r.Ok? ==> |r.value| == |es| && forall i :: 0 <= i < |es| ==> r.value[i] == Motion(es[i], dt, now, w, h, trig).value
  {
    if forall i :: 0 <= i < |es| ==> Motion(es[i], dt, now, w, h, trig).Ok? then
      Ok(seq(|es|, i requires 0 <= i < |es| => Motion(es[i], dt, now, w, h, trig).value))
    else Threw
  }

  // ------------------------------------------------------------- collision

  /** Overlap of two circles: `dx*dx + dy*dy < r*r` with `r = e.size + b.size`. */
  predicate Overlap(e: Enemy, b: Bullet)
  {
    var dx := e.x - b.x;
    var dy := e.y - b.y;
    var r := e.size + b.size;
    dx * dx + dy * dy < r * r
  }

  /**
   * The inner collision loop as written, for enemy `e` from bullet `j` on:
   * `if(!e.hp) continue`, then on an overlap `e.hp -= 1; b.dead = True`,
   * where the undefined identifier `True` throws.
   */
  function HitAsWritten(e: Enemy, bs: seq<Bullet>, j: nat): (r: Outcome<(Enemy, seq<Bullet>)>)
    requires j <= |bs|
    ensures r.Ok? <==> forall k :: j <= k < |bs| ==> e.hp == 0.0 || !Overlap(e, bs[k])
    ensures r.Ok? ==> r.value == (e, bs)
    decreases |bs| - j
  {
    if j == |bs| then Ok((e, bs))
    else if e.hp == 0.0 || !Overlap(e, bs[j]) then HitAsWritten(e, bs, j + 1)
    else Threw
  }

  function CollideAsWritten(es: seq<Enemy>, bs: seq<Bullet>, i: nat): (r: Outcome<(seq<Enemy>, seq<Bullet>)>)
    requires i <= |es|
    ensures r.Ok? <==> forall k, j :: i <= k < |es| && 0 <= j < |bs| ==> es[k].hp == 0.0 || !Overlap(es[k], bs[j])
    ensures r.Ok? ==> r.value == (es, bs)
    decreases |es| - i
  {
    if i == |es| then Ok((es, bs))
    else match HitAsWritten(es[i], bs, 0)
      case Threw => Threw
      case Ok(r) =>
        assert es[i := r.0] == es;
        CollideAsWritten(es[i := r.0], r.1, i + 1)
  }

  /**
   * The inner collision loop with `b.dead = true`: each overlapping bullet
   * costs a live enemy one hit point and is marked dead. An enemy at
   * exactly 0 hp is skipped; dead bullets are not.
   */
  function HitFrom(e: Enemy, bs: seq<Bullet>, j: nat): (r: (Enemy, seq<Bullet>))
    requires j <= |bs|
    ensures r.0 == e.(hp := r.0.hp) && r.0.hp <= e.hp
    ensures |r.1| == |bs|
    ensures forall k :: 0 <= k < |bs| ==> r.1[k] == bs[k].(dead := r.1[k].dead) && (bs[k].dead ==> r.1[k].dead)
    ensures forall k :: 0 <= k < j ==> r.1[k] == bs[k]
    decreases |bs| - j
  {
    if j == |bs| then (e, bs)
    else if e.hp == 0.0 || !Overlap(e, bs[j]) then HitFrom(e, bs, j + 1)
    else HitFrom(e.(hp := e.hp - 1.0), bs[j := bs[j].(dead := true)], j + 1)
  }

  /** The whole collision pass, enemies in order from `i` on. */
  function CollideFrom(es: seq<Enemy>, bs: seq<Bullet>, i: nat): (r: (seq<Enemy>, seq<Bullet>))
    requires i <= |es|
    ensures |r.0| == |es| && |r.1| == |bs|
    ensures forall k :: 0 <= k < |es| ==> r.0[k] == es[k].(hp := r.0[k].hp) && r.0[k].hp <= es[k].hp
    ensures forall k :: 0 <= k < |bs| ==> r.1[k] == bs[k].(dead := r.1[k].dead) && (bs[k].dead ==> r.1[k].dead)
    decreases |es| - i
  {
    if i == |es| then (es, bs)
    else
      var r := HitFrom(es[i], bs, 0);
      CollideFrom(es[i := r.0], r.1, i + 1)
  }

  /** An enemy at exactly 0 hp is skipped from `j` on: its loop changes nothing. */
  lemma {:induction false} HitSkipsAtZero(e: Enemy, bs: seq<Bullet>, j: nat)
    requires j <= |bs| && e.hp == 0.0
    ensures HitFrom(e, bs, j) == (e, bs)
    decreases |bs| - j
  {
    if j < |bs| {
      HitSkipsAtZero(e, bs, j + 1);
    }
  }

  /**
   * Whether one enemy's corrected loop marks bullet `k` dead: it does when
   * the bullet overlaps, unless the enemy has come down to exactly 0 hp (and
   * is skipped from then on); it never marks a bullet that does not overlap.
   */
  lemma {:induction false} HitMarksAt(e: Enemy, bs: seq<Bullet>, j: nat, k: nat)
    requires j <= k < |bs|
    ensures var r := HitFrom(e, bs, j);
      && (Overlap(e, bs[k]) ==> r.1[k].dead || r.0.hp == 0.0)
      && (r.1[k].dead ==> bs[k].dead || Overlap(e, bs[k]))
    decreases |bs| - j
  {
    if e.hp == 0.0 {
      HitSkipsAtZero(e, bs, j);
    } else if !Overlap(e, bs[j]) {
      if j < k {
        HitMarksAt(e, bs, j + 1, k);
      }
    } else {
      var e2, bs2 := e.(hp := e.hp - 1.0), bs[j := bs[j].(dead := true)];
      assert HitFrom(e, bs, j) == HitFrom(e2, bs2, j + 1);
      if j < k {
        assert bs2[k] == bs[k] && (Overlap(e2, bs2[k]) <==> Overlap(e, bs[k]));
        HitMarksAt(e2, bs2, j + 1, k);
      }
    }
  }

  /** HitMarksAt for every bullet from `j` on. */
  lemma HitMarks(e: Enemy, bs: seq<Bullet>, j: nat)
    requires j <= |bs|
    ensures var r := HitFrom(e, bs, j);
      && (forall k :: j <= k < |bs| && Overlap(e, bs[k]) ==> r.1[k].dead || r.0.hp == 0.0)
      && (forall k :: j <= k < |bs| && r.1[k].dead ==> bs[k].dead || Overlap(e, bs[k]))
  {
    forall k | j <= k < |bs|
      ensures var r := HitFrom(e, bs, j);
        && (Overlap(e, bs[k]) ==> r.1[k].dead || r.0.hp == 0.0)
        && (r.1[k].dead ==> bs[k].dead || Overlap(e, bs[k]))
    {
      HitMarksAt(e, bs, j, k);
    }
  }

  /** How many bullets from `j` on overlap `e`; it depends on positions and sizes only. */
  function Overlaps(e: Enemy, bs: seq<Bullet>, j: nat): (n: nat)
    requires j <= |bs|
    ensures n <= |bs| - j
    decreases |bs| - j
  {
    if j == |bs| then 0
    else (if Overlap(e, bs[j]) then 1 else 0) + Overlaps(e, bs, j + 1)
  }

  /** The count does not change with the enemy's hp. */
  lemma {:induction false} OverlapsIgnoresHp(e: Enemy, hp: real, bs: seq<Bullet>, j: nat)
    requires j <= |bs|
    ensures Overlaps(e.(hp := hp), bs, j) == Overlaps(e, bs, j)
    decreases |bs| - j
  {
    if j < |bs| {
      var e2 := e.(hp := hp);
      assert e2.x == e.x && e2.y == e.y && e2.size == e.size;
      assert Overlap(e2, bs[j]) == Overlap(e, bs[j]);
      OverlapsIgnoresHp(e, hp, bs, j + 1);
    }
  }

  /** Nor with the bullets' `dead` marks. */
  lemma {:induction false} OverlapsIgnoresDead(e: Enemy, bs: seq<Bullet>, bs2: seq<Bullet>, j: nat)
    requires j <= |bs| == |bs2|
    requires forall k :: 0 <= k < |bs| ==> bs2[k] == bs[k].(dead := bs2[k].dead)
    ensures Overlaps(e, bs2, j) == Overlaps(e, bs, j)
    decreases |bs| - j
  {
    if j < |bs| {
      assert Overlap(e, bs2[j]) == Overlap(e, bs[j]);
      OverlapsIgnoresDead(e, bs, bs2, j + 1);
    }
  }

  /** A whole non-negative number of hit points, the case `!e.hp` can stop at. */
  predicate WholeHp(hp: real)
  {
    hp >= 0.0 && hp.Floor as real == hp
  }

  /**
   * Each overlapping bullet from `j` on costs the enemy one hit point:
   * whole hit points go down to 0 and stop there (`!e.hp` then skips the
   * enemy), any other value never meets 0 and drops once per overlap.
   */
  lemma {:induction false} HitHp(e: Enemy, bs: seq<Bullet>, j: nat)
    requires j <= |bs|
    ensures WholeHp(e.hp) ==> HitFrom(e, bs, j).0.hp == Max(0.0, e.hp - Overlaps(e, bs, j) as real)
    ensures !WholeHp(e.hp) ==> HitFrom(e, bs, j).0.hp == e.hp - Overlaps(e, bs, j) as real
    decreases |bs| - j
  {
    if j < |bs| {
      if e.hp == 0.0 {
        HitSkipsAtZero(e, bs, j);
      } else if !Overlap(e, bs[j]) {
        HitHp(e, bs, j + 1);
      } else {
        var e2, bs2 := e.(hp := e.hp - 1.0), bs[j := bs[j].(dead := true)];
        assert HitFrom(e, bs, j) == HitFrom(e2, bs2, j + 1);
        OverlapsIgnoresHp(e, e.hp - 1.0, bs, j + 1);
        OverlapsIgnoresDead(e2, bs, bs2, j + 1);
        assert WholeHp(e.hp) ==> WholeHp(e2.hp) by {
          if WholeHp(e.hp) {
            assert e2.hp.Floor == e.hp.Floor - 1;
          }
        }
        assert WholeHp(e2.hp) ==> WholeHp(e.hp) by {
          if WholeHp(e2.hp) {
            assert e.hp.Floor == e2.hp.Floor + 1;
          }
        }
        HitHp(e2, bs2, j + 1);
      }
    }
  }

  /** Enemies before `i` are not touched by the pass from `i` on. */
  lemma {:induction false} CollideKeepsDone(es: seq<Enemy>, bs: seq<Bullet>, i: nat, k: nat)
    requires k < i <= |es|
    ensures CollideFrom(es, bs, i).0[k] == es[k]
    decreases |es| - i
  {
    if i < |es| {
      var r := HitFrom(es[i], bs, 0);
      CollideKeepsDone(es[i := r.0], r.1, i + 1, k);
    }
  }

  /**
   * After the whole pass, enemy `k` has lost one hit point per bullet that
   * overlaps it (as `HitHp` says), counted over the bullets the pass began
   * with: earlier enemies only mark bullets dead, and dead bullets still hit.
   */
  lemma {:induction false} CollideHp(es: seq<Enemy>, bs: seq<Bullet>, i: nat, k: nat)
    requires i <= k < |es|
    ensures WholeHp(es[k].hp) ==> CollideFrom(es, bs, i).0[k].hp == Max(0.0, es[k].hp - Overlaps(es[k], bs, 0) as real)
    ensures !WholeHp(es[k].hp) ==> CollideFrom(es, bs, i).0[k].hp == es[k].hp - Overlaps(es[k], bs, 0) as real
    decreases |es| - i
  {
    var r := HitFrom(es[i], bs, 0);
    assert CollideFrom(es, bs, i) == CollideFrom(es[i := r.0], r.1, i + 1);
    if i == k {
      HitHp(es[i], bs, 0);
      if i + 1 < |es| {
        CollideKeepsDone(es[i := r.0], r.1, i + 1, k);
      }
    } else {
      OverlapsIgnoresDead(es[k], bs, r.1, 0);
      CollideHp(es[i := r.0], r.1, i + 1, k);
    }
  }

  /** The as-written pass only completes when nothing overlaps, and then it changes nothing. */
  lemma {:induction false} AsWrittenCompletesOnlyWithoutHits(es: seq<Enemy>, bs: seq<Bullet>, i: nat)
    requires i <= |es|
    requires CollideAsWritten(es, bs, i).Ok?
    ensures CollideAsWritten(es, bs, i).value == (es, bs) == CollideFrom(es, bs, i)
    decreases |es| - i
  {
    if i < |es| {
      HitAsWrittenCompletes(es[i], bs, 0);
      assert es[i := es[i]] == es;
      AsWrittenCompletesOnlyWithoutHits(es, bs, i + 1);
    }
  }

  lemma {:induction false} HitAsWrittenCompletes(e: Enemy, bs: seq<Bullet>, j: nat)
    requires j <= |bs|
    requires HitAsWritten(e, bs, j).Ok?
    ensures HitAsWritten(e, bs, j).value == (e, bs) == HitFrom(e, bs, j)
    decreases |bs| - j
  {
    if j < |bs| {
      HitAsWrittenCompletes(e, bs, j + 1);
    }
  }

  /**
   * The first hit throws: a scout with 1 hp and a bullet on top of it stop
   * the game loop, where the evident intent (`true`) kills the scout and
   * marks the bullet dead.
   */
  lemma FirstHitThrows()
    ensures var e := Enemy(100.0, 100.0, 100.0, 100.0, 0.0, 60.0, "scout", 1.0, 10.0, 0.0, None);
            var b := Bullet(100.0, 100.0, -360.0, 3.0, false);
            && CollideAsWritten([e], [b], 0) == Threw
            && CollideFrom([e], [b], 0) == ([e.(hp := 0.0)], [b.(dead := true)])
  {
    var e := Enemy(100.0, 100.0, 100.0, 100.0, 0.0, 60.0, "scout", 1.0, 10.0, 0.0, None);
    var b := Bullet(100.0, 100.0, -360.0, 3.0, false);
    assert Overlap(e, b);
    assert [b][0 := b.(dead := true)] == [b.(dead := true)];
    assert HitFrom(e.(hp := 0.0), [b.(dead := true)], 1) == (e.(hp := 0.0), [b.(dead := true)]);
    assert HitFrom(e, [b], 0) == (e.(hp := 0.0), [b.(dead := true)]);
    assert [e][0 := e.(hp := 0.0)] == [e.(hp := 0.0)];
  }

  /**
   * An enemy with a whole, non-negative hp never drops below 0 in the
   * collision pass: at exactly 0 it is skipped.
   */
  lemma {:induction false} WholeHpStaysNonNegative(e: Enemy, bs: seq<Bullet>, j: nat, n: nat)
    requires j <= |bs| && e.hp == n as real
    ensures HitFrom(e, bs, j).0.hp >= 0.0
    ensures HitFrom(e, bs, j).0.hp.Floor as real == HitFrom(e, bs, j).0.hp
    decreases |bs| - j
  {
    if j < |bs| {
      if e.hp == 0.0 || !Overlap(e, bs[j]) {
        WholeHpStaysNonNegative(e, bs, j + 1, n);
      } else {
        WholeHpStaysNonNegative(e.(hp := e.hp - 1.0), bs[j := bs[j].(dead := true)], j + 1, n - 1);
      }
    } else {
      assert HitFrom(e, bs, j).0.hp == n as real;
    }
  }

  // ------------------------------------------------------------------ cull

  /** An enemy survives the cull unless dead or off the canvas. */
  predicate EnemyKept(w: real, h: real, e: Enemy)
  {
    !(e.hp <= 0.0 || e.y > h + 20.0 || e.x < -40.0 || e.x > w + 40.0)
  }

  /** EnemyKept on a canvas of `w` by `h`, as a filter. */
  function KeepEnemy(w: real, h: real): Enemy -> bool
  {
    e => EnemyKept(w, h, e)
  }

  /** A bullet survives the cull unless dead or above the top edge. */
  predicate BulletKept(b: Bullet)
  {
    !(b.dead || b.y < -20.0)
  }

  // ----------------------------------------------------------------- world

  /** The player's shot, pushed when `fire` holds: from 10 px above the ship, straight up at 360 px/s. */
  function Volley(fire: bool, x: real, y: real): seq<Bullet>
  {
    if fire then [Bullet(x, y - 10.0, -360.0, 3.0, false)] else []
  }

  /** The player's fire decision: cooldown countdown, then a shot only at exactly 0. */
  function FireStep(cooldown: real, dt: real, fire: bool): (r: (real, bool))
    ensures r.0 >= 0.0
    ensures r.1 <==> fire && Max(0.0, cooldown - dt) == 0.0
    ensures r.1 ==> r.0 == 0.15
    ensures !r.1 ==> r.0 == Max(0.0, cooldown - dt)
  {
    var cd := Max(0.0, cooldown - dt);
    if fire && cd == 0.0 then (0.15, true) else (cd, false)
  }

  /**
   * Between two shots the player's cooldown must count all of 0.15 s down:
   * right after a shot, ticks adding up to less than 0.15 s never fire.
   */
  lemma {:induction false} NoShotWithinCooldown(cd: real, dts: seq<real>)
    requires 0.0 < cd && forall i :: 0 <= i < |dts| ==> dts[i] >= 0.0
    requires Sum(dts) < cd
    ensures ShotsOver(cd, dts) == 0
    decreases |dts|
  {
    if dts != [] {
      SumNonNeg(dts[1..]);
      NoShotWithinCooldown(cd - dts[0], dts[1..]);
    }
  }

  /** How many of a run of ticks fire while the fire key stays held. */
  function ShotsOver(cd: real, dts: seq<real>): nat
    decreases |dts|
  {
    if dts == [] then 0
    else var r := FireStep(cd, dts[0], true); (if r.1 then 1 else 0) + ShotsOver(r.0, dts[1..])
  }

  lemma {:induction false} SumNonNeg(dts: seq<real>)
    requires forall i :: 0 <= i < |dts| ==> dts[i] >= 0.0
    ensures Sum(dts) >= 0.0
  {
    if dts != [] {
      SumNonNeg(dts[1..]);
    }
  }

  class World {
    /** The canvas's client size, re-read by `resize`. */
    var w: real
    var h: real
    const start: real
    /** `spec.spawn`, which may be missing. */
    const spawn: Option<seq<Spawn>>
    var enemies: seq<Enemy>
    var bullets: seq<Bullet>
    var lastTime: real
    var spawnIndex: nat
    var playerX: real
    var playerY: real
    var cooldown: real

    /** The world variables as the effect sets them up for a loaded spec. */
    constructor (spawn: Option<seq<Spawn>>, w: real, h: real, start: real)
      requires w > 0.0 && h > 0.0
      ensures this.spawn == spawn && this.w == w && this.h == h && this.start == start
      ensures enemies == [] && bullets == [] && lastTime == start && spawnIndex == 0
      ensures playerX == w / 2.0 && playerY == h - 40.0 && cooldown == 0.0
      ensures Valid()
    {
      this.spawn := spawn;
      this.w := w;
      this.h := h;
      this.start := start;
      enemies := [];
      bullets := [];
      lastTime := start;
      spawnIndex := 0;
      playerX := w / 2.0;
      playerY := h - 40.0;
      cooldown := 0.0;
    }

    predicate Valid()
      reads this`w, this`h, this`cooldown
    {
      w > 0.0 && h > 0.0 && cooldown >= 0.0
    }

    function Spawns(): seq<Spawn>
    {
      if spawn.Some? then spawn.value else []
    }

    /** `resize`: the new client size; nothing else in the world moves. */
    method Resize(w': real, h': real)
      requires Valid() && w' > 0.0 && h' > 0.0
      modifies this`w, this`h
      ensures Valid()
      ensures w == w' && h == h'
    {
      w, h := w', h';
    }

    /** spawnFromSpec: push every consecutive due entry and advance the cursor once per entry. */
    method SpawnFromSpec(nowMs: real)
      modifies this`enemies, this`spawnIndex
      ensures spawnIndex == DueEnd(Spawns(), old(spawnIndex), nowMs - start)
      ensures enemies == old(enemies) +
                Arrivals(Spawns(), old(spawnIndex), spawnIndex, nowMs, w, h)
      ensures bullets == old(bullets) && lastTime == old(lastTime)
      ensures playerX == old(playerX) && playerY == old(playerY) && cooldown == old(cooldown)
    {
      var spawns := if spawn.Some? then spawn.value else [];
      var i, added := SpawnDue(spawns, spawnIndex, nowMs - start, nowMs, w, h);
      enemies, spawnIndex := enemies + added, i;
    }

    /** Move the player by the arrow keys, clamp it, and fire on a zero cooldown. */
    method PlayerStep(keys: map<string, bool>, dt: real)
      requires Valid()
      modifies this`playerX, this`cooldown, this`bullets
      ensures Valid()
      ensures playerX == Clamp(old(playerX) + InputManager.KeyAxis(keys) as real * 240.0 * dt, 16.0, w - 16.0)
      ensures var r := FireStep(old(cooldown), dt, InputManager.KeyFire(keys));
              cooldown == r.0 && bullets == old(bullets) + Volley(r.1, playerX, playerY)
      ensures enemies == old(enemies) && spawnIndex == old(spawnIndex) && lastTime == old(lastTime) && playerY == old(playerY)
    {
      var left := InputManager.Held(keys, "arrowleft") || InputManager.Held(keys, "a");
      var right := InputManager.Held(keys, "arrowright") || InputManager.Held(keys, "d");
      var fire := InputManager.Held(keys, " ") || InputManager.Held(keys, "space") ||
                  InputManager.Held(keys, "arrowup") || InputManager.Held(keys, "w");
      var move := (if right then 1 else 0) - (if left then 1 else 0);
      playerX := Clamp(playerX + move as real * 240.0 * dt, 16.0, w - 16.0);
      cooldown := Max(0.0, cooldown - dt);
      if fire && cooldown == 0.0 {
        bullets := bullets + [Bullet(playerX, playerY - 10.0, -360.0, 3.0, false)];
        cooldown := 0.15;
      }
    }

    /** `for (const e of enemies) updateEnemy(e, dt, now)`: stops at the first enemy that throws. */
    method MoveEnemies(dt: real, now: real, trig: Trig) returns (ok: bool)
      requires Valid()
      modifies this`enemies
      ensures ok <==> MotionAll(old(enemies), dt, now, w, h, trig).Ok?
      ensures ok ==> enemies == MotionAll(old(enemies), dt, now, w, h, trig).value
      ensures |enemies| == |old(enemies)|
      ensures bullets == old(bullets) && spawnIndex == old(spawnIndex) && lastTime == old(lastTime)
      ensures playerX == old(playerX) && playerY == old(playerY) && cooldown == old(cooldown)
    {
      ghost var es0 := enemies;
      var i := 0;
      while i < |enemies|
        invariant |enemies| == |es0| && 0 <= i <= |es0|
        invariant forall j :: 0 <= j < i ==> Motion(es0[j], dt, now, w, h, trig).Ok? &&
                                             enemies[j] == Motion(es0[j], dt, now, w, h, trig).value
        invariant forall j :: i <= j < |es0| ==> enemies[j] == es0[j]
        invariant bullets == old(bullets) && spawnIndex == old(spawnIndex) && lastTime == old(lastTime)
        invariant playerX == old(playerX) && playerY == old(playerY) && cooldown == old(cooldown)
      {
        var m := Motion(enemies[i], dt, now, w, h, trig);
        if m.Threw? {
          return false;
        }
        enemies := enemies[i := m.value];
        i := i + 1;
      }
      return true;
    }

    /** `for (const b of bullets) b.y += b.vy * dt`. */
    method MoveBullets(dt: real)
      modifies this`bullets
      ensures bullets == Fly(old(bullets), dt)
      ensures |bullets| == |old(bullets)|
      ensures forall k :: 0 <= k < |bullets| ==> bullets[k] == old(bullets[k]).(y := old(bullets[k]).y + old(bullets[k]).vy * dt)
      ensures enemies == old(enemies) && spawnIndex == old(spawnIndex) && lastTime == old(lastTime)
      ensures playerX == old(playerX) && playerY == old(playerY) && cooldown == old(cooldown)
    {
      ghost var bs0 := bullets;
      for i := 0 to |bullets|
        invariant |bullets| == |bs0|
        invariant forall k :: 0 <= k < i ==> bullets[k] == bs0[k].(y := bs0[k].y + bs0[k].vy * dt)
        invariant forall k :: i <= k < |bs0| ==> bullets[k] == bs0[k]
        invariant enemies == old(enemies) && spawnIndex == old(spawnIndex) && lastTime == old(lastTime)
        invariant playerX == old(playerX) && playerY == old(playerY) && cooldown == old(cooldown)
      {
        bullets := bullets[i := bullets[i].(y := bullets[i].y + bullets[i].vy * dt)];
      }
      assert forall k :: 0 <= k < |bs0| ==> bullets[k] == Fly(bs0, dt)[k];
      assert bullets == Fly(bs0, dt);
    }

    /** The inner collision loop for enemy `i`, with `b.dead = true`. */
    method HitEnemy(i: nat)
      requires i < |enemies|
      modifies this`enemies, this`bullets
      ensures var r := HitFrom(old(enemies[i]), old(bullets), 0); enemies == old(enemies)[i := r.0] && bullets == r.1
      ensures spawnIndex == old(spawnIndex) && lastTime == old(lastTime)
      ensures playerX == old(playerX) && playerY == old(playerY) && cooldown == old(cooldown)
    {
      ghost var target := HitFrom(enemies[i], bullets, 0);
      var e, bs := enemies[i], bullets;
      for j := 0 to |bs|
        invariant |bs| == |bullets|
        invariant HitFrom(e, bs, j) == target
      {
        var b := bs[j];
        if e.hp != 0.0 && Overlap(e, b) {
          e, bs := e.(hp := e.hp - 1.0), bs[j := b.(dead := true)];
        }
      }
      assert HitFrom(e, bs, |bs|) == (e, bs);
      enemies, bullets := enemies[i := e], bs;
    }

    /** The collision pass with the dead flag set to `true`. */
    method Collide()
      modifies this`enemies, this`bullets
      ensures (enemies, bullets) == CollideFrom(old(enemies), old(bullets), 0)
      ensures spawnIndex == old(spawnIndex) && lastTime == old(lastTime)
      ensures playerX == old(playerX) && playerY == old(playerY) && cooldown == old(cooldown)
    {
      ghost var target := CollideFrom(enemies, bullets, 0);
      for i := 0 to |enemies|
        invariant |enemies| == |old(enemies)|
        invariant CollideFrom(enemies, bullets, i) == target
        invariant spawnIndex == old(spawnIndex) && lastTime == old(lastTime)
        invariant playerX == old(playerX) && playerY == old(playerY) && cooldown == old(cooldown)
      {
        HitEnemy(i);
      }
    }

    /** The two backward splice loops of the cull. */
    method Cull()
      modifies this`enemies, this`bullets
      ensures enemies == Filter(old(enemies), KeepEnemy(w, h))
      ensures bullets == Filter(old(bullets), BulletKept)
      ensures spawnIndex == old(spawnIndex) && lastTime == old(lastTime)
      ensures playerX == old(playerX) && playerY == old(playerY) && cooldown == old(cooldown)
    {
      ghost var es := enemies;
      var i := |enemies|;
      assert es[i..] == [];
      while i > 0
        invariant 0 <= i <= |es|
        invariant enemies == es[..i] + Filter(es[i..], KeepEnemy(w, h))
        invariant bullets == old(bullets) && spawnIndex == old(spawnIndex) && lastTime == old(lastTime)
        invariant playerX == old(playerX) && playerY == old(playerY) && cooldown == old(cooldown)
      {
        CullBackStep(es, i, KeepEnemy(w, h));
        var e := enemies[i - 1];
        if e.hp <= 0.0 || e.y > h + 20.0 || e.x < -40.0 || e.x > w + 40.0 {
          enemies := enemies[..i - 1] + enemies[i..];
        }
        i := i - 1;
      }
      CullBackDone(es, KeepEnemy(w, h));
      ghost var bs := bullets;
      i := |bullets|;
      assert bs[i..] == [];
      while i > 0
        invariant 0 <= i <= |bs|
        invariant bullets == bs[..i] + Filter(bs[i..], BulletKept)
        invariant enemies == Filter(es, KeepEnemy(w, h))
        invariant spawnIndex == old(spawnIndex) && lastTime == old(lastTime)
        invariant playerX == old(playerX) && playerY == old(playerY) && cooldown == old(cooldown)
      {
        CullBackStep(bs, i, BulletKept);
        var b := bullets[i - 1];
        if b.dead || b.y < -20.0 {
          bullets := bullets[..i - 1] + bullets[i..];
        }
        i := i - 1;
      }
      CullBackDone(bs, BulletKept);
    }

    /**
     * The frame up to the cull: spawn, input and fire, enemy motion, bullet
     * motion, collisions. `ok` is false when a motion rule threw.
     */
    method Update(now: real, keys: map<string, bool>, trig: Trig) returns (ok: bool)
      requires Valid()
      modifies this`enemies, this`bullets, this`lastTime, this`spawnIndex, this`playerX, this`cooldown
      ensures Valid()
      ensures lastTime == now
      ensures spawnIndex == DueEnd(Spawns(), old(spawnIndex), now - start)
      ensures 32.0 <= w ==> 16.0 <= playerX <= w - 16.0
      ensures var dt := (now - old(lastTime)) / 1000.0;
        var fire := FireStep(old(cooldown), dt, InputManager.KeyFire(keys));
        var spawned := old(enemies) +
          Arrivals(Spawns(), old(spawnIndex), spawnIndex, now, w, h);
        var shot := old(bullets) + Volley(fire.1, playerX, playerY);
        && cooldown == fire.0
        && (ok <==> MotionAll(spawned, dt, now, w, h, trig).Ok?)
        && (!ok ==> |enemies| == |spawned| && bullets == shot)
        && (ok ==> (enemies, bullets) == CollideFrom(MotionAll(spawned, dt, now, w, h, trig).value, Fly(shot, dt), 0))
    {
      var dt := (now - lastTime) / 1000.0;
      lastTime := now;
      SpawnFromSpec(now);
      ghost var spawned := enemies;
      PlayerStep(keys, dt);
      ghost var shot := bullets;
      ok := MoveEnemies(dt, now, trig);
      if !ok {
        return;
      }
      ghost var moved := enemies;
      assert moved == MotionAll(spawned, dt, now, w, h, trig).value;
      MoveBullets(dt);
      Collide();
    }

    /**
     * One animation frame, up to the draw calls: Update, then the cull.
     * `ok` is false when a motion rule threw, which ends the frame and the
     * animation loop.
     */
    method Tick(now: real, keys: map<string, bool>, trig: Trig) returns (ok: bool)
      requires Valid()
      modifies this`enemies, this`bullets, this`lastTime, this`spawnIndex, this`playerX, this`cooldown
      ensures Valid()
      ensures lastTime == now
      ensures spawnIndex == DueEnd(Spawns(), old(spawnIndex), now - start)
      ensures 32.0 <= w ==> 16.0 <= playerX <= w - 16.0
      ensures var dt := (now - old(lastTime)) / 1000.0;
        var fire := FireStep(old(cooldown), dt, InputManager.KeyFire(keys));
        var spawned := old(enemies) +
          Arrivals(Spawns(), old(spawnIndex), spawnIndex, now, w, h);
        var shot := old(bullets) + Volley(fire.1, playerX, playerY);
        && cooldown == fire.0
        && (ok <==> MotionAll(spawned, dt, now, w, h, trig).Ok?)
        && (!ok ==> |enemies| == |spawned| && bullets == shot)
        && (ok ==> var c := CollideFrom(MotionAll(spawned, dt, now, w, h, trig).value, Fly(shot, dt), 0);
                   enemies == Filter(c.0, KeepEnemy(w, h)) && bullets == Filter(c.1, BulletKept))
      ensures ok ==> forall k :: 0 <= k < |enemies| ==> EnemyKept(w, h, enemies[k])
      ensures ok ==> forall k :: 0 <= k < |bullets| ==> BulletKept(bullets[k])
    {
      ok := Update(now, keys, trig);
      if ok {
        ghost var es, bs := enemies, bullets;
        Cull();
        CullLeavesKept(w, h, es, bs);
      }
    }

    /**
     * The first animation frame: the clock is first set to the frame's time
     * `t`, so that frame runs with no time elapsed (`dt = 0`) and nothing
     * moves or ticks down; only arrivals, the volley and the collisions can
     * change the lists.
     */
    method Begin(t: real, keys: map<string, bool>, trig: Trig) returns (ok: bool)
      requires Valid()
      modifies this`enemies, this`bullets, this`lastTime, this`spawnIndex, this`playerX, this`cooldown
      ensures Valid()
      ensures lastTime == t
      ensures spawnIndex == DueEnd(Spawns(), old(spawnIndex), t - start)
      ensures 32.0 <= w ==> 16.0 <= playerX <= w - 16.0
      ensures var fire := FireStep(old(cooldown), 0.0, InputManager.KeyFire(keys));
        var spawned := old(enemies) +
          Arrivals(Spawns(), old(spawnIndex), spawnIndex, t, w, h);
        var shot := old(bullets) + Volley(fire.1, playerX, playerY);
        && cooldown == fire.0
        && (ok <==> MotionAll(spawned, 0.0, t, w, h, trig).Ok?)
        && (!ok ==> |enemies| == |spawned| && bullets == shot)
        && (ok ==> var c := CollideFrom(MotionAll(spawned, 0.0, t, w, h, trig).value, Fly(shot, 0.0), 0);
                   enemies == Filter(c.0, KeepEnemy(w, h)) && bullets == Filter(c.1, BulletKept))
    {
      lastTime := t;
      assert (t - lastTime) / 1000.0 == 0.0;
      ok := Tick(t, keys, trig);
    }
  }

  /** Every bullet moved by `vy * dt` seconds. */
  function Fly(bs: seq<Bullet>, dt: real): (r: seq<Bullet>)
    ensures |r| == |bs| && forall k :: 0 <= k < |bs| ==> r[k] == bs[k].(y := bs[k].y + bs[k].vy * dt)
  {
    seq(|bs|, k requires 0 <= k < |bs| => bs[k].(y := bs[k].y + bs[k].vy * dt))
  }

  /**
   * With no time elapsed nothing moves or ticks down: bullets stay put, and
   * a cooldown only changes when it is already 0 and fire is held.
   */
  lemma StillFrame(bs: seq<Bullet>, cooldown: real, fire: bool)
    requires cooldown >= 0.0
    ensures Fly(bs, 0.0) == bs
    ensures FireStep(cooldown, 0.0, fire) == (if fire && cooldown == 0.0 then (0.15, true) else (cooldown, false))
  {
    assert forall k :: 0 <= k < |bs| ==> Fly(bs, 0.0)[k] == bs[k];
  }

  /** After the cull every enemy and bullet left is one the cull keeps. */
  lemma CullLeavesKept(w: real, h: real, es: seq<Enemy>, bs: seq<Bullet>)
    ensures forall k :: 0 <= k < |Filter(es, KeepEnemy(w, h))| ==> EnemyKept(w, h, Filter(es, KeepEnemy(w, h))[k])
    ensures forall k :: 0 <= k < |Filter(bs, BulletKept)| ==> BulletKept(Filter(bs, BulletKept)[k])
  {
    FilterKeeps(es, KeepEnemy(w, h));
    FilterKeeps(bs, BulletKept);
  }

  /** Every element that survives a filter satisfies it. */
  lemma FilterKeeps<T>(s: seq<T>, keep: T -> bool)
    ensures forall k :: 0 <= k < |Filter(s, keep)| ==> keep(Filter(s, keep)[k])
  {
    forall k | 0 <= k < |Filter(s, keep)|
      ensures keep(Filter(s, keep)[k])
    {
      FilterMembership(s, keep, Filter(s, keep)[k]);
    }
  }
}

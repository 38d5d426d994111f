/**
 * lib/render.ts, `drawShipSprite`: which frame of a sprite sheet is shown
 * at time `now`, where it sits on the sheet, and where it is drawn. The
 * canvas call itself is not modelled.
 */
module Render {
  import opened Js

  /** The sprite sheet metadata; `frame_duration_ms` may be missing. */
  datatype SpriteMeta = SpriteMeta(frame_width: real, frame_height: real, frames: int, cols: int,
                                   frame_duration_ms: Option<real>)

  /** A rectangle by top-left corner and size. */
  datatype Rect = Rect(x: real, y: real, w: real, h: real)

  /** `frame_duration_ms = 120` in the destructuring: only a missing value is replaced. */
  function Duration(m: SpriteMeta): real
  {
    Coalesce(m.frame_duration_ms, 120.0)
  }

  predicate Drawable(m: SpriteMeta)
  {
    Duration(m) != 0.0 && m.frames != 0 && m.cols != 0
  }

  /** `Math.floor(now / frame_duration_ms) % frames`, with JavaScript's truncating `%`. */
  function FrameIndex(m: SpriteMeta, now: real): (fi: int)
    requires Drawable(m)
    ensures now >= 0.0 && Duration(m) > 0.0 && m.frames > 0 ==> 0 <= fi < m.frames
  {
    JsRem(Floor(now / Duration(m)), m.frames)
  }

  /** `frameIndex % cols`. */
  function Col(m: SpriteMeta, fi: int): int
    requires Drawable(m)
  {
    JsRem(fi, m.cols)
  }

  /** `Math.floor(frameIndex / cols)`. */
  function Row(m: SpriteMeta, fi: int): int
    requires Drawable(m)
  {
    Floor(fi as real / m.cols as real)
  }

  /**
   * For a frame index in range and a positive column count, the column is
   * a valid column and (row, col) is the index written in row-major order.
   */
  lemma RowMajor(m: SpriteMeta, fi: int)
    requires Drawable(m) && m.cols > 0 && fi >= 0
    ensures 0 <= Col(m, fi) < m.cols && Row(m, fi) >= 0
    ensures fi == Row(m, fi) * m.cols + Col(m, fi)
  {
    var q := fi / m.cols;
    var c := fi % m.cols;
    assert fi == q * m.cols + c;
    assert fi as real / m.cols as real == q as real + c as real / m.cols as real;
    assert 0.0 <= c as real / m.cols as real < 1.0;
  }

  /** Under the usual conditions, `RowMajor` for the frame shown at `now`. */
  lemma RowMajorWhenDrawn(m: SpriteMeta, now: real, fi: int)
    requires Drawable(m) && fi == FrameIndex(m, now)
    ensures now >= 0.0 && Duration(m) > 0.0 && m.frames > 0 && m.cols > 0 ==>
              0 <= fi < m.frames && 0 <= Col(m, fi) < m.cols && 0 <= Row(m, fi) &&
              fi == Row(m, fi) * m.cols + Col(m, fi)
  {
    if now >= 0.0 && Duration(m) > 0.0 && m.frames > 0 && m.cols > 0 {
      RowMajor(m, fi);
    }
  }

  /** The frame's rectangle on the sheet and the centred destination rectangle. */
  function Rects(m: SpriteMeta, x: real, y: real, now: real): (r: (Rect, Rect))
    requires Drawable(m)
    ensures r.0.w == m.frame_width && r.0.h == m.frame_height && r.1.w == m.frame_width && r.1.h == m.frame_height
    ensures r.1.x + m.frame_width / 2.0 == x && r.1.y + m.frame_height / 2.0 == y
    ensures var fi := FrameIndex(m, now);
            r.0.x == Col(m, fi) as real * m.frame_width && r.0.y == Row(m, fi) as real * m.frame_height
    ensures var fi := FrameIndex(m, now);
            now >= 0.0 && Duration(m) > 0.0 && m.frames > 0 && m.cols > 0 ==>
              0 <= fi < m.frames && 0 <= Col(m, fi) < m.cols && 0 <= Row(m, fi) &&
              fi == Row(m, fi) * m.cols + Col(m, fi)
  {
    var fi := FrameIndex(m, now);
    RowMajorWhenDrawn(m, now, fi);
    (Rect(Col(m, fi) as real * m.frame_width, Row(m, fi) as real * m.frame_height, m.frame_width, m.frame_height),
     Rect(x - m.frame_width / 2.0, y - m.frame_height / 2.0, m.frame_width, m.frame_height))
  }

  /**
   * The animation cycles: `frames * duration` milliseconds later the same
   * frame is shown.
   */
  lemma FramePeriodic(m: SpriteMeta, now: real)
    requires Drawable(m) && Duration(m) > 0.0 && m.frames > 0 && now >= 0.0
    ensures FrameIndex(m, now + m.frames as real * Duration(m)) == FrameIndex(m, now)
  {
    var d := Duration(m);
    var n := m.frames;
    DivShift(now, n as real, d);
    var t := Floor(now / d);
    assert Floor(now / d + n as real) == t + n;
    assert now / d >= 0.0;
    ModShift(t, n);
  }

  /** Adding one full cycle does not change a non-negative remainder. */
  lemma ModShift(t: int, n: int)
    requires t >= 0 && n > 0
    ensures JsRem(t + n, n) == JsRem(t, n)
  {
    var q, r := t / n, t % n;
    assert t + n == (q + 1) * n + r;
    DivModUnique(t + n, n, q + 1, r);
  }

  /** Euclidean division has only one quotient and remainder. */
  lemma DivModUnique(a: int, n: int, q: int, r: int)
    requires n > 0 && 0 <= r < n && a == q * n + r
    ensures a % n == r
  {
    var q0, r0 := a / n, a % n;
    assert (q - q0) * n == r0 - r;
    MulSign(q - q0, n);
  }

  lemma MulSign(k: int, n: int)
    requires n > 0
    ensures k >= 1 ==> k * n >= n
    ensures k <= -1 ==> k * n <= -n
  {
    if k >= 1 {
      assert k * n == n + (k - 1) * n;
    } else if k <= -1 {
      assert k * n == -n + (k + 1) * n;
    }
  }

  /** `(a + k*d) / d == a/d + k`. */
  lemma DivShift(a: real, k: real, d: real)
    requires d != 0.0
    ensures (a + k * d) / d == a / d + k
  {
    assert (a / d + k) * d == a + k * d;
  }

  /**
   * A negative clock gives a negative frame index, because `%` keeps the
   * sign of its left operand.
   */
  lemma NegativeNowGivesNegativeFrame()
    ensures FrameIndex(SpriteMeta(32.0, 32.0, 4, 2, None), -120.0) == -1
  {
    assert -120.0 / 120.0 == -1.0;
  }
}

/** Integer rectangles, their overlap test, and the numeric helpers of the game. */
module Geometry {
  import opened Tuning

  /** A pygame Rect: top-left corner and size in whole pixels. */
  datatype Rect = Rect(x: int, y: int, w: int, h: int)

  function Min(a: int, b: int): int { if a < b then a else b }
  function Max(a: int, b: int): int { if a < b then b else a }
  function Abs(a: int): int { if a < 0 then -a else a }

  /** Integer division by two rounding toward zero, as C does it. */
  function Half(n: int): (r: int)
    ensures n >= 0 ==> 0 <= n - 2 * r <= 1
    ensures n < 0 ==> -1 <= n - 2 * r <= 0
  {
    if n >= 0 then n / 2 else -((-n) / 2)
  }

  /** rect.centerx and rect.centery. */
  function CenterX(r: Rect): int { r.x + Half(r.w) }
  function CenterY(r: Rect): int { r.y + Half(r.h) }

  /** The pixel cell (px, py) lies inside r. */
  predicate Covers(r: Rect, px: int, py: int)
  {
    r.x <= px < r.x + r.w && r.y <= py < r.y + r.h
  }

  /**
   * rect.colliderect: the two rectangles intersect with positive area.
   * Rectangles without area collide with nothing.
   */
  predicate Overlaps(a: Rect, b: Rect)
  {
    && a.w > 0 && a.h > 0 && b.w > 0 && b.h > 0
    && a.x < b.x + b.w && b.x < a.x + a.w
    && a.y < b.y + b.h && b.y < a.y + a.h
  }

  /** Overlap is the same as sharing at least one pixel cell. */
  lemma OverlapsIffSharedCell(a: Rect, b: Rect)
    ensures Overlaps(a, b) <==> exists px, py :: Covers(a, px, py) && Covers(b, px, py)
  {
    if Overlaps(a, b) {
      var px, py := Max(a.x, b.x), Max(a.y, b.y);
      assert Covers(a, px, py) && Covers(b, px, py);
    }
  }

  /**
   * max(0, min(v, hi)): the clamp the game applies to positions.
   * When hi is negative the result is 0, as in the source's formula.
   */
  function Clamp(v: int, hi: int): (r: int)
    ensures hi >= 0 ==> 0 <= r <= hi
    ensures 0 <= v <= hi ==> r == v
    ensures hi >= 0 && v > hi ==> r == hi
    ensures v < 0 || hi < 0 ==> r == 0
  {
    Max(0, Min(v, hi))
  }

  /**
   * int(v / 100) for a value v kept in hundredths: Python's int() of a
   * float truncates toward zero.
   */
  function ToPixel(v: int): (p: int)
    ensures v >= 0 ==> p * SCALE <= v < p * SCALE + SCALE
    ensures v < 0 ==> p * SCALE - SCALE < v <= p * SCALE
  {
    if v >= 0 then v / SCALE else -((-v) / SCALE)
  }
}

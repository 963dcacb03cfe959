/**
 * Integer axis-aligned rectangles, as pygame's `Rect` holds them, and their intersection.
 */
module Geometry {

  /** A rectangle with top-left corner (x, y), width w and height h. */
  datatype Rect = Rect(x: int, y: int, w: int, h: int) {
    function Right(): int { x + w }
    function Bottom(): int { y + h }
    predicate Empty() { w == 0 || h == 0 }
    /** Width and height are not negative (every entity's are positive). */
    predicate Proper() { w >= 0 && h >= 0 }
    /** The unit cell at integer point (px, py) lies inside the rectangle. */
    predicate Contains(px: int, py: int) { x <= px < x + w && y <= py < y + h }
  }

  function Max(a: int, b: int): int { if a < b then b else a }
  function Min(a: int, b: int): int { if a < b then a else b }

  /**
   * `Rect.clip`: the overlap of `a` and `b`. When they do not overlap pygame returns a
   * zero-sized rectangle at `a`'s position.
   */
  function Clip(a: Rect, b: Rect): (r: Rect)
    ensures r.w >= 0 && r.h >= 0
    ensures !r.Empty() ==> a.x <= r.x && b.x <= r.x && r.Right() <= a.Right() && r.Right() <= b.Right()
    ensures !r.Empty() ==> a.y <= r.y && b.y <= r.y && r.Bottom() <= a.Bottom() && r.Bottom() <= b.Bottom()
  {
    var x := Max(a.x, b.x);
    var y := Max(a.y, b.y);
    var w := Min(a.Right(), b.Right()) - x;
    var h := Min(a.Bottom(), b.Bottom()) - y;
    if w <= 0 || h <= 0 then Rect(a.x, a.y, 0, 0) else Rect(x, y, w, h)
  }

  /** A point lies in the clip exactly when it lies in both rectangles. */
  lemma ClipContains(a: Rect, b: Rect, px: int, py: int)
    ensures Clip(a, b).Contains(px, py) <==> a.Contains(px, py) && b.Contains(px, py)
  {
  }

  /** The clip is non-empty exactly when some unit cell lies in both rectangles. */
  lemma ClipNonEmptyIff(a: Rect, b: Rect)
    ensures !Clip(a, b).Empty() <==> exists px, py :: a.Contains(px, py) && b.Contains(px, py)
  {
    var r := Clip(a, b);
    if !r.Empty() {
      ClipContains(a, b, r.x, r.y);
    } else {
      forall px, py | a.Contains(px, py) && b.Contains(px, py) ensures false {
        ClipContains(a, b, px, py);
      }
    }
  }

  /** Clipping is symmetric. */
  lemma ClipSymmetric(a: Rect, b: Rect)
    ensures !Clip(a, b).Empty() ==> Clip(a, b) == Clip(b, a)
    ensures Clip(a, b).w == Clip(b, a).w && Clip(a, b).h == Clip(b, a).h
  {
  }
}

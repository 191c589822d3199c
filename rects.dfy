/// Integer axis-aligned rectangles as pygame's `Rect` stores them: the top-left
/// corner (x, y), the width w and the height h; y grows downwards.
module Rects {

  datatype Rect = Rect(x: int, y: int, w: int, h: int) {
    function Left(): int { x }
    function Top(): int { y }
    function Right(): int { x + w }
    function Bottom(): int { y + h }

    /// Assigning `rect.right := v` moves the rectangle, keeping its size.
    function WithRight(v: int): (r: Rect)
      ensures r.Right() == v && r.y == y && r.w == w && r.h == h
    {
      this.(x := v - w)
    }

    /// Assigning `rect.bottom := v` moves the rectangle, keeping its size.
    function WithBottom(v: int): (r: Rect)
      ensures r.Bottom() == v && r.x == x && r.w == w && r.h == h
    {
      this.(y := v - h)
    }
  }

  /// `Rect.colliderect`: the interiors of the two half-open rectangles
  /// intersect; rectangles that only share an edge do not collide.
  predicate Overlaps(a: Rect, b: Rect) {
    a.x < b.x + b.w && b.x < a.x + a.w && a.y < b.y + b.h && b.y < a.y + a.h
  }

  /// Whether `a` collides with some member of `rs`.
  predicate OverlapsAny(a: Rect, rs: seq<Rect>) {
    exists i :: 0 <= i < |rs| && Overlaps(a, rs[i])
  }
}

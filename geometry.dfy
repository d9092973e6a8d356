// Screen geometry shared by every entity: the integer rectangles pygame uses
// for placement, the float-to-int conversion that feeds them, and per-pixel
// opacity masks with the overlap test used for collisions.
module Geometry {

  /** Python's int(x) on a float, and pygame's conversion of a float
      coordinate to a rectangle field: both truncate toward zero. */
  function Trunc(r: real): (n: int)
    ensures 0.0 <= r ==> n as real <= r < n as real + 1.0
    ensures r < 0.0 ==> n as real - 1.0 < r <= n as real
  {
    if r >= 0.0 then r.Floor else -((-r).Floor)
  }

  /** On non-negative values truncation commutes with adding an integer. */
  lemma TruncShift(r: real, k: int)
    requires 0.0 <= r && 0.0 <= r + k as real
    ensures Trunc(r + k as real) == Trunc(r) + k
  {
    var n := Trunc(r);
    assert n as real + k as real <= r + k as real < (n + k) as real + 1.0;
  }

  /** Truncation never reverses the order of two values. */
  lemma TruncMonotone(a: real, b: real)
    requires a <= b
    ensures Trunc(a) <= Trunc(b)
  {
  }

  /** A pygame Rect: integer top-left corner and a non-negative size.
      The accessors and the setters follow pygame's attribute semantics
      (the centre of an odd-sized rectangle rounds down). */
  datatype Rect = Rect(x: int, y: int, w: nat, h: nat)
  {
    function Top(): int { y }
    function Bottom(): int { y + h }
    function Right(): int { x + w }
    function CenterX(): int { x + w / 2 }
    function CenterY(): int { y + h / 2 }

    /** `rect.centerx = cx`: moves horizontally only. */
    function WithCenterX(cx: int): (r: Rect)
      ensures r.CenterX() == cx && r.y == y && r.w == w && r.h == h
    {
      this.(x := cx - w / 2)
    }

    /** `rect.centery = cy`: moves vertically only. */
    function WithCenterY(cy: int): (r: Rect)
      ensures r.CenterY() == cy && r.x == x && r.w == w && r.h == h
    {
      this.(y := cy - h / 2)
    }

    /** `rect.top = t`. */
    function WithTop(t: int): (r: Rect)
      ensures r.Top() == t && r.x == x && r.w == w && r.h == h
    {
      this.(y := t)
    }

    /** `rect.bottom = b`. */
    function WithBottom(b: int): (r: Rect)
      ensures r.Bottom() == b && r.x == x && r.w == w && r.h == h
    {
      this.(y := b - h)
    }

    /** `rect.midtop = (cx, t)`. */
    function WithMidTop(cx: int, t: int): (r: Rect)
      ensures r.CenterX() == cx && r.Top() == t && r.w == w && r.h == h
    {
      Rect(cx - w / 2, t, w, h)
    }

    /** `rect.midbottom = (cx, b)`. */
    function WithMidBottom(cx: int, b: int): (r: Rect)
      ensures r.CenterX() == cx && r.Bottom() == b && r.w == w && r.h == h
    {
      Rect(cx - w / 2, b - h, w, h)
    }
  }

  /** `surface.get_rect(center=(cx, cy))` for a surface of size w x h. */
  function CenteredRect(w: nat, h: nat, cx: int, cy: int): (r: Rect)
    ensures r.w == w && r.h == h && r.CenterX() == cx && r.CenterY() == cy
  {
    Rect(cx - w / 2, cy - h / 2, w, h)
  }

  /** A pygame Mask: the set of opaque pixels of a w x h image, in the
      image's own coordinates. */
  datatype Mask = Mask(width: nat, height: nat, bits: set<(int, int)>)

  /** `mask.overlap(other, (dx, dy))` is truthy: some opaque pixel of
      `other`, placed at offset (dx, dy) inside `mask`, meets an opaque
      pixel of `mask`. */
  predicate Overlaps(mask: Mask, other: Mask, dx: int, dy: int)
  {
    exists q :: q in other.bits && (q.0 + dx, q.1 + dy) in mask.bits
  }

  /** The mask of an image flipped upside down
      (`mask.from_surface(transform.flip(image, False, True))`). */
  function FlipVertical(m: Mask): (r: Mask)
    ensures r.width == m.width && r.height == m.height
    ensures forall q :: q in m.bits ==> (q.0, m.height - 1 - q.1) in r.bits
    ensures forall q :: q in r.bits ==> (q.0, m.height - 1 - q.1) in m.bits
  {
    Mask(m.width, m.height, set q | q in m.bits :: (q.0, m.height - 1 - q.1))
  }

  /** The screen pixels a mask covers when its image is drawn at `r`'s corner. */
  function Placed(m: Mask, r: Rect): set<(int, int)>
  {
    set q | q in m.bits :: (q.0 + r.x, q.1 + r.y)
  }

  /** A hit found by the offset test is a screen pixel both images cover. */
  lemma OverlapsGivesSharedPixel(mask: Mask, at: Rect, other: Mask, otherAt: Rect)
    requires Overlaps(mask, other, otherAt.x - at.x, otherAt.y - at.y)
    ensures Placed(mask, at) * Placed(other, otherAt) != {}
  {
    var dx, dy := otherAt.x - at.x, otherAt.y - at.y;
    var q :| q in other.bits && (q.0 + dx, q.1 + dy) in mask.bits;
    var p := (q.0 + dx, q.1 + dy);
    var s := (q.0 + otherAt.x, q.1 + otherAt.y);
    assert s == (p.0 + at.x, p.1 + at.y);
    assert p in mask.bits && s in Placed(mask, at);
    assert s in Placed(other, otherAt);
    assert s in Placed(mask, at) * Placed(other, otherAt);
  }

  /** A screen pixel both images cover is a hit of the offset test. */
  lemma SharedPixelGivesOverlaps(mask: Mask, at: Rect, other: Mask, otherAt: Rect)
    requires Placed(mask, at) * Placed(other, otherAt) != {}
    ensures Overlaps(mask, other, otherAt.x - at.x, otherAt.y - at.y)
  {
    var dx, dy := otherAt.x - at.x, otherAt.y - at.y;
    var s :| s in Placed(mask, at) * Placed(other, otherAt);
    var p :| p in mask.bits && s == (p.0 + at.x, p.1 + at.y);
    var q :| q in other.bits && s == (q.0 + otherAt.x, q.1 + otherAt.y);
    assert (q.0 + dx, q.1 + dy) == p;
  }

  /** The offset test of `Overlaps`, with the offset taken between two
      rectangles' corners, is exactly "the two drawn images share an opaque
      screen pixel". */
  lemma OverlapsIffSharedPixel(mask: Mask, at: Rect, other: Mask, otherAt: Rect)
    ensures Overlaps(mask, other, otherAt.x - at.x, otherAt.y - at.y)
        <==> Placed(mask, at) * Placed(other, otherAt) != {}
  {
    if Overlaps(mask, other, otherAt.x - at.x, otherAt.y - at.y) {
      OverlapsGivesSharedPixel(mask, at, other, otherAt);
    }
    if Placed(mask, at) * Placed(other, otherAt) != {} {
      SharedPixelGivesOverlaps(mask, at, other, otherAt);
    }
  }
}

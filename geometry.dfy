/** `Rectangle` of src/phi/mod.rs: containment and clamped relocation, over reals. */
module Geometry {
  import opened Wrappers

  datatype Rectangle = Rectangle(x: real, y: real, w: real, h: real)

  /** The rectangle moved by `(dx, dy)`, same size. */
  function Offset(r: Rectangle, dx: real, dy: real): Rectangle
  {
    r.(x := r.x + dx, y := r.y + dy)
  }

  /** `outer.contains(r)`: both horizontal and both vertical bounds of `r` lie within `outer`, inclusive. */
  predicate Contains(outer: Rectangle, r: Rectangle): (b: bool)
    ensures b <==> PointIn(outer, r.x, r.y) && PointIn(outer, r.x + r.w, r.y + r.h)
  {
    var xMin, xMax := r.x, r.x + r.w;
    var yMin, yMax := r.y, r.y + r.h;
    xMin >= outer.x && xMin <= outer.x + outer.w && xMax >= outer.x &&
    xMax <= outer.x + outer.w && yMin >= outer.y &&
    yMin <= outer.y + outer.h &&
    yMax >= outer.y && yMax <= outer.y + outer.h
  }

  /** The point `(px, py)` lies in `outer`, bounds inclusive. */
  predicate PointIn(outer: Rectangle, px: real, py: real)
  {
    outer.x <= px <= outer.x + outer.w && outer.y <= py <= outer.y + outer.h
  }

  /** Containment is the same as all four corners lying in the outer rectangle. */
  lemma ContainsIffCorners(outer: Rectangle, r: Rectangle)
    ensures Contains(outer, r) <==>
      PointIn(outer, r.x, r.y) && PointIn(outer, r.x + r.w, r.y) &&
      PointIn(outer, r.x, r.y + r.h) && PointIn(outer, r.x + r.w, r.y + r.h)
  {
  }

  /** Containment is reflexive on rectangles of non-negative size ... */
  lemma ContainsReflexive(r: Rectangle)
    requires r.w >= 0.0 && r.h >= 0.0
    ensures Contains(r, r)
  {
  }

  /** ... and transitive. */
  lemma ContainsTransitive(a: Rectangle, b: Rectangle, c: Rectangle)
    requires Contains(a, b) && Contains(b, c)
    ensures Contains(a, c)
  {
  }

  function Min(a: real, b: real): real { if a <= b then a else b }
  function Max(a: real, b: real): real { if a <= b then b else a }

  /**
   * `r.move_inside(parent)`: no result when `r` is wider or taller than
   * `parent`; otherwise `r` with each coordinate clamped into the range that
   * keeps it inside `parent`.
   */
  function MoveInside(r: Rectangle, parent: Rectangle): (res: Option<Rectangle>)
    ensures res.None? <==> r.w > parent.w || r.h > parent.h
    ensures res.Some? ==> res.value.w == r.w && res.value.h == r.h
    ensures res.Some? ==>
      res.value.x == Max(parent.x, Min(r.x, parent.x + parent.w - r.w)) &&
      res.value.y == Max(parent.y, Min(r.y, parent.y + parent.h - r.h))
    ensures res.Some? && r.w >= 0.0 && r.h >= 0.0 ==> Contains(parent, res.value)
    ensures r.w >= 0.0 && r.h >= 0.0 && Contains(parent, r) ==> res == Some(r)
  {
    if r.w > parent.w || r.h > parent.h then
      None
    else
      Some(Rectangle(
        if r.x < parent.x then parent.x
        else if r.x + r.w >= parent.x + parent.w then parent.x + parent.w - r.w
        else r.x,
        if r.y < parent.y then parent.y
        else if r.y + r.h >= parent.y + parent.h then parent.y + parent.h - r.h
        else r.y,
        r.w, r.h))
  }

  /** Relocating twice is relocating once. */
  lemma MoveInsideIdempotent(r: Rectangle, parent: Rectangle)
    requires r.w >= 0.0 && r.h >= 0.0
    requires MoveInside(r, parent).Some?
    ensures MoveInside(MoveInside(r, parent).value, parent) == MoveInside(r, parent)
  {
  }
}

/** `Sprite` of src/phi/mod.rs: a texture, named by an id, and a source rectangle on it. */
module Sprites {
  import opened Wrappers
  import opened Geometry

  type TextureId = nat

  datatype Sprite = Sprite(tex: TextureId, src: Rectangle)

  /** `Sprite::size`: the width and height of the source rectangle. */
  function Size(s: Sprite): (r: (real, real))
    ensures r.0 == s.src.w && r.1 == s.src.h
  {
    (s.src.w, s.src.h)
  }

  /**
   * `Sprite::region`: the sub-sprite at `rect`, taken relative to the origin
   * of `s.src`, when it lies inside `s.src`.
   */
  function Region(s: Sprite, rect: Rectangle): (r: Option<Sprite>)
    ensures r.Some? <==> Contains(s.src, Offset(rect, s.src.x, s.src.y))
    ensures r.Some? ==> r.value.tex == s.tex && r.value.src == Offset(rect, s.src.x, s.src.y)
    ensures r.Some? ==> Size(r.value) == (rect.w, rect.h) && Contains(s.src, r.value.src)
  {
    var src := Rectangle(rect.x + s.src.x, rect.y + s.src.y, rect.w, rect.h);
    if Contains(s.src, src) then Some(Sprite(s.tex, src)) else None
  }

  /** Carving a region out of a region is carving the combined offset out of the parent. */
  lemma RegionCompose(s: Sprite, a: Rectangle, b: Rectangle)
    requires Region(s, a).Some? && Region(Region(s, a).value, b).Some?
    ensures Region(s, Rectangle(a.x + b.x, a.y + b.y, b.w, b.h)) == Region(Region(s, a).value, b)
  {
    var t := Region(s, a).value;
    ContainsTransitive(s.src, t.src, Region(t, b).value.src);
  }
}

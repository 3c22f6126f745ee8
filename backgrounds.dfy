/**
 * `Background` of src/phi/mod.rs: a horizontally scrolling strip that
 * advances by velocity times elapsed time, wraps once it has passed the
 * sprite's width, and is tiled across the output.
 */
module Backgrounds {
  import opened Geometry
  import opened Sprites
  import opened Drawing

  /** The scroll update: advance by `delta`, and step back by `w` once past `w`. */
  function ScrollStep(pos: real, delta: real, w: real): real
  {
    if pos + delta > w then pos + delta - w else pos + delta
  }

  /**
   * The scroll update steps back at most once: the result is the advanced
   * position or that less `w`, it is still past `w` only when the advance
   * went past `2 * w`, and from a non-negative advance and width it is
   * never negative.
   */
  lemma ScrollWrapsOnce(pos: real, delta: real, w: real)
    ensures ScrollStep(pos, delta, w) == pos + delta || ScrollStep(pos, delta, w) == pos + delta - w
    ensures ScrollStep(pos, delta, w) > w ==> pos + delta > 2.0 * w
    ensures w >= 0.0 && pos + delta >= 0.0 ==> ScrollStep(pos, delta, w) >= 0.0
  {
  }

  /**
   * A position in `[0, w]` that advances by at most `w` stays in `[0, w]`;
   * one that lands exactly on `w` is not wrapped, since the test is strict.
   */
  lemma ScrollStaysInRange(pos: real, delta: real, w: real)
    requires w > 0.0 && 0.0 <= pos <= w && 0.0 <= delta <= w
    ensures 0.0 <= ScrollStep(pos, delta, w) <= w
    ensures pos + delta == w ==> ScrollStep(pos, delta, w) == w
    ensures ScrollStep(pos, delta, w) == pos + delta || ScrollStep(pos, delta, w) == pos + delta - w
  {
  }

  /** A strip 800 wide moving 80 per second: one second from 720 lands on 800 unwrapped; the next second gives 80. */
  lemma ScrollReachesWidth()
    ensures ScrollStep(720.0, 80.0 * 1.0, 800.0) == 800.0
    ensures ScrollStep(800.0, 80.0 * 1.0, 800.0) == 80.0
  {
  }

  /** The left edge of tile `i` of a row starting at `first` with tiles `step` wide. */
  function TileLeft(first: real, step: real, i: nat): real
  {
    first + (i as real) * step
  }

  /** The least integer not below `q`. */
  function Ceil(q: real): (c: int)
    ensures q <= c as real < q + 1.0
  {
    -((-q).Floor)
  }

  /** Stepping `q` down by one steps its ceiling down by one. */
  lemma CeilMinusOne(q: real)
    ensures Ceil(q - 1.0) == Ceil(q) - 1
  {
    var c, d := Ceil(q), Ceil(q - 1.0);
    assert q - 1.0 <= (c - 1) as real < q;
  }

  /** One tile further right leaves one tile fewer before `limit`. */
  lemma StepMeasure(left: real, step: real, limit: real)
    requires step > 0.0 && left < limit
    ensures Ceil((limit - left) / step) > 0
    ensures Ceil((limit - (left + step)) / step) == Ceil((limit - left) / step) - 1
  {
    var q := (limit - left) / step;
    assert q > 0.0;
    assert step / step == 1.0;
    assert (limit - (left + step)) / step == (limit - left) / step - step / step;
    CeilMinusOne(q);
  }

  /**
   * The copies the render loop draws from left edge `left` on: a `step`-wide
   * copy of `sprite` at `left` and then the rest of the row one step to the
   * right, while the left edge is before `limit`.
   */
  function RowFrom(sprite: Sprite, left: real, step: real, height: real, limit: real): seq<DrawOp>
    requires step > 0.0
    decreases Ceil((limit - left) / step)
  {
    if left >= limit then []
    else
      StepMeasure(left, step, limit);
      [Copy(sprite, Rectangle(left, 0.0, step, height))] + RowFrom(sprite, left + step, step, height, limit)
  }

  /** Tile `j + 1` starts where tile `j` ends. */
  lemma TileLeftNext(first: real, step: real, j: nat)
    ensures TileLeft(first, step, 0) == first
    ensures TileLeft(first, step, j + 1) == TileLeft(first, step, j) + step
  {
    assert ((j + 1) as real) * step == (j as real) * step + step;
  }

  /** Left edges only grow with the index. */
  lemma TileLeftMonotone(first: real, step: real, i: nat, j: nat)
    requires step > 0.0 && i <= j
    ensures TileLeft(first, step, i) <= TileLeft(first, step, j)
  {
    assert TileLeft(first, step, j) - TileLeft(first, step, i) == ((j - i) as real) * step;
  }

  /**
   * The row from `left` holds exactly the tiles whose left edge
   * `TileLeft(left, step, j)` is before `limit`, tile `j` at that edge.
   */
  lemma {:induction false} RowFromAt(sprite: Sprite, left: real, step: real, height: real, limit: real)
    requires step > 0.0
    ensures forall j: nat :: TileLeft(left, step, j) < limit <==> j < |RowFrom(sprite, left, step, height, limit)|
    ensures forall j: nat :: j < |RowFrom(sprite, left, step, height, limit)| ==>
      RowFrom(sprite, left, step, height, limit)[j] == Copy(sprite, Rectangle(TileLeft(left, step, j), 0.0, step, height))
    decreases Ceil((limit - left) / step)
  {
    TileLeftNext(left, step, 0);
    if left >= limit {
      forall j: nat
        ensures TileLeft(left, step, j) >= limit
      {
        TileLeftMonotone(left, step, 0, j);
      }
    } else {
      StepMeasure(left, step, limit);
      var rest := RowFrom(sprite, left + step, step, height, limit);
      RowFromAt(sprite, left + step, step, height, limit);
      forall j: nat | j > 0
        ensures TileLeft(left, step, j) == TileLeft(left + step, step, j - 1)
      {
        assert (j as real) * step == ((j - 1) as real) * step + step;
      }
    }
  }

  /** The factor that stretches the sprite's height to the output height. */
  function Scale(sprite: Sprite, outH: nat): (s: real)
    requires sprite.src.w > 0.0 && sprite.src.h > 0.0 && outH > 0
    ensures s > 0.0
  {
    outH as real / sprite.src.h
  }

  /** The left edge of the first tile: the scroll position, scaled, to the left of the origin. */
  function FirstLeft(sprite: Sprite, pos: real, outH: nat): real
    requires sprite.src.w > 0.0 && sprite.src.h > 0.0 && outH > 0
  {
    -pos * Scale(sprite, outH)
  }

  /** The width of one tile: the sprite's width, scaled. */
  function TileWidth(sprite: Sprite, outH: nat): (tw: real)
    requires sprite.src.w > 0.0 && sprite.src.h > 0.0 && outH > 0
    ensures tw > 0.0
  {
    var s := Scale(sprite, outH);
    assert sprite.src.w * s > 0.0;
    sprite.src.w * s
  }

  /** The copies `Background::render` draws for scroll position `pos` on an `outW` x `outH` output. */
  function TileRow(sprite: Sprite, pos: real, outW: nat, outH: nat): seq<DrawOp>
    requires sprite.src.w > 0.0 && sprite.src.h > 0.0 && outH > 0
  {
    RowFrom(sprite, FirstLeft(sprite, pos, outH), TileWidth(sprite, outH), outH as real, outW as real)
  }

  /**
   * The shape of a tile row: a row is drawn exactly when its first tile
   * starts inside the output, and tile `j` is a copy of the whole sprite
   * scaled to the output height, its left edge `j` tile widths right of
   * `-pos * scale` and inside the output.
   */
  lemma TileRowShape(sprite: Sprite, pos: real, outW: nat, outH: nat)
    requires sprite.src.w > 0.0 && sprite.src.h > 0.0 && outH > 0
    ensures |TileRow(sprite, pos, outW, outH)| > 0 <==> -pos * Scale(sprite, outH) < outW as real
    ensures forall j :: 0 <= j < |TileRow(sprite, pos, outW, outH)| ==>
      TileRow(sprite, pos, outW, outH)[j] ==
        Copy(sprite, Rectangle(TileLeft(FirstLeft(sprite, pos, outH), TileWidth(sprite, outH), j),
                               0.0, sprite.src.w * Scale(sprite, outH), outH as real))
    ensures forall j :: 0 <= j < |TileRow(sprite, pos, outW, outH)| ==>
      TileLeft(FirstLeft(sprite, pos, outH), TileWidth(sprite, outH), j) < outW as real
  {
    var first, step := FirstLeft(sprite, pos, outH), TileWidth(sprite, outH);
    RowFromAt(sprite, first, step, outH as real, outW as real);
    TileLeftNext(first, step, 0);
  }

  /** Consecutive tiles of a row abut: each starts where the previous one ended. */
  lemma TileRowAdjacent(sprite: Sprite, pos: real, outW: nat, outH: nat, j: nat)
    requires sprite.src.w > 0.0 && sprite.src.h > 0.0 && outH > 0
    requires 0 < j < |TileRow(sprite, pos, outW, outH)|
    ensures TileRow(sprite, pos, outW, outH)[j].Copy? && TileRow(sprite, pos, outW, outH)[j - 1].Copy?
    ensures TileRow(sprite, pos, outW, outH)[j].dest.x ==
      TileRow(sprite, pos, outW, outH)[j - 1].dest.x + TileRow(sprite, pos, outW, outH)[j - 1].dest.w
  {
    TileRowShape(sprite, pos, outW, outH);
    TileLeftNext(FirstLeft(sprite, pos, outH), TileWidth(sprite, outH), j - 1);
  }

  /** The tile of a row with `first <= p` whose span `[left, left + step)` holds `p`. */
  lemma CoveringTile(first: real, step: real, p: real) returns (j: nat)
    requires step > 0.0 && first <= p
    ensures TileLeft(first, step, j) <= p < TileLeft(first, step, j) + step
  {
    var q := (p - first) / step;
    assert q * step == p - first;
    j := q.Floor;
    assert (j as real) <= q < (j as real) + 1.0;
    assert TileLeft(first, step, j) - p == ((j as real) - q) * step;
    var gap := (j as real) + 1.0 - q;
    assert gap > 0.0;
    assert TileLeft(first, step, j) + step - p == gap * step;
    assert gap * step > 0.0;
  }

  /** From a non-negative scroll position, the tiles cover the whole output width without gaps. */
  lemma TileRowCovers(sprite: Sprite, pos: real, outW: nat, outH: nat, p: real)
    requires sprite.src.w > 0.0 && sprite.src.h > 0.0 && outH > 0
    requires pos >= 0.0 && 0.0 <= p < outW as real
    ensures var t := TileRow(sprite, pos, outW, outH);
      exists j :: 0 <= j < |t| && t[j].Copy? && t[j].dest.x <= p < t[j].dest.x + t[j].dest.w
  {
    var scale := Scale(sprite, outH);
    var first, step := FirstLeft(sprite, pos, outH), TileWidth(sprite, outH);
    var t := TileRow(sprite, pos, outW, outH);
    assert first <= 0.0 by {
      assert pos * scale >= 0.0;
    }
    var j := CoveringTile(first, step, p);
    RowFromAt(sprite, first, step, outH as real, outW as real);
    assert j < |t|;
    assert t[j].dest.x <= p < t[j].dest.x + t[j].dest.w;
  }

  /** One parallax layer: its scroll position, velocity and sprite. */
  class Background {
    var pos: real
    const vel: real
    const sprite: Sprite

    /** The layer's texture has a positive size. */
    ghost predicate Valid()
    {
      sprite.src.w > 0.0 && sprite.src.h > 0.0
    }

    constructor (pos: real, vel: real, sprite: Sprite)
      requires sprite.src.w > 0.0 && sprite.src.h > 0.0
      ensures Valid()
      ensures this.pos == pos && this.vel == vel && this.sprite == sprite
    {
      this.pos, this.vel, this.sprite := pos, vel, sprite;
    }

    /** `Background::render`: advance and wrap the scroll position, then tile the row left to right. */
    method Render(canvas: Canvas, elapsed: real)
      requires Valid() && canvas.outH > 0
      modifies this, canvas
      ensures pos == ScrollStep(old(pos), vel * elapsed, sprite.src.w)
      ensures canvas.log == old(canvas.log) + TileRow(sprite, pos, canvas.outW, canvas.outH)
    {
      var (w, h) := Size(sprite);
      pos := pos + vel * elapsed;
      if pos > w {
        pos := pos - w;
      }
      DrawRow(canvas);
    }

    /**
     * The tiling loop of `Background::render`: copies of the sprite scaled
     * to the output height, from `-pos * scale` rightwards while the left
     * edge is inside the output.
     */
    method DrawRow(canvas: Canvas)
      requires Valid() && canvas.outH > 0
      modifies canvas
      ensures canvas.log == old(canvas.log) + TileRow(sprite, pos, canvas.outW, canvas.outH)
    {
      var (w, h) := Size(sprite);
      var (winW, winH) := (canvas.outW, canvas.outH);
      var scale := winH as real / h;
      var physicalLeft := -pos * scale;
      ghost var first, step := FirstLeft(sprite, pos, winH), TileWidth(sprite, winH);
      assert physicalLeft == first && w * scale == step;
      while physicalLeft < winW as real
        invariant old(canvas.log) + RowFrom(sprite, first, step, winH as real, winW as real) ==
          canvas.log + RowFrom(sprite, physicalLeft, step, winH as real, winW as real)
        decreases Ceil((winW as real - physicalLeft) / step)
      {
        StepMeasure(physicalLeft, step, winW as real);
        canvas.CopySprite(sprite, Rectangle(physicalLeft, 0.0, w * scale, winH as real));
        physicalLeft := physicalLeft + w * scale;
      }
    }
  }
}

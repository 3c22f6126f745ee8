/**
 * The ship scene of src/phi/mod.rs: the player's movement from the held
 * keys, the clamp into the left 70% of the output, the choice of one of nine
 * animation frames from the direction of movement, the 3 x 3 sprite atlas,
 * and the frame step `ShipView::render` with its draw order.
 */
module Ships {
  import opened Wrappers
  import opened Geometry
  import opened Sprites
  import opened Drawing
  import opened Backgrounds
  import opened EventModel

  const PLAYER_SPEED: real := 0.32
  const SHIP_W: real := 43.0
  const SHIP_H: real := 39.0
  /** The value `1.0 / 2.0f64.sqrt()` takes in double precision. */
  const INV_SQRT2: real := 0.7071067811865475

  /** `ShipFrame`: the vertical direction (Up, Mid, Down) and the horizontal one (Norm, Fast, Slow). */
  datatype ShipFrame =
    | UpNorm | UpFast | UpSlow
    | MidNorm | MidFast | MidSlow
    | DownNorm | DownFast | DownSlow

  /** The discriminant of a frame, its index into the atlas. */
  function FrameIndex(f: ShipFrame): (i: nat)
    ensures i < 9
  {
    match f
    case UpNorm => 0
    case UpFast => 1
    case UpSlow => 2
    case MidNorm => 3
    case MidFast => 4
    case MidSlow => 5
    case DownNorm => 6
    case DownFast => 7
    case DownSlow => 8
  }

  /** Distinct frames have distinct indices. */
  lemma FrameIndexInjective(f: ShipFrame, g: ShipFrame)
    requires FrameIndex(f) == FrameIndex(g)
    ensures f == g
  {
  }

  function Sign(x: real): int
  {
    if x > 0.0 then 1 else if x < 0.0 then -1 else 0
  }

  /**
   * The frame chosen for a movement `(dx, dy)`. The nine tests cover every
   * pair of reals, so the final arm (`unreachable!()`) is never taken.
   */
  function SelectFrame(dx: real, dy: real): (f: ShipFrame)
    ensures Row(FrameIndex(f)) == Sign(dy) + 1
    ensures Column(FrameIndex(f)) == (Sign(dx) + 3) % 3
  {
    if dx == 0.0 && dy < 0.0 then UpNorm
    else if dx > 0.0 && dy < 0.0 then UpFast
    else if dx < 0.0 && dy < 0.0 then UpSlow
    else if dx == 0.0 && dy == 0.0 then MidNorm
    else if dx > 0.0 && dy == 0.0 then MidFast
    else if dx < 0.0 && dy == 0.0 then MidSlow
    else if dx == 0.0 && dy > 0.0 then DownNorm
    else if dx > 0.0 && dy > 0.0 then DownFast
    else if dx < 0.0 && dy > 0.0 then DownSlow
    else assert false; MidNorm
  }

  /**
   * The frame depends on the signs of the movement only: its row in the
   * atlas is the vertical sign (up, none, down) and its column the
   * horizontal one (none, right, left). No movement is the idle MidNorm.
   */
  lemma SelectFrameBySigns(dx: real, dy: real)
    ensures FrameIndex(SelectFrame(dx, dy)) == 3 * (Sign(dy) + 1) + (Sign(dx) + 3) % 3
    ensures SelectFrame(0.0, 0.0) == MidNorm
  {
  }

  /** Different sign pairs give different frames. */
  lemma SelectFrameInjective(dx1: real, dy1: real, dx2: real, dy2: real)
    requires SelectFrame(dx1, dy1) == SelectFrame(dx2, dy2)
    ensures Sign(dx1) == Sign(dx2) && Sign(dy1) == Sign(dy2)
  {
    SelectFrameBySigns(dx1, dy1);
    SelectFrameBySigns(dx2, dy2);
  }

  /** Every frame is chosen for some movement. */
  lemma SelectFrameOnto(f: ShipFrame)
    ensures exists dx, dy :: SelectFrame(dx, dy) == f
  {
    var dx := match f
      case UpNorm | MidNorm | DownNorm => 0.0
      case UpFast | MidFast | DownFast => 1.0
      case UpSlow | MidSlow | DownSlow => -1.0;
    var dy := match f
      case UpNorm | UpFast | UpSlow => -1.0
      case MidNorm | MidFast | MidSlow => 0.0
      case DownNorm | DownFast | DownSlow => 1.0;
    assert SelectFrame(dx, dy) == f;
  }

  /** The diagonal test as written: `key_up ^ key_up`, which is never true. */
  predicate Diagonal(up: bool, left: bool, right: bool): (b: bool)
    ensures !b
  {
    (up != up) && (left != right)
  }

  /** The distance moved along an axis in one frame. */
  function StepLength(up: bool, left: bool, right: bool): (m: real)
    ensures m == PLAYER_SPEED
  {
    (if Diagonal(up, left, right) then INV_SQRT2 else 1.0) * PLAYER_SPEED
  }

  /** The movement along one axis: none when both or neither key is held. */
  function AxisDelta(neg: bool, pos: bool, moved: real): (d: real)
    ensures d in {-moved, 0.0, moved}
    ensures neg == pos ==> d == 0.0
    ensures moved > 0.0 ==> (d > 0.0 <==> pos && !neg) && (d < 0.0 <==> neg && !pos)
  {
    match (neg, pos)
    case (true, true) | (false, false) => 0.0
    case (true, false) => -moved
    case (false, true) => moved
  }

  /**
   * The movement `(dx, dy)` the held keys ask for. Each component is
   * `-0.32`, `0` or `0.32`: zero when both or neither of its keys is held,
   * otherwise towards the one key held. No diagonal scaling ever applies,
   * and the elapsed time plays no part.
   */
  function Intent(left: bool, right: bool, up: bool, down: bool): (d: (real, real))
    ensures d.0 in {-PLAYER_SPEED, 0.0, PLAYER_SPEED} && d.1 in {-PLAYER_SPEED, 0.0, PLAYER_SPEED}
    ensures d.0 == 0.0 <==> left == right
    ensures d.0 == -PLAYER_SPEED <==> left && !right
    ensures d.0 == PLAYER_SPEED <==> right && !left
    ensures d.1 == 0.0 <==> up == down
    ensures d.1 == -PLAYER_SPEED <==> up && !down
    ensures d.1 == PLAYER_SPEED <==> down && !up
  {
    var moved := StepLength(up, left, right);
    (AxisDelta(left, right, moved), AxisDelta(up, down, moved))
  }

  /** The region the player is kept in: the left 70% of the output, full height. */
  function MoveableRegion(outW: nat, outH: nat): (r: Rectangle)
    ensures Contains(Rectangle(0.0, 0.0, outW as real, outH as real), r)
    ensures r.w == outW as real * 0.7 && r.h == outH as real
  {
    Rectangle(0.0, 0.0, outW as real * 0.7, outH as real)
  }

  /**
   * The player's new rectangle: moved by `d`, then moved inside the moveable
   * region. There is a result exactly when the player fits the region, and
   * then it keeps its size and lies inside the region.
   */
  function PlayerStep(rect: Rectangle, d: (real, real), outW: nat, outH: nat): (r: Option<Rectangle>)
    ensures r.Some? <==> rect.w <= outW as real * 0.7 && rect.h <= outH as real
    ensures r.Some? ==> r.value.w == rect.w && r.value.h == rect.h
    ensures r.Some? && rect.w >= 0.0 && rect.h >= 0.0 ==> Contains(MoveableRegion(outW, outH), r.value)
  {
    MoveInside(Rectangle(rect.x + d.0, rect.y + d.1, rect.w, rect.h), MoveableRegion(outW, outH))
  }

  /**
   * Holding only Right, the player at (64, 64) in an 800 x 600 window moves
   * to x = 64.32 whatever the elapsed time, keeps y, and shows MidFast.
   */
  lemma RightOnlyScenario()
    ensures Intent(false, true, false, false) == (0.32, 0.0)
    ensures PlayerStep(Rectangle(64.0, 64.0, 32.0, 32.0), Intent(false, true, false, false), 800, 600)
      == Some(Rectangle(64.32, 64.0, 32.0, 32.0))
    ensures SelectFrame(0.32, 0.0) == MidFast
  {
  }

  /** The column of atlas cell `i`, that is `i % 3`. */
  function Column(i: nat): (c: nat)
    requires i < 9
    ensures c < 3 && c == i % 3
  {
    if i < 3 then i else if i < 6 then i - 3 else i - 6
  }

  /** The row of atlas cell `i`, that is `i / 3`. */
  function Row(i: nat): (r: nat)
    requires i < 9
    ensures r < 3 && r == i / 3 && i == 3 * r + Column(i)
  {
    if i < 3 then 0 else if i < 6 then 1 else 2
  }

  /** Cell `i` of the 3 x 3 atlas cut from `sheet`, counted row by row. */
  function AtlasCell(sheet: Sprite, i: nat): Sprite
    requires i < 9
  {
    Sprite(sheet.tex, Rectangle(sheet.src.x + SHIP_W * (Column(i) as real), sheet.src.y + SHIP_H * (Row(i) as real), SHIP_W, SHIP_H))
  }

  /** The sheet is large enough for three columns and three rows of cells. */
  predicate AtlasFits(sheet: Sprite)
  {
    sheet.src.w >= 3.0 * SHIP_W && sheet.src.h >= 3.0 * SHIP_H
  }

  /** On a sheet that fits, every cell region exists. */
  lemma CellFits(sheet: Sprite, x: nat, y: nat)
    requires AtlasFits(sheet) && x < 3 && y < 3
    ensures Region(sheet, Rectangle(SHIP_W * (x as real), SHIP_H * (y as real), SHIP_W, SHIP_H)).Some?
  {
  }

  /**
   * The atlas slicing of `ShipView::new`: nine regions, row by row, each
   * unwrapped (a missing region aborts, here `None`). It succeeds exactly
   * when the sheet fits, and then cell `i` is `AtlasCell(sheet, i)`.
   */
  method SliceAtlas(sheet: Sprite) returns (cells: Option<seq<Sprite>>)
    ensures cells.Some? <==> AtlasFits(sheet)
    ensures cells.Some? ==> |cells.value| == 9
    ensures cells.Some? ==> forall i :: 0 <= i < 9 ==> cells.value[i] == AtlasCell(sheet, i)
    ensures cells.Some? ==> forall i :: 0 <= i < 9 ==> Contains(sheet.src, cells.value[i].src)
  {
    var sprites: seq<Sprite> := [];
    for y := 0 to 3
      invariant |sprites| == 3 * y
      invariant forall i :: 0 <= i < |sprites| ==> sprites[i] == AtlasCell(sheet, i)
      invariant forall i :: 0 <= i < |sprites| ==> Contains(sheet.src, sprites[i].src)
    {
      for x := 0 to 3
        invariant |sprites| == 3 * y + x
        invariant forall i :: 0 <= i < |sprites| ==> sprites[i] == AtlasCell(sheet, i)
        invariant forall i :: 0 <= i < |sprites| ==> Contains(sheet.src, sprites[i].src)
      {
        var cell := Region(sheet, Rectangle(SHIP_W * (x as real), SHIP_H * (y as real), SHIP_W, SHIP_H));
        if cell.None? {
          if AtlasFits(sheet) {
            CellFits(sheet, x, y);
          }
          return None;
        }
        assert Column(3 * y + x) == x && Row(3 * y + x) == y;
        sprites := sprites + [cell.value];
      }
    }
    assert Contains(sheet.src, sprites[8].src);
    return Some(sprites);
  }

  /** `Ship`: the player's rectangle, its atlas and its current frame. */
  class Ship {
    var rect: Rectangle
    var current: ShipFrame
    const sprites: seq<Sprite>

    constructor (rect: Rectangle, sprites: seq<Sprite>, current: ShipFrame)
      ensures this.rect == rect && this.sprites == sprites && this.current == current
    {
      this.rect, this.sprites, this.current := rect, sprites, current;
    }

    /** The player's move in `ShipView::render`: step by `d`, then clamp into the moveable region. */
    method MoveBy(d: (real, real), outW: nat, outH: nat)
      requires rect.w <= outW as real * 0.7 && rect.h <= outH as real
      modifies this`rect
      ensures PlayerStep(old(rect), d, outW, outH) == Some(rect)
    {
      rect := rect.(x := rect.x + d.0, y := rect.y + d.1);
      rect := MoveInside(rect, MoveableRegion(outW, outH)).value;
    }
  }

  /** `ViewAction` with its two live cases; the source's `None` is `Continue` here. */
  datatype ViewAction = Quit | Continue

  /** The frame step ends the program on a quit signal or a fresh press of Escape. */
  predicate QuitRequested(now: ImmediateEvents): (b: bool)
    ensures b <==> now.quit || now.keyEscape == Some(true)
  {
    now.quit || Edge(now, Escape) == Some(true)
  }

  /** The movement the held keys of `events` ask for. */
  function MovementOf(events: Events): (real, real)
    reads events
  {
    Intent(events.Held(Left), events.Held(Right), events.Held(Up), events.Held(Down))
  }

  /** `ShipView`: the player and the back, middle and front parallax layers. */
  class ShipView {
    const player: Ship
    const bgBack: Background
    const bgMiddle: Background
    const bgFront: Background
    /** The sheet the player's atlas was cut from. */
    ghost const sheet: Sprite

    ghost predicate Valid()
      reads this, player
    {
      |player.sprites| == 9 &&
      (forall i :: 0 <= i < 9 ==> player.sprites[i] == AtlasCell(sheet, i)) &&
      player.rect.w >= 0.0 && player.rect.h >= 0.0 &&
      bgBack.Valid() && bgMiddle.Valid() && bgFront.Valid() &&
      bgBack != bgMiddle && bgBack != bgFront && bgMiddle != bgFront
    }

    /** The player fits the moveable region of `canvas`, so the clamp cannot fail. */
    ghost predicate Fits(canvas: Canvas)
      reads this, player
    {
      player.rect.w <= canvas.outW as real * 0.7 && player.rect.h <= canvas.outH as real
    }

    /** `ShipView::new`, given the sprite sheet and the three layer sprites as loaded. */
    constructor (sheet: Sprite, front: Sprite, middle: Sprite, back: Sprite)
      requires AtlasFits(sheet)
      requires front.src.w > 0.0 && front.src.h > 0.0
      requires middle.src.w > 0.0 && middle.src.h > 0.0
      requires back.src.w > 0.0 && back.src.h > 0.0
      ensures Valid() && this.sheet == sheet
      ensures player.rect == Rectangle(64.0, 64.0, 32.0, 32.0) && player.current == MidNorm
      ensures bgFront.pos == 0.0 && bgFront.vel == 80.0 && bgFront.sprite == front
      ensures bgMiddle.pos == 0.0 && bgMiddle.vel == 40.0 && bgMiddle.sprite == middle
      ensures bgBack.pos == 0.0 && bgBack.vel == 40.0 && bgBack.sprite == back
      ensures fresh(player) && fresh(bgFront) && fresh(bgMiddle) && fresh(bgBack)
    {
      var cells := SliceAtlas(sheet);
      player := new Ship(Rectangle(64.0, 64.0, 32.0, 32.0), cells.value, MidNorm);
      bgFront := new Background(0.0, 80.0, front);
      bgMiddle := new Background(0.0, 40.0, middle);
      bgBack := new Background(0.0, 40.0, back);
      this.sheet := sheet;
    }

    /** The back and middle layers of `ShipView::render`: each scrolls and then draws its row. */
    method DrawUnderlay(canvas: Canvas, elapsed: real)
      requires Valid() && canvas.outH > 0
      modifies bgBack, bgMiddle, canvas
      ensures bgBack.pos == ScrollStep(old(bgBack.pos), bgBack.vel * elapsed, bgBack.sprite.src.w)
      ensures bgMiddle.pos == ScrollStep(old(bgMiddle.pos), bgMiddle.vel * elapsed, bgMiddle.sprite.src.w)
      ensures canvas.log == old(canvas.log)
        + TileRow(bgBack.sprite, bgBack.pos, canvas.outW, canvas.outH)
        + TileRow(bgMiddle.sprite, bgMiddle.pos, canvas.outW, canvas.outH)
    {
      bgBack.Render(canvas, elapsed);
      bgMiddle.Render(canvas, elapsed);
    }

    /**
     * The drawing half of `ShipView::render`: the back and middle layers,
     * then the player with the frame picked for `(dx, dy)`, then the front
     * layer.
     */
    method DrawScene(canvas: Canvas, elapsed: real, dx: real, dy: real)
      requires Valid() && canvas.outH > 0
      modifies player`current, bgBack, bgMiddle, bgFront, canvas
      ensures Valid()
      ensures player.current == SelectFrame(dx, dy)
      ensures bgBack.pos == ScrollStep(old(bgBack.pos), bgBack.vel * elapsed, bgBack.sprite.src.w)
      ensures bgMiddle.pos == ScrollStep(old(bgMiddle.pos), bgMiddle.vel * elapsed, bgMiddle.sprite.src.w)
      ensures bgFront.pos == ScrollStep(old(bgFront.pos), bgFront.vel * elapsed, bgFront.sprite.src.w)
      ensures canvas.log == old(canvas.log)
        + TileRow(bgBack.sprite, bgBack.pos, canvas.outW, canvas.outH)
        + TileRow(bgMiddle.sprite, bgMiddle.pos, canvas.outW, canvas.outH)
        + [Copy(AtlasCell(sheet, FrameIndex(player.current)), player.rect)]
        + TileRow(bgFront.sprite, bgFront.pos, canvas.outW, canvas.outH)
    {
      DrawUnderlay(canvas, elapsed);
      player.current := SelectFrame(dx, dy);
      canvas.CopySprite(player.sprites[FrameIndex(player.current)], player.rect);
      bgFront.Render(canvas, elapsed);
    }

    /**
     * `ShipView::render`, one frame. On a quit request nothing changes and
     * nothing is drawn. Otherwise the player moves by the held keys and is
     * clamped into the moveable region, each layer scrolls, the frame follows
     * the direction of movement, and the output is cleared and drawn back
     * layer, middle layer, player, front layer; nothing is presented.
     */
    method Render(canvas: Canvas, events: Events, elapsed: real) returns (action: ViewAction)
      requires Valid() && Fits(canvas) && canvas.outH > 0
      modifies player, bgBack, bgMiddle, bgFront, canvas
      ensures Valid() && Fits(canvas)
      ensures player.rect.w == old(player.rect.w) && player.rect.h == old(player.rect.h)
      ensures Presents(canvas.log) == Presents(old(canvas.log))
      ensures action == Quit <==> QuitRequested(events.now)
      ensures action == Quit ==> unchanged(player, bgBack, bgMiddle, bgFront, canvas)
      ensures action == Continue ==>
        PlayerStep(old(player.rect), MovementOf(events), canvas.outW, canvas.outH) == Some(player.rect) &&
        Contains(MoveableRegion(canvas.outW, canvas.outH), player.rect) &&
        player.current == SelectFrame(MovementOf(events).0, MovementOf(events).1)
      ensures action == Continue ==>
        bgBack.pos == ScrollStep(old(bgBack.pos), bgBack.vel * elapsed, bgBack.sprite.src.w) &&
        bgMiddle.pos == ScrollStep(old(bgMiddle.pos), bgMiddle.vel * elapsed, bgMiddle.sprite.src.w) &&
        bgFront.pos == ScrollStep(old(bgFront.pos), bgFront.vel * elapsed, bgFront.sprite.src.w)
      ensures action == Continue ==>
        canvas.log == old(canvas.log) + [DrawOp.Clear]
          + TileRow(bgBack.sprite, bgBack.pos, canvas.outW, canvas.outH)
          + TileRow(bgMiddle.sprite, bgMiddle.pos, canvas.outW, canvas.outH)
          + [Copy(AtlasCell(sheet, FrameIndex(player.current)), player.rect)]
          + TileRow(bgFront.sprite, bgFront.pos, canvas.outW, canvas.outH)
    {
      var (w, h) := (canvas.outW, canvas.outH);
      if events.now.quit || events.now.keyEscape == Some(true) {
        return Quit;
      }
      var dx, dy := Steer(events);
      player.MoveBy((dx, dy), w, h);
      canvas.Clear();

      DrawScene(canvas, elapsed, dx, dy);
      FramePresentsNothing(old(canvas.log), w, h, bgBack.sprite, bgBack.pos, bgMiddle.sprite, bgMiddle.pos,
        Copy(AtlasCell(sheet, FrameIndex(player.current)), player.rect), bgFront.sprite, bgFront.pos);
      return Continue;
    }
  }

  /**
   * The movement part of `ShipView::render`: the diagonal test, the step
   * length and the two axis matches over the held keys. This is the
   * statement-by-statement form of the computation that `Intent` states as
   * a function; the contract ties the two together.
   */
  method Steer(events: Events) returns (dx: real, dy: real)
    ensures (dx, dy) == MovementOf(events)
  {
    var upTwice := events.keyUp != events.keyUp;
    var across := events.keyLeft != events.keyRight;
    var diagonal := upTwice && across;
    var moved := (if diagonal then INV_SQRT2 else 1.0) * PLAYER_SPEED;
    dx := match (events.keyLeft, events.keyRight)
      case (true, true) | (false, false) => 0.0
      case (true, false) => -moved
      case (false, true) => moved;
    dy := match (events.keyUp, events.keyDown)
      case (true, true) | (false, false) => 0.0
      case (true, false) => -moved
      case (false, true) => moved;
  }

  /** A tile row holds copies only, so it presents nothing. */
  lemma PresentsOfTiles(sprite: Sprite, pos: real, outW: nat, outH: nat)
    requires sprite.src.w > 0.0 && sprite.src.h > 0.0 && outH > 0
    ensures Presents(TileRow(sprite, pos, outW, outH)) == 0
  {
    TileRowShape(sprite, pos, outW, outH);
    PresentsOfCopies(TileRow(sprite, pos, outW, outH));
  }

  /**
   * A frame step's draws, a clear, the three rows and the player copy,
   * present nothing: presenting is the driver's job.
   */
  lemma FramePresentsNothing(log: seq<DrawOp>, outW: nat, outH: nat, back: Sprite, backPos: real,
                             middle: Sprite, middlePos: real, playerCopy: DrawOp, front: Sprite, frontPos: real)
    requires back.src.w > 0.0 && back.src.h > 0.0
    requires middle.src.w > 0.0 && middle.src.h > 0.0
    requires front.src.w > 0.0 && front.src.h > 0.0
    requires outH > 0 && playerCopy.Copy?
    ensures Presents(log + [DrawOp.Clear] + TileRow(back, backPos, outW, outH) + TileRow(middle, middlePos, outW, outH)
      + [playerCopy] + TileRow(front, frontPos, outW, outH)) == Presents(log)
  {
    var b, m, f := TileRow(back, backPos, outW, outH), TileRow(middle, middlePos, outW, outH), TileRow(front, frontPos, outW, outH);
    PresentsOfTiles(back, backPos, outW, outH);
    PresentsOfTiles(middle, middlePos, outW, outH);
    PresentsOfTiles(front, frontPos, outW, outH);
    assert Presents([DrawOp.Clear]) == 0 by {
      assert [DrawOp.Clear][..0] == [];
    }
    assert Presents([playerCopy]) == 0 by {
      assert [playerCopy][..0] == [];
    }
    PresentsAppend(log, [DrawOp.Clear]);
    PresentsAppend(log + [DrawOp.Clear], b);
    PresentsAppend(log + [DrawOp.Clear] + b, m);
    PresentsAppend(log + [DrawOp.Clear] + b + m, [playerCopy]);
    PresentsAppend(log + [DrawOp.Clear] + b + m + [playerCopy], f);
  }
}

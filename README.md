# Phi ship scene, modelled in Dafny

A model of the core of a small SDL2 game framework, "Phi", and its one
scene: a player ship over three parallax star layers.

- **Event model** (`events.dfy`, module `EventModel`). The macro in
  `src/phi/events.rs` is expanded for the key list of `src/phi/mod.rs:4-16`.
  - Every tracked key has a *held* flag that lasts across pumps.
  - Every tracked key also has an *edge* (`Some(true)` for just pressed,
    `Some(false)` for just released, `None` for no change) that is reset at the
    start of each pump.
  - The `quit` signal is one-shot.
  - `Events::pump` is a class method with a loop. Its specification is the
    fold `Pumped` of the per-event step `Handle`.
- **Geometry and sprites** (`geometry.dfy`, `sprites.dfy`).
  - `Rectangle::contains`, `Rectangle::move_inside`, `Sprite::size` and
    `Sprite::region`, over reals.
  - A texture is represented by an id.
- **Draw log** (`drawing.dfy`). The window canvas is an object whose `log`
  records every `clear`, `copy_sprite` and `present`.
- **Backgrounds** (`backgrounds.dfy`).
  - The scroll update with its wrap.
  - The tiling loop of `Background::render`, specified by the recursive row
    `RowFrom`. Its contents, ordering, adjacency and coverage are proved.
- **Ship scene** (`ships.dfy`).
  - Movement from the held keys.
  - The clamp into the left 70% of the output.
  - The nine-way animation-frame choice.
  - The 3 × 3 atlas slicing of `ShipView::new`.
  - The frame step `ShipView::render`, with its quit check and exact draw order.
- **Frame driver** (`driver.dfy`). The `'running` loop of `spawn`, over a
  finite sequence of timer readings.
  - `Pace` is the pacing rule as a fold.
  - The lemmas prove its spacing and frame-rate bound.
  - The `Spawn` method is proved to follow `Pace`.

## Model

| member | source | states |
|---|---|---|
| EventModel.FreshSnapshot | src/phi/events.rs:13-19 | a fresh snapshot has no edge on any key and no quit signal |
| EventModel.WithEdge | src/phi/events.rs:48 | setting one key's edge leaves every other key's edge and `quit` as they were |
| EventModel.Handle | src/phi/events.rs:45-60 | a key-down holds its key and is an edge only if the key was not held; a key-up releases and is always an edge; only the quit signal sets `quit`; untracked, keycode-less and other events change nothing; every other key keeps its edge and held flag |
| EventModel.Events.constructor | src/phi/events.rs:31-37 | a new event model has a fresh snapshot and no key held |
| EventModel.Events.SetHeld | src/phi/events.rs:50 | assigning one held flag adds or removes exactly that key from the held set and leaves the snapshot alone |
| EventModel.Events.HandleEvent | src/phi/events.rs:45-60 | one pass of the pump loop moves the object's state exactly as `Handle` does |
| EventModel.Events.Pump | src/phi/events.rs:39-62 | after a pump the state is the fresh snapshot with the batch handled in order, starting from the old held keys; an empty batch leaves every edge `None`, `quit` false and the held keys unchanged |
| EventModel.EdgeAgreesWithHeld | src/phi/events.rs:46-55 | after a pump a press edge means held, a release edge means not held, and a key without an edge keeps its held flag from before the pump |
| EventModel.EdgeHasCause | src/phi/events.rs:46-55 | a press edge implies a key-down of that key in the batch, a release edge a key-up |
| EventModel.QuitIffSignal | src/phi/events.rs:56-58 | `quit` is set after a pump exactly when the batch contains a quit signal |
| EventModel.Relevant | src/phi/events.rs:59 | the filtered batch keeps only quit signals and tracked key events |
| EventModel.IgnoredEventsIrrelevant | src/phi/events.rs:59 | dropping the events no arm matches leaves the pump's result unchanged |
| EventModel.PressThenIdle | src/phi/events.rs:40-50 | a press of an unheld key is an edge in the pump that drains it; the next, empty, pump reports no edge while the key stays held |
| Geometry.Contains | src/phi/mod.rs:42-52 | containment holds iff the top-left and bottom-right corners of the inner rectangle lie in the outer one, bounds inclusive |
| Geometry.ContainsIffCorners | src/phi/mod.rs:42-52 | containment holds iff all four corners of the inner rectangle lie in the outer one, bounds inclusive |
| Geometry.ContainsReflexive | src/phi/mod.rs:42-52 | a rectangle of non-negative size contains itself |
| Geometry.ContainsTransitive | src/phi/mod.rs:42-52 | containment is transitive |
| Geometry.MoveInside | src/phi/mod.rs:55-77 | no result iff the rectangle is wider or taller than the parent; otherwise same size, each coordinate clamped into the parent's range, the result inside the parent, and a rectangle already inside is returned unchanged |
| Geometry.MoveInsideIdempotent | src/phi/mod.rs:55-77 | relocating a relocated rectangle changes nothing |
| Sprites.Size | src/phi/mod.rs:205-207 | the size is the width and height of the source rectangle |
| Sprites.Region | src/phi/mod.rs:182-197 | a region exists iff the source rectangle contains the requested one offset by the source origin; it keeps the texture, has that offset rectangle as source, the requested size, and lies inside the parent |
| Sprites.RegionCompose | src/phi/mod.rs:182-197 | a region of a region is the region at the summed offset |
| Drawing.PresentsAppend | src/phi/mod.rs:480 | presents of a concatenated log add up |
| Drawing.PresentsOfCopies | src/phi/mod.rs:284-286 | a log of copies presents nothing |
| Drawing.Canvas.Clear | src/phi/mod.rs:326-327 | a clear appends one clear record to the log |
| Drawing.Canvas.CopySprite | src/phi/mod.rs:283-287 | a sprite copy appends one copy record to the log |
| Drawing.Canvas.Present | src/phi/mod.rs:480 | a present appends one present record to the log |
| Backgrounds.ScrollWrapsOnce | src/phi/mod.rs:137-141 | the scroll update `ScrollStep`: the new position is the advanced one, or that less the width; it steps back at most once, so it is still past the width only when the advance went past twice the width; it is never negative from a non-negative advance |
| Backgrounds.ScrollStaysInRange | src/phi/mod.rs:136-141 | a position in `[0, w]` moved by at most `w` stays in `[0, w]`, landing exactly on `w` is not wrapped, and the result is the advanced position or that minus `w` |
| Backgrounds.ScrollReachesWidth | src/phi/mod.rs:136-141 | with width 800 and velocity 80, one second from 720 lands on 800 unwrapped, and one more second gives 80 |
| Backgrounds.StepMeasure | src/phi/mod.rs:148-156 | each pass of the tiling loop lowers the number of tiles left by exactly one, so the loop ends when the tile width is positive |
| Backgrounds.RowFromAt | src/phi/mod.rs:148-156 | the row from a left edge holds exactly the tiles whose left edge is before the limit, tile `j` at `left + j * step` |
| Backgrounds.TileRowShape | src/phi/mod.rs:143-156 | a row is drawn iff `-pos * scale` is inside the output; tile `j` copies the whole sprite at `-pos * scale + j * w * scale`, is `w * scale` wide and output-height tall, and starts inside the output |
| Backgrounds.TileRowAdjacent | src/phi/mod.rs:148-156 | each tile starts where the previous one ends |
| Backgrounds.TileRowCovers | src/phi/mod.rs:143-156 | from a non-negative scroll position every point of `[0, outW)` lies in some tile |
| Backgrounds.Background.constructor | src/phi/mod.rs:246-260 | a layer starts with the given position, velocity and sprite, whose size is positive |
| Backgrounds.Background.Render | src/phi/mod.rs:135-159 | the position advances by velocity times elapsed and wraps once past the width, and the log grows by exactly the tile row for the new position |
| Backgrounds.Background.DrawRow | src/phi/mod.rs:143-156 | the tiling loop appends exactly the tile row for the current position |
| Ships.FrameIndex | src/phi/mod.rs:102-112 | every frame's discriminant is below 9, the number of atlas cells |
| Ships.FrameIndexInjective | src/phi/mod.rs:102-112 | distinct frames have distinct discriminants |
| Ships.SelectFrame | src/phi/mod.rs:340-350 | the chosen frame's atlas row is the vertical sign (up, none, down) and its column the horizontal sign (none, right, left), for every pair of reals, so the `unreachable!()` arm is never taken |
| Ships.SelectFrameBySigns | src/phi/mod.rs:340-350 | the frame index is `3 * (sign dy + 1) + column of sign dx`, so the choice is total and depends on the signs only; no movement gives MidNorm |
| Ships.SelectFrameInjective | src/phi/mod.rs:340-350 | equal frames come from equal sign pairs |
| Ships.SelectFrameOnto | src/phi/mod.rs:340-350 | every frame is chosen for some movement |
| Ships.Diagonal | src/phi/mod.rs:304 | the diagonal test `key_up ^ key_up` is never true |
| Ships.StepLength | src/phi/mod.rs:307 | the step length is always the plain speed 0.32 |
| Ships.AxisDelta | src/phi/mod.rs:310-321 | an axis delta is `-moved`, `0` or `moved`; both or neither key gives 0; for a positive step it is positive iff only the positive key is held and negative iff only the negative key is held |
| Ships.Intent | src/phi/mod.rs:303-321 | each axis delta is `-0.32`, `0` or `0.32`: zero iff both or neither key is held, otherwise towards the held key; no diagonal scaling ever applies |
| Ships.Steer | src/phi/mod.rs:303-321 | the computed `(dx, dy)` is the intent of the held left, right, up and down keys |
| Ships.MoveableRegion | src/phi/mod.rs:331 | the moveable region lies inside the output and is 70% of its width and its full height |
| Ships.PlayerStep | src/phi/mod.rs:323-333 | a step has a result iff the player fits the left 70% of the output; it keeps the size and lies inside that region |
| Ships.RightOnlyScenario | src/phi/mod.rs:303-350 | holding Right only moves the player at (64, 64) to x = 64.32, same y, frame MidFast |
| Ships.Column | src/phi/mod.rs:220-221 | the atlas column of cell `i` is `i % 3` |
| Ships.Row | src/phi/mod.rs:220-221 | the atlas row of cell `i` is `i / 3`, and `i == 3 * row + column` |
| Ships.CellFits | src/phi/mod.rs:222-230 | on a sheet at least 3 × 43 wide and 3 × 39 tall every cell region exists |
| Ships.SliceAtlas | src/phi/mod.rs:218-233 | slicing succeeds iff the sheet fits; then there are nine cells, cell `i` at column `i % 3`, row `i / 3`, 43 × 39, each inside the sheet |
| Ships.Ship.MoveBy | src/phi/mod.rs:323-333 | the player's new rectangle is the player step for the movement |
| Ships.ShipView.constructor | src/phi/mod.rs:215-262 | the view starts with the player at (64, 64, 32, 32) showing MidNorm with the nine atlas cells, and the front, middle and back layers at position 0 with velocities 80, 40 and 40 |
| Ships.ShipView.DrawUnderlay | src/phi/mod.rs:336-337 | the back and then the middle layer scroll and append their tile rows |
| Ships.ShipView.DrawScene | src/phi/mod.rs:336-357 | the log grows by the back row, middle row, one copy of the chosen atlas cell at the player, and the front row, in that order; the frame is the one selected for the movement |
| Ships.ShipView.Render | src/phi/mod.rs:293-359 | quit iff the snapshot has a quit signal or an Escape press, and then nothing changes; otherwise the player takes its step and lies in the moveable region, the frame follows the movement, each layer scrolls, the log grows by clear, back row, middle row, player copy, front row, and nothing is presented |
| Ships.QuitRequested | src/phi/mod.rs:299 | a quit is requested iff the snapshot has the quit signal or Escape was just pressed |
| Ships.PresentsOfTiles | src/phi/mod.rs:148-156 | a tile row presents nothing |
| Ships.FramePresentsNothing | src/phi/mod.rs:326-357 | the draws of one frame step present nothing |
| Driver.Pace | src/phi/mod.rs:463-482 | the passes that make a frame are indices of the readings, in strictly increasing order |
| Driver.PaceBefore | src/phi/mod.rs:464-476 | the last-frame time is the reading of the last frame made, or the reading before the loop when there is none |
| Driver.PaceSpacing | src/phi/mod.rs:466-476 | frame passes are strictly increasing and in range; the first is at least one interval after the start; consecutive frames are at least one interval apart |
| Driver.PaceElapsed | src/phi/mod.rs:466-476 | `n` frames put the last-frame time at least `16 * n` ms after the start |
| Driver.PaceDecision | src/phi/mod.rs:466-476 | pass `i` makes a frame iff its reading is at least one interval after the last frame before it |
| Driver.FrameRateBound | src/phi/mod.rs:463-482 | readings that never go back make at most one frame per 16 ms they span |
| Driver.RunFrame | src/phi/mod.rs:476-480 | one paced pass pumps the pending events and returns quit iff a quit is requested; on quit the view and the log are unchanged; otherwise the player takes its step, the frame follows the movement, each layer scrolls, and the log grows by clear, back row, middle row, player copy, front row and then one present |
| Driver.Spawn | src/phi/mod.rs:463-482 | without a quit, the frame passes are those of the pacing rule; with a quit, the loop stops at the pass that asked for it, a frame pass of the rule; every frame but a quitting one is presented exactly once |

## Left out

- SDL initialisation, the window, the canvas, `event_pump()` and `timer()` in `spawn`, and texture loading: these are foreign calls. The sheet and layer sprites are parameters, the events of each pass are an input sequence, and the timer readings are a sequence of naturals.
- `Rc<RefCell<Texture>>` sharing and borrowing: a texture is an id.
- `Rectangle::to_sdl`, `Sprite::render` and the `CopySprite` impl only convert and forward to SDL. A copy is one record in the draw log that keeps the sprite and the destination rectangle.
- Draw colours and `timer.delay`: a clear is one log record, and a wait is a pass that makes no frame.
- IEEE-754 arithmetic: positions and sizes are reals. `1/√2` is its double value, and that branch is dead.
- The commented-out view switching (`ChangeView`, `ViewA`, `ViewB`) is disabled code.
- `ViewAction::None` is called `Continue`, so that it does not clash with the option type.
- Spawn: the loop runs over a finite sequence of readings and stops when they run out. The source loops forever.
- Spawn: `now - before` on `u32` is computed over integers, because the readings are required never to go back. A timer that wraps around after 49 days is not modelled.
- Spawn: does not state which events each pump saw. It states the frame passes and the presents; see RunFrame for the pump.
- Background.Render, ShipView.Render, TileRow: require a positive sprite size and a positive output height. With a zero tile width the source's tiling loop never ends.
- ShipView.Render: requires the player to fit the moveable region, where the source's `unwrap` would panic.
- ShipView.constructor: requires a sprite sheet large enough for the 3 × 3 atlas and layer sprites of positive size. With a smaller sheet the source's `unwrap` on a region panics; `SliceAtlas` models that case as `None`.
- Helper decomposition: these are pieces of single source functions, split for proof cost.
  - `Events.HandleEvent` is the body of the pump loop.
  - `Background.DrawRow` is the tiling loop.
  - `Steer`, `Ship.MoveBy`, `DrawUnderlay` and `DrawScene` are parts of `ShipView::render`.
  - `RunFrame` is the paced part of a loop pass.
- Ship.MoveBy: the clear happens after the whole move and clamp, whereas the source clears between the move and the clamp. The two touch different state.
- Three behaviours of the code a reader might not expect; the model follows the code.
  - A scroll position can equal the width, because the wrap test is strict.
  - The player moves a fixed 0.32 per frame whatever the elapsed time.
  - The diagonal test `key_up ^ key_up` is always false, so diagonal moves are never scaled.

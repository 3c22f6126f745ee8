/**
 * The frame driver of `spawn` in src/phi/mod.rs: a loop that reads the
 * timer, skips readings less than one interval after the last frame, and
 * otherwise pumps the events, renders the view and presents the output,
 * until the view asks to quit.
 *
 * The loop runs forever in the source; here it runs over a finite sequence
 * of timer readings, one per pass, and the events that arrive during each
 * pass are given alongside.
 */
module Driver {
  import opened Wrappers
  import opened EventModel
  import opened Geometry
  import opened Drawing
  import opened Backgrounds
  import opened Ships

  /** The pacing interval in milliseconds: the integer quotient `1000 / 60`, which is 16. */
  const INTERVAL: int := 1000 / 60

  /** The driver's pacing state: the tick of the last frame, and the passes that made a frame. */
  datatype Pacing = Pacing(before: int, frames: seq<nat>)

  /**
   * The pacing rule over the readings `ticks`, starting from the reading
   * `before0` taken before the loop: a reading at least one interval after
   * the last frame makes a frame and becomes the new last frame; any other
   * reading only waits. The passes that make a frame are listed in
   * increasing order, each one an index of `ticks`.
   */
  function Pace(before0: int, ticks: seq<int>): (p: Pacing)
    ensures |p.frames| <= |ticks|
    ensures forall j :: 0 <= j < |p.frames| ==> p.frames[j] < |ticks|
    ensures forall j, k :: 0 <= j < k < |p.frames| ==> p.frames[j] < p.frames[k]
  {
    if ticks == [] then Pacing(before0, [])
    else
      var p := Pace(before0, ticks[..|ticks| - 1]);
      var now := ticks[|ticks| - 1];
      if now - p.before < INTERVAL then p else Pacing(now, p.frames + [|ticks| - 1])
  }

  /** The pacing state's `before` is the reading of the last frame, or `before0` before any frame. */
  lemma {:induction false} PaceBefore(before0: int, ticks: seq<int>)
    ensures var p := Pace(before0, ticks);
      p.before == (if |p.frames| == 0 then before0 else ticks[p.frames[|p.frames| - 1]])
  {
    if ticks != [] {
      var init := ticks[..|ticks| - 1];
      PaceBefore(before0, init);
    }
  }

  /**
   * Each frame is at least one interval after the one before it, and the
   * first one at least one interval after `before0`.
   */
  lemma {:induction false} PaceSpacing(before0: int, ticks: seq<int>)
    ensures var f := Pace(before0, ticks).frames;
      (|f| > 0 ==> ticks[f[0]] - before0 >= INTERVAL) &&
      (forall j :: 0 < j < |f| ==> ticks[f[j]] - ticks[f[j - 1]] >= INTERVAL)
  {
    if ticks != [] {
      var init := ticks[..|ticks| - 1];
      PaceSpacing(before0, init);
      PaceBefore(before0, init);
      var p := Pace(before0, init);
      var f := p.frames;
      forall j | 0 <= j < |f|
        ensures ticks[f[j]] == init[f[j]]
      {
      }
      if ticks[|ticks| - 1] - p.before >= INTERVAL {
        var g := f + [|ticks| - 1];
        assert Pace(before0, ticks).frames == g;
        forall j | 0 < j < |g|
          ensures ticks[g[j]] - ticks[g[j - 1]] >= INTERVAL
        {
          if j == |f| {
            assert g[j - 1] == f[|f| - 1];
          } else {
            assert g[j] == f[j] && g[j - 1] == f[j - 1];
          }
        }
      } else {
        assert Pace(before0, ticks) == p;
      }
    }
  }

  /** `n` frames take at least `n` intervals: the last frame is `n` intervals after `before0` or later. */
  lemma {:induction false} PaceElapsed(before0: int, ticks: seq<int>)
    ensures Pace(before0, ticks).before - before0 >= |Pace(before0, ticks).frames| * 16
  {
    if ticks != [] {
      var init := ticks[..|ticks| - 1];
      PaceElapsed(before0, init);
    }
  }

  /**
   * Pass `i` makes a frame exactly when its reading is at least one
   * interval after the last frame made before it.
   */
  lemma {:induction false} PaceDecision(before0: int, ticks: seq<int>, i: nat)
    requires i < |ticks|
    ensures i in Pace(before0, ticks).frames <==> ticks[i] - Pace(before0, ticks[..i]).before >= INTERVAL
    decreases |ticks|
  {
    var init := ticks[..|ticks| - 1];
    if i == |ticks| - 1 {
      assert init == ticks[..i];
      PaceBefore(before0, init);
      var f := Pace(before0, init).frames;
      assert i !in f;
    } else {
      PaceDecision(before0, init, i);
      assert init[..i] == ticks[..i];
    }
  }

  /** The readings never go below `before0` and never go back. */
  predicate Monotone(before0: int, ticks: seq<int>)
  {
    (forall j :: 0 <= j < |ticks| ==> before0 <= ticks[j]) &&
    (forall j, k :: 0 <= j < k < |ticks| ==> ticks[j] <= ticks[k])
  }

  /** Readings that never go back make at most one frame per 16 ms of the time they span. */
  lemma FrameRateBound(before0: int, ticks: seq<int>)
    requires |ticks| > 0 && Monotone(before0, ticks)
    ensures |Pace(before0, ticks).frames| * 16 <= ticks[|ticks| - 1] - before0
  {
    PaceBefore(before0, ticks);
    PaceElapsed(before0, ticks);
  }

  /** Pace over one more reading: either it waits, or the new pass makes a frame at that reading. */
  lemma PaceSnoc(before0: int, ticks: seq<int>, i: nat)
    requires i < |ticks|
    ensures var p := Pace(before0, ticks[..i]);
      Pace(before0, ticks[..i + 1]) ==
        if ticks[i] - p.before < INTERVAL then p else Pacing(ticks[i], p.frames + [i])
  {
    assert ticks[..i + 1][..i] == ticks[..i];
  }

  /** The tail of a list of frames, when there is one. */
  function LastFrame(frames: seq<nat>): Option<nat>
  {
    if frames == [] then None else Some(frames[|frames| - 1])
  }

  /**
   * One paced pass of the `'running` loop: pump the pending events, render
   * the view and, unless it asks to quit, present the output.
   */
  method RunFrame(view: ShipView, events: Events, canvas: Canvas, pending: seq<RawEvent>, elapsed: real)
    returns (action: ViewAction)
    requires view.Valid() && view.Fits(canvas) && canvas.outH > 0
    modifies view.player, view.bgBack, view.bgMiddle, view.bgFront, events, canvas
    ensures view.Valid() && view.Fits(canvas)
    ensures events.State() == Pumped(old(events.HeldKeys()), pending)
    ensures action == Quit <==> QuitRequested(events.now)
    ensures action == Quit ==> unchanged(view.player, view.bgBack, view.bgMiddle, view.bgFront, canvas)
    ensures action == Continue ==>
      PlayerStep(old(view.player.rect), MovementOf(events), canvas.outW, canvas.outH) == Some(view.player.rect) &&
      view.player.current == SelectFrame(MovementOf(events).0, MovementOf(events).1)
    ensures action == Continue ==>
      view.bgBack.pos == ScrollStep(old(view.bgBack.pos), view.bgBack.vel * elapsed, view.bgBack.sprite.src.w) &&
      view.bgMiddle.pos == ScrollStep(old(view.bgMiddle.pos), view.bgMiddle.vel * elapsed, view.bgMiddle.sprite.src.w) &&
      view.bgFront.pos == ScrollStep(old(view.bgFront.pos), view.bgFront.vel * elapsed, view.bgFront.sprite.src.w)
    ensures action == Continue ==>
      canvas.log == old(canvas.log) + [DrawOp.Clear]
        + TileRow(view.bgBack.sprite, view.bgBack.pos, canvas.outW, canvas.outH)
        + TileRow(view.bgMiddle.sprite, view.bgMiddle.pos, canvas.outW, canvas.outH)
        + [Copy(AtlasCell(view.sheet, FrameIndex(view.player.current)), view.player.rect)]
        + TileRow(view.bgFront.sprite, view.bgFront.pos, canvas.outW, canvas.outH)
        + [DrawOp.Present]
    ensures Presents(canvas.log) == Presents(old(canvas.log)) + (if action == Quit then 0 else 1)
  {
    events.Pump(pending);
    action := view.Render(canvas, events, elapsed);
    if action == Continue {
      PresentsAppend(canvas.log, [DrawOp.Present]);
      canvas.Present();
    }
  }

  /**
   * The `'running` loop of `spawn`. Pass `i` reads `ticks[i]`; the events
   * `arrivals[i]` arrive during it and stay queued until the next pump.
   * It returns the passes that pumped and rendered and whether the loop
   * ended on a quit; every frame but a quitting one is presented once.
   */
  method Spawn(view: ShipView, events: Events, canvas: Canvas, before0: nat, ticks: seq<nat>,
               arrivals: seq<seq<RawEvent>>) returns (frames: seq<nat>, quit: bool)
    requires |arrivals| == |ticks| && Monotone(before0, ticks)
    requires view.Valid() && view.Fits(canvas) && canvas.outH > 0
    modifies view.player, view.bgBack, view.bgMiddle, view.bgFront, events, canvas
    ensures !quit ==> frames == Pace(before0, ticks).frames
    ensures quit ==> (LastFrame(frames).Some? && LastFrame(frames).value < |ticks| &&
                      frames == Pace(before0, ticks[..LastFrame(frames).value + 1]).frames)
    ensures quit ==> QuitRequested(events.now)
    ensures Presents(canvas.log) == Presents(old(canvas.log)) + |frames| - (if quit then 1 else 0)
  {
    var interval := 1000 / 60;
    var before: int := before0;
    var pending: seq<RawEvent> := [];
    frames, quit := [], false;
    var i := 0;
    while i < |ticks|
      invariant 0 <= i <= |ticks|
      invariant Pace(before0, ticks[..i]) == Pacing(before, frames)
      invariant view.Valid() && view.Fits(canvas)
      invariant Presents(canvas.log) == Presents(old(canvas.log)) + |frames|
    {
      var now := ticks[i];
      pending := pending + arrivals[i];
      var dt: int := now - before;
      var elapsed := dt as real / 1000.0;
      PaceSnoc(before0, ticks, i);
      if dt < interval {
        i := i + 1;
        continue;
      }
      before := now;
      var action := RunFrame(view, events, canvas, pending, elapsed);
      pending := [];
      frames := frames + [i];
      if action == Quit {
        quit := true;
        return;
      }
      i := i + 1;
    }
    assert ticks[..|ticks|] == ticks;
  }
}

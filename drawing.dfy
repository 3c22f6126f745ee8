/**
 * The render target, seen as the log of what is drawn on it: `clear`,
 * `copy_sprite` (a sprite's source rectangle copied to a destination
 * rectangle) and `present`.
 */
module Drawing {
  import opened Geometry
  import opened Sprites

  datatype DrawOp = Clear | Copy(sprite: Sprite, dest: Rectangle) | Present

  /** The number of frames presented in a log. */
  function Presents(log: seq<DrawOp>): nat
    decreases |log|
  {
    if log == [] then 0
    else Presents(log[..|log| - 1]) + (if log[|log| - 1].Present? then 1 else 0)
  }

  lemma {:induction false} PresentsAppend(a: seq<DrawOp>, b: seq<DrawOp>)
    ensures Presents(a + b) == Presents(a) + Presents(b)
    decreases |b|
  {
    if b == [] {
      assert a + b == a;
    } else {
      var init := b[..|b| - 1];
      PresentsAppend(a, init);
      assert (a + b)[..|a + b| - 1] == a + init;
      assert init + [b[|b| - 1]] == b;
      assert Presents(b) == Presents(init) + (if b[|b| - 1].Present? then 1 else 0);
    }
  }

  /** A log of copies only presents nothing. */
  lemma {:induction false} PresentsOfCopies(log: seq<DrawOp>)
    requires forall i :: 0 <= i < |log| ==> log[i].Copy?
    ensures Presents(log) == 0
    decreases |log|
  {
    if log != [] {
      PresentsOfCopies(log[..|log| - 1]);
    }
  }

  /** The window canvas: its output size and everything drawn so far. */
  class Canvas {
    const outW: nat
    const outH: nat
    var log: seq<DrawOp>

    constructor (w: nat, h: nat)
      ensures outW == w && outH == h && log == []
    {
      outW, outH := w, h;
      log := [];
    }

    method Clear()
      modifies this
      ensures log == old(log) + [DrawOp.Clear]
    {
      log := log + [DrawOp.Clear];
    }

    method CopySprite(sprite: Sprite, dest: Rectangle)
      modifies this
      ensures log == old(log) + [Copy(sprite, dest)]
    {
      log := log + [Copy(sprite, dest)];
    }

    method Present()
      modifies this
      ensures log == old(log) + [DrawOp.Present]
    {
      log := log + [DrawOp.Present];
    }
  }
}

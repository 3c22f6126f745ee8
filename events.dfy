/**
 * The input-event model that `events_macro!` (src/phi/events.rs) expands to
 * for the key list of src/phi/mod.rs:4-16: five navigation keys plus Space,
 * and the one-shot `quit` signal.  Each key has a held flag that persists
 * across pumps and an edge value that is reset at the start of every pump.
 */
module EventModel {
  import opened Wrappers

  /** The tracked keys (`key_escape`, `key_up`, ..., `key_space`). */
  datatype Key = Escape | Up | Down | Left | Right | Space

  const AllKeys: set<Key> := {Escape, Up, Down, Left, Right, Space}

  lemma EveryKeyTracked(k: Key)
    ensures k in AllKeys
  {
  }

  /** A keycode as delivered by the input layer: a tracked key or any other key. */
  datatype Keycode = Tracked(key: Key) | Untracked(code: int)

  /** The raw events that `poll_iter` yields, reduced to what the match distinguishes. */
  datatype RawEvent =
    | KeyDown(keycode: Option<Keycode>)
    | KeyUp(keycode: Option<Keycode>)
    | QuitSignal
    | Other

  /** The tracked key a key event is about, if any. */
  function Target(e: RawEvent): Option<Key>
  {
    match e
    case KeyDown(Some(Tracked(k))) => Some(k)
    case KeyUp(Some(Tracked(k))) => Some(k)
    case _ => None
  }

  /**
   * `ImmediateEvents`: per key `Some(true)` = just pressed, `Some(false)` =
   * just released, `None` = no change during this pump; `quit` is one-shot.
   */
  datatype ImmediateEvents = ImmediateEvents(
    keyEscape: Option<bool>, keyUp: Option<bool>, keyDown: Option<bool>,
    keyLeft: Option<bool>, keyRight: Option<bool>, keySpace: Option<bool>,
    quit: bool)

  /** The edge field of key `k`. */
  function Edge(now: ImmediateEvents, k: Key): Option<bool>
  {
    match k
    case Escape => now.keyEscape
    case Up => now.keyUp
    case Down => now.keyDown
    case Left => now.keyLeft
    case Right => now.keyRight
    case Space => now.keySpace
  }

  /** The snapshot with the edge field of `k` set to `e`. */
  function WithEdge(now: ImmediateEvents, k: Key, e: Option<bool>): (r: ImmediateEvents)
    ensures Edge(r, k) == e
    ensures forall j :: j != k ==> Edge(r, j) == Edge(now, j)
    ensures r.quit == now.quit
  {
    match k
    case Escape => now.(keyEscape := e)
    case Up => now.(keyUp := e)
    case Down => now.(keyDown := e)
    case Left => now.(keyLeft := e)
    case Right => now.(keyRight := e)
    case Space => now.(keySpace := e)
  }

  /** `ImmediateEvents::new`: no edge on any key and no quit signal. */
  function FreshSnapshot(): (r: ImmediateEvents)
    ensures forall k :: Edge(r, k) == None
    ensures !r.quit
  {
    ImmediateEvents(None, None, None, None, None, None, false)
  }

  /** The abstract state a pump works on: the snapshot and the set of held keys. */
  datatype PumpState = PumpState(now: ImmediateEvents, held: set<Key>)

  /** One arm of the match in `Events::pump`. */
  function Handle(s: PumpState, e: RawEvent): (r: PumpState)
    // a key-down holds the key, and is an edge only if the key was not held
    ensures e.KeyDown? && Target(e).Some? ==> Target(e).value in r.held
    ensures e.KeyDown? && Target(e).Some? && Target(e).value !in s.held ==>
      Edge(r.now, Target(e).value) == Some(true)
    ensures e.KeyDown? && Target(e).Some? && Target(e).value in s.held ==>
      Edge(r.now, Target(e).value) == Edge(s.now, Target(e).value)
    // a key-up always releases the key and is always an edge
    ensures e.KeyUp? && Target(e).Some? ==>
      Target(e).value !in r.held && Edge(r.now, Target(e).value) == Some(false)
    // only the quit signal touches `quit`
    ensures r.now.quit == (s.now.quit || e.QuitSignal?)
    // untracked keys, key events without a keycode and other events change nothing
    ensures Target(e).None? && !e.QuitSignal? ==> r == s
    // every key the event is not about keeps its edge and held flag
    ensures forall k :: Target(e) != Some(k) ==>
      Edge(r.now, k) == Edge(s.now, k) && (k in r.held <==> k in s.held)
  {
    match e
    case KeyDown(Some(Tracked(k))) =>
      PumpState(if k in s.held then s.now else WithEdge(s.now, k, Some(true)), s.held + {k})
    case KeyUp(Some(Tracked(k))) =>
      PumpState(WithEdge(s.now, k, Some(false)), s.held - {k})
    case QuitSignal =>
      PumpState(s.now.(quit := true), s.held)
    case _ => s
  }

  /** Handling the events of `es` in order, starting from `s`. */
  function Drain(s: PumpState, es: seq<RawEvent>): PumpState
    decreases |es|
  {
    if es == [] then s else Handle(Drain(s, es[..|es| - 1]), es[|es| - 1])
  }

  /** What a pump over `es` leaves behind, given the held keys before it. */
  function Pumped(held: set<Key>, es: seq<RawEvent>): PumpState
  {
    Drain(PumpState(FreshSnapshot(), held), es)
  }

  lemma DrainSnoc(s: PumpState, es: seq<RawEvent>, e: RawEvent)
    ensures Drain(s, es + [e]) == Handle(Drain(s, es), e)
  {
    assert (es + [e])[..|es|] == es;
  }

  /**
   * After a pump, an edge agrees with the held flag (just pressed keys are
   * held, just released keys are not), and a key without an edge has kept
   * the held flag it had before the pump.
   */
  lemma {:induction false} EdgeAgreesWithHeld(held0: set<Key>, es: seq<RawEvent>, k: Key)
    ensures Edge(Pumped(held0, es).now, k) == Some(true) ==> k in Pumped(held0, es).held
    ensures Edge(Pumped(held0, es).now, k) == Some(false) ==> k !in Pumped(held0, es).held
    ensures Edge(Pumped(held0, es).now, k) == None ==>
      (k in Pumped(held0, es).held <==> k in held0)
    decreases |es|
  {
    if es != [] {
      EdgeAgreesWithHeld(held0, es[..|es| - 1], k);
    }
  }

  /** An edge always has a cause in the batch: a key-down for a press, a key-up for a release. */
  lemma {:induction false} EdgeHasCause(held0: set<Key>, es: seq<RawEvent>, k: Key)
    ensures Edge(Pumped(held0, es).now, k) == Some(true) ==>
      exists i :: 0 <= i < |es| && es[i] == KeyDown(Some(Tracked(k)))
    ensures Edge(Pumped(held0, es).now, k) == Some(false) ==>
      exists i :: 0 <= i < |es| && es[i] == KeyUp(Some(Tracked(k)))
    decreases |es|
  {
    if es != [] {
      var init := es[..|es| - 1];
      EdgeHasCause(held0, init, k);
      var e := es[|es| - 1];
      if Target(e) != Some(k) {
        if Edge(Pumped(held0, es).now, k) == Some(true) {
          var i :| 0 <= i < |init| && init[i] == KeyDown(Some(Tracked(k)));
          assert es[i] == init[i];
        }
        if Edge(Pumped(held0, es).now, k) == Some(false) {
          var i :| 0 <= i < |init| && init[i] == KeyUp(Some(Tracked(k)));
          assert es[i] == init[i];
        }
      } else if e.KeyDown? {
        assert e == KeyDown(Some(Tracked(k)));
        if Edge(Pumped(held0, es).now, k) == Some(true) && Edge(Pumped(held0, init).now, k) == Some(true) {
          var i :| 0 <= i < |init| && init[i] == KeyDown(Some(Tracked(k)));
          assert es[i] == init[i];
        }
        if Edge(Pumped(held0, es).now, k) == Some(false) {
          var i :| 0 <= i < |init| && init[i] == KeyUp(Some(Tracked(k)));
          assert es[i] == init[i];
        }
      } else {
        assert e == KeyUp(Some(Tracked(k)));
      }
    }
  }

  /** `now.quit` is set after a pump exactly when the batch held a quit signal. */
  lemma {:induction false} QuitIffSignal(held0: set<Key>, es: seq<RawEvent>)
    ensures Pumped(held0, es).now.quit <==> QuitSignal in es
    decreases |es|
  {
    if es != [] {
      var init := es[..|es| - 1];
      QuitIffSignal(held0, init);
      assert es == init + [es[|es| - 1]];
    }
  }

  /** Events that no arm matches, kept out of a batch. */
  function Relevant(es: seq<RawEvent>): (r: seq<RawEvent>)
    ensures forall i :: 0 <= i < |r| ==> r[i].QuitSignal? || Target(r[i]).Some?
    decreases |es|
  {
    if es == [] then []
    else
      var e := es[|es| - 1];
      Relevant(es[..|es| - 1]) + (if e.QuitSignal? || Target(e).Some? then [e] else [])
  }

  /** Dropping the events that no arm matches does not change what a pump computes. */
  lemma {:induction false} IgnoredEventsIrrelevant(s: PumpState, es: seq<RawEvent>)
    ensures Drain(s, Relevant(es)) == Drain(s, es)
    decreases |es|
  {
    if es != [] {
      var init, e := es[..|es| - 1], es[|es| - 1];
      IgnoredEventsIrrelevant(s, init);
      if e.QuitSignal? || Target(e).Some? {
        DrainSnoc(s, Relevant(init), e);
      } else {
        assert Relevant(es) == Relevant(init);
      }
    }
  }

  /**
   * A press of a key that was not held is seen as an edge by the pump that
   * drains it, and a following pump with no events reports no edge while the
   * key stays held.
   */
  lemma PressThenIdle(held0: set<Key>, k: Key)
    requires k !in held0
    ensures Edge(Pumped(held0, [KeyDown(Some(Tracked(k)))]).now, k) == Some(true)
    ensures k in Pumped(held0, [KeyDown(Some(Tracked(k)))]).held
    ensures Edge(Pumped(Pumped(held0, [KeyDown(Some(Tracked(k)))]).held, []).now, k) == None
    ensures k in Pumped(Pumped(held0, [KeyDown(Some(Tracked(k)))]).held, []).held
  {
    DrainSnoc(PumpState(FreshSnapshot(), held0), [], KeyDown(Some(Tracked(k))));
  }

  /** `Events`: the held flag of every tracked key and the snapshot of the last pump. */
  class Events {
    var now: ImmediateEvents
    var keyEscape: bool
    var keyUp: bool
    var keyDown: bool
    var keyLeft: bool
    var keyRight: bool
    var keySpace: bool

    /** The held flag of key `k`. */
    function Held(k: Key): bool
      reads this
    {
      match k
      case Escape => keyEscape
      case Up => keyUp
      case Down => keyDown
      case Left => keyLeft
      case Right => keyRight
      case Space => keySpace
    }

    function HeldKeys(): set<Key>
      reads this
    {
      set k | k in AllKeys && Held(k)
    }

    function State(): PumpState
      reads this
    {
      PumpState(now, HeldKeys())
    }

    /** `Events::new`: a fresh snapshot and no key held. */
    constructor ()
      ensures now == FreshSnapshot()
      ensures HeldKeys() == {}
    {
      now := FreshSnapshot();
      keyEscape, keyUp, keyDown, keyLeft, keyRight, keySpace := false, false, false, false, false, false;
    }

    /** The assignment `self.<key> = b` of the macro expansion. */
    method SetHeld(k: Key, b: bool)
      modifies this
      ensures now == old(now)
      ensures HeldKeys() == if b then old(HeldKeys()) + {k} else old(HeldKeys()) - {k}
    {
      match k
      case Escape => keyEscape := b;
      case Up => keyUp := b;
      case Down => keyDown := b;
      case Left => keyLeft := b;
      case Right => keyRight := b;
      case Space => keySpace := b;
    }

    /** One pass of the body of the loop in `Events::pump`: handle event `e`. */
    method HandleEvent(e: RawEvent)
      modifies this
      ensures State() == Handle(old(State()), e)
    {
      match e
      case KeyDown(Some(Tracked(k))) =>
        EveryKeyTracked(k);
        if !Held(k) {
          now := WithEdge(now, k, Some(true));
        }
        SetHeld(k, true);
      case KeyUp(Some(Tracked(k))) =>
        now := WithEdge(now, k, Some(false));
        SetHeld(k, false);
      case QuitSignal =>
        now := now.(quit := true);
      case _ =>
    }

    /** `Events::pump`: reset the snapshot, then handle the pending events in order. */
    method Pump(pending: seq<RawEvent>)
      modifies this
      ensures State() == Pumped(old(HeldKeys()), pending)
      ensures pending == [] ==> now == FreshSnapshot() && HeldKeys() == old(HeldKeys())
    {
      now := FreshSnapshot();
      for i := 0 to |pending|
        invariant State() == Drain(PumpState(FreshSnapshot(), old(HeldKeys())), pending[..i])
      {
        DrainSnoc(PumpState(FreshSnapshot(), old(HeldKeys())), pending[..i], pending[i]);
        assert pending[..i + 1] == pending[..i] + [pending[i]];
        HandleEvent(pending[i]);
      }
      assert pending[..|pending|] == pending;
    }
  }
}

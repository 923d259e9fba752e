/**
 * Gestures and their classification into ring-slot operations
 * (`Gesture::try_get_slot_operation`, server/src/main.rs:699-771).
 */
module Gestures {
  import opened Wrappers

  datatype Direction = Left | Right | Up | Down

  datatype GestureShape = Swipe(directions: seq<Direction>) | Tap | Touch

  /**
   * A gesture as the server receives it. The start coordinates are the integer
   * percentages the wire carries (0 to 255), not the floats the source divides them into.
   */
  datatype Gesture = Gesture(fingerCount: int, modifierCount: int, startX: int, startY: int, shape: GestureShape)

  /** What a swipe does to the ring bound to its slot. */
  datatype SlotOperation = Forward | Backward | PreviousAction | NextAction | DefaultAction

  const NotASlotGesture := "Not a slot gesture"

  predicate IsHorizontal(d: Direction) {
    d == Left || d == Right
  }

  /**
   * The screen band a start coordinate falls in. On the wire's percentages the source's
   * `< 0.2` and `<= 0.8` comparisons become `< 20` and `<= 80`.
   */
  function Band(p: int): char {
    if p < 20 then '1' else if p <= 80 then '2' else '3'
  }

  /** The slot name: one finger adds the band of the coordinate across the swipe axis. */
  function SlotName(g: Gesture, initial: Direction): string {
    if IsHorizontal(initial) then
      if g.fingerCount == 1 then [Band(g.startY), 'h'] else "h"
    else
      if g.fingerCount == 1 then [Band(g.startX), 'v'] else "v"
  }

  /** `Gesture::try_get_slot_operation`. */
  function TryGetSlotOperation(g: Gesture): Result<(string, SlotOperation), string> {
    match g.shape
    case Swipe(directions) =>
      if !(1 <= |directions| <= 3) then Failure(NotASlotGesture)
      else
        var initial := directions[0];
        var slot := SlotName(g, initial);
        if |directions| == 1 then
          if initial == Left || initial == Up then Success((slot, Backward))
          else Success((slot, Forward))
        else if |directions| == 2 then
          if directions == [Left, Right] || directions == [Up, Down] then Success((slot, PreviousAction))
          else if directions == [Right, Left] || directions == [Down, Up] then Success((slot, NextAction))
          else Failure(NotASlotGesture)
        else
          if directions == [Left, Right, Left] || directions == [Right, Left, Right]
             || directions == [Up, Down, Up] || directions == [Down, Up, Down]
          then Success((slot, DefaultAction))
          else Failure(NotASlotGesture)
    case Tap => Failure(NotASlotGesture)
    case Touch => Failure(NotASlotGesture)
  }

  // ---------------------------------------------------------------------------------------
  // An independent description: strokes that go back and forth along one axis
  // ---------------------------------------------------------------------------------------

  function Opposite(d: Direction): Direction {
    match d
    case Left => Right
    case Right => Left
    case Up => Down
    case Down => Up
  }

  /** Left and Up are the backward directions of their axes. */
  predicate IsBackwardDirection(d: Direction) {
    d == Left || d == Up
  }

  /**
   * One stroke moves one step (backward for Left/Up); a stroke and its return switch to the
   * previous or next action, according to the first stroke; there and back and there again
   * restores the default; every other swipe is not a slot gesture.
   */
  function ReferenceOperation(directions: seq<Direction>): Option<SlotOperation> {
    if |directions| == 1 then
      Some(if IsBackwardDirection(directions[0]) then Backward else Forward)
    else if |directions| == 2 && directions[1] == Opposite(directions[0]) then
      Some(if IsBackwardDirection(directions[0]) then PreviousAction else NextAction)
    else if |directions| == 3 && directions[1] == Opposite(directions[0]) && directions[2] == directions[0] then
      Some(DefaultAction)
    else None
  }

  lemma TwoStrokes(ds: seq<Direction>)
    requires |ds| == 2
    ensures (ds == [Left, Right] || ds == [Up, Down]) <==> ds[1] == Opposite(ds[0]) && IsBackwardDirection(ds[0])
    ensures (ds == [Right, Left] || ds == [Down, Up]) <==> ds[1] == Opposite(ds[0]) && !IsBackwardDirection(ds[0])
  {
    assert ds == [ds[0], ds[1]];
  }

  lemma ThreeStrokes(ds: seq<Direction>)
    requires |ds| == 3
    ensures (ds == [Left, Right, Left] || ds == [Right, Left, Right] || ds == [Up, Down, Up] || ds == [Down, Up, Down])
            <==> ds[1] == Opposite(ds[0]) && ds[2] == ds[0]
  {
    assert ds == [ds[0], ds[1], ds[2]];
  }

  /**
   * The classifier agrees with the reference: it succeeds exactly on swipes the reference
   * accepts, with the reference's operation and the slot named by the first direction;
   * otherwise it fails with "Not a slot gesture".
   */
  lemma SlotOperationMeaning(g: Gesture)
    ensures TryGetSlotOperation(g).Success? <==> g.shape.Swipe? && ReferenceOperation(g.shape.directions).Some?
    ensures TryGetSlotOperation(g).Success? ==>
      TryGetSlotOperation(g).value == (SlotName(g, g.shape.directions[0]), ReferenceOperation(g.shape.directions).value)
    ensures TryGetSlotOperation(g).Failure? ==> TryGetSlotOperation(g).error == NotASlotGesture
  {
    if g.shape.Swipe? {
      var ds := g.shape.directions;
      if |ds| == 2 {
        TwoStrokes(ds);
      } else if |ds| == 3 {
        ThreeStrokes(ds);
      }
    }
  }

  /** Only swipes of one to three strokes are slot gestures. */
  lemma SlotGesturesAreShortSwipes(g: Gesture)
    requires TryGetSlotOperation(g).Success?
    ensures g.shape.Swipe? && 1 <= |g.shape.directions| <= 3
  {
  }

  /**
   * The slot names the axis of the first stroke ('h' or 'v'); with one finger it is
   * prefixed by the band of the other coordinate, with more fingers it is the axis alone.
   */
  lemma SlotNameShape(g: Gesture, initial: Direction)
    ensures var slot := SlotName(g, initial);
      && slot[|slot| - 1] == (if IsHorizontal(initial) then 'h' else 'v')
      && (|slot| == 2 <==> g.fingerCount == 1)
      && (|slot| == 1 <==> g.fingerCount != 1)
      && (g.fingerCount == 1 ==> slot[0] == Band(if IsHorizontal(initial) then g.startY else g.startX))
  {
  }

  /** The bands split the percentages at 20 and 80, both ends included in the middle band. */
  lemma BandBounds(p: int)
    ensures Band(p) == '1' <==> p < 20
    ensures Band(p) == '2' <==> 20 <= p <= 80
    ensures Band(p) == '3' <==> p > 80
  {
  }

  /** A one-finger left-right swipe near the top of the screen is "previous action" on slot 1h. */
  lemma SlotExample()
    ensures TryGetSlotOperation(Gesture(1, 0, 50, 10, Swipe([Left, Right]))) == Success(("1h", PreviousAction))
    ensures TryGetSlotOperation(Gesture(2, 0, 90, 50, Swipe([Down, Up, Down]))) == Success(("v", DefaultAction))
    ensures TryGetSlotOperation(Gesture(1, 0, 50, 50, Swipe([Left, Up]))) == Failure(NotASlotGesture)
  {
  }
}

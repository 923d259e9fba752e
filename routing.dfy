/**
 * The event router on values: gestures go to command bindings, else to the slot bindings
 * of the first scheme; braille combinations go through the braille schemes
 * (`Executor`, server/src/main.rs:1123-1208).
 *
 * The router's own effects are stated as values: the `execute` calls it makes on the key
 * executor, in order (the key executor's ghost `calls`), and the messages it sends to the
 * client. What a run of calls does to the key executor is `Replayed`.
 */
module Routing {
  import opened Wrappers
  import opened Operations
  import opened Gestures
  import opened Config
  import opened Slots
  import opened Linking
  import opened KeyExecution
  import opened BrailleMappings
  import opened BrailleSchemes

  // ---------------------------------------------------------------------------------------
  // Calls on the key executor
  // ---------------------------------------------------------------------------------------

  /** The calls made on the key executor and the messages sent to the client. */
  datatype Effects = Effects(calls: seq<Call>, feedback: seq<string>)

  // ---------------------------------------------------------------------------------------
  // Gestures, on values
  // ---------------------------------------------------------------------------------------

  /** What the router sees of a slot binding, and all it can change. */
  datatype SlotView = SlotView(slot: string, fingerCount: int, modifierCount: int,
                               defaultPosition: nat, position: nat, ring: Ring)

  predicate ViewValid(v: SlotView) {
    |v.ring.actionInstances| == 0 || (v.position < |v.ring.actionInstances| && v.defaultPosition < |v.ring.actionInstances|)
  }

  function Active(v: SlotView): Option<Action>
    requires ViewValid(v)
  {
    if |v.ring.actionInstances| == 0 then None else Some(v.ring.actionInstances[v.position])
  }

  predicate BindingMatches(v: SlotView, slot: string, g: Gesture) {
    v.slot == slot && v.fingerCount == g.fingerCount && v.modifierCount == g.modifierCount
  }

  /** The cursor move a slot operation makes; shortcuts move nothing. */
  function Moved(v: SlotView, op: SlotOperation): (r: SlotView)
    requires ViewValid(v)
    ensures ViewValid(r)
    ensures r.(position := v.position) == v
  {
    var n := |v.ring.actionInstances|;
    match op
    case Forward => v
    case Backward => v
    case PreviousAction => v.(position := PreviousPosition(v.position, n))
    case NextAction => v.(position := NextPosition(v.position, n))
    case DefaultAction => v.(position := v.defaultPosition)
  }

  /** The call a forward or backward swipe makes for the binding's active action, if its ring has one. */
  function SwipeCall(v: SlotView, op: SlotOperation): seq<Call>
    requires ViewValid(v)
  {
    match Active(v)
    case None => []
    case Some(a) =>
      if op == Forward then [Call(a.id, a.forwardOperation, a.stickyCtrl, a.stickyShift, a.stickyAlt)]
      else if op == Backward then [Call(a.id, a.backwardOperation, a.stickyCtrl, a.stickyShift, a.stickyAlt)]
      else []
  }

  /** The name a cursor move sends: the new active action's, if its ring has one. */
  function Announcement(v: SlotView, op: SlotOperation): seq<string>
    requires ViewValid(v)
  {
    if op == Forward || op == Backward then []
    else match Active(Moved(v, op))
      case None => []
      case Some(a) => [a.name]
  }

  /**
   * One matching slot binding handling a slot operation: a swipe makes the active action's
   * call and a cursor move sends the new active action's name.
   */
  function SlotEffect(v: SlotView, op: SlotOperation, e: Effects): (r: (SlotView, Effects))
    requires ViewValid(v)
    ensures ViewValid(r.0) && r.0.(position := v.position) == v
    ensures |r.1.calls| + |r.1.feedback| <= |e.calls| + |e.feedback| + 1
  {
    (Moved(v, op), Effects(e.calls + SwipeCall(v, op), e.feedback + Announcement(v, op)))
  }

  predicate AllValid(vs: seq<SlotView>) {
    forall i :: 0 <= i < |vs| ==> ViewValid(vs[i])
  }

  /** One binding of the slot loop: a matching binding takes the operation, any other is skipped. */
  function RouteOne(v: SlotView, slot: string, g: Gesture, op: SlotOperation, e: Effects): (r: (SlotView, Effects))
    requires ViewValid(v)
    ensures r.0.(position := v.position) == v
  {
    if BindingMatches(v, slot, g) then SlotEffect(v, op, e) else (v, e)
  }

  /** The slot loop of `process_gesture`: every matching binding, in order, handles the operation. */
  function RouteSlots(vs: seq<SlotView>, slot: string, g: Gesture, op: SlotOperation, e: Effects): (r: (seq<SlotView>, Effects))
    requires AllValid(vs)
    ensures |r.0| == |vs|
  {
    if vs == [] then ([], e)
    else
      var (pre, e1) := RouteSlots(vs[..|vs| - 1], slot, g, op, e);
      var (last, e2) := RouteOne(vs[|vs| - 1], slot, g, op, e1);
      (pre + [last], e2)
  }

  /** The calls a slot operation makes: one per matching binding, in binding order. */
  function SwipeCalls(vs: seq<SlotView>, slot: string, g: Gesture, op: SlotOperation): seq<Call>
    requires AllValid(vs)
  {
    if vs == [] then []
    else SwipeCalls(vs[..|vs| - 1], slot, g, op)
         + if BindingMatches(vs[|vs| - 1], slot, g) then SwipeCall(vs[|vs| - 1], op) else []
  }

  /** The names a slot operation sends: one per matching binding, in binding order. */
  function Announcements(vs: seq<SlotView>, slot: string, g: Gesture, op: SlotOperation): seq<string>
    requires AllValid(vs)
  {
    if vs == [] then []
    else Announcements(vs[..|vs| - 1], slot, g, op)
         + if BindingMatches(vs[|vs| - 1], slot, g) then Announcement(vs[|vs| - 1], op) else []
  }

  predicate CommandMatches(b: CommandBinding, g: Gesture) {
    b.gestureShapeInstance == g.shape && b.fingerCount == g.fingerCount && b.modifierCount == g.modifierCount
  }

  /** The first command binding the gesture matches. */
  function FirstCommand(bs: seq<CommandBinding>, g: Gesture): (r: Option<nat>)
    ensures r.Some? ==> r.value < |bs| && CommandMatches(bs[r.value], g) && forall j :: 0 <= j < r.value ==> !CommandMatches(bs[j], g)
    ensures r.None? <==> forall j :: 0 <= j < |bs| ==> !CommandMatches(bs[j], g)
    decreases |bs|
  {
    if bs == [] then None
    else if CommandMatches(bs[0], g) then Some(0)
    else match FirstCommand(bs[1..], g)
      case None => None
      case Some(k) => Some(k + 1)
  }

  lemma FirstCommandAt(bs: seq<CommandBinding>, g: Gesture, k: nat)
    requires k < |bs| && CommandMatches(bs[k], g) && forall j :: 0 <= j < k ==> !CommandMatches(bs[j], g)
    ensures FirstCommand(bs, g) == Some(k)
  {
  }

  function CommandCall(c: Command): Call {
    Call(c.id, c.operation, c.stickyCtrl, c.stickyShift, c.stickyAlt)
  }

  /** `process_gesture` on values: the first matching command binding, else the slot operation. */
  function Gestured(commands: seq<CommandBinding>, vs: seq<SlotView>, g: Gesture, e: Effects): (r: (seq<SlotView>, Effects))
    requires AllValid(vs)
    ensures |r.0| == |vs|
  {
    match FirstCommand(commands, g)
    case Some(i) => (vs, e.(calls := e.calls + [CommandCall(commands[i].commandInstance)]))
    case None =>
      match TryGetSlotOperation(g)
      case Failure(_) => (vs, e)
      case Success((slot, op)) => RouteSlots(vs, slot, g, op, e)
  }

  // ---------------------------------------------------------------------------------------
  // What routing a gesture promises
  // ---------------------------------------------------------------------------------------

  /**
   * There is no early exit in the slot loop: every binding for the slot, finger count and
   * modifier count makes the move, and every other binding is left as it was.
   */
  lemma {:induction false} RouteSlotsMoves(vs: seq<SlotView>, slot: string, g: Gesture, op: SlotOperation, e: Effects)
    requires AllValid(vs)
    ensures var r := RouteSlots(vs, slot, g, op, e).0;
      && AllValid(r)
      && forall i :: 0 <= i < |vs| ==> r[i] == (if BindingMatches(vs[i], slot, g) then Moved(vs[i], op) else vs[i])
  {
    if vs != [] {
      RouteSlotsMoves(vs[..|vs| - 1], slot, g, op, e);
    }
  }

  /**
   * The slot loop makes one call per matching binding for a swipe and sends one name per
   * matching binding for a cursor move, in binding order, after what came before.
   */
  lemma {:induction false} RouteSlotsEffects(vs: seq<SlotView>, slot: string, g: Gesture, op: SlotOperation, e: Effects)
    requires AllValid(vs)
    ensures RouteSlots(vs, slot, g, op, e).1
         == Effects(e.calls + SwipeCalls(vs, slot, g, op), e.feedback + Announcements(vs, slot, g, op))
  {
    if vs != [] {
      var init := vs[..|vs| - 1];
      var last := vs[|vs| - 1];
      RouteSlotsEffects(init, slot, g, op, e);
      var e1 := RouteSlots(init, slot, g, op, e).1;
      if BindingMatches(last, slot, g) {
        assert e1.calls + SwipeCall(last, op) == e.calls + SwipeCalls(vs, slot, g, op);
        assert e1.feedback + Announcement(last, op) == e.feedback + Announcements(vs, slot, g, op);
      } else {
        assert SwipeCalls(vs, slot, g, op) == SwipeCalls(init, slot, g, op) + [];
        assert Announcements(vs, slot, g, op) == Announcements(init, slot, g, op) + [];
      }
    }
  }

  /** One more binding of the slot loop adds that binding's own call and name. */
  lemma PrefixStep(vs: seq<SlotView>, slot: string, g: Gesture, op: SlotOperation, k: nat)
    requires AllValid(vs) && k < |vs|
    ensures SwipeCalls(vs[..k + 1], slot, g, op)
         == SwipeCalls(vs[..k], slot, g, op) + if BindingMatches(vs[k], slot, g) then SwipeCall(vs[k], op) else []
    ensures Announcements(vs[..k + 1], slot, g, op)
         == Announcements(vs[..k], slot, g, op) + if BindingMatches(vs[k], slot, g) then Announcement(vs[k], op) else []
  {
    assert vs[..k + 1][..k] == vs[..k];
  }

  /** One more binding of the slot loop takes the key executor through that binding's calls. */
  lemma ReplayedPrefixStep(start: ExecState, s: ExecState, s': ExecState, vs: seq<SlotView>, slot: string, g: Gesture,
                           op: SlotOperation, k: nat)
    requires AllValid(vs) && k < |vs|
    requires s == Replayed(start, SwipeCalls(vs[..k], slot, g, op))
    requires s' == if BindingMatches(vs[k], slot, g) then Replayed(s, SwipeCall(vs[k], op)) else s
    ensures s' == Replayed(start, SwipeCalls(vs[..k + 1], slot, g, op))
  {
    PrefixStep(vs, slot, g, op, k);
    if BindingMatches(vs[k], slot, g) {
      ReplayedConcat(start, SwipeCalls(vs[..k], slot, g, op), SwipeCall(vs[k], op));
    } else {
      assert SwipeCalls(vs[..k], slot, g, op) + [] == SwipeCalls(vs[..k], slot, g, op);
    }
  }

  /** A swipe moves no cursor and sends nothing. */
  lemma {:induction false} SwipeKeepsCursors(vs: seq<SlotView>, slot: string, g: Gesture, op: SlotOperation, e: Effects)
    requires AllValid(vs) && (op == Forward || op == Backward)
    ensures RouteSlots(vs, slot, g, op, e).0 == vs
    ensures Announcements(vs, slot, g, op) == []
  {
    if vs != [] {
      SwipeKeepsCursors(vs[..|vs| - 1], slot, g, op, e);
      assert vs[..|vs| - 1] + [vs[|vs| - 1]] == vs;
    }
  }

  /** A cursor move never reaches the key executor. */
  lemma {:induction false} MoveCallsNothing(vs: seq<SlotView>, slot: string, g: Gesture, op: SlotOperation)
    requires AllValid(vs) && op != Forward && op != Backward
    ensures SwipeCalls(vs, slot, g, op) == []
  {
    if vs != [] {
      MoveCallsNothing(vs[..|vs| - 1], slot, g, op);
    }
  }

  /**
   * A gesture a command binding matches makes that command's call and nothing else; only a
   * gesture no command binding matches reaches the slot bindings.
   */
  lemma CommandsFirst(commands: seq<CommandBinding>, vs: seq<SlotView>, g: Gesture, e: Effects, i: nat)
    requires AllValid(vs) && i < |commands| && CommandMatches(commands[i], g)
    ensures var k := FirstCommand(commands, g).value;
      && k <= i
      && Gestured(commands, vs, g, e) == (vs, e.(calls := e.calls + [CommandCall(commands[k].commandInstance)]))
  {
  }

  /** A gesture that neither a command binding nor the slot classification accepts does nothing. */
  lemma UnroutedIgnored(commands: seq<CommandBinding>, vs: seq<SlotView>, g: Gesture, e: Effects)
    requires AllValid(vs) && TryGetSlotOperation(g).Failure?
    requires forall j :: 0 <= j < |commands| ==> !CommandMatches(commands[j], g)
    ensures Gestured(commands, vs, g, e) == (vs, e)
  {
  }

  // ---------------------------------------------------------------------------------------
  // Braille, on values
  // ---------------------------------------------------------------------------------------

  /** The operation the top layer gives a combination. */
  function BrailleOperation(stack: seq<Layer>, mappings: map<string, BrailleMapping>, combination: nat): Option<Operation>
    requires ValidStack(stack, mappings) && combination < TableSize
  {
    LayersValid(stack, mappings);
    Lookup(stack, combination)
  }

  /** The message a switch sends: its error, or the name of the mapping now on top. */
  function SwitchMessage(stack: seq<Layer>, result: Outcome<string>): string
    requires |stack| >= 1
  {
    match result
    case Fail(m) => m
    case Pass => stack[|stack| - 1].mapping.name
  }

  /**
   * `process_braille` on the first braille scheme's stack: the lookup consumes a temporary
   * layer; a switch goes to the stack and sends its error or the new mapping's name; any
   * other operation is executed for the object id -(combination), with nothing sticky.
   */
  function BrailleRouted(stack: seq<Layer>, mappings: map<string, BrailleMapping>, combination: nat, e: Effects): (r: (seq<Layer>, Effects))
    requires ValidStack(stack, mappings) && combination < TableSize
  {
    ConsumedKeepsValid(stack, mappings);
    var consumed := Consumed(stack);
    match BrailleOperation(stack, mappings, combination)
    case None => (consumed, e)
    case Some(op) =>
      if op.SchemeSwitch? then
        var (switched, res) := Switched(consumed, mappings, op.switchType);
        (switched, e.(feedback := e.feedback + [SwitchMessage(switched, res)]))
      else (consumed, e.(calls := e.calls + [Call(-(combination as int), op, false, false, false)]))
  }

  /**
   * A switch never reaches the key executor and always sends one message; any other
   * combination sends nothing, makes at most one call, and leaves the stack as the lookup
   * left it.
   */
  lemma BrailleRoutedMeaning(stack: seq<Layer>, mappings: map<string, BrailleMapping>, combination: nat, e: Effects)
    requires ValidStack(stack, mappings) && combination < TableSize
    ensures var r := BrailleRouted(stack, mappings, combination, e);
      var op := BrailleOperation(stack, mappings, combination);
      && ValidStack(r.0, mappings)
      && (op.Some? && op.value.SchemeSwitch? ==> r.1.calls == e.calls && |r.1.feedback| == |e.feedback| + 1 && e.feedback <= r.1.feedback)
      && (!(op.Some? && op.value.SchemeSwitch?) ==> r.0 == Consumed(stack) && r.1.feedback == e.feedback)
      && (op.Some? && !op.value.SchemeSwitch? ==> r.1.calls == e.calls + [Call(-(combination as int), op.value, false, false, false)])
      && (op.None? ==> r.1.calls == e.calls)
  {
    ConsumedKeepsValid(stack, mappings);
    var op := BrailleOperation(stack, mappings, combination);
    if op.Some? && op.value.SchemeSwitch? {
      SwitchKeepsValid(Consumed(stack), mappings, op.value.switchType);
    }
  }
}

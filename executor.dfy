/**
 * The event router itself (`Executor`, server/src/main.rs:1123-1208): the command loop and
 * the slot loop of `process_gesture`, and `process_braille`, each proved against its
 * counterpart on values in `Routing`.
 */
module Execution {
  import opened Wrappers
  import opened Operations
  import opened Gestures
  import opened Config
  import opened Slots
  import opened Linking
  import opened KeyExecution
  import opened BrailleMappings
  import opened BrailleSchemes
  import opened Routing

  /** The command loop of `process_gesture`. */
  method MatchCommand(commands: seq<CommandBinding>, g: Gesture) returns (found: Option<nat>)
    ensures found == FirstCommand(commands, g)
  {
    var i := 0;
    while i < |commands|
      invariant 0 <= i <= |commands|
      invariant forall j :: 0 <= j < i ==> !CommandMatches(commands[j], g)
    {
      var binding := commands[i];
      if binding.gestureShapeInstance == g.shape && binding.fingerCount == g.fingerCount && binding.modifierCount == g.modifierCount {
        FirstCommandAt(commands, g, i);
        return Some(i);
      }
      i := i + 1;
    }
    return None;
  }

  function ViewOf(b: SlotBinding): SlotView
    reads b
  {
    SlotView(b.slot, b.fingerCount, b.modifierCount, b.defaultPosition, b.position, b.ringInstance)
  }

  function Views(bs: seq<SlotBinding>): (vs: seq<SlotView>)
    reads set i | 0 <= i < |bs| :: bs[i]
    ensures |vs| == |bs| && forall i :: 0 <= i < |bs| ==> vs[i] == ViewOf(bs[i])
    ensures (forall i :: 0 <= i < |bs| ==> bs[i].Valid()) ==> AllValid(vs)
  {
    if bs == [] then [] else Views(bs[..|bs| - 1]) + [ViewOf(bs[|bs| - 1])]
  }

  predicate Distinct(bs: seq<SlotBinding>) {
    forall i, j :: 0 <= i < j < |bs| ==> bs[i] != bs[j]
  }

  /** One call on the key executor. */
  method Perform(keys: KeyExecutor, q: Call)
    requires keys.Valid()
    modifies keys
    ensures keys.Valid() && keys.calls == old(keys.calls) + [q]
    ensures keys.State() == Performed(old(keys.State()), q)
  {
    keys.Execute(q.objectId, q.operation, q.stickyCtrl, q.stickyShift, q.stickyAlt);
  }

  /** One matching slot binding handling a slot operation; returns the messages sent so far. */
  method ApplyToBinding(keys: KeyExecutor, b: SlotBinding, op: SlotOperation, feedback: seq<string>) returns (sent: seq<string>)
    requires b.Valid() && keys.Valid()
    modifies keys, b
    ensures b.Valid() && keys.Valid()
    ensures var r := SlotEffect(old(ViewOf(b)), op, Effects([], feedback));
      && ViewOf(b) == r.0 && keys.calls == old(keys.calls) + r.1.calls && sent == r.1.feedback
      && keys.State() == Replayed(old(keys.State()), SwipeCall(old(ViewOf(b)), op))
  {
    sent := feedback;
    match op {
      case Forward =>
        var a := b.ActiveAction();
        if a.Some? {
          Perform(keys, Call(a.value.id, a.value.forwardOperation, a.value.stickyCtrl, a.value.stickyShift, a.value.stickyAlt));
          ReplayedOne(old(keys.State()), Call(a.value.id, a.value.forwardOperation, a.value.stickyCtrl, a.value.stickyShift, a.value.stickyAlt));
        }
      case Backward =>
        var a := b.ActiveAction();
        if a.Some? {
          Perform(keys, Call(a.value.id, a.value.backwardOperation, a.value.stickyCtrl, a.value.stickyShift, a.value.stickyAlt));
          ReplayedOne(old(keys.State()), Call(a.value.id, a.value.backwardOperation, a.value.stickyCtrl, a.value.stickyShift, a.value.stickyAlt));
        }
      case PreviousAction =>
        b.PreviousAction();
        var a := b.ActiveAction();
        if a.Some? {
          sent := sent + [a.value.name];
        }
      case NextAction =>
        b.NextAction();
        var a := b.ActiveAction();
        if a.Some? {
          sent := sent + [a.value.name];
        }
      case DefaultAction =>
        b.DefaultAction();
        var a := b.ActiveAction();
        if a.Some? {
          sent := sent + [a.value.name];
        }
    }
  }

  /** One turn of the slot loop: the binding handles the operation only when it matches. */
  method Visit(keys: KeyExecutor, bs: seq<SlotBinding>, k: nat, slot: string, g: Gesture, op: SlotOperation,
               feedback: seq<string>, sent: seq<string>, ghost vs: seq<SlotView>, ghost before: seq<Call>)
    returns (sent': seq<string>)
    requires k < |bs| == |vs| && AllValid(vs) && bs[k].Valid() && keys.Valid() && ViewOf(bs[k]) == vs[k]
    requires keys.calls == before + SwipeCalls(vs[..k], slot, g, op)
    requires sent == feedback + Announcements(vs[..k], slot, g, op)
    modifies keys, bs[k]
    ensures bs[k].Valid() && keys.Valid()
    ensures ViewOf(bs[k]) == if BindingMatches(vs[k], slot, g) then Moved(vs[k], op) else vs[k]
    ensures keys.calls == before + SwipeCalls(vs[..k + 1], slot, g, op)
    ensures sent' == feedback + Announcements(vs[..k + 1], slot, g, op)
    ensures BindingMatches(vs[k], slot, g) ==> keys.State() == Replayed(old(keys.State()), SwipeCall(vs[k], op))
    ensures !BindingMatches(vs[k], slot, g) ==> keys.State() == old(keys.State())
  {
    PrefixStep(vs, slot, g, op, k);
    var b := bs[k];
    sent' := sent;
    if b.slot == slot && b.fingerCount == g.fingerCount && b.modifierCount == g.modifierCount {
      sent' := ApplyToBinding(keys, b, op, sent');
    }
  }

  /** `Visit`, with the key executor's state followed from the start of the slot loop. */
  method VisitFrom(keys: KeyExecutor, bs: seq<SlotBinding>, k: nat, slot: string, g: Gesture, op: SlotOperation,
                   feedback: seq<string>, sent: seq<string>, ghost vs: seq<SlotView>, ghost before: seq<Call>,
                   ghost start: ExecState)
    returns (sent': seq<string>)
    requires k < |bs| == |vs| && AllValid(vs) && bs[k].Valid() && keys.Valid() && ViewOf(bs[k]) == vs[k]
    requires keys.calls == before + SwipeCalls(vs[..k], slot, g, op)
    requires sent == feedback + Announcements(vs[..k], slot, g, op)
    requires keys.State() == Replayed(start, SwipeCalls(vs[..k], slot, g, op))
    modifies keys, bs[k]
    ensures bs[k].Valid() && keys.Valid()
    ensures ViewOf(bs[k]) == if BindingMatches(vs[k], slot, g) then Moved(vs[k], op) else vs[k]
    ensures keys.calls == before + SwipeCalls(vs[..k + 1], slot, g, op)
    ensures sent' == feedback + Announcements(vs[..k + 1], slot, g, op)
    ensures keys.State() == Replayed(start, SwipeCalls(vs[..k + 1], slot, g, op))
  {
    ghost var s := keys.State();
    sent' := Visit(keys, bs, k, slot, g, op, feedback, sent, vs, before);
    ReplayedPrefixStep(start, s, keys.State(), vs, slot, g, op, k);
  }

  /**
   * The slot loop of `process_gesture`, over the first scheme's slot bindings: every matching
   * binding makes the move, the others keep their cursors, and the calls and names are the
   * matching bindings' own, in binding order.
   */
  method RouteSlotOperation(keys: KeyExecutor, bs: seq<SlotBinding>, slot: string, g: Gesture, op: SlotOperation,
                            feedback: seq<string>, ghost vs: seq<SlotView>)
    returns (sent: seq<string>)
    requires keys.Valid() && Distinct(bs) && forall j :: 0 <= j < |bs| ==> bs[j].Valid()
    requires |vs| == |bs| && AllValid(vs) && forall j :: 0 <= j < |bs| ==> ViewOf(bs[j]) == vs[j]
    modifies keys, set i | 0 <= i < |bs| :: bs[i]
    ensures keys.Valid() && forall j :: 0 <= j < |bs| ==> bs[j].Valid()
    ensures forall j :: 0 <= j < |bs| ==>
      ViewOf(bs[j]) == if BindingMatches(vs[j], slot, g) then Moved(vs[j], op) else vs[j]
    ensures keys.calls == old(keys.calls) + SwipeCalls(vs, slot, g, op)
    ensures sent == feedback + Announcements(vs, slot, g, op)
    ensures keys.State() == Replayed(old(keys.State()), SwipeCalls(vs, slot, g, op))
  {
    ghost var before := keys.calls;
    ghost var start := keys.State();
    sent := feedback;
    var k := 0;
    while k < |bs|
      invariant 0 <= k <= |bs| && |vs| == |bs| && AllValid(vs)
      invariant keys.Valid() && forall j :: 0 <= j < |bs| ==> bs[j].Valid()
      invariant forall j :: 0 <= j < k ==>
        ViewOf(bs[j]) == if BindingMatches(vs[j], slot, g) then Moved(vs[j], op) else vs[j]
      invariant forall j :: k <= j < |bs| ==> ViewOf(bs[j]) == vs[j]
      invariant keys.calls == before + SwipeCalls(vs[..k], slot, g, op) && keys.State() == Replayed(start, SwipeCalls(vs[..k], slot, g, op))
      invariant sent == feedback + Announcements(vs[..k], slot, g, op)
    {
      sent := VisitFrom(keys, bs, k, slot, g, op, feedback, sent, vs, before, start);
      k := k + 1;
    }
    assert vs[..k] == vs;
  }

  /**
   * `Executor`: the settings, the key executor, and the messages sent so far. `slots` names
   * the first scheme's slot bindings, the only ones gestures reach; `Valid` keeps it equal to
   * what the settings hold.
   */
  class Executor {
    const settings: Settings
    const keyExecutor: KeyExecutor
    const slots: seq<SlotBinding>
    var feedback: seq<string>

    function ActiveSlots(): seq<SlotBinding>
      reads settings
    {
      if |settings.schemes| > 0 then settings.schemes[0].bindings.slotBindings else []
    }

    function BrailleObjects(): set<object>
      reads settings, settings.brailleSchemeManager
    {
      var m := settings.brailleSchemeManager;
      {m} + if |m.schemes| > 0 then {m.schemes[0]} else {}
    }

    /**
     * What gestures rely on: a consistent key executor, and slot bindings that are the
     * settings' own, distinct objects, each with its cursors in range.
     */
    ghost predicate Valid()
      reads settings, keyExecutor, set i | 0 <= i < |slots| :: slots[i]
    {
      && keyExecutor.Valid()
      && slots == ActiveSlots()
      && Distinct(slots)
      && forall i :: 0 <= i < |slots| ==> slots[i].Valid()
    }

    /** What braille input relies on: a consistent braille scheme manager. */
    ghost predicate BrailleValid()
      reads settings, BrailleObjects()
    {
      settings.brailleSchemeManager.Valid()
    }

    /** `Executor::new`: a fresh key executor and nothing sent. */
    constructor (settings: Settings)
      requires settings.brailleSchemeManager.Valid()
      requires |settings.schemes| > 0 ==> Distinct(settings.schemes[0].bindings.slotBindings)
      requires |settings.schemes| > 0 ==>
        forall i :: 0 <= i < |settings.schemes[0].bindings.slotBindings| ==> settings.schemes[0].bindings.slotBindings[i].Valid()
      ensures Valid() && BrailleValid() && this.settings == settings && fresh(keyExecutor)
      ensures keyExecutor.State() == Initial && keyExecutor.calls == [] && feedback == []
    {
      this.settings := settings;
      keyExecutor := new KeyExecutor();
      slots := if |settings.schemes| > 0 then settings.schemes[0].bindings.slotBindings else [];
      feedback := [];
    }

    /** `Executor::process_gesture`. */
    method ProcessGesture(g: Gesture)
      requires Valid() && |settings.schemes| > 0
      modifies this, keyExecutor, set i | 0 <= i < |slots| :: slots[i]
      ensures Valid()
      ensures var r := Gestured(old(settings.schemes[0].bindings.commandBindings), old(Views(slots)), g,
                                Effects([], old(feedback)));
        && (forall j :: 0 <= j < |slots| ==> ViewOf(slots[j]) == r.0[j])
        && keyExecutor.calls == old(keyExecutor.calls) + r.1.calls && feedback == r.1.feedback
        && keyExecutor.State() == Replayed(old(keyExecutor.State()), r.1.calls)
    {
      var commands := settings.schemes[0].bindings.commandBindings;
      ghost var vs := Views(slots);
      ghost var e := Effects([], feedback);
      var found := MatchCommand(commands, g);
      if found.Some? {
        Perform(keyExecutor, CommandCall(commands[found.value].commandInstance));
        ReplayedOne(old(keyExecutor.State()), CommandCall(commands[found.value].commandInstance));
        return;
      }
      var classified := TryGetSlotOperation(g);
      if classified.Success? {
        var (slot, op) := classified.value;
        RouteSlotsMoves(vs, slot, g, op, e);
        RouteSlotsEffects(vs, slot, g, op, e);
        assert e.calls + SwipeCalls(vs, slot, g, op) == SwipeCalls(vs, slot, g, op);
        feedback := RouteSlotOperation(keyExecutor, slots, slot, g, op, feedback, vs);
      }
    }

    /** The scheme-switch branch of `process_braille`. */
    method SwitchAndAnnounce(switchType: SwitchType)
      requires Valid() && BrailleValid() && |settings.brailleSchemeManager.schemes| > 0
      modifies this, settings.brailleSchemeManager.schemes[0]
      ensures Valid() && BrailleValid()
      ensures var scheme := settings.brailleSchemeManager.schemes[0];
        var (switched, res) := Switched(old(scheme.mappingStack), old(scheme.mappings), switchType);
        && scheme.name == old(scheme.name) && scheme.mappings == old(scheme.mappings) && scheme.mappingStack == switched
        && feedback == old(feedback) + [SwitchMessage(switched, res)]
    {
      var m := settings.brailleSchemeManager;
      var res := m.SwitchMapping(switchType);
      if res.Fail? {
        feedback := feedback + [res.error];
        return;
      }
      var name := m.CurrentMappingName();
      feedback := feedback + [name];
    }

    /** `Executor::process_braille`. */
    method ProcessBraille(combination: nat)
      requires Valid() && BrailleValid()
      requires |settings.brailleSchemeManager.schemes| > 0 ==> combination < TableSize
      modifies this, keyExecutor, BrailleObjects() - {settings.brailleSchemeManager}
      ensures Valid() && BrailleValid()
      ensures var m := settings.brailleSchemeManager;
        && (|m.schemes| == 0 ==>
              keyExecutor.calls == old(keyExecutor.calls) && keyExecutor.State() == old(keyExecutor.State()) && feedback == old(feedback))
        && (|m.schemes| > 0 ==>
              var r := BrailleRouted(old(m.schemes[0].mappingStack), old(m.schemes[0].mappings), combination, Effects([], old(feedback)));
              && m.schemes[0].name == old(m.schemes[0].name) && m.schemes[0].mappings == old(m.schemes[0].mappings)
              && m.schemes[0].mappingStack == r.0 && feedback == r.1.feedback
              && keyExecutor.calls == old(keyExecutor.calls) + r.1.calls
              && keyExecutor.State() == Replayed(old(keyExecutor.State()), r.1.calls))
    {
      var m := settings.brailleSchemeManager;
      if |m.schemes| == 0 {
        // `translate_combination` finds nothing without schemes.
        var none := m.TranslateCombination(combination);
        assert none.None?;
        return;
      }
      ghost var scheme := m.schemes[0];
      ghost var mappings := scheme.mappings;
      ConsumedKeepsValid(scheme.mappingStack, mappings);
      var operation := m.TranslateCombination(combination);
      assert operation == BrailleOperation(old(scheme.mappingStack), mappings, combination);
      if operation.Some? {
        if operation.value.SchemeSwitch? {
          SwitchAndAnnounce(operation.value.switchType);
          return;
        }
        Perform(keyExecutor, Call(-(combination as int), operation.value, false, false, false));
        ReplayedOne(old(keyExecutor.State()), Call(-(combination as int), operation.value, false, false, false));
      }
    }
  }
}

/**
 * Command bindings, schemes and the settings that link them
 * (`CommandBinding`, `Bindings`, `Scheme`, `Settings`, server/src/main.rs:237-354, 625-684).
 */
module Linking {
  import opened Wrappers
  import opened Text
  import opened Operations
  import opened Gestures
  import opened Config
  import opened Slots
  import opened BrailleSchemes

  // ---------------------------------------------------------------------------------------
  // Command bindings
  // ---------------------------------------------------------------------------------------

  /** A gesture bound to a command, with the shape and the command it is linked to. */
  datatype CommandBinding = CommandBinding(
    id: int, name: string, gestureShape: string, swipeDirections: seq<string>, command: int,
    fingerCount: int, modifierCount: int, gestureShapeInstance: GestureShape, commandInstance: Command)

  /** `Command::default`. */
  const UnknownCommand := NewCommand(-1, "Unknown", false, false, false, "")

  /** `CommandBinding::new`: a touch bound to the unknown command until linked. */
  function NewCommandBinding(id: int, name: string, gestureShape: string, swipeDirections: seq<string>,
                             command: int, fingerCount: int, modifierCount: int): CommandBinding {
    CommandBinding(id, name, gestureShape, swipeDirections, command, fingerCount, modifierCount, Touch, UnknownCommand)
  }

  function DirectionNamed(s: string): Option<Direction> {
    if s == "Left" then Some(Left)
    else if s == "Right" then Some(Right)
    else if s == "Up" then Some(Up)
    else if s == "Down" then Some(Down)
    else None
  }

  /** The direction a text names, as a sequence of at most one. */
  function NamedDirections(s: string): (ds: seq<Direction>)
    ensures |ds| <= 1
  {
    match DirectionNamed(s)
    case Some(d) => [d]
    case None => []
  }

  /** The directions named in `names`, in order; any other text is skipped. */
  function KnownDirections(names: seq<string>): (ds: seq<Direction>)
    ensures |ds| <= |names|
  {
    if names == [] then []
    else KnownDirections(names[..|names| - 1]) + NamedDirections(names[|names| - 1])
  }

  /** The shape a binding's text names: "Swipe" and "Tap" are known, anything else is a touch. */
  function ShapeNamed(shape: string, directions: seq<string>): GestureShape {
    if shape == "Swipe" then Swipe(KnownDirections(directions))
    else if shape == "Tap" then Tap
    else Touch
  }

  lemma {:induction false} KnownDirectionsConcat(a: seq<string>, b: seq<string>)
    ensures KnownDirections(a + b) == KnownDirections(a) + KnownDirections(b)
    decreases |b|
  {
    if b != [] {
      var b' := b[..|b| - 1];
      var last := b[|b| - 1];
      assert (a + b)[..|a + b| - 1] == a + b';
      assert (a + b)[|a + b| - 1] == last;
      KnownDirectionsConcat(a, b');
      calc {
        KnownDirections(a + b);
        KnownDirections(a + b') + NamedDirections(last);
        KnownDirections(a) + KnownDirections(b') + NamedDirections(last);
        KnownDirections(a) + (KnownDirections(b') + NamedDirections(last));
        KnownDirections(a) + KnownDirections(b);
      }
    } else {
      assert a + b == a;
    }
  }

  /** A text that names no direction drops out without a trace. */
  lemma UnknownDirectionSkipped(a: seq<string>, unknown: string, b: seq<string>)
    requires DirectionNamed(unknown).None?
    ensures KnownDirections(a + [unknown] + b) == KnownDirections(a) + KnownDirections(b)
  {
    var au := a + [unknown];
    KnownDirectionsConcat(au, b);
    assert au[..|au| - 1] == a;
    assert KnownDirections(au) == KnownDirections(a) + NamedDirections(unknown);
    assert KnownDirections(au) == KnownDirections(a);
  }

  /** When every text names a direction, each one is kept in its place. */
  lemma {:induction false} AllDirectionsKnown(names: seq<string>)
    requires forall i :: 0 <= i < |names| ==> DirectionNamed(names[i]).Some?
    ensures |KnownDirections(names)| == |names|
    ensures forall i :: 0 <= i < |names| ==> KnownDirections(names)[i] == DirectionNamed(names[i]).value
  {
    if names != [] {
      AllDirectionsKnown(names[..|names| - 1]);
    }
  }

  function MissingCommand(command: int): string {
    "Unable to find command with id " + IntToString(command)
  }

  predicate CommandFound(commands: seq<Command>, command: int) {
    FirstIndex(CommandIds(commands), command).Some?
  }

  /** A binding after a successful link: its shape parsed and a copy of the first command with its id. */
  function LinkedCommandBinding(b: CommandBinding, commands: seq<Command>): CommandBinding
    requires CommandFound(commands, b.command)
  {
    b.(gestureShapeInstance := ShapeNamed(b.gestureShape, b.swipeDirections),
       commandInstance := commands[FirstIndex(CommandIds(commands), b.command).value])
  }

  /**
   * `CommandBinding::finalize`. The shape is set before the command is looked up, so a
   * missing command still leaves the parsed shape behind.
   */
  method FinalizeCommandBinding(b: CommandBinding, commands: seq<Command>) returns (r: CommandBinding, result: Outcome<string>)
    ensures result.Pass? <==> CommandFound(commands, b.command)
    ensures result.Pass? ==> r == LinkedCommandBinding(b, commands) && r.commandInstance.id == b.command
    ensures result.Fail? ==>
      && result.error == MissingCommand(b.command)
      && r == b.(gestureShapeInstance := ShapeNamed(b.gestureShape, b.swipeDirections))
  {
    var shape: GestureShape;
    if b.gestureShape == "Swipe" {
      var directions: seq<Direction> := [];
      var i := 0;
      while i < |b.swipeDirections|
        invariant 0 <= i <= |b.swipeDirections|
        invariant directions == KnownDirections(b.swipeDirections[..i])
      {
        assert b.swipeDirections[..i + 1][..i] == b.swipeDirections[..i];
        var d := DirectionNamed(b.swipeDirections[i]);
        if d.None? {
          i := i + 1;
          continue;
        }
        directions := directions + [d.value];
        i := i + 1;
      }
      assert b.swipeDirections[..i] == b.swipeDirections;
      shape := Swipe(directions);
    } else if b.gestureShape == "Tap" {
      shape := Tap;
    } else {
      shape := Touch;
    }
    r := b.(gestureShapeInstance := shape);
    var k := 0;
    while k < |commands|
      invariant 0 <= k <= |commands|
      invariant forall j :: 0 <= j < k ==> commands[j].id != b.command
    {
      if commands[k].id == b.command {
        FirstIndexAt(CommandIds(commands), b.command, k);
        r := r.(commandInstance := commands[k]);
        return r, Pass;
      }
      k := k + 1;
    }
    return r, Fail(MissingCommand(b.command));
  }

  // ---------------------------------------------------------------------------------------
  // Bindings and schemes
  // ---------------------------------------------------------------------------------------

  datatype Bindings = Bindings(slotBindings: seq<SlotBinding>, commandBindings: seq<CommandBinding>)

  datatype Scheme = Scheme(id: int, name: string, bindings: Bindings)

  /** Every slot binding finds its ring, and the ring lists its default action. */
  predicate SlotsLink(slots: seq<SlotBinding>, rings: seq<Ring>) {
    forall i :: 0 <= i < |slots| ==> SlotLink(rings, slots[i].id, slots[i].ring, slots[i].defaultAction).Success?
  }

  /** Every command binding finds its command. */
  predicate CommandsLink(bindings: seq<CommandBinding>, commands: seq<Command>) {
    forall i :: 0 <= i < |bindings| ==> CommandFound(commands, bindings[i].command)
  }

  predicate BindingsLink(b: Bindings, commands: seq<Command>, rings: seq<Ring>) {
    SlotsLink(b.slotBindings, rings) && CommandsLink(b.commandBindings, commands)
  }

  /** The error `Bindings::finalize` stops at: the first slot binding's, else the first command binding's. */
  predicate FirstBindingError(b: Bindings, commands: seq<Command>, rings: seq<Ring>, e: string) {
    var s := b.slotBindings;
    var c := b.commandBindings;
    || (exists i :: 0 <= i < |s| && SlotLink(rings, s[i].id, s[i].ring, s[i].defaultAction) == Failure(e)
                  && forall j :: 0 <= j < i ==> SlotLink(rings, s[j].id, s[j].ring, s[j].defaultAction).Success?)
    || (&& SlotsLink(s, rings)
        && exists i :: 0 <= i < |c| && !CommandFound(commands, c[i].command) && e == MissingCommand(c[i].command)
                       && forall j :: 0 <= j < i ==> CommandFound(commands, c[j].command))
  }

  /** Each command binding of `after` is its counterpart in `before`, linked. */
  predicate CommandBindingsLinked(before: seq<CommandBinding>, after: seq<CommandBinding>, commands: seq<Command>) {
    && |after| == |before|
    && CommandsLink(before, commands)
    && forall i :: 0 <= i < |before| ==> after[i] == LinkedCommandBinding(before[i], commands)
  }

  /** Linked bindings: the same slot binding objects, each finalized, and every command binding linked. */
  ghost predicate BindingsFinalized(before: Bindings, after: Bindings, commands: seq<Command>, rings: seq<Ring>)
    reads set i | 0 <= i < |after.slotBindings| :: after.slotBindings[i]
  {
    && after.slotBindings == before.slotBindings
    && (forall i :: 0 <= i < |after.slotBindings| ==> after.slotBindings[i].FinalizedWith(rings))
    && CommandBindingsLinked(before.commandBindings, after.commandBindings, commands)
  }

  /** The first loop of `Bindings::finalize`: each slot binding against the rings, stopping at an error. */
  method FinalizeSlots(slots: seq<SlotBinding>, rings: seq<Ring>) returns (result: Outcome<string>)
    modifies set i | 0 <= i < |slots| :: slots[i]
    ensures result.Pass? <==> SlotsLink(slots, rings)
    ensures result.Pass? ==> forall j :: 0 <= j < |slots| ==> slots[j].FinalizedWith(rings)
    ensures result.Fail? ==>
      exists i :: 0 <= i < |slots| && SlotLink(rings, slots[i].id, slots[i].ring, slots[i].defaultAction) == Failure(result.error)
        && forall j :: 0 <= j < i ==> SlotLink(rings, slots[j].id, slots[j].ring, slots[j].defaultAction).Success?
  {
    var i := 0;
    while i < |slots|
      invariant 0 <= i <= |slots|
      invariant forall j :: 0 <= j < i ==> slots[j].FinalizedWith(rings)
    {
      var res := FinalizeSlotAt(slots, i, rings);
      if res.Fail? {
        return res;
      }
      i := i + 1;
    }
    return Pass;
  }

  /** One step of the first loop of `Bindings::finalize`: the slot binding at `i`. */
  method FinalizeSlotAt(slots: seq<SlotBinding>, i: nat, rings: seq<Ring>) returns (result: Outcome<string>)
    requires i < |slots|
    requires forall j :: 0 <= j < i ==> slots[j].FinalizedWith(rings)
    modifies slots[i]
    ensures result.Pass? <==> SlotLink(rings, slots[i].id, slots[i].ring, slots[i].defaultAction).Success?
    ensures result.Pass? ==> forall j :: 0 <= j <= i ==> slots[j].FinalizedWith(rings)
    ensures result.Fail? ==> SlotLink(rings, slots[i].id, slots[i].ring, slots[i].defaultAction) == Failure(result.error)
  {
    result := slots[i].Finalize(rings);
  }

  /** The second loop of `Bindings::finalize`: each command binding against the commands. */
  method FinalizeCommandBindings(bindings: seq<CommandBinding>, commands: seq<Command>) returns (linked: seq<CommandBinding>, result: Outcome<string>)
    ensures result.Pass? <==> CommandsLink(bindings, commands)
    ensures result.Pass? ==>
      |linked| == |bindings| && forall j :: 0 <= j < |bindings| ==> linked[j] == LinkedCommandBinding(bindings[j], commands)
    ensures result.Fail? ==>
      exists i :: 0 <= i < |bindings| && !CommandFound(commands, bindings[i].command) && result.error == MissingCommand(bindings[i].command)
        && forall j :: 0 <= j < i ==> CommandFound(commands, bindings[j].command)
  {
    linked := [];
    var k := 0;
    while k < |bindings|
      invariant 0 <= k <= |bindings|
      invariant |linked| == k
      invariant forall j :: 0 <= j < k ==> CommandFound(commands, bindings[j].command)
      invariant forall j :: 0 <= j < k ==> linked[j] == LinkedCommandBinding(bindings[j], commands)
    {
      var c, res := FinalizeCommandBinding(bindings[k], commands);
      if res.Fail? {
        return linked, res;
      }
      linked := linked + [c];
      k := k + 1;
    }
    return linked, Pass;
  }

  /** `Bindings::finalize`: the slot bindings against the rings, then the command bindings. */
  method FinalizeBindings(b: Bindings, commands: seq<Command>, rings: seq<Ring>) returns (r: Bindings, result: Outcome<string>)
    modifies set i | 0 <= i < |b.slotBindings| :: b.slotBindings[i]
    ensures result.Pass? <==> BindingsLink(b, commands, rings)
    ensures result.Pass? ==> BindingsFinalized(b, r, commands, rings)
    ensures result.Fail? ==> FirstBindingError(b, commands, rings, result.error)
  {
    result := FinalizeSlots(b.slotBindings, rings);
    if result.Fail? {
      return b, result;
    }
    var linked;
    linked, result := FinalizeCommandBindings(b.commandBindings, commands);
    r := Bindings(b.slotBindings, linked);
  }

  /** `Scheme::finalize`: its bindings. */
  method FinalizeScheme(s: Scheme, commands: seq<Command>, rings: seq<Ring>) returns (r: Scheme, result: Outcome<string>)
    modifies set i | 0 <= i < |s.bindings.slotBindings| :: s.bindings.slotBindings[i]
    ensures r.id == s.id && r.name == s.name
    ensures result.Pass? <==> BindingsLink(s.bindings, commands, rings)
    ensures result.Pass? ==> BindingsFinalized(s.bindings, r.bindings, commands, rings)
    ensures result.Fail? ==> FirstBindingError(s.bindings, commands, rings, result.error)
  {
    var b;
    b, result := FinalizeBindings(s.bindings, commands, rings);
    r := s.(bindings := b);
  }

  // ---------------------------------------------------------------------------------------
  // The settings
  // ---------------------------------------------------------------------------------------

  /** Every slot binding object of the schemes. */
  ghost function SlotObjects(schemes: seq<Scheme>): set<SlotBinding> {
    set i, j | 0 <= i < |schemes| && 0 <= j < |schemes[i].bindings.slotBindings| :: schemes[i].bindings.slotBindings[j]
  }

  predicate RingsLink(rings: seq<Ring>, actions: seq<Action>) {
    forall i :: 0 <= i < |rings| ==> RingLinks(rings[i], actions)
  }

  predicate SchemesLink(schemes: seq<Scheme>, commands: seq<Command>, rings: seq<Ring>) {
    forall i :: 0 <= i < |schemes| ==> BindingsLink(schemes[i].bindings, commands, rings)
  }

  /**
   * The error the ring loop stops at against action ids `ids`: the first ring with an id
   * that is not there, and in it the first such id.
   */
  predicate FirstMissingAction(rings: seq<Ring>, ids: seq<int>, e: string) {
    exists i, k :: 0 <= i < |rings| && 0 <= k < |rings[i].actions|
      && (forall j, m :: 0 <= j < i && 0 <= m < |rings[j].actions| ==> FirstIndex(ids, rings[j].actions[m]).Some?)
      && (forall m :: 0 <= m < k ==> FirstIndex(ids, rings[i].actions[m]).Some?)
      && FirstIndex(ids, rings[i].actions[k]).None?
      && e == MissingAction(rings[i].actions[k])
  }

  /** The error the scheme loop stops at: the first scheme that does not link, and its first error. */
  predicate FirstSchemeError(schemes: seq<Scheme>, commands: seq<Command>, rings: seq<Ring>, e: string) {
    exists i :: 0 <= i < |schemes|
      && (forall j :: 0 <= j < i ==> BindingsLink(schemes[j].bindings, commands, rings))
      && FirstBindingError(schemes[i].bindings, commands, rings, e)
  }

  /** The ring loop's error is determined by the rings and the ids. */
  lemma FirstMissingActionUnique(rings: seq<Ring>, ids: seq<int>, e1: string, e2: string)
    requires FirstMissingAction(rings, ids, e1) && FirstMissingAction(rings, ids, e2)
    ensures e1 == e2
  {
    var i1, k1 :| 0 <= i1 < |rings| && 0 <= k1 < |rings[i1].actions|
      && (forall j, m :: 0 <= j < i1 && 0 <= m < |rings[j].actions| ==> FirstIndex(ids, rings[j].actions[m]).Some?)
      && (forall m :: 0 <= m < k1 ==> FirstIndex(ids, rings[i1].actions[m]).Some?)
      && FirstIndex(ids, rings[i1].actions[k1]).None? && e1 == MissingAction(rings[i1].actions[k1]);
    var i2, k2 :| 0 <= i2 < |rings| && 0 <= k2 < |rings[i2].actions|
      && (forall j, m :: 0 <= j < i2 && 0 <= m < |rings[j].actions| ==> FirstIndex(ids, rings[j].actions[m]).Some?)
      && (forall m :: 0 <= m < k2 ==> FirstIndex(ids, rings[i2].actions[m]).Some?)
      && FirstIndex(ids, rings[i2].actions[k2]).None? && e2 == MissingAction(rings[i2].actions[k2]);
    assert i1 == i2 && k1 == k2;
  }

  /** A binding list's first error is determined by the bindings, the commands and the rings. */
  lemma FirstBindingErrorUnique(b: Bindings, commands: seq<Command>, rings: seq<Ring>, e1: string, e2: string)
    requires FirstBindingError(b, commands, rings, e1) && FirstBindingError(b, commands, rings, e2)
    ensures e1 == e2
  {
    var s, c := b.slotBindings, b.commandBindings;
    if !SlotsLink(s, rings) {
      var i1 :| 0 <= i1 < |s| && SlotLink(rings, s[i1].id, s[i1].ring, s[i1].defaultAction) == Failure(e1)
        && forall j :: 0 <= j < i1 ==> SlotLink(rings, s[j].id, s[j].ring, s[j].defaultAction).Success?;
      var i2 :| 0 <= i2 < |s| && SlotLink(rings, s[i2].id, s[i2].ring, s[i2].defaultAction) == Failure(e2)
        && forall j :: 0 <= j < i2 ==> SlotLink(rings, s[j].id, s[j].ring, s[j].defaultAction).Success?;
      assert i1 == i2;
    } else {
      var i1 :| 0 <= i1 < |c| && !CommandFound(commands, c[i1].command) && e1 == MissingCommand(c[i1].command)
        && forall j :: 0 <= j < i1 ==> CommandFound(commands, c[j].command);
      var i2 :| 0 <= i2 < |c| && !CommandFound(commands, c[i2].command) && e2 == MissingCommand(c[i2].command)
        && forall j :: 0 <= j < i2 ==> CommandFound(commands, c[j].command);
      assert i1 == i2;
    }
  }

  /** The scheme loop's error is determined by the schemes, the commands and the rings. */
  lemma FirstSchemeErrorUnique(schemes: seq<Scheme>, commands: seq<Command>, rings: seq<Ring>, e1: string, e2: string)
    requires FirstSchemeError(schemes, commands, rings, e1) && FirstSchemeError(schemes, commands, rings, e2)
    ensures e1 == e2
  {
    var i1 :| 0 <= i1 < |schemes| && (forall j :: 0 <= j < i1 ==> BindingsLink(schemes[j].bindings, commands, rings))
      && FirstBindingError(schemes[i1].bindings, commands, rings, e1);
    var i2 :| 0 <= i2 < |schemes| && (forall j :: 0 <= j < i2 ==> BindingsLink(schemes[j].bindings, commands, rings))
      && FirstBindingError(schemes[i2].bindings, commands, rings, e2);
    assert i1 == i2;
    FirstBindingErrorUnique(schemes[i1].bindings, commands, rings, e1, e2);
  }

  /** Each ring of `after` is its counterpart in `before` linked against the actions. */
  predicate RingsLinkedTo(before: seq<Ring>, after: seq<Ring>, actions: seq<Action>) {
    && |after| == |before|
    && forall i :: 0 <= i < |before| ==>
         && RingLinks(before[i], actions)
         && after[i].(actionInstances := before[i].actionInstances) == before[i]
         && Linked(after[i])
         && forall k :: 0 <= k < |before[i].actions| ==>
              after[i].actionInstances[k] == actions[FirstIndex(ActionIds(actions), before[i].actions[k]).value]
  }

  /** Linking the ring at `i` extends the linked prefix by one. */
  lemma RingsLinkedToStep(before: seq<Ring>, after: seq<Ring>, actions: seq<Action>, i: nat, linked: Ring)
    requires i < |before| == |after| && after[i] == before[i]
    requires RingsLinkedTo(before[..i], after[..i], actions)
    requires RingLinks(before[i], actions)
    requires linked.(actionInstances := before[i].actionInstances) == before[i] && Linked(linked)
    requires forall k :: 0 <= k < |before[i].actions| ==>
      linked.actionInstances[k] == actions[FirstIndex(ActionIds(actions), before[i].actions[k]).value]
    ensures RingsLinkedTo(before[..i + 1], after[i := linked][..i + 1], actions)
  {
    assert after[i := linked][..i + 1] == after[..i] + [linked];
    assert before[..i + 1] == before[..i] + [before[i]];
  }

  /** The scheme keeps its name and slot binding objects and has its command bindings linked. */
  predicate SchemeLinked(before: Scheme, after: Scheme, commands: seq<Command>) {
    && after.id == before.id && after.name == before.name
    && after.bindings.slotBindings == before.bindings.slotBindings
    && CommandBindingsLinked(before.bindings.commandBindings, after.bindings.commandBindings, commands)
  }

  /** Every slot binding of the schemes is finalized against the rings. */
  ghost predicate SlotsFinalized(schemes: seq<Scheme>, rings: seq<Ring>)
    reads SlotObjects(schemes)
  {
    forall i, k :: 0 <= i < |schemes| && 0 <= k < |schemes[i].bindings.slotBindings| ==>
      schemes[i].bindings.slotBindings[k].FinalizedWith(rings)
  }

  /** Each scheme of `after` is its counterpart in `before` with its bindings finalized. */
  ghost predicate SchemesFinalized(before: seq<Scheme>, after: seq<Scheme>, commands: seq<Command>, rings: seq<Ring>)
    reads SlotObjects(after)
  {
    && |after| == |before|
    && (forall i :: 0 <= i < |before| ==> SchemeLinked(before[i], after[i], commands))
    && SlotsFinalized(after, rings)
  }

  /** A binding finalized against linked rings has its cursors on its ring's copy. */
  lemma FinalizedValid(b: SlotBinding, rings: seq<Ring>)
    requires b.FinalizedWith(rings)
    requires forall i :: 0 <= i < |rings| ==> Linked(rings[i])
    ensures b.Valid() && b.ActiveAction().Some? && b.ActiveAction().value.id == b.defaultAction
  {
    var link := SlotLink(rings, b.id, b.ring, b.defaultAction);
    SlotLinkMeaning(rings, b.id, b.ring, b.defaultAction);
    assert Linked(rings[link.value.0]);
  }

  /** Compiling actions and commands keeps their ids. */
  lemma CompilingKeepsIds(actions: seq<Action>, compiled: seq<Action>, commands: seq<Command>, compiledCommands: seq<Command>)
    requires |compiled| == |actions| && forall i :: 0 <= i < |actions| ==> compiled[i] == FinalizeAction(actions[i])
    requires |compiledCommands| == |commands| && forall i :: 0 <= i < |commands| ==> compiledCommands[i] == FinalizeCommand(commands[i])
    ensures ActionIds(compiled) == ActionIds(actions)
    ensures CommandIds(compiledCommands) == CommandIds(commands)
  {
  }

  /** Linking rings keeps their ids and id lists, so every slot link comes out the same. */
  lemma LinkingKeepsSlotLinks(before: seq<Ring>, after: seq<Ring>, actions: seq<Action>, binding: int, ring: int, defaultAction: int)
    requires RingsLinkedTo(before, after, actions)
    ensures SlotLink(after, binding, ring, defaultAction) == SlotLink(before, binding, ring, defaultAction)
  {
    assert RingIds(after) == RingIds(before);
  }

  /**
   * After a successful `Settings::finalize` every slot binding can be used: its cursors
   * point into its ring copy, the active action is the default action, and the copy
   * carries the compiled operations.
   */
  lemma FinalizedSlotsReady(before: seq<Ring>, rings: seq<Ring>, actions: seq<Action>, schemes: seq<Scheme>)
    requires forall i :: 0 <= i < |actions| ==> Compiled(actions[i])
    requires RingsLinkedTo(before, rings, actions)
    requires SlotsFinalized(schemes, rings)
    ensures forall b :: b in SlotObjects(schemes) ==>
      && b.Valid() && b.ActiveAction().Some? && b.ActiveAction().value.id == b.defaultAction
      && forall a :: a in b.ringInstance.actionInstances ==> Compiled(a)
  {
    forall b | b in SlotObjects(schemes)
      ensures && b.Valid() && b.ActiveAction().Some? && b.ActiveAction().value.id == b.defaultAction
              && forall a :: a in b.ringInstance.actionInstances ==> Compiled(a)
    {
      var i, k :| 0 <= i < |schemes| && 0 <= k < |schemes[i].bindings.slotBindings| && schemes[i].bindings.slotBindings[k] == b;
      assert b.FinalizedWith(rings);
      FinalizedValid(b, rings);
      var r := SlotLink(rings, b.id, b.ring, b.defaultAction).value.0;
      forall a | a in b.ringInstance.actionInstances ensures Compiled(a) {
        var n :| 0 <= n < |rings[r].actionInstances| && rings[r].actionInstances[n] == a;
        var x := FirstIndex(ActionIds(actions), before[r].actions[n]).value;
        assert a == actions[x];
      }
    }
  }

  /** `Settings`: the configuration as loaded, and the braille schemes. */
  class Settings {
    var actions: seq<Action>
    var commands: seq<Command>
    var rings: seq<Ring>
    var schemes: seq<Scheme>
    var brailleSchemeManager: BrailleSchemeManager

    /** `Settings::new`: the configuration as given and a manager without schemes. */
    constructor (actions: seq<Action>, commands: seq<Command>, rings: seq<Ring>, schemes: seq<Scheme>)
      ensures this.actions == actions && this.commands == commands && this.rings == rings && this.schemes == schemes
      ensures fresh(brailleSchemeManager) && brailleSchemeManager.Valid() && brailleSchemeManager.schemes == []
    {
      this.actions := actions;
      this.commands := commands;
      this.rings := rings;
      this.schemes := schemes;
      brailleSchemeManager := new BrailleSchemeManager.Empty();
    }

    /** The first loop of `Settings::finalize`. */
    method FinalizeActions()
      modifies this
      ensures |actions| == |old(actions)| && forall i :: 0 <= i < |actions| ==> actions[i] == FinalizeAction(old(actions)[i])
      ensures commands == old(commands) && rings == old(rings) && schemes == old(schemes)
      ensures brailleSchemeManager == old(brailleSchemeManager)
    {
      var i := 0;
      while i < |actions|
        invariant 0 <= i <= |actions| == |old(actions)|
        invariant forall j :: 0 <= j < i ==> actions[j] == FinalizeAction(old(actions)[j])
        invariant forall j :: i <= j < |actions| ==> actions[j] == old(actions)[j]
        invariant commands == old(commands) && rings == old(rings) && schemes == old(schemes)
        invariant brailleSchemeManager == old(brailleSchemeManager)
      {
        actions := actions[i := FinalizeAction(actions[i])];
        i := i + 1;
      }
    }

    /** The second loop of `Settings::finalize`. */
    method FinalizeCommands()
      modifies this
      ensures |commands| == |old(commands)| && forall i :: 0 <= i < |commands| ==> commands[i] == FinalizeCommand(old(commands)[i])
      ensures actions == old(actions) && rings == old(rings) && schemes == old(schemes)
      ensures brailleSchemeManager == old(brailleSchemeManager)
    {
      var i := 0;
      while i < |commands|
        invariant 0 <= i <= |commands| == |old(commands)|
        invariant forall j :: 0 <= j < i ==> commands[j] == FinalizeCommand(old(commands)[j])
        invariant forall j :: i <= j < |commands| ==> commands[j] == old(commands)[j]
        invariant actions == old(actions) && rings == old(rings) && schemes == old(schemes)
        invariant brailleSchemeManager == old(brailleSchemeManager)
      {
        commands := commands[i := FinalizeCommand(commands[i])];
        i := i + 1;
      }
    }

    /** The third loop of `Settings::finalize`: every ring against the compiled actions. */
    method LinkRings() returns (result: Outcome<string>)
      modifies this
      ensures actions == old(actions) && commands == old(commands) && schemes == old(schemes)
      ensures brailleSchemeManager == old(brailleSchemeManager)
      ensures result.Pass? <==> RingsLink(old(rings), actions)
      ensures result.Pass? ==> RingsLinkedTo(old(rings), rings, actions)
      ensures result.Fail? ==> FirstMissingAction(old(rings), ActionIds(actions), result.error)
    {
      var i := 0;
      while i < |rings|
        invariant 0 <= i <= |rings| == |old(rings)|
        invariant RingsLinkedTo(old(rings)[..i], rings[..i], actions)
        invariant forall j :: i <= j < |rings| ==> rings[j] == old(rings)[j]
        invariant actions == old(actions) && commands == old(commands) && schemes == old(schemes)
        invariant brailleSchemeManager == old(brailleSchemeManager)
      {
        var linked := FinalizeRing(rings[i], actions);
        if linked.Failure? {
          assert forall j, m :: 0 <= j < i && 0 <= m < |old(rings)[j].actions| ==>
            FirstIndex(ActionIds(actions), old(rings)[j].actions[m]).Some? by {
            forall j, m | 0 <= j < i && 0 <= m < |old(rings)[j].actions|
              ensures FirstIndex(ActionIds(actions), old(rings)[j].actions[m]).Some?
            {
              assert old(rings)[..i][j] == old(rings)[j];
            }
          }
          return Fail(linked.error);
        }
        RingsLinkedToStep(old(rings), rings, actions, i, linked.value);
        rings := rings[i := linked.value];
        i := i + 1;
      }
      assert rings[..i] == rings && old(rings)[..i] == old(rings);
      return Pass;
    }

    /** The fourth loop of `Settings::finalize`: every scheme against the commands and the linked rings. */
    method LinkSchemes() returns (result: Outcome<string>)
      modifies this, SlotObjects(schemes)
      ensures actions == old(actions) && commands == old(commands) && rings == old(rings)
      ensures brailleSchemeManager == old(brailleSchemeManager)
      ensures result.Pass? <==> SchemesLink(old(schemes), commands, rings)
      ensures result.Pass? ==> SchemesFinalized(old(schemes), schemes, commands, rings)
      ensures result.Fail? ==> FirstSchemeError(old(schemes), commands, rings, result.error)
    {
      var i := 0;
      while i < |schemes|
        invariant 0 <= i <= |schemes| == |old(schemes)|
        invariant forall j :: 0 <= j < |schemes| ==> schemes[j].bindings.slotBindings == old(schemes)[j].bindings.slotBindings
        invariant forall j :: i <= j < |schemes| ==> schemes[j] == old(schemes)[j]
        invariant forall j :: 0 <= j < i ==> BindingsLink(old(schemes)[j].bindings, commands, rings)
        invariant forall j :: 0 <= j < i ==> SchemeLinked(old(schemes)[j], schemes[j], commands)
        invariant forall j, k :: 0 <= j < i && 0 <= k < |old(schemes)[j].bindings.slotBindings| ==>
          old(schemes)[j].bindings.slotBindings[k].FinalizedWith(rings)
        invariant actions == old(actions) && commands == old(commands) && rings == old(rings)
        invariant brailleSchemeManager == old(brailleSchemeManager)
      {
        var s, res := FinalizeScheme(schemes[i], commands, rings);
        if res.Fail? {
          return res;
        }
        schemes := schemes[i := s];
        i := i + 1;
      }
      return Pass;
    }

    /**
     * The first three steps of `Settings::finalize`: compile the actions and the commands,
     * then link the rings, keeping whether each scheme links.
     */
    method CompileAndLinkRings() returns (result: Outcome<string>)
      modifies this
      ensures schemes == old(schemes) && brailleSchemeManager == old(brailleSchemeManager)
      ensures |actions| == |old(actions)| && (forall i :: 0 <= i < |actions| ==> actions[i] == FinalizeAction(old(actions)[i]))
      ensures |commands| == |old(commands)| && (forall i :: 0 <= i < |commands| ==> commands[i] == FinalizeCommand(old(commands)[i]))
      ensures result.Pass? <==> RingsLink(old(rings), old(actions))
      ensures result.Fail? ==> FirstMissingAction(old(rings), ActionIds(old(actions)), result.error)
      ensures result.Pass? ==> RingsLinkedTo(old(rings), rings, actions)
      ensures result.Pass? ==> (SchemesLink(schemes, commands, rings) <==> SchemesLink(old(schemes), old(commands), old(rings)))
    {
      ghost var actions0, commands0, rings0, schemes0 := actions, commands, rings, schemes;
      FinalizeActions();
      FinalizeCommands();
      CompilingKeepsIds(actions0, actions, commands0, commands);
      assert forall r: Ring :: RingLinks(r, actions) == RingLinks(r, actions0);
      result := LinkRings();
      if result.Fail? {
        return;
      }
      forall i, j | 0 <= i < |schemes0| && 0 <= j < |schemes0[i].bindings.slotBindings|
        ensures var b := schemes0[i].bindings.slotBindings[j];
          SlotLink(rings, b.id, b.ring, b.defaultAction) == SlotLink(rings0, b.id, b.ring, b.defaultAction)
      {
        var b := schemes0[i].bindings.slotBindings[j];
        LinkingKeepsSlotLinks(rings0, rings, actions, b.id, b.ring, b.defaultAction);
      }
      assert forall c :: CommandFound(commands, c) == CommandFound(commands0, c);
      assert SchemesLink(schemes0, commands, rings) == SchemesLink(schemes0, commands0, rings0);
    }

    /**
     * `Settings::finalize`: actions and commands, then rings, then schemes, stopping at the
     * first error; `braille` stands for the result of loading the braille schemes.
     */
    method Finalize(braille: Result<BrailleSchemeManager, string>) returns (result: Outcome<string>)
      modifies this, SlotObjects(schemes)
      ensures result.Pass? <==>
        RingsLink(old(rings), old(actions)) && SchemesLink(old(schemes), old(commands), old(rings)) && braille.Success?
      ensures !RingsLink(old(rings), old(actions)) ==>
        result.Fail? && FirstMissingAction(old(rings), ActionIds(old(actions)), result.error)
      ensures RingsLink(old(rings), old(actions)) && !SchemesLink(old(schemes), old(commands), old(rings)) ==>
        result.Fail? && FirstSchemeError(old(schemes), commands, rings, result.error)
      ensures RingsLink(old(rings), old(actions)) && SchemesLink(old(schemes), old(commands), old(rings)) && braille.Failure? ==>
        result == Fail(braille.error)
      ensures result.Pass? ==>
        && |actions| == |old(actions)| && (forall i :: 0 <= i < |actions| ==> actions[i] == FinalizeAction(old(actions)[i]))
        && |commands| == |old(commands)| && (forall i :: 0 <= i < |commands| ==> commands[i] == FinalizeCommand(old(commands)[i]))
        && RingsLinkedTo(old(rings), rings, actions)
        && SchemesFinalized(old(schemes), schemes, commands, rings)
        && brailleSchemeManager == braille.value
    {
      result := CompileAndLinkRings();
      if result.Fail? {
        return;
      }
      result := LinkSchemes();
      if result.Fail? {
        return;
      }
      match braille {
        case Failure(e) =>
          return Fail(e);
        case Success(m) =>
          brailleSchemeManager := m;
      }
    }
  }
}

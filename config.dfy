/**
 * The configuration entities and their linking by id (`Action`, `Command`, `Ring`,
 * server/src/main.rs:35-146).
 */
module Config {
  import opened Wrappers
  import opened Text
  import opened Operations

  /** An action of a ring: its two shortcuts, as text and compiled. */
  datatype Action = Action(
    id: int, name: string, stickyCtrl: bool, stickyShift: bool, stickyAlt: bool,
    forwardShortcut: string, backwardShortcut: string,
    forwardOperation: Operation, backwardOperation: Operation)

  /** A command: one shortcut, as text and compiled. */
  datatype Command = Command(
    id: int, name: string, stickyCtrl: bool, stickyShift: bool, stickyAlt: bool,
    shortcut: string, operation: Operation)

  /** A ring: the ids of its actions and, once linked, copies of those actions. */
  datatype Ring = Ring(id: int, name: string, actions: seq<int>, actionInstances: seq<Action>)

  /** `Action::new`, which compiles both shortcuts. */
  function NewAction(id: int, name: string, stickyCtrl: bool, stickyShift: bool, stickyAlt: bool,
                     forwardShortcut: string, backwardShortcut: string): (a: Action)
    ensures Compiled(a)
  {
    Action(id, name, stickyCtrl, stickyShift, stickyAlt, forwardShortcut, backwardShortcut,
           Parse(forwardShortcut), Parse(backwardShortcut))
  }

  /** `Command::new`. */
  function NewCommand(id: int, name: string, stickyCtrl: bool, stickyShift: bool, stickyAlt: bool,
                      shortcut: string): (c: Command)
    ensures CommandCompiled(c)
  {
    Command(id, name, stickyCtrl, stickyShift, stickyAlt, shortcut, Parse(shortcut))
  }

  /** `Ring::new`: not yet linked. */
  function NewRing(id: int, name: string, actions: seq<int>): Ring {
    Ring(id, name, actions, [])
  }

  /** `Ring::default`. */
  const UnknownRing := NewRing(-1, "Unknown", [])

  /** An action whose operations are the compilations of its shortcuts. */
  predicate Compiled(a: Action) {
    a.forwardOperation == Parse(a.forwardShortcut) && a.backwardOperation == Parse(a.backwardShortcut)
  }

  predicate CommandCompiled(c: Command) {
    c.operation == Parse(c.shortcut)
  }

  /** `Action::finalize`, which always succeeds: everything but the operations is kept. */
  function FinalizeAction(a: Action): (r: Action)
    ensures Compiled(r)
    ensures r.(forwardOperation := a.forwardOperation, backwardOperation := a.backwardOperation) == a
    ensures Compiled(a) ==> r == a
  {
    a.(forwardOperation := Parse(a.forwardShortcut), backwardOperation := Parse(a.backwardShortcut))
  }

  /** `Command::finalize`, which always succeeds. */
  function FinalizeCommand(c: Command): (r: Command)
    ensures CommandCompiled(r)
    ensures r.(operation := c.operation) == c
    ensures CommandCompiled(c) ==> r == c
  {
    c.(operation := Parse(c.shortcut))
  }

  // ---------------------------------------------------------------------------------------
  // Lookup by id: every lookup of the source is a first-match linear scan
  // ---------------------------------------------------------------------------------------

  /** The first position holding `x`, if any. */
  function FirstIndex(xs: seq<int>, x: int): (r: Option<nat>)
    ensures r.Some? ==> r.value < |xs| && xs[r.value] == x && forall j :: 0 <= j < r.value ==> xs[j] != x
    ensures r.None? <==> forall j :: 0 <= j < |xs| ==> xs[j] != x
    decreases |xs|
  {
    if xs == [] then None
    else if xs[0] == x then Some(0)
    else match FirstIndex(xs[1..], x)
      case None => None
      case Some(k) => Some(k + 1)
  }

  /** A position holding `x` with no `x` before it is the first index. */
  lemma FirstIndexAt(xs: seq<int>, x: int, k: nat)
    requires k < |xs| && xs[k] == x && forall j :: 0 <= j < k ==> xs[j] != x
    ensures FirstIndex(xs, x) == Some(k)
  {
  }

  /**
   * The ids the `find` scans of `finalize` compare against, in order: one projection each for
   * actions, commands and rings, since a type parameter has no `id` field to project.
   */
  function ActionIds(actions: seq<Action>): (ids: seq<int>)
    ensures |ids| == |actions| && forall i :: 0 <= i < |actions| ==> ids[i] == actions[i].id
  {
    seq(|actions|, i requires 0 <= i < |actions| => actions[i].id)
  }

  function CommandIds(commands: seq<Command>): (ids: seq<int>)
    ensures |ids| == |commands| && forall i :: 0 <= i < |commands| ==> ids[i] == commands[i].id
  {
    seq(|commands|, i requires 0 <= i < |commands| => commands[i].id)
  }

  function RingIds(rings: seq<Ring>): (ids: seq<int>)
    ensures |ids| == |rings| && forall i :: 0 <= i < |rings| ==> ids[i] == rings[i].id
  {
    seq(|rings|, i requires 0 <= i < |rings| => rings[i].id)
  }

  function MissingAction(id: int): string {
    "Unable to find action with id " + IntToString(id)
  }

  /** Every action id of the ring names one of `actions`. */
  predicate RingLinks(ring: Ring, actions: seq<Action>) {
    forall i :: 0 <= i < |ring.actions| ==> FirstIndex(ActionIds(actions), ring.actions[i]).Some?
  }

  /** A linked ring: one instance per id, each carrying that id. */
  predicate Linked(ring: Ring) {
    && |ring.actionInstances| == |ring.actions|
    && forall i :: 0 <= i < |ring.actions| ==> ring.actionInstances[i].id == ring.actions[i]
  }

  /** The inner scan of `Ring::finalize`: the first action carrying `id`. */
  method FindAction(actions: seq<Action>, id: int) returns (found: Option<Action>)
    ensures found.Some? <==> FirstIndex(ActionIds(actions), id).Some?
    ensures found.Some? ==> found.value == actions[FirstIndex(ActionIds(actions), id).value]
  {
    var k := 0;
    while k < |actions|
      invariant 0 <= k <= |actions|
      invariant forall j :: 0 <= j < k ==> actions[j].id != id
    {
      if actions[k].id == id {
        FirstIndexAt(ActionIds(actions), id, k);
        return Some(actions[k]);
      }
      k := k + 1;
    }
    return None;
  }

  /** `Ring::finalize`: a copy of the first action with each id, or the first id with none. */
  method FinalizeRing(ring: Ring, actions: seq<Action>) returns (r: Result<Ring, string>)
    ensures r.Success? <==> RingLinks(ring, actions)
    ensures r.Success? ==>
      && r.value.(actionInstances := ring.actionInstances) == ring
      && Linked(r.value)
      && forall i :: 0 <= i < |ring.actions| ==>
           r.value.actionInstances[i] == actions[FirstIndex(ActionIds(actions), ring.actions[i]).value]
    ensures r.Failure? ==>
      exists k :: 0 <= k < |ring.actions| && r.error == MissingAction(ring.actions[k])
        && FirstIndex(ActionIds(actions), ring.actions[k]).None?
        && forall j :: 0 <= j < k ==> FirstIndex(ActionIds(actions), ring.actions[j]).Some?
  {
    var instances: seq<Action> := [];
    var i := 0;
    while i < |ring.actions|
      invariant 0 <= i <= |ring.actions|
      invariant |instances| == i
      invariant forall j :: 0 <= j < i ==> FirstIndex(ActionIds(actions), ring.actions[j]).Some?
      invariant forall j :: 0 <= j < i ==> instances[j] == actions[FirstIndex(ActionIds(actions), ring.actions[j]).value]
    {
      var found := FindAction(actions, ring.actions[i]);
      if found.None? {
        return Failure(MissingAction(ring.actions[i]));
      }
      ghost var prefix := instances;
      instances := instances + [found.value];
      assert instances[..i] == prefix && instances[i] == found.value;
      i := i + 1;
    }
    return Success(ring.(actionInstances := instances));
  }

  /** The copies a ring links are compiled when the actions were compiled first. */
  lemma FinalizedRingCompiled(ring: Ring, actions: seq<Action>, linked: Ring)
    requires forall a :: a in actions ==> Compiled(a)
    requires RingLinks(ring, actions)
    requires |linked.actionInstances| == |ring.actions|
    requires forall i :: 0 <= i < |ring.actions| ==>
      linked.actionInstances[i] == actions[FirstIndex(ActionIds(actions), ring.actions[i]).value]
    ensures forall a :: a in linked.actionInstances ==> Compiled(a)
  {
    forall a | a in linked.actionInstances ensures Compiled(a) {
      var i :| 0 <= i < |linked.actionInstances| && linked.actionInstances[i] == a;
      var k := FirstIndex(ActionIds(actions), ring.actions[i]).value;
      assert actions[k] in actions;
    }
  }
}

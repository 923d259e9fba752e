/**
 * The key executor: five held-modifier flags and the key events it emits
 * (`KeyExecutor`, server/src/main.rs:1014-1121). The keyboard library is replaced by
 * the log of events it would be asked to inject.
 */
module KeyExecution {
  import opened Operations

  /** The five modifier keys the executor holds. */
  datatype Modifier = CtrlKey | ShiftKey | AltKey | MetaKey | CapsLockKey

  /** The library key a modifier is pressed and released as. */
  function KeyOf(m: Modifier): Key {
    match m
    case CtrlKey => Control
    case ShiftKey => Shift
    case AltKey => Alt
    case MetaKey => Meta
    case CapsLockKey => CapsLock
  }

  /** One call into the keyboard library: `key_down`, `key_up` of a modifier, or `key_click`. */
  datatype KeyEvent = Down(modifier: Modifier) | Up(modifier: Modifier) | Click(key: Key)

  /**
   * The executor's fields, with the events emitted so far; `held` holds the modifiers whose
   * `*_down` flag is set.
   */
  datatype ExecState = ExecState(lastObjectId: int, held: set<Modifier>, log: seq<KeyEvent>)

  /** `KeyExecutor::new`: no object executed yet, nothing held, nothing emitted. */
  const Initial := ExecState(-1, {}, [])

  /**
   * `ctrl_down` and its siblings, called when `b` holds: the key is pressed unless it is
   * already held; when `b` is false nothing changes.
   */
  function PressedIf(st: ExecState, b: bool, k: Modifier): ExecState {
    ExecState(st.lastObjectId, if b then st.held + {k} else st.held,
              if b && k !in st.held then st.log + [Down(k)] else st.log)
  }

  /** `ctrl_up` and its siblings, called when `b` holds: the key is released if it is held. */
  function ReleasedIf(st: ExecState, b: bool, k: Modifier): ExecState {
    ExecState(st.lastObjectId, if b then st.held - {k} else st.held,
              if b && k in st.held then st.log + [Up(k)] else st.log)
  }

  /** One call of a `*_down`/`*_up` method guarded by `when`, or the `key_click`. */
  datatype Step = PressStep(when: bool, modifier: Modifier) | ReleaseStep(when: bool, modifier: Modifier) | ClickStep(key: Key)

  function Apply(st: ExecState, step: Step): ExecState {
    match step
    case PressStep(b, m) => PressedIf(st, b, m)
    case ReleaseStep(b, m) => ReleasedIf(st, b, m)
    case ClickStep(key) => st.(log := st.log + [Click(key)])
  }

  /** The state after a sequence of calls. */
  function Run(st: ExecState, steps: seq<Step>): ExecState
    decreases |steps|
  {
    if steps == [] then st else Run(Apply(st, steps[0]), steps[1..])
  }

  /** The presses `execute` makes for the modifiers a shortcut names, in the source's order. */
  function PressSteps(op: Operation): seq<Step>
    requires op.Shortcut?
  {
    [PressStep(op.ctrl, CtrlKey), PressStep(op.shift, ShiftKey), PressStep(op.alt, AltKey),
     PressStep(op.meta, MetaKey), PressStep(op.capsLock, CapsLockKey)]
  }

  /**
   * The releases that end `execute`: ctrl, shift and alt unless sticky, then meta and caps
   * lock always.
   */
  function ReleaseSteps(stickyCtrl: bool, stickyShift: bool, stickyAlt: bool): seq<Step> {
    [ReleaseStep(!stickyCtrl, CtrlKey), ReleaseStep(!stickyShift, ShiftKey), ReleaseStep(!stickyAlt, AltKey),
     ReleaseStep(true, MetaKey), ReleaseStep(true, CapsLockKey)]
  }

  /** `release_modifiers`: the same five releases, none of them sticky. */
  function ReleasedAll(st: ExecState): ExecState {
    Run(st, ReleaseSteps(false, false, false))
  }

  /** The start of `execute`: a new object id is recorded and releases every modifier. */
  function Entered(st: ExecState, objectId: int): ExecState {
    if objectId != st.lastObjectId then ReleasedAll(st.(lastObjectId := objectId)) else st
  }

  /** The calls `execute` makes for a shortcut once the object id is settled. */
  function ShortcutSteps(op: Operation, stickyCtrl: bool, stickyShift: bool, stickyAlt: bool): seq<Step>
    requires op.Shortcut?
  {
    PressSteps(op) + [ClickStep(op.key)] + ReleaseSteps(stickyCtrl, stickyShift, stickyAlt)
  }

  /** `KeyExecutor::execute` on the state; only shortcuts do anything. */
  function Executed(st: ExecState, objectId: int, op: Operation, stickyCtrl: bool, stickyShift: bool, stickyAlt: bool): ExecState {
    if !op.Shortcut? then st
    else Run(Entered(st, objectId), ShortcutSteps(op, stickyCtrl, stickyShift, stickyAlt))
  }

  // ---------------------------------------------------------------------------------------
  // The log as the reference: what it says is held
  // ---------------------------------------------------------------------------------------

  /** Whether the last Down/Up event for `k` in the log is a Down. */
  function HeldAfter(log: seq<KeyEvent>, k: Modifier): bool {
    if log == [] then false
    else if log[|log| - 1] == Down(k) then true
    else if log[|log| - 1] == Up(k) then false
    else HeldAfter(log[..|log| - 1], k)
  }

  /** Every flag says what the log says about its key. */
  predicate Consistent(st: ExecState) {
    forall k :: k in st.held <==> HeldAfter(st.log, k)
  }

  /** Downs and ups alternate per key: a key goes down only when up, and up only when down. */
  predicate WellPaired(log: seq<KeyEvent>) {
    log == [] ||
      var init := log[..|log| - 1];
      var e := log[|log| - 1];
      && WellPaired(init)
      && (e.Down? ==> !HeldAfter(init, e.modifier))
      && (e.Up? ==> HeldAfter(init, e.modifier))
  }

  predicate Good(st: ExecState) {
    Consistent(st) && WellPaired(st.log)
  }

  /** The keys clicked in a log, in order. */
  function ClickedKeys(log: seq<KeyEvent>): seq<Key> {
    if log == [] then []
    else ClickedKeys(log[..|log| - 1]) + (if log[|log| - 1].Click? then [log[|log| - 1].key] else [])
  }

  /** `b`'s log continues `a`'s. */
  predicate Extends(a: ExecState, b: ExecState) {
    |a.log| <= |b.log| && b.log[..|a.log|] == a.log
  }

  lemma ExtendsTrans(a: ExecState, b: ExecState, c: ExecState)
    requires Extends(a, b) && Extends(b, c)
    ensures Extends(a, c)
  {
    assert c.log[..|a.log|] == c.log[..|b.log|][..|a.log|];
  }

  lemma AppendEvent(log: seq<KeyEvent>, e: KeyEvent)
    ensures forall k :: HeldAfter(log + [e], k) == if e == Down(k) then true else if e == Up(k) then false else HeldAfter(log, k)
    ensures ClickedKeys(log + [e]) == ClickedKeys(log) + (if e.Click? then [e.key] else [])
    ensures WellPaired(log + [e]) == (WellPaired(log) && (e.Down? ==> !HeldAfter(log, e.modifier)) && (e.Up? ==> HeldAfter(log, e.modifier)))
  {
    assert (log + [e])[..|log|] == log;
  }

  /** A press or release that changes the flag keeps the state good; so does a click. */
  lemma AppendGood(st: ExecState, e: KeyEvent, held: set<Modifier>)
    requires Good(st)
    requires e.Down? ==> e.modifier !in st.held && held == st.held + {e.modifier}
    requires e.Up? ==> e.modifier in st.held && held == st.held - {e.modifier}
    requires e.Click? ==> held == st.held
    ensures Good(ExecState(st.lastObjectId, held, st.log + [e]))
  {
    AppendEvent(st.log, e);
  }

  // ---------------------------------------------------------------------------------------
  // Runs of steps
  // ---------------------------------------------------------------------------------------

  /** The keys a run of steps clicks, in order. */
  function StepClicks(steps: seq<Step>): seq<Key> {
    if steps == [] then [] else (if steps[0].ClickStep? then [steps[0].key] else []) + StepClicks(steps[1..])
  }

  /** Running the steps from index `i` on is applying step `i`, then running the rest. */
  lemma RunFrom(st: ExecState, steps: seq<Step>, i: nat)
    requires i < |steps|
    ensures Run(st, steps[i..]) == Run(Apply(st, steps[i]), steps[i + 1..])
    ensures StepClicks(steps[i..]) == (if steps[i].ClickStep? then [steps[i].key] else []) + StepClicks(steps[i + 1..])
  {
    assert steps[i..][1..] == steps[i + 1..];
  }

  /** Running two lists of steps one after the other is running their concatenation. */
  lemma {:induction false} RunConcat(st: ExecState, a: seq<Step>, b: seq<Step>)
    ensures Run(st, a + b) == Run(Run(st, a), b)
    ensures StepClicks(a + b) == StepClicks(a) + StepClicks(b)
    decreases |a|
  {
    if a != [] {
      assert (a + b)[1..] == a[1..] + b;
      RunConcat(Apply(st, a[0]), a[1..], b);
    } else {
      assert a + b == b;
    }
  }

  /** A run of five steps that click nothing, one step at a time. */
  lemma RunFive(st: ExecState, steps: seq<Step>)
    requires |steps| == 5 && forall i :: 0 <= i < 5 ==> !steps[i].ClickStep?
    ensures Run(st, steps) == Apply(Apply(Apply(Apply(Apply(st, steps[0]), steps[1]), steps[2]), steps[3]), steps[4])
    ensures StepClicks(steps) == []
  {
    var s1 := Apply(st, steps[0]);
    var s2 := Apply(s1, steps[1]);
    var s3 := Apply(s2, steps[2]);
    var s4 := Apply(s3, steps[3]);
    assert steps[0..] == steps;
    RunFrom(st, steps, 0);
    RunFrom(s1, steps, 1);
    RunFrom(s2, steps, 2);
    RunFrom(s3, steps, 3);
    RunFrom(s4, steps, 4);
  }

  /** A shortcut's run: its presses, the click, its releases; it clicks the key once. */
  lemma ShortcutRun(s0: ExecState, op: Operation, stickyCtrl: bool, stickyShift: bool, stickyAlt: bool)
    requires op.Shortcut?
    ensures Run(s0, ShortcutSteps(op, stickyCtrl, stickyShift, stickyAlt))
      == Run(Run(s0, PressSteps(op)).(log := Run(s0, PressSteps(op)).log + [Click(op.key)]), ReleaseSteps(stickyCtrl, stickyShift, stickyAlt))
    ensures StepClicks(ShortcutSteps(op, stickyCtrl, stickyShift, stickyAlt)) == [op.key]
  {
    var presses := PressSteps(op);
    var releases := ReleaseSteps(stickyCtrl, stickyShift, stickyAlt);
    RunFive(s0, presses);
    RunFive(s0, releases);
    RunFrom(Run(s0, presses), [ClickStep(op.key)], 0);
    RunConcat(s0, presses, [ClickStep(op.key)]);
    RunConcat(s0, presses + [ClickStep(op.key)], releases);
  }

  // ---------------------------------------------------------------------------------------
  // The invariant: flags and log agree, downs and ups pair up
  // ---------------------------------------------------------------------------------------

  /** One step keeps the state good, only appends to the log, and keeps the object id. */
  lemma ApplyGood(st: ExecState, step: Step)
    requires Good(st)
    ensures var r := Apply(st, step);
      Good(r) && Extends(st, r) && r.lastObjectId == st.lastObjectId
  {
    var r := Apply(st, step);
    match step
    case PressStep(b, k) =>
      if b && k !in st.held {
        AppendGood(st, Down(k), r.held);
      } else {
        assert r.held == st.held;
        assert r == st;
      }
    case ReleaseStep(b, k) =>
      if b && k in st.held {
        AppendGood(st, Up(k), r.held);
      } else {
        assert r.held == st.held;
        assert r == st;
      }
    case ClickStep(key) =>
      AppendGood(st, Click(key), st.held);
    assert r.log[..|st.log|] == st.log;
  }

  /** A run keeps the invariant, only appends to the log, and keeps the object id. */
  lemma {:induction false} RunGood(st: ExecState, steps: seq<Step>)
    requires Good(st)
    ensures var r := Run(st, steps);
      Good(r) && Extends(st, r) && r.lastObjectId == st.lastObjectId
    decreases |steps|
  {
    if steps != [] {
      var a := Apply(st, steps[0]);
      ApplyGood(st, steps[0]);
      RunGood(a, steps[1..]);
      ExtendsTrans(st, a, Run(st, steps));
    }
  }

  /** One step adds to the clicked keys only its own click. */
  lemma ApplyClicks(st: ExecState, step: Step)
    ensures ClickedKeys(Apply(st, step).log) == ClickedKeys(st.log) + if step.ClickStep? then [step.key] else []
  {
    match step
    case PressStep(_, k) => AppendEvent(st.log, Down(k));
    case ReleaseStep(_, k) => AppendEvent(st.log, Up(k));
    case ClickStep(key) => AppendEvent(st.log, Click(key));
  }

  /** A run adds to the clicked keys exactly its click steps, in order. */
  lemma {:induction false} RunClicks(st: ExecState, steps: seq<Step>)
    ensures ClickedKeys(Run(st, steps).log) == ClickedKeys(st.log) + StepClicks(steps)
    decreases |steps|
  {
    if steps != [] {
      var a := Apply(st, steps[0]);
      var c := if steps[0].ClickStep? then [steps[0].key] else [];
      ApplyClicks(st, steps[0]);
      RunClicks(a, steps[1..]);
      assert StepClicks(steps) == c + StepClicks(steps[1..]);
      assert ClickedKeys(Run(st, steps).log) == (ClickedKeys(st.log) + c) + StepClicks(steps[1..]);
    }
  }

  /**
   * Executing keeps every flag equal to what the log says about its key and the downs and
   * ups paired, only appends to the log, and clicks exactly the shortcut's key, once.
   */
  lemma ExecutedGood(st: ExecState, objectId: int, op: Operation, stickyCtrl: bool, stickyShift: bool, stickyAlt: bool)
    requires Good(st)
    ensures var r := Executed(st, objectId, op, stickyCtrl, stickyShift, stickyAlt);
      && Good(r) && Extends(st, r)
      && ClickedKeys(r.log) == ClickedKeys(st.log) + (if op.Shortcut? then [op.key] else [])
  {
    if op.Shortcut? {
      var s0 := Entered(st, objectId);
      if objectId != st.lastObjectId {
        var s := st.(lastObjectId := objectId);
        RunFive(s, ReleaseSteps(false, false, false));
        RunGood(s, ReleaseSteps(false, false, false));
        RunClicks(s, ReleaseSteps(false, false, false));
        assert ClickedKeys(s0.log) == ClickedKeys(st.log) + [];
      }
      assert Good(s0) && Extends(st, s0) && ClickedKeys(s0.log) == ClickedKeys(st.log);
      var steps := ShortcutSteps(op, stickyCtrl, stickyShift, stickyAlt);
      ShortcutRun(s0, op, stickyCtrl, stickyShift, stickyAlt);
      RunGood(s0, steps);
      RunClicks(s0, steps);
      var r := Run(s0, steps);
      assert ClickedKeys(r.log) == ClickedKeys(s0.log) + [op.key];
      ExtendsTrans(st, s0, r);
    }
  }

  lemma InitialGood()
    ensures Good(Initial)
  {
  }

  // ---------------------------------------------------------------------------------------
  // Which modifiers stay held
  // ---------------------------------------------------------------------------------------

  /** The presses hold every modifier that was held or that the shortcut names. */
  lemma PressFlags(st: ExecState, op: Operation)
    requires op.Shortcut?
    ensures var r := Run(st, PressSteps(op));
      && (CtrlKey in r.held <==> CtrlKey in st.held || op.ctrl)
      && (ShiftKey in r.held <==> ShiftKey in st.held || op.shift)
      && (AltKey in r.held <==> AltKey in st.held || op.alt)
      && (MetaKey in r.held <==> MetaKey in st.held || op.meta)
      && (CapsLockKey in r.held <==> CapsLockKey in st.held || op.capsLock)
      && r.lastObjectId == st.lastObjectId
  {
    RunFive(st, PressSteps(op));
  }

  /**
   * The closing releases leave ctrl, shift and alt held only when sticky and held before,
   * and meta and caps lock up.
   */
  lemma ReleaseFlags(st: ExecState, stickyCtrl: bool, stickyShift: bool, stickyAlt: bool)
    ensures var r := Run(st, ReleaseSteps(stickyCtrl, stickyShift, stickyAlt));
      && (CtrlKey in r.held <==> CtrlKey in st.held && stickyCtrl)
      && (ShiftKey in r.held <==> ShiftKey in st.held && stickyShift)
      && (AltKey in r.held <==> AltKey in st.held && stickyAlt)
      && MetaKey !in r.held && CapsLockKey !in r.held
      && r.lastObjectId == st.lastObjectId
  {
    RunFive(st, ReleaseSteps(stickyCtrl, stickyShift, stickyAlt));
  }

  /** `release_modifiers` leaves every modifier up and keeps the object id. */
  lemma ReleasedAllUp(st: ExecState)
    ensures ReleasedAll(st).held == {} && ReleasedAll(st).lastObjectId == st.lastObjectId
  {
    ReleaseFlags(st, false, false, false);
    var h := ReleasedAll(st).held;
    forall m | m in h ensures false {
      match m
      case CtrlKey =>
      case ShiftKey =>
      case AltKey =>
      case MetaKey =>
      case CapsLockKey =>
    }
  }

  /**
   * After a shortcut the object is recorded and meta and caps lock are up; ctrl, shift and
   * alt stay held only when sticky and either named by the shortcut or still held from the
   * same object, since a new object starts from released modifiers.
   */
  lemma ExecutedFlags(st: ExecState, objectId: int, op: Operation, stickyCtrl: bool, stickyShift: bool, stickyAlt: bool)
    requires op.Shortcut?
    ensures var r := Executed(st, objectId, op, stickyCtrl, stickyShift, stickyAlt);
      var same := objectId == st.lastObjectId;
      && r.lastObjectId == objectId && MetaKey !in r.held && CapsLockKey !in r.held
      && (CtrlKey in r.held <==> stickyCtrl && (op.ctrl || (same && CtrlKey in st.held)))
      && (ShiftKey in r.held <==> stickyShift && (op.shift || (same && ShiftKey in st.held)))
      && (AltKey in r.held <==> stickyAlt && (op.alt || (same && AltKey in st.held)))
  {
    var s0 := Entered(st, objectId);
    if objectId != st.lastObjectId {
      ReleaseFlags(st.(lastObjectId := objectId), false, false, false);
    }
    var s1 := Run(s0, PressSteps(op));
    PressFlags(s0, op);
    ReleaseFlags(s1.(log := s1.log + [Click(op.key)]), stickyCtrl, stickyShift, stickyAlt);
    ShortcutRun(s0, op, stickyCtrl, stickyShift, stickyAlt);
  }

  /** Executing anything other than a shortcut changes neither the flags nor the log. */
  lemma NonShortcutChangesNothing(st: ExecState, objectId: int, op: Operation, stickyCtrl: bool, stickyShift: bool, stickyAlt: bool)
    requires !op.Shortcut?
    ensures Executed(st, objectId, op, stickyCtrl, stickyShift, stickyAlt) == st
  {
  }

  // ---------------------------------------------------------------------------------------
  // The executor object
  // ---------------------------------------------------------------------------------------

  /** The set of modifiers whose flag is set. */
  function HeldSet(ctrl: bool, shift: bool, alt: bool, meta: bool, capsLock: bool): (r: set<Modifier>)
    ensures (CtrlKey in r <==> ctrl) && (ShiftKey in r <==> shift) && (AltKey in r <==> alt)
    ensures (MetaKey in r <==> meta) && (CapsLockKey in r <==> capsLock)
  {
    (if ctrl then {CtrlKey} else {}) + (if shift then {ShiftKey} else {}) + (if alt then {AltKey} else {})
      + (if meta then {MetaKey} else {}) + (if capsLock then {CapsLockKey} else {})
  }

  /** The arguments of one `execute` call. */
  datatype Call = Call(objectId: int, operation: Operation, stickyCtrl: bool, stickyShift: bool, stickyAlt: bool)

  /** One `execute` call on a key executor state. */
  function Performed(st: ExecState, q: Call): ExecState {
    Executed(st, q.objectId, q.operation, q.stickyCtrl, q.stickyShift, q.stickyAlt)
  }

  /** The key executor's state after the calls, in order. */
  function Replayed(st: ExecState, qs: seq<Call>): ExecState {
    if qs == [] then st else Performed(Replayed(st, qs[..|qs| - 1]), qs[|qs| - 1])
  }

  lemma ReplayedOne(st: ExecState, q: Call)
    ensures Replayed(st, [q]) == Performed(st, q)
  {
    assert [q][..0] == [];
  }

  lemma {:induction false} ReplayedConcat(st: ExecState, a: seq<Call>, b: seq<Call>)
    ensures Replayed(st, a + b) == Replayed(Replayed(st, a), b)
    decreases |b|
  {
    if b == [] {
      assert a + b == a;
    } else {
      var ab := a + b;
      assert ab[..|ab| - 1] == a + b[..|b| - 1];
      ReplayedConcat(st, a, b[..|b| - 1]);
    }
  }

  /** Any calls keep the key executor's invariant and only append to what it emitted. */
  lemma {:induction false} ReplayedGood(st: ExecState, qs: seq<Call>)
    requires Good(st)
    ensures Good(Replayed(st, qs)) && Extends(st, Replayed(st, qs))
  {
    if qs != [] {
      var q := qs[|qs| - 1];
      var pre := Replayed(st, qs[..|qs| - 1]);
      ReplayedGood(st, qs[..|qs| - 1]);
      ExecutedGood(pre, q.objectId, q.operation, q.stickyCtrl, q.stickyShift, q.stickyAlt);
      ExtendsTrans(st, pre, Replayed(st, qs));
    }
  }

  /**
   * `KeyExecutor`: the held flags, the last executed object, and the emitted events. The
   * ghost `calls` records the `execute` calls made so far, so that callers can be specified
   * by the calls they make.
   */
  class KeyExecutor {
    var lastExecutedObjectId: int
    var ctrlDown: bool
    var shiftDown: bool
    var altDown: bool
    var metaDown: bool
    var capsLockDown: bool
    var log: seq<KeyEvent>
    ghost var calls: seq<Call>

    function State(): ExecState
      reads this
    {
      ExecState(lastExecutedObjectId, HeldSet(ctrlDown, shiftDown, altDown, metaDown, capsLockDown), log)
    }

    /** The flags agree with the emitted events, which pair up. */
    ghost predicate Valid()
      reads this
    {
      Good(State())
    }

    /** `KeyExecutor::new`. */
    constructor ()
      ensures State() == Initial && Valid() && calls == []
    {
      lastExecutedObjectId := -1;
      ctrlDown, shiftDown, altDown, metaDown, capsLockDown := false, false, false, false, false;
      log := [];
      calls := [];
      assert HeldSet(false, false, false, false, false) == {};
    }

    function Flag(m: Modifier): bool
      reads this
    {
      match m
      case CtrlKey => ctrlDown
      case ShiftKey => shiftDown
      case AltKey => altDown
      case MetaKey => metaDown
      case CapsLockKey => capsLockDown
    }

    method SetFlag(m: Modifier, b: bool)
      modifies this
      ensures lastExecutedObjectId == old(lastExecutedObjectId) && log == old(log)
      ensures State().held == if b then old(State().held) + {m} else old(State().held) - {m}
    {
      match m
      case CtrlKey => ctrlDown := b;
      case ShiftKey => shiftDown := b;
      case AltKey => altDown := b;
      case MetaKey => metaDown := b;
      case CapsLockKey => capsLockDown := b;
    }

    /** `ctrl_down`, `shift_down`, `alt_down`, `meta_down`, `caps_lock_down`. */
    method Press(m: Modifier)
      modifies this
      ensures State() == PressedIf(old(State()), true, m)
    {
      if !Flag(m) {
        log := log + [Down(m)];
        SetFlag(m, true);
      } else {
        assert old(State()).held + {m} == old(State()).held;
      }
    }

    /** `ctrl_up`, `shift_up`, `alt_up`, `meta_up`, `caps_lock_up`. */
    method Release(m: Modifier)
      modifies this
      ensures State() == ReleasedIf(old(State()), true, m)
    {
      if Flag(m) {
        log := log + [Up(m)];
        SetFlag(m, false);
      } else {
        assert old(State()).held - {m} == old(State()).held;
      }
    }

    /** `release_modifiers`. */
    method ReleaseModifiers()
      modifies this
      ensures State() == ReleasedAll(old(State()))
    {
      RunFive(State(), ReleaseSteps(false, false, false));
      Release(CtrlKey);
      Release(ShiftKey);
      Release(AltKey);
      Release(MetaKey);
      Release(CapsLockKey);
    }

    /** The presses in `execute`: each modifier the shortcut names, in order. */
    method PressNamed(operation: Operation)
      requires operation.Shortcut?
      modifies this
      ensures State() == Run(old(State()), PressSteps(operation))
    {
      RunFive(State(), PressSteps(operation));
      if operation.ctrl { Press(CtrlKey); }
      if operation.shift { Press(ShiftKey); }
      if operation.alt { Press(AltKey); }
      if operation.meta { Press(MetaKey); }
      if operation.capsLock { Press(CapsLockKey); }
    }

    /** The releases in `execute`: the non-sticky ones of ctrl, shift and alt, then meta and caps lock. */
    method ReleaseUnlessSticky(stickyCtrl: bool, stickyShift: bool, stickyAlt: bool)
      modifies this
      ensures State() == Run(old(State()), ReleaseSteps(stickyCtrl, stickyShift, stickyAlt))
    {
      RunFive(State(), ReleaseSteps(stickyCtrl, stickyShift, stickyAlt));
      if !stickyCtrl { Release(CtrlKey); }
      if !stickyShift { Release(ShiftKey); }
      if !stickyAlt { Release(AltKey); }
      Release(MetaKey);
      Release(CapsLockKey);
    }

    /** The shortcut branch of `execute`: settle the object id, then press, click and release. */
    method RunShortcut(objectId: int, operation: Operation, stickyCtrl: bool, stickyShift: bool, stickyAlt: bool)
      requires operation.Shortcut?
      modifies this
      ensures State() == Run(Entered(old(State()), objectId), ShortcutSteps(operation, stickyCtrl, stickyShift, stickyAlt))
    {
      ghost var st := State();
      if objectId != lastExecutedObjectId {
        lastExecutedObjectId := objectId;
        ReleaseModifiers();
      }
      ghost var s0 := State();
      assert s0 == Entered(st, objectId);
      PressNamed(operation);
      log := log + [Click(operation.key)];
      ReleaseUnlessSticky(stickyCtrl, stickyShift, stickyAlt);
      ShortcutRun(s0, operation, stickyCtrl, stickyShift, stickyAlt);
    }

    /** `KeyExecutor::execute`. */
    method Execute(objectId: int, operation: Operation, stickyCtrl: bool, stickyShift: bool, stickyAlt: bool)
      requires Valid()
      modifies this
      ensures Valid()
      ensures State() == Executed(old(State()), objectId, operation, stickyCtrl, stickyShift, stickyAlt)
      ensures calls == old(calls) + [Call(objectId, operation, stickyCtrl, stickyShift, stickyAlt)]
    {
      ghost var st := State();
      ghost var before := calls;
      ExecutedGood(st, objectId, operation, stickyCtrl, stickyShift, stickyAlt);
      if operation.Shortcut? {
        RunShortcut(objectId, operation, stickyCtrl, stickyShift, stickyAlt);
      }
      calls := before + [Call(objectId, operation, stickyCtrl, stickyShift, stickyAlt)];
    }
  }
}

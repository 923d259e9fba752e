/**
 * Slot bindings: a copy of a ring with a cursor that gestures move
 * (`SlotBinding`, server/src/main.rs:148-235).
 */
module Slots {
  import opened Wrappers
  import opened Text
  import opened Config

  // ---------------------------------------------------------------------------------------
  // The cursor arithmetic, on a ring of n actions
  // ---------------------------------------------------------------------------------------

  /** `next_action`: one step forward, wrapping to 0; nothing on an empty ring. */
  function NextPosition(p: nat, n: nat): (r: nat)
    ensures n == 0 ==> r == p
    ensures n > 0 ==> r < n
  {
    if n == 0 then p else (p + 1) % n
  }

  /** `previous_action`: one step back, wrapping to n - 1; nothing on an empty ring. */
  function PreviousPosition(p: nat, n: nat): (r: nat)
    ensures n == 0 ==> r == p
    ensures p < n ==> r < n
  {
    if n == 0 then p else if p == 0 then n - 1 else p - 1
  }

  /** The cursor after k steps forward. */
  function NextTimes(p: nat, n: nat, k: nat): nat {
    if k == 0 then p else NextPosition(NextTimes(p, n, k - 1), n)
  }

  /** The cursor after k steps back. */
  function PreviousTimes(p: nat, n: nat, k: nat): nat {
    if k == 0 then p else PreviousPosition(PreviousTimes(p, n, k - 1), n)
  }

  lemma ModBelow(x: int, n: int)
    requires 0 <= x < n
    ensures x % n == x
  {
  }

  lemma ModSelf(n: int)
    requires 0 < n
    ensures n % n == 0
  {
  }

  /** Inside the ring a step forward is p + 1, or 0 from the last position. */
  lemma NextStep(p: nat, n: nat)
    requires p < n
    ensures NextPosition(p, n) == if p + 1 < n then p + 1 else 0
  {
    if p + 1 < n { ModBelow(p + 1, n); } else { ModSelf(n); }
  }

  /** Stepping back undoes stepping forward, and the other way round. */
  lemma StepsUndo(p: nat, n: nat)
    requires p < n
    ensures PreviousPosition(NextPosition(p, n), n) == p
    ensures NextPosition(PreviousPosition(p, n), n) == p
  {
    NextStep(p, n);
    NextStep(PreviousPosition(p, n), n);
  }

  lemma {:induction false} NextTimesConcat(p: nat, n: nat, a: nat, b: nat)
    ensures NextTimes(p, n, a + b) == NextTimes(NextTimes(p, n, a), n, b)
  {
    if b > 0 {
      NextTimesConcat(p, n, a, b - 1);
    }
  }

  lemma {:induction false} PreviousTimesConcat(p: nat, n: nat, a: nat, b: nat)
    ensures PreviousTimes(p, n, a + b) == PreviousTimes(PreviousTimes(p, n, a), n, b)
  {
    if b > 0 {
      PreviousTimesConcat(p, n, a, b - 1);
    }
  }

  /** Forward steps that stay inside the ring just count up. */
  lemma {:induction false} NextTimesClimb(p: nat, n: nat, k: nat)
    requires p + k < n
    ensures NextTimes(p, n, k) == p + k
  {
    if k > 0 {
      NextTimesClimb(p, n, k - 1);
      NextStep(p + k - 1, n);
    }
  }

  /** Backward steps that stay at or above 0 just count down. */
  lemma {:induction false} PreviousTimesDescend(p: nat, n: nat, k: nat)
    requires k <= p < n
    ensures PreviousTimes(p, n, k) == p - k
  {
    if k > 0 {
      PreviousTimesDescend(p, n, k - 1);
    }
  }

  /** Going forward round the whole ring comes back to the start. */
  lemma NextFullCircle(p: nat, n: nat)
    requires p < n
    ensures NextTimes(p, n, n) == p
  {
    NextTimesConcat(p, n, n - p, p);
    NextTimesClimb(p, n, n - p - 1);
    NextStep(n - 1, n);
    NextTimesClimb(0, n, p);
  }

  /** So does going backward round it. */
  lemma PreviousFullCircle(p: nat, n: nat)
    requires p < n
    ensures PreviousTimes(p, n, n) == p
  {
    PreviousTimesConcat(p, n, p + 1, n - p - 1);
    PreviousTimesDescend(p, n, p);
    PreviousTimesDescend(n - 1, n, n - p - 1);
  }

  /** On an empty ring no number of moves changes the cursor. */
  lemma {:induction false} EmptyRingStill(p: nat, k: nat)
    ensures NextTimes(p, 0, k) == p && PreviousTimes(p, 0, k) == p
  {
    if k > 0 {
      EmptyRingStill(p, k - 1);
    }
  }

  // ---------------------------------------------------------------------------------------
  // Linking a binding to its ring
  // ---------------------------------------------------------------------------------------

  function MissingRing(ring: int): string {
    "Unable to find ring with id " + IntToString(ring)
  }

  /** The source's message, misspelling included. */
  function MissingDefault(binding: int, ring: int, defaultAction: int): string {
    "Error while finalizing SlotBinding " + IntToString(binding) + ": Ring " + IntToString(ring)
    + " does nto contain default action " + IntToString(defaultAction) + "."
  }

  /**
   * What `SlotBinding::finalize` looks up: the first ring with the id, then the first
   * position of the default action in that ring's id list.
   */
  function SlotLink(rings: seq<Ring>, binding: int, ring: int, defaultAction: int): (r: Result<(nat, nat), string>)
    ensures r.Success? ==> r.value.0 < |rings| && r.value.1 < |rings[r.value.0].actions|
  {
    match FirstIndex(RingIds(rings), ring)
    case None => Failure(MissingRing(ring))
    case Some(k) =>
      match FirstIndex(rings[k].actions, defaultAction)
      case None => Failure(MissingDefault(binding, ring, defaultAction))
      case Some(p) => Success((k, p))
  }

  /** The link succeeds exactly when some ring has the id and that first ring lists the default action. */
  lemma SlotLinkMeaning(rings: seq<Ring>, binding: int, ring: int, defaultAction: int)
    ensures var r := SlotLink(rings, binding, ring, defaultAction);
      && ((forall k :: 0 <= k < |rings| ==> rings[k].id != ring) <==> r == Failure(MissingRing(ring)))
      && (r.Success? ==>
            && rings[r.value.0].id == ring && (forall j :: 0 <= j < r.value.0 ==> rings[j].id != ring)
            && rings[r.value.0].actions[r.value.1] == defaultAction
            && forall j :: 0 <= j < r.value.1 ==> rings[r.value.0].actions[j] != defaultAction)
      && (r.Failure? && r != Failure(MissingRing(ring)) ==>
            r == Failure(MissingDefault(binding, ring, defaultAction)))
  {
    var k := FirstIndex(RingIds(rings), ring);
    if k.Some? {
      assert rings[k.value].id == RingIds(rings)[k.value];
      assert MissingRing(ring) != MissingDefault(binding, ring, defaultAction) by {
        assert MissingRing(ring)[0] == 'U' && MissingDefault(binding, ring, defaultAction)[0] == 'E';
      }
    }
  }

  // ---------------------------------------------------------------------------------------
  // The binding
  // ---------------------------------------------------------------------------------------

  /** `SlotBinding`: its configuration, its own copy of the ring, and the cursor. */
  class SlotBinding {
    const id: int
    const name: string
    const slot: string
    const ring: int
    const defaultAction: int
    const fingerCount: int
    const modifierCount: int
    var defaultPosition: nat
    var position: nat
    var ringInstance: Ring

    /** On a non-empty ring both cursors point into it. */
    ghost predicate Valid()
      reads this
    {
      |ringInstance.actionInstances| == 0
      || (position < |ringInstance.actionInstances| && defaultPosition < |ringInstance.actionInstances|)
    }

    /** `SlotBinding::new`: not yet linked, both cursors at 0. */
    constructor (id: int, name: string, slot: string, ring: int, defaultAction: int, fingerCount: int, modifierCount: int)
      ensures Valid()
      ensures this.id == id && this.name == name && this.slot == slot && this.ring == ring
      ensures this.defaultAction == defaultAction && this.fingerCount == fingerCount && this.modifierCount == modifierCount
      ensures position == 0 && defaultPosition == 0 && ringInstance == UnknownRing
    {
      this.id := id;
      this.name := name;
      this.slot := slot;
      this.ring := ring;
      this.defaultAction := defaultAction;
      this.fingerCount := fingerCount;
      this.modifierCount := modifierCount;
      defaultPosition := 0;
      position := 0;
      ringInstance := UnknownRing;
    }

    /** `active_action`: nothing on an empty ring, else the action under the cursor. */
    function ActiveAction(): (r: Option<Action>)
      requires Valid()
      reads this
      ensures r.None? <==> ringInstance.actionInstances == []
      ensures r.Some? ==> r.value in ringInstance.actionInstances && r.value == ringInstance.actionInstances[position]
    {
      if |ringInstance.actionInstances| == 0 then None else Some(ringInstance.actionInstances[position])
    }

    /** `previous_action`. */
    method PreviousAction()
      requires Valid()
      modifies this
      ensures Valid()
      ensures position == PreviousPosition(old(position), |ringInstance.actionInstances|)
      ensures ringInstance == old(ringInstance) && defaultPosition == old(defaultPosition)
    {
      if |ringInstance.actionInstances| == 0 {
        return;
      }
      if position == 0 {
        position := |ringInstance.actionInstances| - 1;
      } else {
        position := position - 1;
      }
    }

    /** `next_action`. */
    method NextAction()
      requires Valid()
      modifies this
      ensures Valid()
      ensures position == NextPosition(old(position), |ringInstance.actionInstances|)
      ensures ringInstance == old(ringInstance) && defaultPosition == old(defaultPosition)
    {
      if |ringInstance.actionInstances| == 0 {
        return;
      }
      position := position + 1;
      position := position % |ringInstance.actionInstances|;
    }

    /** `default_action`: back to the default position, on any ring. */
    method DefaultAction()
      requires Valid()
      modifies this
      ensures Valid()
      ensures position == defaultPosition
      ensures ringInstance == old(ringInstance) && defaultPosition == old(defaultPosition)
    {
      position := defaultPosition;
    }

    /** The state a successful `finalize` leaves: the linked ring's copy, both cursors on the default action. */
    ghost predicate FinalizedWith(rings: seq<Ring>)
      reads this
    {
      var link := SlotLink(rings, id, ring, defaultAction);
      && link.Success?
      && ringInstance == rings[link.value.0]
      && defaultPosition == link.value.1
      && position == link.value.1
    }

    /**
     * `SlotBinding::finalize`. The ring is copied as soon as it is found, so a missing
     * default action leaves the copy in place with the cursors untouched.
     */
    method Finalize(rings: seq<Ring>) returns (result: Outcome<string>)
      modifies this
      ensures result.Pass? <==> SlotLink(rings, id, ring, defaultAction).Success?
      ensures result.Pass? ==> FinalizedWith(rings) && |ringInstance.actions| > 0
      ensures result.Fail? ==>
        && result.error == SlotLink(rings, id, ring, defaultAction).error
        && position == old(position) && defaultPosition == old(defaultPosition)
        && ringInstance == (match FirstIndex(RingIds(rings), ring)
                            case Some(k) => rings[k]
                            case None => old(ringInstance))
      ensures result.Pass? && Linked(ringInstance) ==>
        Valid() && ActiveAction().Some? && ActiveAction().value.id == defaultAction
    {
      var i := 0;
      while i < |rings|
        invariant 0 <= i <= |rings|
        invariant forall j :: 0 <= j < i ==> rings[j].id != ring
        invariant ringInstance == old(ringInstance) && position == old(position) && defaultPosition == old(defaultPosition)
      {
        if rings[i].id == ring {
          FirstIndexAt(RingIds(rings), ring, i);
          ringInstance := rings[i];
          var k := 0;
          while k < |rings[i].actions|
            invariant 0 <= k <= |rings[i].actions|
            invariant forall j :: 0 <= j < k ==> rings[i].actions[j] != defaultAction
            invariant ringInstance == rings[i] && position == old(position) && defaultPosition == old(defaultPosition)
          {
            if rings[i].actions[k] == defaultAction {
              FirstIndexAt(rings[i].actions, defaultAction, k);
              defaultPosition := k;
              position := defaultPosition;
              return Pass;
            }
            k := k + 1;
          }
          return Fail(MissingDefault(id, ring, defaultAction));
        }
        i := i + 1;
      }
      return Fail(MissingRing(ring));
    }
  }
}

/** `ConstraintSwitch`: two sets of constraints and a state. While the state
    is on, the `onSet` constraints are active and the `offSet` ones are not;
    while it is off, the other way round. Assigning the state or either set
    applies the current state; the handler runs after every assignment of the
    state. Both revisions of the library ship the same class. */
module Switch {
  import opened Types

  /** The non-nil entries of a list of optional constraints, as a set. */
  function Present(cs: seq<Option<Constraint>>): (r: set<Constraint>)
    ensures forall c :: c in r <==> Some(c) in cs
  {
    set o | o in cs && o.Some? :: o.value
  }

  /** The active constraints once the state has been applied to both sets:
      the set of the state is active, the constraints only in the other set
      are not, and every constraint in neither set keeps its status. */
  function Switched(active: set<Constraint>, on: set<Constraint>, off: set<Constraint>, state: bool): (r: set<Constraint>)
    ensures state ==> on <= r && (off - on) !! r
    ensures !state ==> off <= r && (on - off) !! r
    ensures forall c :: c !in on && c !in off ==> (c in r <==> c in active)
  {
    if state then (active - off) + on else (active - on) + off
  }

  /** Applying a state twice is applying it once. */
  lemma SwitchedTwice(active: set<Constraint>, on: set<Constraint>, off: set<Constraint>, state: bool)
    ensures Switched(Switched(active, on, off, state), on, off, state) == Switched(active, on, off, state)
  {
  }

  /** Switching off and back on ends with the same constraints active as
      switching on directly, whatever the state before. */
  lemma SwitchedBack(active: set<Constraint>, on: set<Constraint>, off: set<Constraint>)
    ensures Switched(Switched(active, on, off, false), on, off, true) == Switched(active, on, off, true)
  {
  }

  /** The active constraints after assigning one of the sets: it is
      activated when the switch is in its state, deactivated otherwise. */
  function Applied(active: set<Constraint>, cs: set<Constraint>, activate: bool): (r: set<Constraint>)
    ensures activate ==> cs <= r
    ensures !activate ==> cs !! r
    ensures forall c :: c !in cs ==> (c in r <==> c in active)
  {
    if activate then active + cs else active - cs
  }

  class ConstraintSwitch {
    var state: bool
    var onSet: set<Constraint>
    var offSet: set<Constraint>
    /** Whether a `stateChangeHandler` is set, and how often it has run. */
    var hasHandler: bool
    var handlerRuns: nat

    /** `init()`: off, both sets empty. */
    constructor ()
      ensures !state && onSet == {} && offSet == {}
      ensures !hasHandler && handlerRuns == 0
    {
      state := false;
      onSet := {};
      offSet := {};
      hasHandler := false;
      handlerRuns := 0;
    }

    /** `init(state:onSet:offSet:)`: nil entries are dropped; property
        observers do not run inside the initialiser, so nothing is
        activated or deactivated. */
    constructor WithSets(state: bool, onSet: seq<Option<Constraint>>, offSet: seq<Option<Constraint>>)
      ensures this.state == state && this.onSet == Present(onSet) && this.offSet == Present(offSet)
      ensures !hasHandler && handlerRuns == 0
    {
      this.onSet := Present(onSet);
      this.offSet := Present(offSet);
      this.state := state;
      hasHandler := false;
      handlerRuns := 0;
    }

    /** The `state` setter: the other set is deactivated first, then the
        set of the new state activated, then the handler runs. */
    method SetState(act: ActiveConstraints, value: bool)
      modifies this, act
      ensures state == value
      ensures act.active == Switched(old(act.active), onSet, offSet, value)
      ensures handlerRuns == if hasHandler then old(handlerRuns) + 1 else old(handlerRuns)
      ensures unchanged(this`onSet, this`offSet, this`hasHandler)
    {
      state := value;
      if state {
        act.DeactivateAll(offSet);
        act.ActivateAll(onSet);
      } else {
        act.DeactivateAll(onSet);
        act.ActivateAll(offSet);
      }
      if hasHandler {
        handlerRuns := handlerRuns + 1;
      }
    }

    /** The `onSet` setter: the new set follows the state; constraints of
        the old set that are not in the new one keep their status. */
    method SetOnSet(act: ActiveConstraints, value: set<Constraint>)
      modifies this, act
      ensures onSet == value
      ensures act.active == Applied(old(act.active), value, state)
      ensures unchanged(this`state, this`offSet, this`hasHandler, this`handlerRuns)
    {
      onSet := value;
      if state {
        act.ActivateAll(onSet);
      } else {
        act.DeactivateAll(onSet);
      }
    }

    /** The `offSet` setter: the new set is active exactly while the state
        is off. */
    method SetOffSet(act: ActiveConstraints, value: set<Constraint>)
      modifies this, act
      ensures offSet == value
      ensures act.active == Applied(old(act.active), value, !state)
      ensures unchanged(this`state, this`onSet, this`hasHandler, this`handlerRuns)
    {
      offSet := value;
      if state {
        act.DeactivateAll(offSet);
      } else {
        act.ActivateAll(offSet);
      }
    }

    /** Setting or clearing `stateChangeHandler`. */
    method SetHandler(present: bool)
      modifies this
      ensures hasHandler == present
      ensures unchanged(this`state, this`onSet, this`offSet, this`handlerRuns)
    {
      hasHandler := present;
    }
  }
}

/** `StateMachineAwareTrait`: an object holding one optional state machine reference. */
module MachineReference {
  import opened Values

  /** What `_setStateMachine` accepts: null or a StateMachineInterface instance; strings and Stringables are not. */
  predicate AcceptsMachine(v: Option<Val>) {
    v.None? || v.value.Machine?
  }

  class StateMachineAware {
    /** The `$stateMachine` property. */
    var stateMachine: Option<Val>

    ghost predicate Valid()
      reads this
    {
      AcceptsMachine(stateMachine)
    }

    /** A fresh host object: the property is null. */
    constructor ()
      ensures Valid() && stateMachine == None
    {
      stateMachine := None;
    }

    /** `_getStateMachine`: the machine last stored, the same instance, or null. */
    function GetStateMachine(): (r: Option<Val>)
      reads this
      requires Valid()
      ensures r.Some? ==> r.value.Machine?
    {
      stateMachine
    }

    /** `_setStateMachine`: anything but null or a state machine is rejected before assignment. */
    method SetStateMachine(v: Option<Val>) returns (s: Status)
      requires Valid()
      modifies this
      ensures Valid()
      ensures AcceptsMachine(v) ==> s == Done && stateMachine == v
      ensures !AcceptsMachine(v) ==> s == Failed(InvalidArgument(v.value)) && stateMachine == old(stateMachine)
    {
      if !AcceptsMachine(v) {
        return Failed(InvalidArgument(v.value));
      }
      stateMachine := v;
      s := Done;
    }
  }

  /** Before any set, the state machine of a fresh instance is null. */
  method InitialStateMachine() returns (got: Option<Val>)
    ensures got == None
  {
    var subject := new StateMachineAware();
    got := subject.GetStateMachine();
  }

  /** Setting null or a machine on a fresh instance: the getter returns that same instance. */
  method SetGetStateMachine(v: Option<Val>) returns (s: Status, got: Option<Val>)
    requires AcceptsMachine(v)
    ensures s == Done && got == v
  {
    var subject := new StateMachineAware();
    s := subject.SetStateMachine(v);
    got := subject.GetStateMachine();
  }

  /**
   * Setting a value that is not a machine (a `stdClass`, but also a string or a
   * Stringable) after an accepted one throws InvalidArgument and keeps the earlier machine.
   */
  method SetInvalidStateMachine(previous: Option<Val>, invalid: Val) returns (s: Status, got: Option<Val>)
    requires AcceptsMachine(previous) && !invalid.Machine?
    ensures s == Failed(InvalidArgument(invalid))
    ensures got == previous
  {
    var subject := new StateMachineAware();
    s := subject.SetStateMachine(previous);
    s := subject.SetStateMachine(Some(invalid));
    got := subject.GetStateMachine();
  }
}

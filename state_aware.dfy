/** `StateAwareTrait`: an object holding one optional current state. */
module CurrentState {
  import opened Values

  /** What `_setState` accepts: null, a string or a Stringable. */
  predicate AcceptsState(v: Option<Val>) {
    v.None? || IsIdentifier(v.value)
  }

  class StateAware {
    /** The `$state` property. */
    var state: Option<Val>

    ghost predicate Valid()
      reads this
    {
      AcceptsState(state)
    }

    /** A fresh host object: the property is null. */
    constructor ()
      ensures Valid() && state == None
    {
      state := None;
    }

    /** `_getState`: what was last stored, null or a string or Stringable, the very same value. */
    function GetState(): (r: Option<Val>)
      reads this
      requires Valid()
      ensures r.Some? ==> IsIdentifier(r.value)
    {
      state
    }

    /** `_setState`: an argument that is none of null, string or Stringable is rejected before assignment. */
    method SetState(v: Option<Val>) returns (s: Status)
      requires Valid()
      modifies this
      ensures Valid()
      ensures AcceptsState(v) ==> s == Done && state == v
      ensures !AcceptsState(v) ==> s == Failed(InvalidArgument(v.value)) && state == old(state)
    {
      if !AcceptsState(v) {
        return Failed(InvalidArgument(v.value));
      }
      state := v;
      s := Done;
    }
  }

  /** Before any set, the state of a fresh instance is null. */
  method InitialState() returns (got: Option<Val>)
    ensures got == None
  {
    var subject := new StateAware();
    got := subject.GetState();
  }

  /**
   * Setting an accepted value on a fresh instance: the getter returns that very
   * value (the same object for a Stringable, so the same string form too).
   */
  method SetGetState(v: Option<Val>) returns (s: Status, got: Option<Val>)
    requires AcceptsState(v)
    ensures s == Done && got == v
    ensures v.Some? ==> StringForm(got.value) == StringForm(v.value)
  {
    var subject := new StateAware();
    s := subject.SetState(v);
    got := subject.GetState();
  }

  /** Setting an invalid value after a valid one throws InvalidArgument and keeps the earlier state. */
  method SetInvalidState(previous: Option<Val>, invalid: Val) returns (s: Status, got: Option<Val>)
    requires AcceptsState(previous) && !IsIdentifier(invalid)
    ensures s == Failed(InvalidArgument(invalid))
    ensures got == previous
  {
    var subject := new StateAware();
    s := subject.SetState(previous);
    s := subject.SetState(Some(invalid));
    got := subject.GetState();
  }
}

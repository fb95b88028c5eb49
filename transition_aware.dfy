/** `TransitionAwareTrait`: an object holding one optional current transition. */
module CurrentTransition {
  import opened Values

  /** What `_setTransition` accepts: null, a string or a Stringable. */
  predicate AcceptsTransition(v: Option<Val>) {
    v.None? || IsIdentifier(v.value)
  }

  class TransitionAware {
    /** The `$transition` property. */
    var transition: Option<Val>

    ghost predicate Valid()
      reads this
    {
      AcceptsTransition(transition)
    }

    /** A fresh host object: the property is null. */
    constructor ()
      ensures Valid() && transition == None
    {
      transition := None;
    }

    /** `_getTransition`: what was last stored, null or a string or Stringable, the very same value. */
    function GetTransition(): (r: Option<Val>)
      reads this
      requires Valid()
      ensures r.Some? ==> IsIdentifier(r.value)
    {
      transition
    }

    /** `_setTransition`: an argument that is none of null, string or Stringable is rejected before assignment. */
    method SetTransition(v: Option<Val>) returns (s: Status)
      requires Valid()
      modifies this
      ensures Valid()
      ensures AcceptsTransition(v) ==> s == Done && transition == v
      ensures !AcceptsTransition(v) ==> s == Failed(InvalidArgument(v.value)) && transition == old(transition)
    {
      if !AcceptsTransition(v) {
        return Failed(InvalidArgument(v.value));
      }
      transition := v;
      s := Done;
    }
  }

  /** Before any set, the transition of a fresh instance is null. */
  method InitialTransition() returns (got: Option<Val>)
    ensures got == None
  {
    var subject := new TransitionAware();
    got := subject.GetTransition();
  }

  /**
   * Setting an accepted value on a fresh instance: the getter returns that very
   * value (the same object for a Stringable, so the same string form too).
   */
  method SetGetTransition(v: Option<Val>) returns (s: Status, got: Option<Val>)
    requires AcceptsTransition(v)
    ensures s == Done && got == v
    ensures v.Some? ==> StringForm(got.value) == StringForm(v.value)
  {
    var subject := new TransitionAware();
    s := subject.SetTransition(v);
    got := subject.GetTransition();
  }

  /** Setting an invalid value after a valid one throws InvalidArgument and keeps the earlier transition. */
  method SetInvalidTransition(previous: Option<Val>, invalid: Val) returns (s: Status, got: Option<Val>)
    requires AcceptsTransition(previous) && !IsIdentifier(invalid)
    ensures s == Failed(InvalidArgument(invalid))
    ensures got == previous
  {
    var subject := new TransitionAware();
    s := subject.SetTransition(previous);
    s := subject.SetTransition(Some(invalid));
    got := subject.GetTransition();
  }
}

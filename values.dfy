/** The PHP values the state-machine traits accept or reject, and their canonical keys. */
module Values {

  /** A PHP null, or a present value. */
  datatype Option<+T> = None | Some(value: T)

  /**
   * An argument given to one of the traits' methods.
   * - Str: a PHP string.
   * - Stringable: an object implementing StringableInterface; `id` is its object
   *   identity (what `assertSame` compares) and `text` what its `__toString` returns.
   * - Machine: an object implementing StateMachineInterface (not Stringable).
   * - Other: any other object, such as a `stdClass` instance.
   */
  datatype Val =
    | Str(s: string)
    | Stringable(id: nat, text: string)
    | Machine(id: nat)
    | Other(id: nat)

  /** A state machine instance, as `_applyTransition` and `_setStateMachine` expect one. */
  type MachineRef = v: Val | v.Machine? witness Machine(0)

  /** The check `is_string($x) || $x instanceof Stringable` that guards every adder and setter. */
  predicate IsIdentifier(v: Val) {
    v.Str? || v.Stringable?
  }

  /** The PHP cast `(string) $x`, which is the canonical key of a state or transition. */
  function StringForm(v: Val): string
    requires IsIdentifier(v)
  {
    if v.Str? then v.s else v.text
  }

  /** The invalid-argument exception the adders and setters throw before changing anything. */
  datatype Error = InvalidArgument(argument: Val)

  /** How a `void` PHP method that may throw ends: normally, or by throwing. */
  datatype Status = Done | Failed(error: Error)
}

/**
 * `AbstractStateMachine`: the two-phase transition protocol. A transition is first
 * checked by the advisory predicate `_canTransition`; only when that allows it is
 * it applied by `_applyTransition`, which decides authoritatively and may still fail.
 *
 * The two hooks are abstract in the source. Here they are supplied at construction
 * as functions over the concrete machine's own configuration `C`, which stays opaque.
 */
module StateMachines {
  import opened Values

  /** The two kinds of failure `_transition` may end with. */
  datatype TransitionError =
    | CouldNotTransition(transition: Val)   // the transition was rejected or aborted
    | StateMachineError                      // any other error during the transition

  /** The state machine with the new state, or the failure. */
  datatype TransitionResult = Ok(machine: MachineRef) | Err(error: TransitionError)

  /** One consultation of a hook, as the protocol records it. */
  datatype HookCall =
    | CanTransitionCall(transition: Val, allowed: bool)
    | ApplyTransitionCall(transition: Val)

  /** Every application in `calls` directly follows a check of the same transition that allowed it. */
  ghost predicate OnlyPrevalidated(calls: seq<HookCall>) {
    forall i | 0 <= i < |calls| && calls[i].ApplyTransitionCall? ::
      0 < i && calls[i - 1] == CanTransitionCall(calls[i].transition, true)
  }

  class AbstractStateMachine<C> {
    /** The concrete machine's configuration, such as its current state. */
    var config: C
    /** The body of `_canTransition`: a pure predicate of the configuration and the transition. */
    const canTransitionHook: (C, Val) -> bool
    /** The body of `_applyTransition`: the configuration after it, and its result. */
    const applyTransitionHook: (C, Val) -> (C, TransitionResult)
    /** The hook consultations made so far. */
    ghost var calls: seq<HookCall>

    ghost predicate Valid()
      reads this
    {
      OnlyPrevalidated(calls)
    }

    constructor (initial: C, canTransition: (C, Val) -> bool, applyTransition: (C, Val) -> (C, TransitionResult))
      ensures Valid() && calls == []
      ensures config == initial
      ensures canTransitionHook == canTransition && applyTransitionHook == applyTransition
    {
      config := initial;
      canTransitionHook := canTransition;
      applyTransitionHook := applyTransition;
      calls := [];
    }

    /** `_canTransition`: whether the transition may be attempted; it changes nothing. */
    function CanTransition(t: Val): bool
      reads this
    {
      canTransitionHook(config, t)
    }

    /**
     * `_applyTransition`: applies a transition that has just been checked and
     * allowed; its new configuration and its result, success or failure, are the hook's.
     */
    method ApplyTransition(t: Val) returns (r: TransitionResult)
      requires Valid() && CanTransition(t)
      requires |calls| > 0 && calls[|calls| - 1] == CanTransitionCall(t, true)
      modifies this
      ensures Valid()
      ensures (config, r) == applyTransitionHook(old(config), t)
      ensures calls == old(calls) + [ApplyTransitionCall(t)]
    {
      calls := calls + [ApplyTransitionCall(t)];
      var (c, result) := applyTransitionHook(config, t);
      config, r := c, result;
    }

    /**
     * `_transition`: consults `_canTransition` once, with `t`. If that refuses, fails
     * with CouldNotTransition carrying `t` and changes nothing; otherwise returns
     * exactly what `_applyTransition(t)` returns, its failure included.
     */
    method Transition(t: Val) returns (r: TransitionResult)
      requires Valid()
      modifies this
      ensures Valid()
      ensures calls == old(calls) + [CanTransitionCall(t, old(CanTransition(t)))]
                      + (if old(CanTransition(t)) then [ApplyTransitionCall(t)] else [])
      ensures old(CanTransition(t)) ==> (config, r) == applyTransitionHook(old(config), t)
      ensures !old(CanTransition(t)) ==> config == old(config) && r == Err(CouldNotTransition(t))
    {
      var allowed := CanTransition(t);
      calls := calls + [CanTransitionCall(t, allowed)];
      if !allowed {
        return Err(CouldNotTransition(t));
      }
      r := ApplyTransition(t);
    }
  }

  /** A refused transition is refused again, with the same transition, when retried. */
  method RetryRefused<C>(m: AbstractStateMachine<C>, t: Val) returns (first: TransitionResult, second: TransitionResult)
    requires m.Valid() && !m.CanTransition(t)
    modifies m
    ensures m.Valid() && m.config == old(m.config)
    ensures first == Err(CouldNotTransition(t)) && second == first
  {
    first := m.Transition(t);
    second := m.Transition(t);
  }

  /**
   * A machine whose check allows `t` and whose apply step returns `next`:
   * `_transition(t)` returns that same machine after checking and then applying `t` once each.
   */
  method TransitionSuccess(t: Val, next: MachineRef) returns (r: TransitionResult, ghost calls: seq<HookCall>)
    ensures r == Ok(next)
    ensures calls == [CanTransitionCall(t, true), ApplyTransitionCall(t)]
  {
    var m := new AbstractStateMachine<int>(0, (c: int, u: Val) => u == t, (c: int, u: Val) => (c + 1, Ok(next)));
    r := m.Transition(t);
    calls := m.calls;
  }

  /**
   * A machine whose check refuses `t`: `_transition(t)` fails with
   * CouldNotTransition carrying `t`, and the apply step is never consulted.
   */
  method TransitionFailure(t: Val, next: MachineRef) returns (r: TransitionResult, ghost calls: seq<HookCall>)
    ensures r == Err(CouldNotTransition(t))
    ensures calls == [CanTransitionCall(t, false)]
  {
    var m := new AbstractStateMachine<int>(0, (c: int, u: Val) => u != t, (c: int, u: Val) => (c + 1, Ok(next)));
    r := m.Transition(t);
    calls := m.calls;
  }

  /**
   * The check is advisory: a machine that allows every transition but whose apply
   * step fails makes `_transition` fail with that very error.
   */
  method AllowedButFailing(t: Val, failure: TransitionError) returns (r: TransitionResult)
    ensures r == Err(failure)
  {
    var m := new AbstractStateMachine<int>(0, (c: int, u: Val) => true, (c: int, u: Val) => (c, Err(failure)));
    r := m.Transition(t);
  }
}

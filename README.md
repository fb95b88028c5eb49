# State machine abstraction, modelled in Dafny

This project models the Dhii `state-machine-abstract` PHP package: a set of traits
and one abstract class that give an object a current state, a current transition,
a reference to a state machine, keyed lists of known states and transitions, and
the two-phase transition protocol of `AbstractStateMachine`.

- `values.dfy` (module `Values`): the PHP values the traits see. A value is a
  string (`Str`), a `Stringable` object with an identity and a fixed `__toString`
  text, a `StateMachineInterface` instance (`Machine`), or any other object
  (`Other`, such as `stdClass`). PHP `null` is `Option.None`. The canonical key of a
  string or Stringable is its string form (`StringForm`, the `(string)` cast).
  Thrown exceptions become return values: `Status` is `Done` or
  `Failed(InvalidArgument(argument))`.
- `keyed_maps.dfy` (module `KeyedMaps`): the value-level meaning of a list of
  identifiers, a `map<string, Val>` from key to stored identifier, and `AddedAll`,
  the effect of adding a sequence of values one after the other, with the lemmas
  about it (splitting, aborting at the first invalid value, the resulting keys,
  untouched keys, last value wins).
- `keyed_collection.dfy` (module `KeyedCollections`): the class `KeyedCollection`
  that both list traits are. Its field `items` is the PHP array property, `None`
  while the property is still `null`.
- `state_list.dfy` and `transition_list.dfy`: `StateListAware` and
  `TransitionListAware`, each holding its own `KeyedCollection` and offering the
  trait's nine operations, plus fresh-instance scenarios that state what the
  functional tests check.
- `state_aware.dfy`, `transition_aware.dfy`, `state_machine_aware.dfy`: the
  single-value holders with validated setters.
- `state_machine.dfy` (module `StateMachines`): `AbstractStateMachine<C>`, the
  check-then-apply protocol, with the hooks `_canTransition` and
  `_applyTransition` given as functions over the concrete machine's
  configuration `C`. A ghost log `calls` records every hook consultation, so that
  "checked exactly once, with `t`" and "applied only right after an allowing
  check" can be stated.

Decisions about the source:

- `_getState($key)` reads the `$states` property without the lazy initialisation
  of `_getStates`. On a property that is still `null`, `array_key_exists` yields
  null under PHP 7, so the lookup yields null: the model treats an uninitialised
  collection as empty for `Get`. `_getStates` and `_hasState` (which calls it)
  initialise a `null` property to the empty array; `_addState` creates the array;
  `_removeState` on a `null` property leaves it `null`; `_addStates` with an empty
  sequence, or one whose first element is invalid, leaves it as it was.
- The key-taking operations (`_getStateKey`, `_getState`, `_hasState`,
  `_removeState` and their transition twins) require a string or Stringable
  argument: they apply `(string)` unguarded, which for another object is a PHP
  error, not an error the code handles.
- `TransitionListAwareTrait` and `AbstractStateMachine::_transition` have empty
  bodies (`// todo`) in the source. The model follows their doc comments and the
  functional and unit tests, under which the transition list behaves exactly as
  the state list and `_transition` is check-then-apply.
- `_transition` passes its argument to `_canTransition` and `_applyTransition` as
  given, without canonicalising it: the unit test expects the very argument.

## Model

| member | source | states |
|---|---|---|
| `KeyedMaps.AddedAll` | src/StateListAwareTrait.php:114-119 | The bulk add succeeds exactly when every element is a string or Stringable; a failure names an invalid element; no key is ever lost; every value stays stored under its own key. |
| `KeyedMaps.AddedAllSplit` | src/StateListAwareTrait.php:114-119 | Adding `xs + ys` is adding `xs` and then `ys` to the result, when `xs` is accepted whole: elements are added one at a time in order. |
| `KeyedMaps.AddedAllAborts` | src/StateListAwareTrait.php:114-119 | The first invalid element stops the bulk add with InvalidArgument for it; the elements before it stay added. |
| `KeyedMaps.AddedAllKeys` | src/StateListAwareTrait.php:128-132 | With all elements valid, the keys afterwards are the old keys plus the string forms of the elements. |
| `KeyedMaps.AddedAllKeepsOthers` | src/StateListAwareTrait.php:104 | A key that no element has is present afterwards exactly when it was before, with the same value. |
| `KeyedMaps.AddedAllLastWins` | src/StateListAwareTrait.php:104 | An element not followed by another with the same key is what ends up stored under its key. |
| `KeyedCollections.KeyedCollection.GetAll` | src/StateListAwareTrait.php:33-38 | Returns all entries; a `null` property is initialised to the empty array first. |
| `KeyedCollections.KeyedCollection.Get` | src/StateListAwareTrait.php:63-70 | Null exactly when no entry has the argument's key; otherwise the stored value, whose own key is the argument's key. |
| `KeyedCollections.KeyedCollection.Has` | src/StateListAwareTrait.php:81-84 | True exactly when an entry has the argument's key; initialises a `null` property. |
| `KeyedCollections.KeyedCollection.Add` | src/StateListAwareTrait.php:93-105 | A non-identifier is rejected with InvalidArgument and nothing changes; an identifier is stored under its string form, replacing only that entry. |
| `KeyedCollections.KeyedCollection.AddAll` | src/StateListAwareTrait.php:114-119 | The loop's resulting entries and status are those of `AddedAll` on the old entries. |
| `KeyedCollections.KeyedCollection.SetAll` | src/StateListAwareTrait.php:128-132 | The entries become those of `AddedAll` on the empty map: nothing from before survives. |
| `KeyedCollections.KeyedCollection.Remove` | src/StateListAwareTrait.php:141-146 | Exactly the argument's key is removed, every other entry kept; a no-op when absent. |
| `KeyedCollections.KeyedCollection.Reset` | src/StateListAwareTrait.php:153-156 | The property becomes the empty array. |
| `StateList.StateListAware.GetStates` | src/StateListAwareTrait.php:33-38 | All states by key, initialising a `null` property. |
| `StateList.StateListAware.GetStateKey` | src/StateListAwareTrait.php:49-52 | The key of a string is the string; of a Stringable, its text. |
| `StateList.StateListAware.GetState` | src/StateListAwareTrait.php:63-70 | Null when nothing is stored under the key; else the stored state, whose key is that key. |
| `StateList.StateListAware.HasState` | src/StateListAwareTrait.php:81-84 | True exactly when a state with the argument's key is stored. |
| `StateList.StateListAware.AddState` | src/StateListAwareTrait.php:93-105 | Rejects a non-identifier unchanged; stores an identifier under its key. |
| `StateList.StateListAware.AddStates` | src/StateListAwareTrait.php:114-119 | Adds the states in order as `AddedAll` does. |
| `StateList.StateListAware.SetStates` | src/StateListAwareTrait.php:128-132 | Reset, then add: the states become `AddedAll` of the empty map. |
| `StateList.StateListAware.RemoveState` | src/StateListAwareTrait.php:141-146 | Removes only the argument's key. |
| `StateList.StateListAware.ResetStates` | src/StateListAwareTrait.php:153-156 | Empties the list. |
| `StateList.AddGetHasState` | test/functional/StateListAwareTraitTest.php:119-220 | After adding a valid state to a fresh instance, looking it up by value or by key returns that same state, both `has` checks hold, and the list is exactly that one entry. |
| `StateList.AddInvalidState` | test/functional/StateListAwareTraitTest.php:274-298 | Adding a non-identifier throws InvalidArgument for it and the list stays empty. |
| `StateList.AddRemoveHasStates` | test/functional/StateListAwareTraitTest.php:227-244 | Of three states with distinct keys, removing the second by key leaves the first and the third. |
| `StateList.AddResetGetStates` | test/functional/StateListAwareTraitTest.php:251-266 | After any adds, a reset leaves the list empty. |
| `StateList.SetGetStates` | test/functional/StateListAwareTraitTest.php:306-324 | Setting valid states replaces what was there: the keys are exactly those of the new states. |
| `TransitionList.TransitionListAware.GetTransitions` | test/functional/TransitionListAwareTraitTest.php:119-142 | All transitions by key, initialising a `null` property. |
| `TransitionList.TransitionListAware.GetTransitionKey` | test/functional/TransitionListAwareTraitTest.php:81-112 | The key of a string is the string; of a Stringable, its text. |
| `TransitionList.TransitionListAware.GetTransition` | test/functional/TransitionListAwareTraitTest.php:149-172 | Null when nothing is stored under the key; else the stored transition, whose key is that key. |
| `TransitionList.TransitionListAware.HasTransition` | test/functional/TransitionListAwareTraitTest.php:203-232 | True exactly when a transition with the argument's key is stored. |
| `TransitionList.TransitionListAware.AddTransition` | test/functional/TransitionListAwareTraitTest.php:286-313 | Rejects a non-identifier unchanged; stores an identifier under its key. |
| `TransitionList.TransitionListAware.AddTransitions` | test/functional/TransitionListAwareTraitTest.php:180-196 | Adds the transitions in order as `AddedAll` does. |
| `TransitionList.TransitionListAware.SetTransitions` | test/functional/TransitionListAwareTraitTest.php:321-339 | Reset, then add: the transitions become `AddedAll` of the empty map. |
| `TransitionList.TransitionListAware.RemoveTransition` | test/functional/TransitionListAwareTraitTest.php:239-256 | Removes only the argument's key. |
| `TransitionList.TransitionListAware.ResetTransitions` | test/functional/TransitionListAwareTraitTest.php:263-278 | Empties the list. |
| `TransitionList.AddGetHasTransition` | test/functional/TransitionListAwareTraitTest.php:119-232 | After adding a valid transition to a fresh instance, looking it up by value or by key returns that same transition, both `has` checks hold, and the list is exactly that one entry. |
| `TransitionList.AddInvalidTransition` | test/functional/TransitionListAwareTraitTest.php:286-313 | Adding a non-identifier throws InvalidArgument for it and the list stays empty. |
| `TransitionList.AddRemoveHasTransitions` | test/functional/TransitionListAwareTraitTest.php:239-256 | Of three transitions with distinct keys, removing the second by key leaves the first and the third. |
| `TransitionList.AddResetGetTransitions` | test/functional/TransitionListAwareTraitTest.php:263-278 | After any adds, a reset leaves the list empty. |
| `TransitionList.SetGetTransitions` | test/functional/TransitionListAwareTraitTest.php:321-339 | Setting valid transitions replaces what was there: the keys are exactly those of the new transitions. |
| `CurrentState.StateAware.GetState` | src/StateAwareTrait.php:32-35 | Returns what is stored, which is null, a string or a Stringable. |
| `CurrentState.StateAware.SetState` | src/StateAwareTrait.php:44-56 | Null, a string or a Stringable is stored as given; anything else throws InvalidArgument and the state keeps its previous value. |
| `CurrentState.InitialState` | src/StateAwareTrait.php:23-35 | Before any set, the state is null. |
| `CurrentState.SetGetState` | test/functional/StateAwareTraitTest.php:68-111 | After setting a string, null or Stringable, the getter returns that same value, with the same string form. |
| `CurrentState.SetInvalidState` | test/functional/StateAwareTraitTest.php:118-126 | Setting an invalid value throws InvalidArgument and keeps the earlier state. |
| `CurrentTransition.TransitionAware.GetTransition` | src/TransitionAwareTrait.php:32-35 | Returns what is stored, which is null, a string or a Stringable. |
| `CurrentTransition.TransitionAware.SetTransition` | src/TransitionAwareTrait.php:44-56 | Null, a string or a Stringable is stored as given; anything else throws InvalidArgument and the transition keeps its previous value. |
| `CurrentTransition.InitialTransition` | src/TransitionAwareTrait.php:23-35 | Before any set, the transition is null. |
| `CurrentTransition.SetGetTransition` | test/functional/TransitionAwareTraitTest.php:68-115 | After setting a string, null or Stringable, the getter returns that same value, with the same string form. |
| `CurrentTransition.SetInvalidTransition` | test/functional/TransitionAwareTraitTest.php:122-130 | Setting an invalid value throws InvalidArgument and keeps the earlier transition. |
| `MachineReference.StateMachineAware.GetStateMachine` | src/StateMachineAwareTrait.php:32-35 | Returns what is stored, which is null or a state machine. |
| `MachineReference.StateMachineAware.SetStateMachine` | src/StateMachineAwareTrait.php:44-56 | Null or a state machine is stored as given; anything else, strings and Stringables included, throws InvalidArgument and the reference is kept. |
| `MachineReference.InitialStateMachine` | src/StateMachineAwareTrait.php:23-35 | Before any set, the state machine is null. |
| `MachineReference.SetGetStateMachine` | test/functional/StateMachineAwareTraitTest.php:68-100 | After setting a machine or null, the getter returns that same instance. |
| `MachineReference.SetInvalidStateMachine` | test/functional/StateMachineAwareTraitTest.php:107-115 | Setting a non-machine throws InvalidArgument and keeps the earlier machine. |
| `StateMachines.AbstractStateMachine.ApplyTransition` | src/AbstractStateMachine.php:34-48 | Only callable right after an allowing check of the same transition; its new configuration and result, success or either kind of failure, are the hook's. |
| `StateMachines.AbstractStateMachine.Transition` | src/AbstractStateMachine.php:18-32 | Checks `t` exactly once; if refused, fails with CouldNotTransition carrying `t` and changes nothing; if allowed, applies `t` once and returns exactly its result; every application stays directly after an allowing check. |
| `StateMachines.RetryRefused` | src/AbstractStateMachine.php:18-32 | A refused transition is refused again with the same carried transition, and the configuration is unchanged. |
| `StateMachines.TransitionSuccess` | test/unit/AbstractStateMachineTest.php:76-98 | With the check allowing `t`, the result is the very machine the apply step returned, after one check and one application of `t`. |
| `StateMachines.TransitionFailure` | test/unit/AbstractStateMachineTest.php:105-126 | With the check refusing `t`, the result is CouldNotTransition carrying `t`, and the apply step is not consulted. |
| `StateMachines.AllowedButFailing` | src/AbstractStateMachine.php:50-64 | An allowing check does not guarantee success: the apply step's failure is returned unchanged. |

## Left out

- Message translation (`__`) and the exception factories
  (`_createInvalidArgumentException`, `_createStateMachineException`,
  `_createCouldNotTransitionException`): errors are tags carrying only the
  offending argument or transition; message text, codes and chained causes are not modelled.
- PHP array details: numeric-string keys turning into integer keys, insertion
  order, and the difference between an array and a `Traversable` argument; the
  lists are maps from string to value and bulk input is a sequence.
- Scalars other than strings (integers, floats, booleans): they are not modelled as
  values; `Other` stands for every argument the type checks reject.
- User `__toString` code: a Stringable's text is fixed.
- Concrete `_canTransition` and `_applyTransition` implementations: none exist in
  the source, so they stay functions supplied at construction.
- The hooks as overridable methods: PHP's abstract methods become function-valued
  constants of the class, so a hook cannot itself change the host object beyond
  what its returned configuration says.
- Concurrency: the code has none.

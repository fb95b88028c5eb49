/** `StateListAwareTrait`: an object aware of a list of states, kept in a keyed collection. */
module StateList {
  import opened Values
  import opened KeyedMaps
  import opened KeyedCollections

  class StateListAware {
    /** The `$states` property. */
    const states: KeyedCollection

    ghost predicate Valid()
      reads this, states
    {
      states.Valid()
    }

    constructor ()
      ensures Valid() && fresh(states) && states.items == None
    {
      states := new KeyedCollection();
    }

    /** `_getStates`: all states by key; a `null` property becomes the empty array on first read. */
    method GetStates() returns (r: map<string, Val>)
      requires Valid()
      modifies states
      ensures Valid()
      ensures r == old(states.Entries()) && states.items == Some(r)
    {
      r := states.GetAll();
    }

    /** `_getStateKey`: the key of a state is its string form. */
    function GetStateKey(state: Val): (k: string)
      requires IsIdentifier(state)
      ensures state.Str? ==> k == state.s
      ensures state.Stringable? ==> k == state.text
    {
      StringForm(state)
    }

    /** `_getState`: the state stored under the key of `key`, or null. */
    function GetState(key: Val): (r: Option<Val>)
      reads this, states
      requires Valid() && IsIdentifier(key)
      ensures r.None? <==> GetStateKey(key) !in states.Entries()
      ensures r.Some? ==> r.value == states.Entries()[GetStateKey(key)]
      ensures r.Some? ==> IsIdentifier(r.value) && GetStateKey(r.value) == GetStateKey(key)
    {
      states.Get(key)
    }

    /** `_hasState`: whether a state with the key of `state` is stored. */
    method HasState(state: Val) returns (b: bool)
      requires Valid() && IsIdentifier(state)
      modifies states
      ensures Valid()
      ensures b <==> GetStateKey(state) in old(states.Entries())
      ensures states.items == Some(old(states.Entries()))
    {
      b := states.Has(state);
    }

    /** `_addState`: stores a string or Stringable state under its key; anything else is rejected unchanged. */
    method AddState(state: Val) returns (s: Status)
      requires Valid()
      modifies states
      ensures Valid()
      ensures s == if IsIdentifier(state) then Done else Failed(InvalidArgument(state))
      ensures states.items ==
                if IsIdentifier(state) then Some(old(states.Entries())[StringForm(state) := state])
                else old(states.items)
    {
      s := states.Add(state);
    }

    /** `_addStates`: adds the states in order, stopping at the first invalid one. */
    method AddStates(xs: seq<Val>) returns (s: Status)
      requires Valid()
      modifies states
      ensures Valid()
      ensures states.Entries() == AddedAll(old(states.Entries()), xs).entries
      ensures s == AddedAll(old(states.Entries()), xs).status
      ensures states.items == if |xs| > 0 && IsIdentifier(xs[0]) then Some(states.Entries()) else old(states.items)
    {
      s := states.AddAll(xs);
    }

    /** `_setStates`: removes all states, then adds `xs` in order. */
    method SetStates(xs: seq<Val>) returns (s: Status)
      requires Valid()
      modifies states
      ensures Valid()
      ensures states.items == Some(AddedAll(map[], xs).entries)
      ensures s == AddedAll(map[], xs).status
    {
      s := states.SetAll(xs);
    }

    /** `_removeState`: unsets the state under the key of `state`, leaving the others. */
    method RemoveState(state: Val)
      requires Valid() && IsIdentifier(state)
      modifies states
      ensures Valid()
      ensures states.items ==
                if old(states.items).Some? then Some(old(states.Entries()) - {GetStateKey(state)}) else None
    {
      states.Remove(state);
    }

    /** `_resetStates`: removes all states. */
    method ResetStates()
      modifies states
      ensures Valid()
      ensures states.items == Some(map[])
    {
      states.Reset();
    }
  }

  /**
   * Adding one valid state to a fresh instance: it is found by value and by key,
   * both lookups return that very state, and the full list holds it under its key.
   */
  method AddGetHasState(state: Val) returns (byValue: Option<Val>, byKey: Option<Val>,
                                             hasByValue: bool, hasByKey: bool, all: map<string, Val>)
    requires IsIdentifier(state)
    ensures byValue == Some(state) && byKey == Some(state)
    ensures hasByValue && hasByKey
    ensures all == map[StringForm(state) := state]
  {
    var subject := new StateListAware();
    var s := subject.AddState(state);
    var key := Str(subject.GetStateKey(state));
    byValue := subject.GetState(state);
    byKey := subject.GetState(key);
    hasByValue := subject.HasState(state);
    hasByKey := subject.HasState(key);
    all := subject.GetStates();
  }

  /**
   * Adding a state that is neither a string nor Stringable to a fresh instance
   * throws InvalidArgument for it, and the list stays empty.
   */
  method AddInvalidState(invalid: Val) returns (s: Status, all: map<string, Val>)
    requires !IsIdentifier(invalid)
    ensures s == Failed(InvalidArgument(invalid))
    ensures all == map[]
  {
    var subject := new StateListAware();
    s := subject.AddState(invalid);
    all := subject.GetStates();
  }

  /**
   * Adding three states with distinct keys and removing the second by its key
   * leaves exactly the first and the third.
   */
  method AddRemoveHasStates(x1: Val, x2: Val, x3: Val) returns (has1: bool, has2: bool, has3: bool)
    requires IsIdentifier(x1) && IsIdentifier(x2) && IsIdentifier(x3)
    requires StringForm(x1) != StringForm(x2) && StringForm(x2) != StringForm(x3) && StringForm(x1) != StringForm(x3)
    ensures has1 && !has2 && has3
  {
    var subject := new StateListAware();
    var s := subject.AddStates([x1, x2, x3]);
    AddedAllLastWins(map[], [x1, x2, x3], 0);
    AddedAllLastWins(map[], [x1, x2, x3], 2);
    subject.RemoveState(Str(StringForm(x2)));
    has1 := subject.HasState(Str(StringForm(x1)));
    has2 := subject.HasState(Str(StringForm(x2)));
    has3 := subject.HasState(Str(StringForm(x3)));
  }

  /** After adding any states, a reset leaves the list empty. */
  method AddResetGetStates(xs: seq<Val>) returns (all: map<string, Val>)
    ensures all == map[]
  {
    var subject := new StateListAware();
    var s := subject.AddStates(xs);
    subject.ResetStates();
    all := subject.GetStates();
  }

  /**
   * Setting valid states on an instance that already holds some: the old ones are
   * gone and the keys are exactly those of the new states.
   */
  method SetGetStates(previous: Val, xs: seq<Val>) returns (s: Status, all: map<string, Val>)
    requires IsIdentifier(previous) && AllIdentifiers(xs)
    ensures s == Done
    ensures all.Keys == KeySet(xs)
  {
    var subject := new StateListAware();
    s := subject.AddState(previous);
    s := subject.SetStates(xs);
    all := subject.GetStates();
    AddedAllKeys(map[], xs);
  }
}

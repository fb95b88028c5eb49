/**
 * `TransitionListAwareTrait`: an object aware of a list of transitions, kept in a
 * keyed collection. The trait declares these methods with empty bodies; the
 * behaviour modelled is the one its functional tests require, which is exactly
 * that of the state list.
 */
module TransitionList {
  import opened Values
  import opened KeyedMaps
  import opened KeyedCollections

  class TransitionListAware {
    /** The `$transitions` property. */
    const transitions: KeyedCollection

    ghost predicate Valid()
      reads this, transitions
    {
      transitions.Valid()
    }

    constructor ()
      ensures Valid() && fresh(transitions) && transitions.items == None
    {
      transitions := new KeyedCollection();
    }

    /** `_getTransitions`: all transitions by key; a `null` property becomes the empty array on first read. */
    method GetTransitions() returns (r: map<string, Val>)
      requires Valid()
      modifies transitions
      ensures Valid()
      ensures r == old(transitions.Entries()) && transitions.items == Some(r)
    {
      r := transitions.GetAll();
    }

    /** `_getTransitionKey`: the key of a transition is its string form. */
    function GetTransitionKey(transition: Val): (k: string)
      requires IsIdentifier(transition)
      ensures transition.Str? ==> k == transition.s
      ensures transition.Stringable? ==> k == transition.text
    {
      StringForm(transition)
    }

    /** `_getTransition`: the transition stored under the key of `key`, or null. */
    function GetTransition(key: Val): (r: Option<Val>)
      reads this, transitions
      requires Valid() && IsIdentifier(key)
      ensures r.None? <==> GetTransitionKey(key) !in transitions.Entries()
      ensures r.Some? ==> r.value == transitions.Entries()[GetTransitionKey(key)]
      ensures r.Some? ==> IsIdentifier(r.value) && GetTransitionKey(r.value) == GetTransitionKey(key)
    {
      transitions.Get(key)
    }

    /** `_hasTransition`: whether a transition with the key of `transition` is stored. */
    method HasTransition(transition: Val) returns (b: bool)
      requires Valid() && IsIdentifier(transition)
      modifies transitions
      ensures Valid()
      ensures b <==> GetTransitionKey(transition) in old(transitions.Entries())
      ensures transitions.items == Some(old(transitions.Entries()))
    {
      b := transitions.Has(transition);
    }

    /** `_addTransition`: stores a string or Stringable transition under its key; anything else is rejected unchanged. */
    method AddTransition(transition: Val) returns (s: Status)
      requires Valid()
      modifies transitions
      ensures Valid()
      ensures s == if IsIdentifier(transition) then Done else Failed(InvalidArgument(transition))
      ensures transitions.items ==
                if IsIdentifier(transition) then Some(old(transitions.Entries())[StringForm(transition) := transition])
                else old(transitions.items)
    {
      s := transitions.Add(transition);
    }

    /** `_addTransitions`: adds the transitions in order, stopping at the first invalid one. */
    method AddTransitions(xs: seq<Val>) returns (s: Status)
      requires Valid()
      modifies transitions
      ensures Valid()
      ensures transitions.Entries() == AddedAll(old(transitions.Entries()), xs).entries
      ensures s == AddedAll(old(transitions.Entries()), xs).status
      ensures transitions.items == if |xs| > 0 && IsIdentifier(xs[0]) then Some(transitions.Entries()) else old(transitions.items)
    {
      s := transitions.AddAll(xs);
    }

    /** `_setTransitions`: removes all transitions, then adds `xs` in order. */
    method SetTransitions(xs: seq<Val>) returns (s: Status)
      requires Valid()
      modifies transitions
      ensures Valid()
      ensures transitions.items == Some(AddedAll(map[], xs).entries)
      ensures s == AddedAll(map[], xs).status
    {
      s := transitions.SetAll(xs);
    }

    /** `_removeTransition`: unsets the transition under the key of `transition`, leaving the others. */
    method RemoveTransition(transition: Val)
      requires Valid() && IsIdentifier(transition)
      modifies transitions
      ensures Valid()
      ensures transitions.items ==
                if old(transitions.items).Some? then Some(old(transitions.Entries()) - {GetTransitionKey(transition)}) else None
    {
      transitions.Remove(transition);
    }

    /** `_resetTransitions`: removes all transitions. */
    method ResetTransitions()
      modifies transitions
      ensures Valid()
      ensures transitions.items == Some(map[])
    {
      transitions.Reset();
    }
  }

  /**
   * Adding one valid transition to a fresh instance: it is found by value and by key,
   * both lookups return that very transition, and the full list holds it under its key.
   */
  method AddGetHasTransition(transition: Val) returns (byValue: Option<Val>, byKey: Option<Val>,
                                             hasByValue: bool, hasByKey: bool, all: map<string, Val>)
    requires IsIdentifier(transition)
    ensures byValue == Some(transition) && byKey == Some(transition)
    ensures hasByValue && hasByKey
    ensures all == map[StringForm(transition) := transition]
  {
    var subject := new TransitionListAware();
    var s := subject.AddTransition(transition);
    var key := Str(subject.GetTransitionKey(transition));
    byValue := subject.GetTransition(transition);
    byKey := subject.GetTransition(key);
    hasByValue := subject.HasTransition(transition);
    hasByKey := subject.HasTransition(key);
    all := subject.GetTransitions();
  }

  /**
   * Adding a transition that is neither a string nor Stringable to a fresh instance
   * throws InvalidArgument for it, and the list stays empty.
   */
  method AddInvalidTransition(invalid: Val) returns (s: Status, all: map<string, Val>)
    requires !IsIdentifier(invalid)
    ensures s == Failed(InvalidArgument(invalid))
    ensures all == map[]
  {
    var subject := new TransitionListAware();
    s := subject.AddTransition(invalid);
    all := subject.GetTransitions();
  }

  /**
   * Adding three transitions with distinct keys and removing the second by its key
   * leaves exactly the first and the third.
   */
  method AddRemoveHasTransitions(x1: Val, x2: Val, x3: Val) returns (has1: bool, has2: bool, has3: bool)
    requires IsIdentifier(x1) && IsIdentifier(x2) && IsIdentifier(x3)
    requires StringForm(x1) != StringForm(x2) && StringForm(x2) != StringForm(x3) && StringForm(x1) != StringForm(x3)
    ensures has1 && !has2 && has3
  {
    var subject := new TransitionListAware();
    var s := subject.AddTransitions([x1, x2, x3]);
    AddedAllLastWins(map[], [x1, x2, x3], 0);
    AddedAllLastWins(map[], [x1, x2, x3], 2);
    subject.RemoveTransition(Str(StringForm(x2)));
    has1 := subject.HasTransition(Str(StringForm(x1)));
    has2 := subject.HasTransition(Str(StringForm(x2)));
    has3 := subject.HasTransition(Str(StringForm(x3)));
  }

  /** After adding any transitions, a reset leaves the list empty. */
  method AddResetGetTransitions(xs: seq<Val>) returns (all: map<string, Val>)
    ensures all == map[]
  {
    var subject := new TransitionListAware();
    var s := subject.AddTransitions(xs);
    subject.ResetTransitions();
    all := subject.GetTransitions();
  }

  /**
   * Setting valid transitions on an instance that already holds some: the old ones are
   * gone and the keys are exactly those of the new transitions.
   */
  method SetGetTransitions(previous: Val, xs: seq<Val>) returns (s: Status, all: map<string, Val>)
    requires IsIdentifier(previous) && AllIdentifiers(xs)
    ensures s == Done
    ensures all.Keys == KeySet(xs)
  {
    var subject := new TransitionListAware();
    s := subject.AddTransition(previous);
    s := subject.SetTransitions(xs);
    all := subject.GetTransitions();
    AddedAllKeys(map[], xs);
  }
}

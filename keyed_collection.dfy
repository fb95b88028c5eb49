/**
 * The mutable keyed identifier collection that both the state list and the
 * transition list are: a PHP array property, `null` until first initialised,
 * mapping each identifier's string form to the identifier itself.
 */
module KeyedCollections {
  import opened Values
  import opened KeyedMaps

  class KeyedCollection {
    /** The array property; `None` while it is still PHP `null`. */
    var items: Option<map<string, Val>>

    /** The entries as seen by a lookup: an uninitialised property holds nothing. */
    function Entries(): map<string, Val>
      reads this
    {
      if items.Some? then items.value else map[]
    }

    /** Every value is stored under its own canonical key. */
    ghost predicate Valid()
      reads this
    {
      WellKeyed(Entries())
    }

    /** A fresh host object: the property has not been initialised. */
    constructor ()
      ensures items == None && Valid()
    {
      items := None;
    }

    /** `_getStates`: returns all entries, first initialising a `null` property to the empty array. */
    method GetAll() returns (r: map<string, Val>)
      requires Valid()
      modifies this
      ensures Valid()
      ensures r == old(Entries()) && items == Some(r)
    {
      if items.None? {
        items := Some(map[]);
      }
      r := items.value;
    }

    /**
     * `_getState`: the value stored under the string form of `key`. The property is
     * read directly, without initialisation, and a `null` property holds nothing.
     */
    function Get(key: Val): (r: Option<Val>)
      reads this
      requires Valid() && IsIdentifier(key)
      ensures r.None? <==> StringForm(key) !in Entries()
      ensures r.Some? ==> StringForm(key) in Entries() && r.value == Entries()[StringForm(key)]
      ensures r.Some? ==> IsIdentifier(r.value) && StringForm(r.value) == StringForm(key)
    {
      var k := StringForm(key);
      if k in Entries() then Some(Entries()[k]) else None
    }

    /** `_hasState`: whether an entry is stored under the key of `x`; reads through `_getStates`. */
    method Has(x: Val) returns (b: bool)
      requires Valid() && IsIdentifier(x)
      modifies this
      ensures Valid()
      ensures b <==> StringForm(x) in old(Entries())
      ensures items == Some(old(Entries()))
    {
      var all := GetAll();
      b := StringForm(x) in all;
    }

    /**
     * `_addState`: rejects a value that is neither a string nor Stringable before
     * touching anything; otherwise stores it under its string form, replacing only
     * the entry with that key.
     */
    method Add(x: Val) returns (s: Status)
      requires Valid()
      modifies this
      ensures Valid()
      ensures s == if IsIdentifier(x) then Done else Failed(InvalidArgument(x))
      ensures items == if IsIdentifier(x) then Some(old(Entries())[StringForm(x) := x]) else old(items)
    {
      if !IsIdentifier(x) {
        return Failed(InvalidArgument(x));
      }
      items := Some(Entries()[StringForm(x) := x]);
      s := Done;
    }

    /**
     * `_addStates`: adds the elements one by one in sequence order; the first
     * invalid element stops the loop with its exception, and the elements before
     * it stay added. The property is only initialised if some element got added.
     */
    method AddAll(xs: seq<Val>) returns (s: Status)
      requires Valid()
      modifies this
      ensures Valid()
      ensures Entries() == AddedAll(old(Entries()), xs).entries
      ensures s == AddedAll(old(Entries()), xs).status
      ensures items == if |xs| > 0 && IsIdentifier(xs[0]) then Some(Entries()) else old(items)
    {
      var i := 0;
      while i < |xs|
        invariant 0 <= i <= |xs|
        invariant Valid()
        invariant AllIdentifiers(xs[..i])
        invariant Entries() == AddedAll(old(Entries()), xs[..i]).entries
        invariant items == if i > 0 then Some(Entries()) else old(items)
      {
        s := Add(xs[i]);
        if s.Failed? {
          AddedAllAborts(old(Entries()), xs, i);
          return;
        }
        assert xs[..i + 1] == xs[..i] + [xs[i]];
        AddedAllSplit(old(Entries()), xs[..i], [xs[i]]);
        assert [xs[i]][1..] == [];
        i := i + 1;
      }
      assert xs[..i] == xs;
      s := Done;
    }

    /** `_setStates`: resets, then adds the elements in order. */
    method SetAll(xs: seq<Val>) returns (s: Status)
      requires Valid()
      modifies this
      ensures Valid()
      ensures items == Some(AddedAll(map[], xs).entries)
      ensures s == AddedAll(map[], xs).status
    {
      Reset();
      s := AddAll(xs);
    }

    /**
     * `_removeState`: unsets the entry under the key of `x`, if any; every other
     * entry is kept. Unsetting an element of a `null` property leaves it `null`.
     */
    method Remove(x: Val)
      requires Valid() && IsIdentifier(x)
      modifies this
      ensures Valid()
      ensures items == if old(items).Some? then Some(old(Entries()) - {StringForm(x)}) else None
    {
      if items.Some? {
        items := Some(items.value - {StringForm(x)});
      }
    }

    /** `_resetStates`: replaces the property by the empty array. */
    method Reset()
      modifies this
      ensures Valid()
      ensures items == Some(map[])
    {
      items := Some(map[]);
    }
  }
}

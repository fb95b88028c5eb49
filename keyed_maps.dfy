/**
 * The value-level meaning of a keyed identifier collection: a map from the
 * canonical string key of each stored state (or transition) to the stored value,
 * and the effect of adding a sequence of values to it one by one.
 */
module KeyedMaps {
  import opened Values

  /** Every stored value is an identifier and is stored under its own string form. */
  ghost predicate WellKeyed(m: map<string, Val>) {
    forall k | k in m :: IsIdentifier(m[k]) && StringForm(m[k]) == k
  }

  /** Every element of `xs` passes the adder's type check. */
  predicate AllIdentifiers(xs: seq<Val>) {
    forall i | 0 <= i < |xs| :: IsIdentifier(xs[i])
  }

  /** The canonical keys of a sequence of identifiers. */
  ghost function KeySet(xs: seq<Val>): set<string>
    requires AllIdentifiers(xs)
  {
    set i | 0 <= i < |xs| :: StringForm(xs[i])
  }

  /** The entries after a bulk add, and how the bulk add ended. */
  datatype Bulk = Bulk(entries: map<string, Val>, status: Status)

  /**
   * Adding the elements of `xs` to `m` in sequence order, as the `foreach` of
   * `_addStates` does: each valid element is stored under its string form,
   * replacing what was there; the first invalid element throws, leaving the
   * elements before it added.
   */
  function AddedAll(m: map<string, Val>, xs: seq<Val>): (r: Bulk)
    ensures r.status.Done? <==> AllIdentifiers(xs)
    ensures r.status.Failed? ==>
              exists i | 0 <= i < |xs| :: !IsIdentifier(xs[i]) && r.status.error == InvalidArgument(xs[i])
    ensures m.Keys <= r.entries.Keys
    ensures WellKeyed(m) ==> WellKeyed(r.entries)
    decreases |xs|
  {
    if xs == [] then Bulk(m, Done)
    else if !IsIdentifier(xs[0]) then Bulk(m, Failed(InvalidArgument(xs[0])))
    else
      var r := AddedAll(m[StringForm(xs[0]) := xs[0]], xs[1..]);
      assert forall i | 1 <= i < |xs| :: xs[i] == xs[1..][i - 1];
      r
  }

  /** Adding `xs + ys` is adding `xs`, then adding `ys` to the result, when `xs` is accepted whole. */
  lemma {:induction false} AddedAllSplit(m: map<string, Val>, xs: seq<Val>, ys: seq<Val>)
    requires AllIdentifiers(xs)
    ensures AddedAll(m, xs + ys) == AddedAll(AddedAll(m, xs).entries, ys)
    decreases |xs|
  {
    if xs == [] {
      assert xs + ys == ys;
    } else {
      assert (xs + ys)[0] == xs[0];
      assert (xs + ys)[1..] == xs[1..] + ys;
      assert AllIdentifiers(xs[1..]) by {
        forall i | 0 <= i < |xs[1..]| ensures IsIdentifier(xs[1..][i]) {
          assert xs[1..][i] == xs[i + 1];
        }
      }
      AddedAllSplit(m[StringForm(xs[0]) := xs[0]], xs[1..], ys);
    }
  }

  /**
   * The first invalid element aborts the bulk add: the result is the entries
   * reached by the elements before it, together with the exception for it.
   */
  lemma {:induction false} AddedAllAborts(m: map<string, Val>, xs: seq<Val>, i: nat)
    requires i < |xs| && AllIdentifiers(xs[..i]) && !IsIdentifier(xs[i])
    ensures AddedAll(m, xs) == Bulk(AddedAll(m, xs[..i]).entries, Failed(InvalidArgument(xs[i])))
  {
    assert xs == xs[..i] + xs[i..];
    AddedAllSplit(m, xs[..i], xs[i..]);
    assert xs[i..][0] == xs[i];
  }

  /** With every element valid, the keys afterwards are the old keys plus the keys of `xs`. */
  lemma {:induction false} AddedAllKeys(m: map<string, Val>, xs: seq<Val>)
    requires AllIdentifiers(xs)
    ensures AddedAll(m, xs).entries.Keys == m.Keys + KeySet(xs)
    decreases |xs|
  {
    if xs != [] {
      var m' := m[StringForm(xs[0]) := xs[0]];
      assert AllIdentifiers(xs[1..]) by {
        forall i | 0 <= i < |xs[1..]| ensures IsIdentifier(xs[1..][i]) {
          assert xs[1..][i] == xs[i + 1];
        }
      }
      AddedAllKeys(m', xs[1..]);
      assert KeySet(xs) == {StringForm(xs[0])} + KeySet(xs[1..]) by {
        forall k | k in KeySet(xs) ensures k in {StringForm(xs[0])} + KeySet(xs[1..]) {
          var i :| 0 <= i < |xs| && StringForm(xs[i]) == k;
          if i > 0 {
            assert xs[1..][i - 1] == xs[i];
          }
        }
        forall k | k in KeySet(xs[1..]) ensures k in KeySet(xs) {
          var i :| 0 <= i < |xs[1..]| && StringForm(xs[1..][i]) == k;
          assert xs[1..][i] == xs[i + 1];
        }
      }
    }
  }

  /**
   * A key that no valid element of `xs` has is untouched by the bulk add:
   * present afterwards exactly when it was present before, with the same value.
   */
  lemma {:induction false} AddedAllKeepsOthers(m: map<string, Val>, xs: seq<Val>, k: string)
    requires forall i | 0 <= i < |xs| && IsIdentifier(xs[i]) :: StringForm(xs[i]) != k
    ensures k in AddedAll(m, xs).entries <==> k in m
    ensures k in m ==> AddedAll(m, xs).entries[k] == m[k]
    decreases |xs|
  {
    if xs != [] && IsIdentifier(xs[0]) {
      forall i | 0 <= i < |xs[1..]| && IsIdentifier(xs[1..][i]) ensures StringForm(xs[1..][i]) != k {
        assert xs[1..][i] == xs[i + 1];
      }
      AddedAllKeepsOthers(m[StringForm(xs[0]) := xs[0]], xs[1..], k);
    }
  }

  /**
   * When every element is valid, an element that no later element shares a key
   * with is what ends up stored under its key: the last value added for a key wins.
   */
  lemma {:induction false} AddedAllLastWins(m: map<string, Val>, xs: seq<Val>, i: nat)
    requires AllIdentifiers(xs) && i < |xs|
    requires forall j | i < j < |xs| :: StringForm(xs[j]) != StringForm(xs[i])
    ensures StringForm(xs[i]) in AddedAll(m, xs).entries
    ensures AddedAll(m, xs).entries[StringForm(xs[i])] == xs[i]
    decreases |xs|
  {
    var m' := m[StringForm(xs[0]) := xs[0]];
    assert AllIdentifiers(xs[1..]) by {
      forall j | 0 <= j < |xs[1..]| ensures IsIdentifier(xs[1..][j]) {
        assert xs[1..][j] == xs[j + 1];
      }
    }
    if i == 0 {
      forall j | 0 <= j < |xs[1..]| && IsIdentifier(xs[1..][j]) ensures StringForm(xs[1..][j]) != StringForm(xs[0]) {
        assert xs[1..][j] == xs[j + 1];
      }
      AddedAllKeepsOthers(m', xs[1..], StringForm(xs[0]));
    } else {
      assert xs[1..][i - 1] == xs[i];
      forall j | i - 1 < j < |xs[1..]| ensures StringForm(xs[1..][j]) != StringForm(xs[1..][i - 1]) {
        assert xs[1..][j] == xs[j + 1];
      }
      AddedAllLastWins(m', xs[1..], i - 1);
    }
  }
}

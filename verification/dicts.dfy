/**
 * Dictionaries filled by assignment in a loop, as Python dicts and
 * JavaScript objects are: a later assignment to a key replaces the earlier.
 */
module Dicts {
  import opened Wrappers

  /**
   * A dictionary filled by assigning, in order, each item's value under the
   * key keyOf gives it; items without a key are passed over.
   */
  function Assigned<T, K, V>(items: seq<T>, keyOf: T -> Option<K>, valueOf: T -> V): map<K, V>
    decreases |items|
  {
    if items == [] then map[]
    else
      var last := items[|items| - 1];
      var m := Assigned(items[..|items| - 1], keyOf, valueOf);
      if keyOf(last).Some? then m[keyOf(last).value := valueOf(last)] else m
  }

  lemma {:induction false} AssignedFrom<T, K, V>(items: seq<T>, keyOf: T -> Option<K>, valueOf: T -> V)
    ensures forall k | k in Assigned(items, keyOf, valueOf) :: exists i | 0 <= i < |items| ::
      keyOf(items[i]) == Some(k) && Assigned(items, keyOf, valueOf)[k] == valueOf(items[i])
    decreases |items|
  {
    if items != [] {
      var init := items[..|items| - 1];
      var last := |items| - 1;
      AssignedFrom(init, keyOf, valueOf);
      forall k | k in Assigned(items, keyOf, valueOf)
        ensures exists i | 0 <= i < |items| ::
          keyOf(items[i]) == Some(k) && Assigned(items, keyOf, valueOf)[k] == valueOf(items[i])
      {
        if keyOf(items[last]) != Some(k) {
          var j :| 0 <= j < |init| && keyOf(init[j]) == Some(k) && Assigned(init, keyOf, valueOf)[k] == valueOf(init[j]);
          assert init[j] == items[j];
        }
      }
    }
  }

  lemma {:induction false} LastAssignedWins<T, K, V>(items: seq<T>, keyOf: T -> Option<K>, valueOf: T -> V, i: nat, k: K)
    requires i < |items| && keyOf(items[i]) == Some(k)
    requires forall j | i < j < |items| :: keyOf(items[j]) != Some(k)
    ensures k in Assigned(items, keyOf, valueOf) && Assigned(items, keyOf, valueOf)[k] == valueOf(items[i])
    decreases |items|
  {
    var init := items[..|items| - 1];
    if i < |items| - 1 {
      assert init[i] == items[i];
      assert forall j | i < j < |init| :: init[j] == items[j];
      LastAssignedWins(init, keyOf, valueOf, i, k);
    }
  }
}

/**
 * The completed days as stored under the key "EarnedCoinsChallenges": saved
 * as `Array(completedChallenges)` (in no particular order) and loaded back
 * with `Set(...)`.
 */
module Persistence {
  import opened Wrappers

  predicate Distinct(xs: seq<int>) {
    forall i, j :: 0 <= i < j < |xs| ==> xs[i] != xs[j]
  }

  /** `Set(array)` */
  function SetOf(xs: seq<int>): (s: set<int>)
    ensures forall x :: x in s <==> x in xs
    ensures Distinct(xs) ==> |s| == |xs|
  {
    DistinctSize(xs);
    set x | x in xs
  }

  lemma {:induction false} DistinctSize(xs: seq<int>)
    ensures Distinct(xs) ==> |set x | x in xs| == |xs|
    decreases |xs|
  {
    if xs != [] && Distinct(xs) {
      var tail := xs[1..];
      DistinctSize(tail);
      assert (set x | x in xs) == {xs[0]} + (set x | x in tail);
      assert xs[0] !in tail;
    }
  }

  lemma NonEmptyHasMember(s: set<int>)
    requires s != {}
    ensures exists x :: x in s
  {
    if forall x :: x !in s {
      assert false;
    }
  }

  /** `Array(set)`: each element once, in an order the model leaves open. */
  ghost function ArrayOf(s: set<int>): (xs: seq<int>)
    ensures Distinct(xs) && |xs| == |s| && SetOf(xs) == s
    decreases s
  {
    if s == {} then []
    else
      NonEmptyHasMember(s);
      var x :| x in s;
      var rest := ArrayOf(s - {x});
      var xs := [x] + rest;
      assert forall y :: y in rest <==> y in SetOf(rest);
      assert forall y :: y in xs <==> y == x || y in rest;
      xs
  }

  /**
   * `loadEarnedCoinsChallenges`: the array stored under "EarnedCoinsChallenges",
   * as a set, replaces the
   * current one; a missing key or a value that is not an `[Int]` (`None`) keeps it.
   */
  function Loaded(current: set<int>, stored: Option<seq<int>>): (s: set<int>)
    ensures stored.None? ==> s == current
    ensures stored.Some? ==> forall x :: x in s <==> x in stored.value
  {
    match stored
    case None => current
    case Some(xs) => SetOf(xs)
  }

  /** Saving and loading again gives back the saved set, whatever the current one. */
  lemma SaveLoadRoundTrip(saved: set<int>, current: set<int>)
    ensures Loaded(current, Some(ArrayOf(saved))) == saved
  {
  }

  /** Neither order nor repeats matter: any array holding the same days loads the same set. */
  lemma LoadIgnoresOrder(xs: seq<int>, ys: seq<int>, current: set<int>)
    requires forall x :: x in xs <==> x in ys
    ensures Loaded(current, Some(xs)) == Loaded(current, Some(ys))
  {
    assert forall x :: x in SetOf(xs) <==> x in SetOf(ys);
  }
}

/** Removal from a list, as `std::list::remove_if` does it. */
module Lists {

  function Filter<T>(xs: seq<T>, keep: T -> bool): seq<T> {
    if xs == [] then []
    else Filter(xs[..|xs| - 1], keep) + (if keep(xs[|xs| - 1]) then [xs[|xs| - 1]] else [])
  }

  /** Positions in rising order. */
  ghost predicate Rising(at: seq<nat>) {
    forall i, j :: 0 <= i < j < |at| ==> at[i] < at[j]
  }

  /** The result is the list at rising positions, and these are exactly the positions of the elements to keep. */
  lemma {:induction false} FilterKeepsOrder<T>(xs: seq<T>, keep: T -> bool) returns (at: seq<nat>)
    ensures Rising(at) && |at| == |Filter(xs, keep)|
    ensures forall k :: 0 <= k < |at| ==> at[k] < |xs| && Filter(xs, keep)[k] == xs[at[k]]
    ensures forall i: nat :: i < |xs| ==> (keep(xs[i]) <==> i in at)
    decreases |xs|
  {
    if xs == [] {
      at := [];
    } else {
      var front, last := xs[..|xs| - 1], |xs| - 1;
      var before := FilterKeepsOrder(front, keep);
      at := before + (if keep(xs[last]) then [last] else []);
      forall i: nat | i < |xs|
        ensures keep(xs[i]) <==> i in at
      {
        if i < last {
          assert front[i] == xs[i];
        }
      }
    }
  }

  /** Membership in the result. */
  lemma {:induction false} FilterMembers<T>(xs: seq<T>, keep: T -> bool)
    ensures forall x :: x in Filter(xs, keep) <==> x in xs && keep(x)
    ensures |Filter(xs, keep)| <= |xs|
    decreases |xs|
  {
    if xs != [] {
      FilterMembers(xs[..|xs| - 1], keep);
      assert xs == xs[..|xs| - 1] + [xs[|xs| - 1]];
    }
  }

  /** Two complementary removals lose nothing. */
  lemma {:induction false} FilterSplits<T>(xs: seq<T>, keep: T -> bool, drop: T -> bool)
    requires forall x :: keep(x) <==> !drop(x)
    ensures |Filter(xs, keep)| + |Filter(xs, drop)| == |xs|
    decreases |xs|
  {
    if xs != [] {
      FilterSplits(xs[..|xs| - 1], keep, drop);
    }
  }
}

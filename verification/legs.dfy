/**
 Reload-boundary detection and leg splitting, the first stage of route
 post-processing: a boundary sits before every pickup that directly follows a
 delivery, and the step sequence is cut into legs at those boundaries.
 */
module Legs {
  import opened RouteSteps
  import opened DisplayUnits

  /** A reload boundary at `j`: unit `j - 1` is a delivery and unit `j` a pickup. */
  predicate IsReloadAt(units: seq<DisplayUnit>, j: int) {
    1 <= j < |units| && units[j - 1].Kind() == Delivery && units[j].Kind() == Pickup
  }

  predicate StrictlyIncreasing(xs: seq<nat>) {
    forall i, j :: 0 <= i < j < |xs| ==> xs[i] < xs[j]
  }

  /** The boundaries found by scanning positions `i`, `i + 1`, ... up to the second-to-last unit. */
  function ReloadIndicesFrom(units: seq<DisplayUnit>, i: nat): (r: seq<nat>)
    ensures StrictlyIncreasing(r)
    ensures forall j :: j in r <==> i < j && IsReloadAt(units, j)
    decreases |units| - i
  {
    if i + 1 >= |units| then []
    else if units[i].Kind() == Delivery && units[i + 1].Kind() == Pickup then
      var rest := ReloadIndicesFrom(units, i + 1);
      assert forall k :: 0 <= k < |rest| ==> rest[k] in rest;
      [i + 1] + rest
    else ReloadIndicesFrom(units, i + 1)
  }

  /**
   `findDeliveryFollowedByPickup`: every reload boundary, in increasing order.
   A sequence shorter than two units has none.
   */
  function ReloadIndices(units: seq<DisplayUnit>): (r: seq<nat>)
    ensures StrictlyIncreasing(r)
    ensures forall j :: j in r <==> IsReloadAt(units, j)
    ensures |units| < 2 ==> r == []
  {
    ReloadIndicesFrom(units, 0)
  }

  function Min(a: int, b: int): int {
    if a <= b then a else b
  }

  /**
   `Array.prototype.slice(start, end)` for non-negative arguments: both ends
   are clamped to the length, and an end before the start gives `[]`.
   */
  function Slice<T>(s: seq<T>, start: nat, end: nat): (r: seq<T>)
    ensures start <= end <= |s| ==> r == s[start..end]
    ensures end <= start ==> r == []
  {
    var a := Min(start, |s|);
    var b := Min(end, |s|);
    if b <= a then [] else s[a..b]
  }

  /** The chunks `splitArray` pushes once its running start is `start`. */
  function SplitFrom<T>(s: seq<T>, start: nat, indices: seq<nat>): (legs: seq<seq<T>>)
    ensures |legs| == |indices| + 1
    decreases |indices|
  {
    if indices == [] then [Slice(s, start, |s|)]
    else [Slice(s, start, indices[0])] + SplitFrom(s, indices[0], indices[1..])
  }

  /** `splitArray(arr, indices)`: one chunk per index, then the remaining suffix. */
  function SplitArray<T>(s: seq<T>, indices: seq<nat>): seq<seq<T>> {
    SplitFrom(s, 0, indices)
  }

  /** `_.flatten` of a sequence of legs. */
  function Flatten<T>(legs: seq<seq<T>>): seq<T>
    decreases |legs|
  {
    if legs == [] then [] else legs[0] + Flatten(legs[1..])
  }

  /** Indices that never go back and never pass `bound`, starting at or after `start`. */
  predicate Ascending(start: nat, indices: seq<nat>, bound: nat) {
    && (forall i :: 0 <= i < |indices| ==> start <= indices[i] <= bound)
    && (forall i, j :: 0 <= i < j < |indices| ==> indices[i] <= indices[j])
  }

  lemma {:induction false} FlattenSplitFrom<T>(s: seq<T>, start: nat, indices: seq<nat>)
    requires start <= |s|
    requires Ascending(start, indices, |s|)
    ensures Flatten(SplitFrom(s, start, indices)) == s[start..]
    decreases |indices|
  {
    var legs := SplitFrom(s, start, indices);
    if indices == [] {
      assert Slice(s, start, |s|) == s[start..|s|] == s[start..];
      assert legs == [s[start..]];
      assert Flatten(legs) == s[start..] + Flatten(legs[1..]);
    } else {
      var next := indices[0];
      assert Ascending(next, indices[1..], |s|) by {
        forall i | 0 <= i < |indices[1..]|
          ensures next <= indices[1..][i] <= |s|
        {
          assert indices[1..][i] == indices[i + 1];
        }
      }
      FlattenSplitFrom(s, next, indices[1..]);
      assert legs[1..] == SplitFrom(s, next, indices[1..]);
      assert s[start..] == s[start..next] + s[next..];
    }
  }

  /**
   Splitting at `k` ascending indices within bounds gives `k + 1` legs whose
   concatenation is the input; the empty sequence gives one empty leg.
   */
  lemma SplitArrayPartitions<T>(s: seq<T>, indices: seq<nat>)
    requires Ascending(0, indices, |s|)
    ensures |SplitArray(s, indices)| == |indices| + 1
    ensures Flatten(SplitArray(s, indices)) == s
    ensures s == [] ==> SplitArray(s, indices) == seq(|indices| + 1, _ => [])
  {
    FlattenSplitFrom(s, 0, indices);
    if s == [] {
      EmptySplit(s, 0, indices);
    }
  }

  lemma {:induction false} EmptySplit<T>(s: seq<T>, start: nat, indices: seq<nat>)
    requires s == []
    ensures SplitFrom(s, start, indices) == seq(|indices| + 1, _ => [])
    decreases |indices|
  {
    if indices != [] {
      EmptySplit(s, indices[0], indices[1..]);
    }
  }

  /** The boundaries are valid split indices: they ascend and stay inside the sequence. */
  lemma ReloadIndicesAscending(units: seq<DisplayUnit>)
    ensures Ascending(0, ReloadIndices(units), |units|)
  {
    var r := ReloadIndices(units);
    forall i | 0 <= i < |r|
      ensures r[i] <= |units|
    {
      assert r[i] in r;
    }
  }

  /**
   The leg split of a route: one more leg than there are reload boundaries,
   and together the legs are exactly the route.
   */
  lemma LegSplitPartitions(units: seq<DisplayUnit>)
    ensures |SplitArray(units, ReloadIndices(units))| == |ReloadIndices(units)| + 1
    ensures Flatten(SplitArray(units, ReloadIndices(units))) == units
  {
    ReloadIndicesAscending(units);
    SplitArrayPartitions(units, ReloadIndices(units));
  }
}

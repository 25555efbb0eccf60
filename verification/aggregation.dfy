/**
 The last stage of route post-processing: a left fold over the plain route
 steps that merges each run of consecutive steps with the same kind and
 description into one aggregated display unit.
 */
module Aggregation {
  import opened RouteSteps
  import opened DisplayUnits

  /** The `instanceof RouteStep` filter: the plain steps, in order; aggregates are dropped. */
  function AtomicSteps(units: seq<DisplayUnit>): seq<Step> {
    if units == [] then []
    else if units[0].Atomic? then [units[0].step] + AtomicSteps(units[1..])
    else AtomicSteps(units[1..])
  }

  /** The members of the units, in order: the inverse view of aggregation. */
  function Expand(units: seq<DisplayUnit>): seq<Step> {
    if units == [] then [] else Expand(units[..|units| - 1]) + units[|units| - 1].Members()
  }

  /** The merge test of the fold: the last unit's getters against the current step. */
  predicate SameStop(u: DisplayUnit, s: Step) {
    u.Description() == s.description && u.Kind() == s.kind
  }

  /** Two display units that show the same stop: same kind and same description. */
  predicate SameStopUnits(a: DisplayUnit, b: DisplayUnit) {
    a.Kind() == b.Kind() && a.Description() == b.Description()
  }

  /** Adding `s` to the last unit: a plain step becomes a two-member aggregate. */
  function Extend(u: DisplayUnit, s: Step): (r: DisplayUnit)
    ensures r.Aggregate? && r.Members() == u.Members() + [s]
  {
    match u
    case Atomic(a) => Aggregate(a, [s])
    case Aggregate(h, t) => Aggregate(h, t + [s])
  }

  /** One step of the fold. */
  function Push(result: seq<DisplayUnit>, s: Step): seq<DisplayUnit> {
    if result != [] && SameStop(result[|result| - 1], s) then
      result[..|result| - 1] + [Extend(result[|result| - 1], s)]
    else
      result + [Atomic(s)]
  }

  /** Every member of `u` shows the stop `u` shows. */
  predicate Uniform(u: DisplayUnit) {
    forall m :: m in u.Members() ==> m.kind == u.Kind() && m.description == u.Description()
  }

  /**
   What the fold produces: every aggregate has at least two members, all for
   the same stop, and no two neighbours show the same stop.
   */
  predicate WellFormed(units: seq<DisplayUnit>) {
    && (forall i :: 0 <= i < |units| ==> Uniform(units[i]))
    && (forall i :: 0 <= i < |units| && units[i].Aggregate? ==> units[i].tail != [])
    && (forall i :: 0 < i < |units| ==> !SameStopUnits(units[i - 1], units[i]))
  }

  lemma SplitLast<T>(s: seq<T>)
    requires s != []
    ensures s[..|s| - 1] + [s[|s| - 1]] == s
  {
  }

  lemma TakeOne<T>(s: seq<T>)
    requires s != []
    ensures s[..1] == [s[0]]
  {
  }

  lemma ExpandSnoc(units: seq<DisplayUnit>, u: DisplayUnit)
    ensures Expand(units + [u]) == Expand(units) + u.Members()
  {
    assert (units + [u])[..|units|] == units;
  }

  lemma PushExpands(result: seq<DisplayUnit>, s: Step)
    ensures Expand(Push(result, s)) == Expand(result) + [s]
  {
    if result != [] && SameStop(result[|result| - 1], s) {
      var init := result[..|result| - 1];
      var last := result[|result| - 1];
      assert result == init + [last];
      ExpandSnoc(init, last);
      ExpandSnoc(init, Extend(last, s));
    } else {
      ExpandSnoc(result, Atomic(s));
    }
  }

  lemma PushKeepsWellFormed(result: seq<DisplayUnit>, s: Step)
    requires WellFormed(result)
    ensures WellFormed(Push(result, s))
  {
    var r := Push(result, s);
    if result != [] && SameStop(result[|result| - 1], s) {
      var last := result[|result| - 1];
      var e := Extend(last, s);
      assert e.Lead() == last.Lead();
      assert r[|r| - 1] == e;
      assert forall i :: 0 <= i < |r| - 1 ==> r[i] == result[i];
      assert Uniform(last);
      forall m | m in e.Members()
        ensures m.kind == e.Kind() && m.description == e.Description()
      {
        if m != s {
          assert m in last.Members();
        }
      }
    } else {
      assert forall i :: 0 <= i < |result| ==> r[i] == result[i];
      assert r[|result|] == Atomic(s);
      assert Atomic(s).Members() == [s];
    }
  }

  /** `_.reduce` from the accumulator `acc`: each step is pushed in turn. */
  function Fold(acc: seq<DisplayUnit>, steps: seq<Step>): seq<DisplayUnit>
    decreases |steps|
  {
    if steps == [] then acc else Fold(Push(acc, steps[0]), steps[1..])
  }

  /** The aggregation stage: the fold from the empty result. */
  function AggregateSteps(steps: seq<Step>): seq<DisplayUnit> {
    Fold([], steps)
  }

  lemma {:induction false} FoldExpands(acc: seq<DisplayUnit>, steps: seq<Step>)
    ensures Expand(Fold(acc, steps)) == Expand(acc) + steps
    decreases |steps|
  {
    if steps != [] {
      FoldExpands(Push(acc, steps[0]), steps[1..]);
      PushExpands(acc, steps[0]);
      assert [steps[0]] + steps[1..] == steps;
    }
  }

  /** Expanding the fold's result gives the steps back, in order: nothing is lost, added or reordered. */
  lemma ExpandAggregate(steps: seq<Step>)
    ensures Expand(AggregateSteps(steps)) == steps
  {
    FoldExpands([], steps);
  }

  lemma {:induction false} FoldWellFormed(acc: seq<DisplayUnit>, steps: seq<Step>)
    requires WellFormed(acc)
    ensures WellFormed(Fold(acc, steps))
    decreases |steps|
  {
    if steps != [] {
      PushKeepsWellFormed(acc, steps[0]);
      FoldWellFormed(Push(acc, steps[0]), steps[1..]);
    }
  }

  /** The fold's result is well formed: maximal runs, aggregates of two or more equal stops. */
  lemma AggregateWellFormed(steps: seq<Step>)
    ensures WellFormed(AggregateSteps(steps))
  {
    FoldWellFormed([], steps);
  }

  lemma {:induction false} FoldAppend(acc: seq<DisplayUnit>, a: seq<Step>, b: seq<Step>)
    ensures Fold(acc, a + b) == Fold(Fold(acc, a), b)
    decreases |a|
  {
    if a != [] {
      assert (a + b)[0] == a[0];
      assert (a + b)[1..] == a[1..] + b;
      FoldAppend(Push(acc, a[0]), a[1..], b);
    } else {
      assert a + b == b;
    }
  }

  /** The unit `u` cut down to its first `k` members. */
  function Prefix(u: DisplayUnit, k: nat): (r: DisplayUnit)
    requires 1 <= k <= |u.Members()|
  {
    if k == 1 then Atomic(u.Lead())
    else Aggregate(u.Lead(), u.Members()[1..k])
  }

  lemma PrefixExtend(u: DisplayUnit, k: nat)
    requires 2 <= k <= |u.Members()|
    ensures Extend(Prefix(u, k - 1), u.Members()[k - 1]) == Prefix(u, k)
  {
    var ms := u.Members();
    assert ms[1..k] == ms[1..k - 1] + [ms[k - 1]];
  }

  lemma PrefixWhole(u: DisplayUnit)
    requires u.Aggregate? ==> u.tail != []
    ensures Prefix(u, |u.Members()|) == u
  {
    if u.Aggregate? {
      assert u.Members()[1..|u.Members()|] == u.tail;
    }
  }

  /** Pushing member `k` of a uniform unit onto its `k`-prefix gives the next prefix. */
  lemma PushMember(units: seq<DisplayUnit>, u: DisplayUnit, k: nat)
    requires 1 <= k < |u.Members()|
    requires Uniform(u)
    ensures Push(units + [Prefix(u, k)], u.Members()[k]) == units + [Prefix(u, k + 1)]
  {
    var ms := u.Members();
    var p := Prefix(u, k);
    LeadIsFirstMember(u);
    assert ms[k] in ms;
    assert p.Lead() == u.Lead();
    assert SameStop(p, ms[k]);
    assert (units + [p])[..|units|] == units;
    PrefixExtend(u, k + 1);
  }

  /** Pushing the remaining members of a uniform unit onto its prefix rebuilds the unit. */
  lemma {:induction false} FoldMembers(units: seq<DisplayUnit>, u: DisplayUnit, k: nat)
    requires 1 <= k <= |u.Members()|
    requires Uniform(u) && (u.Aggregate? ==> u.tail != [])
    ensures Fold(units + [Prefix(u, k)], u.Members()[k..]) == units + [u]
    decreases |u.Members()| - k
  {
    var ms := u.Members();
    if k == |ms| {
      assert ms[k..] == [];
      PrefixWhole(u);
    } else {
      assert ms[k..][0] == ms[k] && ms[k..][1..] == ms[k + 1..];
      PushMember(units, u, k);
      FoldMembers(units, u, k + 1);
    }
  }

  /** Aggregating the expansion of a well-formed sequence gives it back: the fold's partner. */
  lemma {:induction false} AggregateExpand(units: seq<DisplayUnit>)
    requires WellFormed(units)
    ensures AggregateSteps(Expand(units)) == units
  {
    if units != [] {
      var init := units[..|units| - 1];
      var u := units[|units| - 1];
      var ms := u.Members();
      assert units == init + [u];
      assert WellFormed(init) by {
        assert forall i :: 0 <= i < |init| ==> init[i] == units[i];
      }
      AggregateExpand(init);
      ExpandSnoc(init, u);
      FoldAppend([], Expand(init), ms);
      LeadIsFirstMember(u);
      assert ms[0] == u.Lead();
      assert init != [] ==> !SameStopUnits(init[|init| - 1], u);
      assert Push(init, ms[0]) == init + [Prefix(u, 1)];
      FoldMembers(init, u, 1);
    }
  }

  /** The filter counts each plain step as often as the input holds it as a plain unit. */
  lemma {:induction false} AtomicStepsCount(units: seq<DisplayUnit>, s: Step)
    ensures multiset(AtomicSteps(units))[s] == multiset(units)[Atomic(s)]
  {
    if units != [] {
      AtomicStepsCount(units[1..], s);
      assert units == [units[0]] + units[1..];
    }
  }

  /** The filter respects permutations. */
  lemma AtomicStepsPermutation(a: seq<DisplayUnit>, b: seq<DisplayUnit>)
    requires multiset(a) == multiset(b)
    ensures multiset(AtomicSteps(a)) == multiset(AtomicSteps(b))
  {
    forall s
      ensures multiset(AtomicSteps(a))[s] == multiset(AtomicSteps(b))[s]
    {
      AtomicStepsCount(a, s);
      AtomicStepsCount(b, s);
    }
  }

  /** Steps wrapped one by one as display units, as a route holds them when it arrives. */
  function Plain(steps: seq<Step>): (r: seq<DisplayUnit>)
    ensures |r| == |steps|
  {
    if steps == [] then [] else [Atomic(steps[0])] + Plain(steps[1..])
  }

  /** Plain steps pass the filter unchanged. */
  lemma {:induction false} AtomicStepsOfPlain(steps: seq<Step>)
    ensures AtomicSteps(Plain(steps)) == steps
  {
    if steps != [] {
      AtomicStepsOfPlain(steps[1..]);
      assert Plain(steps)[1..] == Plain(steps[1..]);
    }
  }
}

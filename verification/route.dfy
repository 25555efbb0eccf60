/**
 A route as the client holds it (the `Route` class): its totals, its display
 units, the post-processing that repairs and aggregates them, and the two
 map projections of the units.
 */
module Routes {
  import opened Wrappers
  import opened Text
  import opened GeoJson
  import opened RouteSteps
  import opened DisplayUnits
  import opened Legs
  import opened LegRepair
  import opened LegFacts
  import opened RepairTheorems
  import opened Aggregation

  /**
   The fields of a route the client reads. `vehicle`, `cost`, `priority`,
   `distance`, `violations` and `description` are carried by the response
   but not read by the modelled operations.
   */
  datatype Route = Route(
    setup: int,
    service: int,
    duration: int,
    waitingTime: int,
    steps: seq<DisplayUnit>,
    geometry: string)
  {
    /** The route's total: unlike a step's, it includes the travel duration. */
    function TotalDuration(): int {
      setup + service + duration + waitingTime
    }
  }

  /** Each of the four components counts once in a route's total. */
  lemma RouteTotalCountsTravel(r: Route, extra: int)
    ensures r.(duration := r.duration + extra).TotalDuration() == r.TotalDuration() + extra
    ensures r.(setup := r.setup + extra).TotalDuration() == r.TotalDuration() + extra
    ensures r.(service := r.service + extra).TotalDuration() == r.TotalDuration() + extra
    ensures r.(waitingTime := r.waitingTime + extra).TotalDuration() == r.TotalDuration() + extra
  {
  }

  /** The legs of the route: split at every reload boundary. */
  function RouteLegs(units: seq<DisplayUnit>): (legs: seq<Leg>)
    ensures |legs| == |ReloadIndices(units)| + 1
    ensures Flatten(legs) == units
  {
    LegSplitPartitions(units);
    SplitArray(units, ReloadIndices(units))
  }

  /**
   `optimize()`: split into legs, repair the legs, flatten them, keep the
   plain steps and aggregate runs of the same stop.
   */
  function Optimize(units: seq<DisplayUnit>): seq<DisplayUnit> {
    AggregateSteps(AtomicSteps(Flatten(Repair(RouteLegs(units)))))
  }

  /**
   Post-processing keeps every plain step exactly as often as it occurs,
   drops the aggregates it is given, and leaves runs merged: no two
   neighbours show the same stop, and every aggregate holds two or more
   members of one stop.
   */
  lemma OptimizeKeepsSteps(units: seq<DisplayUnit>)
    ensures multiset(Expand(Optimize(units))) == multiset(AtomicSteps(units))
    ensures WellFormed(Optimize(units))
  {
    var legs := RouteLegs(units);
    RepairIsPermutation(legs);
    AtomicStepsPermutation(Flatten(Repair(legs)), units);
    ExpandAggregate(AtomicSteps(Flatten(Repair(legs))));
    AggregateWellFormed(AtomicSteps(Flatten(Repair(legs))));
  }

  /** For a route as it arrives, all plain steps, post-processing permutes the steps. */
  lemma OptimizePermutesPlainSteps(steps: seq<Step>)
    ensures multiset(Expand(Optimize(Plain(steps)))) == multiset(steps)
  {
    OptimizeKeepsSteps(Plain(steps));
    AtomicStepsOfPlain(steps);
  }

  /** The `hasLocation` filter of both projections: the located units, in route order. */
  function Located(units: seq<DisplayUnit>): (r: seq<DisplayUnit>)
    ensures |r| <= |units|
    ensures forall k :: 0 <= k < |r| ==> r[k].HasLocation() && (r[k].Atomic? ==> r[k].step.HasLocation())
  {
    if units == [] then []
    else if units[0].HasLocation() then
      LocatedDraws(units[0], 0);
      [units[0]] + Located(units[1..])
    else Located(units[1..])
  }

  /** The filter keeps order: it distributes over concatenation. */
  lemma {:induction false} LocatedAppend(a: seq<DisplayUnit>, b: seq<DisplayUnit>)
    ensures Located(a + b) == Located(a) + Located(b)
  {
    if a != [] {
      LocatedAppend(a[1..], b);
      assert (a + b)[1..] == a[1..] + b;
      assert (a + b)[0] == a[0];
    } else {
      assert a + b == b;
    }
  }

  /** The filter keeps every located unit as often as it occurs, and nothing else. */
  lemma {:induction false} LocatedCounts(units: seq<DisplayUnit>, u: DisplayUnit)
    ensures multiset(Located(units))[u] == if u.HasLocation() then multiset(units)[u] else 0
  {
    if units != [] {
      LocatedCounts(units[1..], u);
      assert units == [units[0]] + units[1..];
    }
  }

  /** A located unit can always be drawn. */
  lemma LocatedDraws(u: DisplayUnit, i: int)
    requires u.HasLocation()
    ensures u.Atomic? ==> u.step.HasLocation()
    ensures u.ToFeature(i).Success?
  {
    if u.Atomic? {
      assert u.Members()[0] == u.step;
    }
  }

  /**
   `getStepsAsGeoJsonFeatures()`: one Point feature per located unit, the
   `k`-th drawn as stop index `k`, counted among the located units only.
   */
  function StepsAsFeatures(units: seq<DisplayUnit>): (fs: seq<PointFeature>)
    ensures |fs| == |Located(units)|
    ensures forall k :: 0 <= k < |fs| ==> Located(units)[k].ToFeature(k) == Success(fs[k])
  {
    var located := Located(units);
    seq(|located|, k requires 0 <= k < |located| => located[k].ToFeature(k).value)
  }

  /**
   The stop number in a shipment label counts located units: a plain
   shipment step at position `k` of the located units reads "Stop: k+1",
   however many unlocated units precede it.
   */
  lemma FeatureStopNumber(units: seq<DisplayUnit>, k: nat)
    requires k < |Located(units)|
    requires Located(units)[k].Atomic? && !IsTerminalOrBreak(Located(units)[k].step.kind)
    ensures var s := Located(units)[k].step;
      && StepsAsFeatures(units)[k].description == Join(s.LabelLines(k), "\n")
      && ParseInt(s.LabelLines(k)[2][6..]) == Some(k + 1)
  {
    var s := Located(units)[k].step;
    LabelNamesShipmentAndStop(s, k);
  }

  /**
   `getGeometryDirectAsGeoJson()`: the line through the located units, one
   position per unit, read with the `location` getter.
   */
  function DirectLine(units: seq<DisplayUnit>): (line: LineString)
    ensures |line.coordinates| == |Located(units)|
    ensures forall k :: 0 <= k < |line.coordinates| ==> line.coordinates[k] == Located(units)[k].Location()
  {
    var located := Located(units);
    LineString(seq(|located|, k requires 0 <= k < |located| => located[k].Location()))
  }

  /**
   The direct line has a hole at an aggregate whose member 0 has no location
   while a later member has one: the unit passes the filter, but its
   `location` getter answers with member 0's.
   */
  lemma DirectLineHoleAtAggregate(h: Step, t: seq<Step>, k: nat)
    requires !h.HasLocation()
    requires k < |t| && t[k].HasLocation()
    ensures DirectLine([Aggregate(h, t)]).coordinates == [None]
    ensures |StepsAsFeatures([Aggregate(h, t)])| == 1
  {
    LocationGetterIgnoresLaterMembers(h, t, k);
    assert Located([Aggregate(h, t)]) == [Aggregate(h, t)];
  }
}

/**
 The unit the client displays: a single route step, or an `AggregatedRouteStep`
 that stands for several consecutive steps of the same stop and answers the
 same read accessors by delegating to its members.
 */
module DisplayUnits {
  import opened Wrappers
  import opened GeoJson
  import opened RouteSteps

  /** The message an aggregate throws when asked for a feature while no member has a location. */
  const NoLocationError: string := "RouteStep has no location"

  /** Index of the first step that has a location (`Array.prototype.find` on `hasLocation`). */
  function FirstLocatedIndex(steps: seq<Step>): (r: Option<nat>)
    ensures r.Some? ==>
      && r.value < |steps|
      && steps[r.value].HasLocation()
      && forall j :: 0 <= j < r.value ==> !steps[j].HasLocation()
    ensures r.None? <==> forall j :: 0 <= j < |steps| ==> !steps[j].HasLocation()
  {
    if steps == [] then None
    else if steps[0].HasLocation() then Some(0)
    else match FirstLocatedIndex(steps[1..])
      case None => None
      case Some(i) => Some(i + 1)
  }

  /**
   An atomic step, or an aggregate of `[head] + tail`. An aggregate is never
   empty: the client creates it with its first two members in one go.
   */
  datatype DisplayUnit = Atomic(step: Step) | Aggregate(head: Step, tail: seq<Step>)
  {
    /** The route steps this unit stands for, in route order. */
    function Members(): (ms: seq<Step>)
      ensures |ms| >= 1
      ensures Aggregate? ==> |ms| == |tail| + 1
    {
      match this
      case Atomic(s) => [s]
      case Aggregate(h, t) => [h] + t
    }

    /** The step the getters read: the step itself, or an aggregate's member 0. */
    function Lead(): Step {
      match this
      case Atomic(s) => s
      case Aggregate(h, _) => h
    }

    function Kind(): StepKind {
      Lead().kind
    }

    function Description(): string {
      Lead().description
    }

    function Distance(): int {
      Lead().distance
    }

    function Duration(): int {
      Lead().duration
    }

    function Arrival(): int {
      Lead().arrival
    }

    /** The `location` getter, which reads member 0 even when a later member is the located one. */
    function Location(): Option<Position> {
      Lead().location
    }

    function TotalDuration(): int {
      Lead().TotalDuration()
    }

    /** The `id` property: an aggregate declares none, so it reads `undefined`. */
    function Id(): Option<int> {
      match this
      case Atomic(s) => Some(s.id)
      case Aggregate(_, _) => None
    }

    /** `hasLocation()`: an aggregate asks whether some member has a location. */
    function HasLocation(): (b: bool)
      ensures b <==> exists i :: 0 <= i < |Members()| && Members()[i].HasLocation()
    {
      match this
      case Atomic(s) => assert Members()[0] == s; s.HasLocation()
      case Aggregate(_, _) => FirstLocatedIndex(Members()).Some?
    }

    /**
     `toGeoJsonFeature(stepIndex)`. An aggregate delegates to its first
     located member and throws when there is none; a step is only asked once
     its location is known to be present.
     */
    function ToFeature(stepIndex: int): (r: Result<PointFeature>)
      requires Atomic? ==> step.HasLocation()
      ensures r.Success? <==> HasLocation()
      ensures r.Failure? ==> r.error == NoLocationError
      ensures r.Success? ==> exists i ::
        && 0 <= i < |Members()|
        && Members()[i].HasLocation()
        && (forall j :: 0 <= j < i ==> !Members()[j].HasLocation())
        && r.value == Members()[i].ToFeature(stepIndex)
    {
      match this
      case Atomic(s) => Success(s.ToFeature(stepIndex))
      case Aggregate(_, _) =>
        match FirstLocatedIndex(Members())
        case None => Failure(NoLocationError)
        case Some(i) => Success(Members()[i].ToFeature(stepIndex))
    }
  }

  /** The step the getters read is the first member. */
  lemma LeadIsFirstMember(u: DisplayUnit)
    ensures u.Members()[0] == u.Lead()
  {
  }

  /** The plain getters of an aggregate all read member 0; its total is member 0's, not a sum. */
  lemma AggregateGettersReadMemberZero(u: DisplayUnit)
    requires u.Aggregate?
    ensures u.Kind() == u.Members()[0].kind
    ensures u.Description() == u.Members()[0].description
    ensures u.Distance() == u.Members()[0].distance
    ensures u.Duration() == u.Members()[0].duration
    ensures u.Arrival() == u.Members()[0].arrival
    ensures u.Location() == u.Members()[0].location
    ensures u.TotalDuration() == u.Members()[0].TotalDuration()
  {
  }

  /**
   When member 0 has no location but a later member has one, the aggregate
   reports a location and draws its feature at the later member, yet its
   `location` getter still answers "none".
   */
  lemma LocationGetterIgnoresLaterMembers(h: Step, t: seq<Step>, k: nat)
    requires !h.HasLocation()
    requires k < |t| && t[k].HasLocation()
    ensures Aggregate(h, t).HasLocation()
    ensures Aggregate(h, t).Location().None?
    ensures Aggregate(h, t).ToFeature(0).Success?
  {
    assert Aggregate(h, t).Members()[k + 1] == t[k];
  }
}

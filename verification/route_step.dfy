/** One stop of a route as returned by the solver (the `RouteStep` class). */
module RouteSteps {
  import opened Wrappers
  import opened Text
  import opened GeoJson

  /** The closed set of step types of the solver's response. */
  datatype StepKind = Start | Job | Pickup | Delivery | Break | End

  /** The wire name of a step kind, as it appears in `type`. */
  function KindName(k: StepKind): string {
    match k
    case Start => "start"
    case Job => "job"
    case Pickup => "pickup"
    case Delivery => "delivery"
    case Break => "break"
    case End => "end"
  }

  /** Kinds whose map label is a single fixed word. */
  predicate IsTerminalOrBreak(k: StepKind) {
    k == Start || k == End || k == Break
  }

  /**
   The `location` field as the solver's response can carry it: missing, an
   empty array, or the declared `[lon, lat]` pair.
   */
  datatype WireLocation = Absent | EmptyArray | LonLat(lon: real, lat: real)

  /** `_.isEmpty` on the field: true for a missing field and for an empty array. */
  predicate IsEmptyLocation(w: WireLocation) {
    w.Absent? || w.EmptyArray?
  }

  /** How a wire location becomes a step's `location`: both empty forms become `None`. */
  function ReadLocation(w: WireLocation): (r: Option<Position>)
    ensures r.None? <==> IsEmptyLocation(w)
    ensures r.Some? ==> w == LonLat(r.value.lon, r.value.lat)
  {
    match w
    case LonLat(lon, lat) => Some(Position(lon, lat))
    case _ => None
  }

  /**
   A route step. `location` is `None` both when the field is absent and when
   it is an empty array: `_.isEmpty` treats the two alike. Times are seconds,
   `distance` is metres; `priority`, `load` and `violations` are not read by
   the client and are omitted.
   */
  datatype Step = Step(
    id: int,
    kind: StepKind,
    description: string,
    location: Option<Position>,
    setup: int,
    service: int,
    duration: int,
    waitingTime: int,
    distance: int,
    arrival: int)
  {
    /** `!_.isEmpty(this.location)`. */
    predicate HasLocation() {
      location.Some?
    }

    /** Time spent at the stop: setup, service and waiting; travel time to reach it is not included. */
    function TotalDuration(): int {
      setup + service + waitingTime
    }

    /**
     The lines of the map label built for the step shown as stop number
     `stepIndex + 1`. The distance and ETA lines that follow the stop line
     in the client depend on float rounding and the wall clock and are not
     modelled.
     */
    function LabelLines(stepIndex: int): (lines: seq<string>)
      ensures IsTerminalOrBreak(kind) <==> |lines| == 1
      ensures kind == Start ==> lines == ["Start"]
      ensures kind == End ==> lines == ["End"]
      ensures kind == Break ==> lines == ["Break"]
      ensures !IsTerminalOrBreak(kind) ==>
        && |lines| == 3 && |lines[0]| > 9 && |lines[2]| > 6
        && lines[0][..9] == "Shipment " && lines[1] == description && lines[2][..6] == "Stop: "
    {
      if kind == Start then ["Start"]
      else if kind == End then ["End"]
      else if kind == Break then ["Break"]
      else ["Shipment " + IntToString(id + 1), description, "Stop: " + IntToString(stepIndex + 1)]
    }

    /** The Point feature of a located step; callers filter on `HasLocation` first. */
    function ToFeature(stepIndex: int): (f: PointFeature)
      requires HasLocation()
      ensures f.coordinates == location.value
      ensures f.kind == KindName(kind)
      ensures f.description == Join(LabelLines(stepIndex), "\n")
    {
      PointFeature(location.value, KindName(kind), Join(LabelLines(stepIndex), "\n"))
    }
  }

  /** Distinct kinds have distinct wire names, so `type` comparisons on names and on kinds agree. */
  lemma KindNameInjective(a: StepKind, b: StepKind)
    ensures KindName(a) == KindName(b) <==> a == b
  {
  }

  /** A step's own total is unaffected by its travel duration. */
  lemma TotalDurationExcludesTravel(s: Step, travel: int)
    ensures s.(duration := travel).TotalDuration() == s.TotalDuration()
    ensures s.(setup := s.setup + 1).TotalDuration() == s.TotalDuration() + 1
    ensures s.(service := s.service + 1).TotalDuration() == s.TotalDuration() + 1
    ensures s.(waitingTime := s.waitingTime + 1).TotalDuration() == s.TotalDuration() + 1
  {
  }

  /**
   The label of a shipment stop can be read back: its first line names
   shipment `id + 1`, its second is the description, its third names stop
   `stepIndex + 1`.
   */
  lemma LabelNamesShipmentAndStop(s: Step, stepIndex: int)
    requires !IsTerminalOrBreak(s.kind)
    ensures var lines := s.LabelLines(stepIndex);
      && ParseInt(lines[0][9..]) == Some(s.id + 1)
      && lines[1] == s.description
      && ParseInt(lines[2][6..]) == Some(stepIndex + 1)
  {
    var lines := s.LabelLines(stepIndex);
    assert lines[0][9..] == IntToString(s.id + 1);
    assert lines[2][6..] == IntToString(stepIndex + 1);
    IntToStringRoundTrip(s.id + 1);
    IntToStringRoundTrip(stepIndex + 1);
  }

  /**
   Whichever wire form the `location` field arrived in, a step is located
   exactly when `_.isEmpty` finds that form non-empty, and then it sits at
   the pair's coordinates.
   */
  lemma HasLocationIffNotEmpty(s: Step, w: WireLocation)
    requires s.location == ReadLocation(w)
    ensures s.HasLocation() <==> !IsEmptyLocation(w)
    ensures s.HasLocation() ==> w == LonLat(s.location.value.lon, s.location.value.lat)
  {
  }
}

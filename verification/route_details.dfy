/**
 The route details panel: the icon shown for a step type and the header
 line shown for a display unit.
 */
module RouteDetails {
  import opened Wrappers
  import opened Text
  import opened RouteSteps
  import opened DisplayUnits

  /** `getMaterialIconForStepType(type)`: `job` and `delivery` share an icon; unknown types get "none". */
  function MaterialIcon(t: string): string {
    if t == "start" then "trip_origin"
    else if t == "pickup" then "package_2"
    else if t == "break" then "coffee"
    else if t == "job" || t == "delivery" then "home"
    else if t == "end" then "flag_circle"
    else "none"
  }

  /** The icon is "none" exactly for the strings that are not a step type's wire name. */
  lemma IconNoneIffUnknownType(t: string)
    ensures MaterialIcon(t) == "none" <==> forall k: StepKind :: KindName(k) != t
  {
    if MaterialIcon(t) != "none" {
      var k: StepKind :|
        t == KindName(k);
    }
  }

  /** Two step kinds share an icon exactly when they are equal or are `job` and `delivery`. */
  lemma IconsTellKindsApart(a: StepKind, b: StepKind)
    ensures MaterialIcon(KindName(a)) == MaterialIcon(KindName(b)) <==>
      a == b || ((a == Job || a == Delivery) && (b == Job || b == Delivery))
  {
  }

  /** The shipment numbers of a unit's members, as printed: `id + 1` each. */
  function ShipmentNumbers(ms: seq<Step>): (r: seq<string>)
    ensures |r| == |ms|
    ensures forall i :: 0 <= i < |r| ==> r[i] == IntToString(ms[i].id + 1)
  {
    seq(|ms|, i requires 0 <= i < |ms| => IntToString(ms[i].id + 1))
  }

  const ShipmentsPrefix: string := "Shipments: "
  const PickUpPrefix: string := "Pick Up: Shipment "
  const DeliveryPrefix: string := "Delivery: Shipment "

  /**
   `getHeaderForStep(step)`: an aggregate lists its members' shipment numbers
   whatever its kind; a plain step is named by its kind. The source's
   "none" branch is for a type outside the step kinds and has no
   counterpart here, where kinds are a closed set.
   */
  function Header(u: DisplayUnit): string {
    match u
    case Aggregate(_, _) => ShipmentsPrefix + Join(ShipmentNumbers(u.Members()), ", ")
    case Atomic(s) =>
      match s.kind
      case Start => "Start"
      case Pickup => PickUpPrefix + IntToString(s.id + 1)
      case Break => "Break"
      case Job => DeliveryPrefix + IntToString(s.id + 1)
      case Delivery => DeliveryPrefix + IntToString(s.id + 1)
      case End => "Route finished"
  }

  /** What a header tells its reader. */
  datatype HeaderContent =
    | Shipments(numbers: seq<int>)
    | PickUpOf(number: int)
    | DeliveryOf(number: int)
    | StartHeader
    | BreakHeader
    | Finished

  /**
   What the header of `u` should convey, stated without any text: the
   shipment numbers of an aggregate's members in order, or the kind and
   shipment number of a plain step.
   */
  function Conveys(u: DisplayUnit): HeaderContent {
    match u
    case Aggregate(_, _) =>
      var ms := u.Members();
      Shipments(seq(|ms|, i requires 0 <= i < |ms| => ms[i].id + 1))
    case Atomic(s) =>
      match s.kind
      case Start => StartHeader
      case Pickup => PickUpOf(s.id + 1)
      case Break => BreakHeader
      case Job => DeliveryOf(s.id + 1)
      case Delivery => DeliveryOf(s.id + 1)
      case End => Finished
  }

  /** A piece of the shipment list: the first as printed, every later one after the space of ", ". */
  function ReadNumber(p: string, padded: bool): Option<int> {
    if !padded then ParseInt(p)
    else if |p| > 0 && p[0] == ' ' then ParseInt(p[1..])
    else None
  }

  /** Reads every piece of the shipment list; `padded` tells whether the first one follows a separator. */
  function ReadNumbers(parts: seq<string>, padded: bool): Option<seq<int>> {
    if parts == [] then Some([])
    else match (ReadNumber(parts[0], padded), ReadNumbers(parts[1..], true))
      case (Some(n), Some(ns)) => Some([n] + ns)
      case _ => None
  }

  /** Reading a header back: the reader's side of `Header`. */
  function ReadHeader(h: string): Option<HeaderContent> {
    if h == "Start" then Some(StartHeader)
    else if h == "Break" then Some(BreakHeader)
    else if h == "Route finished" then Some(Finished)
    else if |h| >= |ShipmentsPrefix| && h[..|ShipmentsPrefix|] == ShipmentsPrefix then
      match ReadNumbers(Split(h[|ShipmentsPrefix|..], ','), false)
      case Some(ns) => Some(Shipments(ns))
      case None => None
    else if |h| >= |PickUpPrefix| && h[..|PickUpPrefix|] == PickUpPrefix then
      match ParseInt(h[|PickUpPrefix|..])
      case Some(n) => Some(PickUpOf(n))
      case None => None
    else if |h| >= |DeliveryPrefix| && h[..|DeliveryPrefix|] == DeliveryPrefix then
      match ParseInt(h[|DeliveryPrefix|..])
      case Some(n) => Some(DeliveryOf(n))
      case None => None
    else None
  }

  lemma {:induction false} ReadPrintedNumbers(parts: seq<string>, padded: bool, ns: seq<int>)
    requires |parts| == |ns|
    requires forall i :: 0 <= i < |parts| ==>
      parts[i] == (if i == 0 && !padded then "" else " ") + IntToString(ns[i])
    ensures ReadNumbers(parts, padded) == Some(ns)
  {
    if parts != [] {
      ReadPrintedNumbers(parts[1..], true, ns[1..]);
      IntToStringRoundTrip(ns[0]);
      if padded {
        assert parts[0][1..] == IntToString(ns[0]);
      } else {
        assert parts[0] == IntToString(ns[0]);
      }
      assert [ns[0]] + ns[1..] == ns;
    }
  }

  lemma {:induction false} CountZero(s: string, c: char)
    requires Count(s, c) == 0
    ensures c !in s
  {
    if s != [] {
      CountZero(s[1..], c);
      assert s == [s[0]] + s[1..];
    }
  }

  lemma NumbersHaveNoComma(ms: seq<Step>)
    ensures forall i :: 0 <= i < |ms| ==> ',' !in ShipmentNumbers(ms)[i]
  {
    var parts := ShipmentNumbers(ms);
    forall i | 0 <= i < |ms|
      ensures ',' !in parts[i]
    {
      NoCommaInDigits(parts[i]);
      CountZero(parts[i], ',');
    }
  }

  lemma PaddedNoComma(parts: seq<string>)
    requires |parts| > 0
    requires forall i :: 0 <= i < |parts| ==> ',' !in parts[i]
    ensures forall i :: 0 <= i < |parts| ==> ',' !in Padded(parts, " ")[i]
  {
  }

  /** The text after the prefix of an aggregate's header splits at the commas into its members' pieces. */
  lemma SplitShipmentList(ms: seq<Step>)
    requires |ms| > 0
    ensures Split(Join(ShipmentNumbers(ms), ", "), ',') == Padded(ShipmentNumbers(ms), " ")
  {
    var parts := ShipmentNumbers(ms);
    assert ", " == [','] + " ";
    JoinPadded(parts, ',', " ");
    NumbersHaveNoComma(ms);
    PaddedNoComma(parts);
    SplitJoin(Padded(parts, " "), ',');
  }

  /** A header starting with the shipments prefix is read as a shipment list. */
  lemma ReadShipmentsHeader(body: string)
    ensures ReadHeader(ShipmentsPrefix + body) ==
      match ReadNumbers(Split(body, ','), false)
      case Some(ns) => Some(Shipments(ns))
      case None => None
  {
    var h := ShipmentsPrefix + body;
    assert h[..|ShipmentsPrefix|] == ShipmentsPrefix && h[|ShipmentsPrefix|..] == body;
    assert h != "Start" && h != "Break" && h != "Route finished" by {
      assert h[0] == 'S' && h[1] == 'h';
    }
  }

  lemma AggregateHeaderReadsBack(u: DisplayUnit)
    requires u.Aggregate?
    ensures ReadHeader(Header(u)) == Some(Conveys(u))
  {
    var ms := u.Members();
    var parts := ShipmentNumbers(ms);
    ReadShipmentsHeader(Join(parts, ", "));
    SplitShipmentList(ms);
    var ns := seq(|ms|, i requires 0 <= i < |ms| => ms[i].id + 1);
    ReadPrintedNumbers(Padded(parts, " "), false, ns);
  }

  lemma PlainHeaderReadsBack(s: Step)
    ensures ReadHeader(Header(Atomic(s))) == Some(Conveys(Atomic(s)))
  {
    var h := Header(Atomic(s));
    IntToStringRoundTrip(s.id + 1);
    match s.kind
    case Pickup =>
      assert h[..|PickUpPrefix|] == PickUpPrefix && h[|PickUpPrefix|..] == IntToString(s.id + 1);
      assert h[..|ShipmentsPrefix|] != ShipmentsPrefix by {
        assert h[0] != ShipmentsPrefix[0];
      }
    case Job =>
      assert h[..|DeliveryPrefix|] == DeliveryPrefix && h[|DeliveryPrefix|..] == IntToString(s.id + 1);
      assert h[..|ShipmentsPrefix|] != ShipmentsPrefix by {
        assert h[0] != ShipmentsPrefix[0];
      }
      assert h[..|PickUpPrefix|] != PickUpPrefix by {
        assert h[0] != PickUpPrefix[0];
      }
    case Delivery =>
      assert h[..|DeliveryPrefix|] == DeliveryPrefix && h[|DeliveryPrefix|..] == IntToString(s.id + 1);
      assert h[..|ShipmentsPrefix|] != ShipmentsPrefix by {
        assert h[0] != ShipmentsPrefix[0];
      }
      assert h[..|PickUpPrefix|] != PickUpPrefix by {
        assert h[0] != PickUpPrefix[0];
      }
    case _ =>
  }

  /**
   Every header can be read back to what its unit conveys: an aggregate's
   header names its members' shipments in order, a plain step's its kind
   and shipment.
   */
  lemma HeaderReadsBack(u: DisplayUnit)
    ensures ReadHeader(Header(u)) == Some(Conveys(u))
  {
    if u.Aggregate? {
      AggregateHeaderReadsBack(u);
    } else {
      PlainHeaderReadsBack(u.step);
    }
  }

  /** An aggregate's header lists one shipment per member, whatever kind the aggregate has. */
  lemma AggregateHeaderListsMembers(u: DisplayUnit)
    requires u.Aggregate?
    ensures Count(Header(u), ',') == |u.Members()| - 1
    ensures Header(u)[..|ShipmentsPrefix|] == ShipmentsPrefix
  {
    var parts := ShipmentNumbers(u.Members());
    forall i | 0 <= i < |parts|
      ensures Count(parts[i], ',') == 0
    {
      NoCommaInDigits(parts[i]);
    }
    CountInJoin(parts, ", ", ',');
    CountAppend(ShipmentsPrefix, Join(parts, ", "), ',');
  }
}

/**
 The map service's GeoJSON builders: the point layer for a scenario's
 shipments, and the point and line layers for a computed route.
 */
module AppMap {
  import opened Wrappers
  import opened Text
  import opened GeoJson
  import opened Shipments
  import opened DisplayUnits
  import opened Routes

  /** What the runtime throws when the aggregated pickup reads `shipments[0]` of an empty list. */
  const NoFirstShipmentError: string := "Cannot read properties of undefined (reading 'pickup')"

  const ShipmentLabelPrefix: string := "Shipment "

  /** The description of a shipment's point: "Shipment {id+1}", a newline, then the address. */
  function ShipmentLabel(id: int, addressName: string): string {
    ShipmentLabelPrefix + IntToString(id + 1) + "\n" + addressName
  }

  function PickupFeature(s: Shipment): PointFeature {
    PointFeature(s.pickup.coordinates, "pickup", ShipmentLabel(s.id, s.pickup.addressName))
  }

  function DeliveryFeature(s: Shipment): PointFeature {
    PointFeature(s.delivery.coordinates, "delivery", ShipmentLabel(s.id, s.delivery.addressName))
  }

  /**
   `transformShipmentsToGeoJsonPoints(shipments, aggregatePickup)`: the
   pickup features, then one delivery feature per shipment. Aggregated, the
   pickups collapse into one point built from the first shipment and labelled
   with its bare address; that reads `shipments[0]` and so throws on an
   empty list.
   */
  function ShipmentPoints(shipments: seq<Shipment>, aggregatePickup: bool := false): (r: Result<seq<PointFeature>>)
    ensures r.Failure? <==> aggregatePickup && shipments == []
    ensures r.Failure? ==> r.error == NoFirstShipmentError
  {
    var deliveries := seq(|shipments|, i requires 0 <= i < |shipments| => DeliveryFeature(shipments[i]));
    if aggregatePickup then
      if shipments == [] then Failure(NoFirstShipmentError)
      else
        var first := shipments[0];
        Success([PointFeature(first.pickup.coordinates, "pickup", first.pickup.addressName)] + deliveries)
    else
      var pickups := seq(|shipments|, i requires 0 <= i < |shipments| => PickupFeature(shipments[i]));
      Success(pickups + deliveries)
  }

  /** Reads a shipment label back: the shipment number and the address, split at the first newline. */
  function ReadShipmentLabel(d: string): Option<(int, string)> {
    match IndexOf(d, '\n')
    case None => None
    case Some(i) =>
      if i >= |ShipmentLabelPrefix| && d[..|ShipmentLabelPrefix|] == ShipmentLabelPrefix then
        match ParseInt(d[|ShipmentLabelPrefix|..i])
        case Some(n) => Some((n, d[i + 1..]))
        case None => None
      else None
  }

  /** A label names shipment `id + 1` and its address, whatever characters the address holds. */
  lemma ShipmentLabelReadsBack(id: int, addressName: string)
    ensures ReadShipmentLabel(ShipmentLabel(id, addressName)) == Some((id + 1, addressName))
  {
    var number := IntToString(id + 1);
    var d := ShipmentLabel(id, addressName);
    var head := ShipmentLabelPrefix + number;
    assert d == head + ['\n'] + addressName;
    assert '\n' !in head by {
      forall j | 0 <= j < |head|
        ensures head[j] != '\n'
      {
        if j >= |ShipmentLabelPrefix| {
          assert head[j] == number[j - |ShipmentLabelPrefix|];
        }
      }
    }
    IndexOfAppend(head, '\n', addressName);
    assert IndexOf(head, '\n').None?;
    assert d[..|ShipmentLabelPrefix|] == ShipmentLabelPrefix;
    assert d[|ShipmentLabelPrefix|..|head|] == number;
    assert d[|head| + 1..] == addressName;
    IntToStringRoundTrip(id + 1);
  }

  lemma SeparatePoints(shipments: seq<Shipment>)
    ensures var fs := ShipmentPoints(shipments, false).value;
      && |fs| == 2 * |shipments|
      && forall i :: 0 <= i < |shipments| ==>
        fs[i] == PickupFeature(shipments[i]) && fs[|shipments| + i] == DeliveryFeature(shipments[i])
  {
  }

  lemma AggregatedPoints(shipments: seq<Shipment>)
    requires shipments != []
    ensures var fs := ShipmentPoints(shipments, true).value;
      && |fs| == |shipments| + 1
      && fs[0] == PointFeature(shipments[0].pickup.coordinates, "pickup", shipments[0].pickup.addressName)
      && forall i :: 0 <= i < |shipments| ==> fs[1 + i] == DeliveryFeature(shipments[i])
  {
    var deliveries := seq(|shipments|, i requires 0 <= i < |shipments| => DeliveryFeature(shipments[i]));
    var first := PointFeature(shipments[0].pickup.coordinates, "pickup", shipments[0].pickup.addressName);
    assert ShipmentPoints(shipments, true).value == [first] + deliveries;
  }

  /** Both labels of a shipment read back to its number and the address of their side. */
  lemma FeaturesReadBack(s: Shipment)
    ensures ReadShipmentLabel(PickupFeature(s).description) == Some((s.id + 1, s.pickup.addressName))
    ensures ReadShipmentLabel(DeliveryFeature(s).description) == Some((s.id + 1, s.delivery.addressName))
  {
    ShipmentLabelReadsBack(s.id, s.pickup.addressName);
    ShipmentLabelReadsBack(s.id, s.delivery.addressName);
  }

  /**
   The layer without aggregation: 2n features, the pickups of all shipments
   in order, then their deliveries in order, each at its address's
   coordinates and labelled with the shipment and the address.
   */
  lemma SeparatePickupsLayout(shipments: seq<Shipment>)
    ensures var fs := ShipmentPoints(shipments, false).value;
      var n := |shipments|;
      && |fs| == 2 * n
      && (forall i :: 0 <= i < n ==>
        && fs[i].kind == "pickup" && fs[i].coordinates == shipments[i].pickup.coordinates
        && ReadShipmentLabel(fs[i].description) == Some((shipments[i].id + 1, shipments[i].pickup.addressName)))
      && (forall i :: 0 <= i < n ==>
        && fs[n + i].kind == "delivery" && fs[n + i].coordinates == shipments[i].delivery.coordinates
        && ReadShipmentLabel(fs[n + i].description) == Some((shipments[i].id + 1, shipments[i].delivery.addressName)))
  {
    SeparatePoints(shipments);
    forall i | 0 <= i < |shipments| {
      FeaturesReadBack(shipments[i]);
    }
  }

  /**
   The layer with aggregation: n+1 features, one pickup point at the first
   shipment's pickup with its bare address, then every delivery in order.
   */
  lemma AggregatedPickupLayout(shipments: seq<Shipment>)
    requires shipments != []
    ensures var fs := ShipmentPoints(shipments, true).value;
      var n := |shipments|;
      && |fs| == n + 1
      && fs[0] == PointFeature(shipments[0].pickup.coordinates, "pickup", shipments[0].pickup.addressName)
      && (forall i :: 0 <= i < n ==>
        && fs[1 + i].kind == "delivery" && fs[1 + i].coordinates == shipments[i].delivery.coordinates
        && ReadShipmentLabel(fs[1 + i].description) == Some((shipments[i].id + 1, shipments[i].delivery.addressName)))
  {
    AggregatedPoints(shipments);
    forall i | 0 <= i < |shipments| {
      FeaturesReadBack(shipments[i]);
    }
  }

  /** Either way every pickup feature comes before every delivery feature, and there are no others. */
  lemma PickupsBeforeDeliveries(shipments: seq<Shipment>, aggregatePickup: bool)
    requires ShipmentPoints(shipments, aggregatePickup).Success?
    ensures var fs := ShipmentPoints(shipments, aggregatePickup).value;
      var k := if aggregatePickup then 1 else |shipments|;
      && k <= |fs|
      && (forall i :: 0 <= i < k ==> fs[i].kind == "pickup")
      && (forall i :: k <= i < |fs| ==> fs[i].kind == "delivery")
  {
  }

  /** The `_.filter` of `displayRoute`: the point features whose `type` is not "pickup", in order. */
  function DropPickups(fs: seq<PointFeature>): seq<PointFeature> {
    if fs == [] then []
    else if fs[0].kind == "pickup" then DropPickups(fs[1..])
    else [fs[0]] + DropPickups(fs[1..])
  }

  /** The filter removes exactly the pickup features and keeps every other one as often as it occurs. */
  lemma {:induction false} DropPickupsCounts(fs: seq<PointFeature>, f: PointFeature)
    ensures multiset(DropPickups(fs))[f] == if f.kind == "pickup" then 0 else multiset(fs)[f]
  {
    if fs != [] {
      DropPickupsCounts(fs[1..], f);
      assert fs == [fs[0]] + fs[1..];
    }
  }

  /** The filter keeps order: it distributes over concatenation. */
  lemma {:induction false} DropPickupsAppend(a: seq<PointFeature>, b: seq<PointFeature>)
    ensures DropPickups(a + b) == DropPickups(a) + DropPickups(b)
  {
    if a != [] {
      DropPickupsAppend(a[1..], b);
      assert (a + b)[1..] == a[1..] + b;
      assert (a + b)[0] == a[0];
    } else {
      assert a + b == b;
    }
  }

  /** The line layer: the solver's encoded street geometry, or the direct line through the stops. */
  datatype Polyline = Encoded(geometry: string) | Direct(line: LineString)

  /** What `displayRoute` hands to the point and line layers. */
  datatype RouteLayers = RouteLayers(points: seq<PointFeature>, polyline: Polyline)

  /**
   `displayRoute(route, matchStreets, aggregatePickUp)`. Decoding the
   encoded geometry is not part of this model, so the street line is
   represented by the encoded string it is decoded from.
   */
  function DisplayRoute(route: Route, matchStreets: bool := true, aggregatePickUp: bool := false): (r: RouteLayers)
    ensures r.polyline.Encoded? <==> matchStreets
    ensures matchStreets ==> r.polyline.geometry == route.geometry
    ensures !matchStreets ==> r.polyline.line == DirectLine(route.steps)
  {
    var points := StepsAsFeatures(route.steps);
    RouteLayers(
      if aggregatePickUp then DropPickups(points) else points,
      if matchStreets then Encoded(route.geometry) else Direct(DirectLine(route.steps)))
  }

  /**
   The point layer is the route's step features, with the pickup features
   removed exactly when pickups are aggregated at the depot: no pickup is
   shown then, and every other feature keeps its multiplicity.
   */
  lemma DisplayRoutePoints(route: Route, matchStreets: bool, aggregatePickUp: bool, f: PointFeature)
    ensures var points := DisplayRoute(route, matchStreets, aggregatePickUp).points;
      multiset(points)[f] ==
        if aggregatePickUp && f.kind == "pickup" then 0 else multiset(StepsAsFeatures(route.steps))[f]
  {
    if aggregatePickUp {
      DropPickupsCounts(StepsAsFeatures(route.steps), f);
    }
  }
}

/**
 The request the client sends to the VROOM solver: one shipment entry per
 shipment, one vehicle entry per vehicle, and the option asking for route
 geometry.
 */
module VroomRequest {
  import opened Wrappers
  import opened Text
  import opened GeoJson
  import opened Shipments

  /** The capacity every vehicle gets when capacities are switched on, whatever value was configured. */
  const DefaultMaxCapacity: int := 4

  datatype VehicleType = Car | Bike

  function TypeName(t: VehicleType): string {
    match t
    case Car => "car"
    case Bike => "bike"
  }

  /**
   A vehicle as the request builder reads and writes it: `maxTasks` and
   `speedFactor` are the property names the builder uses, not the declared
   `max_tasks`.
   */
  datatype Vehicle = Vehicle(id: int, vehicleType: VehicleType, maxTasks: Option<int>, speedFactor: Option<real>)

  datatype Depot = Depot(coordinates: Option<Position>)

  /**
   The scenario settings the builder reads. `vehicleCapacity` is a number or
   absent; `deliverShipmentsFromDepot` and `randomShipmentsCount` are not read.
   */
  datatype ScenarioOptions = ScenarioOptions(depot: Option<Depot>, vehicleCapacity: Option<int>, autoAssignTasks: bool)

  /** JavaScript truthiness of `number | undefined` over integers: absent and 0 are falsy. */
  predicate Truthy(n: Option<int>) {
    n.Some? && n.value != 0
  }

  /** A pickup or delivery entry of a shipment DTO. */
  datatype ShipmentStepDto = ShipmentStepDto(id: int, location: Position, description: string, service: Option<int>)

  /**
   A shipment DTO. `amount` is `None` once the field has been deleted; when
   kept it is the one-element list `[shipment.amount]`, whose element may be
   `undefined`.
   */
  datatype ShipmentDto = ShipmentDto(
    pickup: ShipmentStepDto,
    delivery: ShipmentStepDto,
    amount: Option<seq<Option<int>>>,
    priority: int)

  /** The priority every shipment DTO carries from its field initializer; the builder never sets it. */
  const DefaultPriority: int := 0

  datatype VehicleDto = VehicleDto(
    id: int,
    start: Option<Position>,
    description: string,
    maxTasks: Option<int>,
    profile: string,
    speedFactor: Option<real>,
    capacity: Option<seq<int>>)

  /** The solver options: only `g` (return route geometry) is ever set. */
  datatype Options = Options(g: bool)

  datatype Request = Request(shipments: seq<ShipmentDto>, vehicles: seq<VehicleDto>, options: Options)

  /** `_.ceil(a / b)` for a non-negative `a` and a positive `b`. */
  function CeilDiv(a: nat, b: nat): nat
    requires b > 0
  {
    (a + b - 1) / b
  }

  /** The ceiling is the least multiple count covering `a`. */
  lemma CeilDivIsLeastCover(a: nat, b: nat)
    requires b > 0
    ensures CeilDiv(a, b) * b >= a
    ensures CeilDiv(a, b) == 0 || (CeilDiv(a, b) - 1) * b < a
  {
    var q := CeilDiv(a, b);
    var r := (a + b - 1) % b;
    assert q * b + r == a + b - 1;
  }

  function StepDto(id: int, side: Address): ShipmentStepDto {
    ShipmentStepDto(id, side.coordinates, side.addressName, side.serviceTimeSeconds)
  }

  /** The DTO of one shipment; `keepAmount` is false when capacities are off and the amount is deleted. */
  function ToShipmentDto(s: Shipment, keepAmount: bool): ShipmentDto {
    ShipmentDto(StepDto(s.id, s.pickup), StepDto(s.id, s.delivery), if keepAmount then Some([s.amount]) else None, DefaultPriority)
  }

  /** The task budget every vehicle gets under automatic assignment: both tasks of every shipment, shared out. */
  function TaskBudget(shipmentCount: nat, vehicleCount: nat): nat
    requires vehicleCount > 0
  {
    CeilDiv(2 * shipmentCount, vehicleCount)
  }

  /** The vehicles after the automatic assignment, which overwrites `maxTasks` on each input vehicle. */
  function AssignTasks(vehicles: seq<Vehicle>, shipmentCount: nat, options: ScenarioOptions): (r: seq<Vehicle>)
    ensures |r| == |vehicles|
    ensures forall i :: 0 <= i < |r| ==>
      && r[i].id == vehicles[i].id && r[i].vehicleType == vehicles[i].vehicleType
      && r[i].speedFactor == vehicles[i].speedFactor
      && r[i].maxTasks == (if options.autoAssignTasks then Some(TaskBudget(shipmentCount, |vehicles|)) else vehicles[i].maxTasks)
  {
    if options.autoAssignTasks && |vehicles| > 0 then
      var budget := TaskBudget(shipmentCount, |vehicles|);
      seq(|vehicles|, i requires 0 <= i < |vehicles| => vehicles[i].(maxTasks := Some(budget)))
    else vehicles
  }

  function ToVehicleDto(v: Vehicle, options: ScenarioOptions): VehicleDto {
    VehicleDto(
      v.id,
      if options.depot.Some? then options.depot.value.coordinates else None,
      TypeName(v.vehicleType) + " " + IntToString(v.id),
      v.maxTasks,
      TypeName(v.vehicleType),
      v.speedFactor,
      if Truthy(options.vehicleCapacity) then Some([DefaultMaxCapacity]) else None)
  }

  /**
   `generateVroomRequest`: the request, and the vehicles as the builder
   leaves them (the automatic assignment writes into its input).
   */
  function GenerateRequest(vehicles: seq<Vehicle> := [], shipments: seq<Shipment> := [], options: ScenarioOptions): (out: (Request, seq<Vehicle>))
    ensures var (req, after) := out;
      && |req.shipments| == |shipments| && |req.vehicles| == |vehicles| && |after| == |vehicles|
      && req.options == Options(true)
  {
    var keep := Truthy(options.vehicleCapacity);
    var after := AssignTasks(vehicles, |shipments|, options);
    var shipmentDtos := seq(|shipments|, i requires 0 <= i < |shipments| => ToShipmentDto(shipments[i], keep));
    var vehicleDtos := seq(|after|, i requires 0 <= i < |after| => ToVehicleDto(after[i], options));
    (Request(shipmentDtos, vehicleDtos, Options(true)), after)
  }

  /** Reads a shipment back from its DTO: the id from the pickup entry, the amount from a kept one-element list. */
  function ShipmentOf(d: ShipmentDto): Shipment {
    Shipment(
      d.pickup.id,
      Address(d.pickup.description, d.pickup.location, d.pickup.service),
      Address(d.delivery.description, d.delivery.location, d.delivery.service),
      if d.amount.Some? && |d.amount.value| == 1 then d.amount.value[0] else None)
  }

  /** Reads the vehicle type back from a profile. */
  function TypeOf(profile: string): Option<VehicleType> {
    if profile == "car" then Some(Car) else if profile == "bike" then Some(Bike) else None
  }

  /** Reads the vehicle id back from the description "{type} {id}". */
  function IdInDescription(d: string, profile: string): Option<int> {
    if |d| > |profile| && d[..|profile| + 1] == profile + " " then ParseInt(d[|profile| + 1..]) else None
  }

  /**
   Every shipment is sent whole: reading its DTO back gives the shipment,
   minus the amount when capacities are off; pickup and delivery carry the
   same id.
   */
  lemma ShipmentDtosRoundTrip(vehicles: seq<Vehicle>, shipments: seq<Shipment>, options: ScenarioOptions, i: nat)
    requires i < |shipments|
    ensures var d := GenerateRequest(vehicles, shipments, options).0.shipments[i];
      && d.pickup.id == d.delivery.id == shipments[i].id
      && ShipmentOf(d) == (if Truthy(options.vehicleCapacity) then shipments[i] else shipments[i].(amount := None))
      && (d.amount.None? <==> !Truthy(options.vehicleCapacity))
      && d.priority == DefaultPriority
  {
  }

  /**
   Every vehicle is sent with its id, type and speed factor: reading its DTO
   back gives the vehicle as the builder leaves it. It starts at the depot,
   and its description names its type and id.
   */
  lemma VehicleDtosRoundTrip(vehicles: seq<Vehicle>, shipments: seq<Shipment>, options: ScenarioOptions, i: nat)
    requires i < |vehicles|
    ensures var (req, after) := GenerateRequest(vehicles, shipments, options);
      var d := req.vehicles[i];
      && TypeOf(d.profile) == Some(after[i].vehicleType)
      && IdInDescription(d.description, d.profile) == Some(after[i].id)
      && Vehicle(d.id, TypeOf(d.profile).value, d.maxTasks, d.speedFactor) == after[i]
      && after[i].(maxTasks := vehicles[i].maxTasks) == vehicles[i]
      && d.start == (if options.depot.Some? then options.depot.value.coordinates else None)
  {
    var (req, after) := GenerateRequest(vehicles, shipments, options);
    var d := req.vehicles[i];
    var prefix := TypeName(after[i].vehicleType) + " ";
    assert d.description == prefix + IntToString(after[i].id);
    assert d.description[..|prefix|] == prefix && d.description[|prefix|..] == IntToString(after[i].id);
    IntToStringRoundTrip(after[i].id);
  }

  /**
   Under automatic assignment every vehicle gets the same budget, the least
   one that lets the fleet take both tasks of every shipment. Without it the
   vehicles keep their own `maxTasks`.
   */
  lemma TaskBudgetCoversAllTasks(vehicles: seq<Vehicle>, shipments: seq<Shipment>, options: ScenarioOptions, i: nat)
    requires i < |vehicles|
    ensures var (req, after) := GenerateRequest(vehicles, shipments, options);
      if options.autoAssignTasks then
        && req.vehicles[i].maxTasks.Some?
        && req.vehicles[i].maxTasks.value * |vehicles| >= 2 * |shipments|
        && (req.vehicles[i].maxTasks.value == 0 || (req.vehicles[i].maxTasks.value - 1) * |vehicles| < 2 * |shipments|)
      else req.vehicles[i].maxTasks == vehicles[i].maxTasks
  {
    CeilDivIsLeastCover(2 * |shipments|, |vehicles|);
  }

  /** With capacities on, every vehicle gets capacity `[4]`, whatever value was configured. */
  lemma CapacityIgnoresConfiguredValue(vehicles: seq<Vehicle>, shipments: seq<Shipment>, options: ScenarioOptions, other: int)
    requires other != 0
    ensures forall i :: 0 <= i < |vehicles| ==>
      GenerateRequest(vehicles, shipments, options).0.vehicles[i].capacity ==
        if Truthy(options.vehicleCapacity) then Some([DefaultMaxCapacity]) else None
    ensures Truthy(options.vehicleCapacity) ==>
      GenerateRequest(vehicles, shipments, options.(vehicleCapacity := Some(other))) == GenerateRequest(vehicles, shipments, options)
  {
    var o2 := options.(vehicleCapacity := Some(other));
    if Truthy(options.vehicleCapacity) {
      var (r1, a1) := GenerateRequest(vehicles, shipments, options);
      var (r2, a2) := GenerateRequest(vehicles, shipments, o2);
      assert a1 == a2;
      assert r1.shipments == r2.shipments;
      assert r1.vehicles == r2.vehicles;
    }
  }

  /**
   Switching capacities off changes nothing but the capacities and the
   amounts: the request with them off is the request with them on, minus
   every vehicle's capacity and every shipment's amount.
   */
  lemma CapacityOffOnlyDropsFields(vehicles: seq<Vehicle>, shipments: seq<Shipment>, options: ScenarioOptions)
    requires !Truthy(options.vehicleCapacity)
    ensures var off := GenerateRequest(vehicles, shipments, options);
      var on := GenerateRequest(vehicles, shipments, options.(vehicleCapacity := Some(DefaultMaxCapacity)));
      && off.1 == on.1
      && off.0.options == on.0.options
      && |off.0.shipments| == |on.0.shipments| && |off.0.vehicles| == |on.0.vehicles|
      && (forall i :: 0 <= i < |off.0.shipments| ==> off.0.shipments[i] == on.0.shipments[i].(amount := None))
      && (forall i :: 0 <= i < |off.0.vehicles| ==> off.0.vehicles[i] == on.0.vehicles[i].(capacity := None))
  {
  }
}

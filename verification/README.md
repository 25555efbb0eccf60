# Route display core of a VROOM map client

This project is a Dafny model of the data logic of a browser client. The
client sends delivery scenarios to the VROOM vehicle-routing solver and shows
the routes it gets back on a map. The model covers:

- **Route post-processing** (`Route.optimize`). This has three stages:
  - Reload boundaries are found: a `delivery` step directly followed by a `pickup`.
  - The route is split into legs at those boundaries. Then every pickup whose
    shipment is first delivered in a later leg is moved to the front of that leg.
  - The plain steps are kept, and each run of consecutive steps with the same
    type and description is merged into an aggregated step.
- **Display units.** A display unit is a `RouteStep`, or an
  `AggregatedRouteStep` that delegates to its members. The model covers
  location checks, durations and map-label construction.
- **Route projections.** These are the Point features and the direct
  LineString through the located units, plus the choices `displayRoute` makes
  about which layers to show.
- **The route-details panel.** It maps step types to icons, and builds the
  header text of a unit.
- **The VROOM request builder.** It produces the shipment and vehicle DTOs,
  the automatic task budget, the capacity switch and the solver options.
- **The shipment point layer.** This is the GeoJSON FeatureCollection of a
  scenario's pickups and deliveries, following sections 3.2 and 3.3 of
  RFC 7946.

All of this is modelled with immutable datatypes and pure functions over
sequences:

- A display unit is `Atomic(step)` or `Aggregate(head, tail)`, so an aggregate
  is never empty.
- A location is `Option<Position>`. `None` covers both forms that `_.isEmpty`
  treats alike: an absent field and an empty array.
- Leg repair is a fold over leg indices (`RepairFrom`). Inside it, a second
  fold goes over the candidates of one leg (`MoveAll`).
- Aggregation is the left fold `Fold`.
- Each operation comes with a partner:
  - Aggregation has `Expand`, and the two are inverse on well-formed input.
  - Headers and labels have readers, and each round trip is proved.
  - The request builder has `ShipmentOf`, which reads a shipment back from its DTO.
  - Repair has the invariant `RepairState`, from which the final theorems follow.

## Model

| member | source | states |
|---|---|---|
| RouteSteps.TotalDurationExcludesTravel | src/app/models/RouteStep.ts:24-26 | A step's total moves one for one with setup, service and waiting time, and does not depend on the travel duration |
| RouteSteps.HasLocationIffNotEmpty | src/app/models/RouteStep.ts:28-30 | `hasLocation` holds exactly when the `location` field arrived as a `[lon, lat]` pair, not missing and not an empty array, and the step then sits at that pair |
| RouteSteps.Step.LabelLines | src/app/models/RouteStep.ts:34-44 | Start, end and break steps get exactly the one line "Start", "End" or "Break". Every other step gets three lines: "Shipment …", its description, "Stop: …" |
| RouteSteps.LabelNamesShipmentAndStop | src/app/models/RouteStep.ts:41-44 | For a shipment step, the first label line reads back as shipment `id + 1`, the second is the description, and the third reads back as stop `stepIndex + 1` |
| RouteSteps.Step.ToFeature | src/app/models/RouteStep.ts:49-61 | A located step's feature lies at its location, has `type` equal to the step's wire name, and has its label lines joined by newlines as its description |
| RouteSteps.KindNameInjective | src/app/models/RouteStep.ts:7 | Two step kinds have the same wire name exactly when they are the same kind |
| DisplayUnits.FirstLocatedIndex | src/app/models/AggregatedRouteStep.ts:8-10 | The result is the first member with a location; it is `None` exactly when no member has one |
| DisplayUnits.DisplayUnit.HasLocation | src/app/models/AggregatedRouteStep.ts:12-14 | A unit has a location exactly when one of its members has one |
| DisplayUnits.DisplayUnit.ToFeature | src/app/models/AggregatedRouteStep.ts:16-22 | It succeeds exactly when the unit has a location, and then returns the feature of a located member. Otherwise it fails with "RouteStep has no location" |
| DisplayUnits.AggregateGettersReadMemberZero | src/app/models/AggregatedRouteStep.ts:24-50 | An aggregate's type, distance, description, duration, arrival, location and total duration are those of member 0 |
| DisplayUnits.LocationGetterIgnoresLaterMembers | src/app/models/AggregatedRouteStep.ts:44-46 | An aggregate whose member 0 has no location but a later member has one counts as located, yet its `location` is absent |
| Legs.ReloadIndices | src/app/models/Route.ts:72-82 | The boundary list is strictly increasing, and holds exactly the `i + 1` where step `i` is a delivery and step `i + 1` is a pickup. It is empty for routes shorter than two steps |
| Legs.SplitArrayPartitions | src/app/models/Route.ts:84-95 | Splitting at `k` ascending indices gives `k + 1` legs, and their concatenation is the input. An empty input gives only empty legs |
| Legs.LegSplitPartitions | src/app/models/Route.ts:98-99 | The legs of a route concatenate back to the route, one more leg than boundaries |
| LegRepair.InUndelivered | src/app/models/Route.ts:103-105 | A unit is a candidate exactly when it is a pickup of the leg whose id is not delivered in that leg |
| LegRepair.InRemovePickupsOf | src/app/models/Route.ts:119 | The filter keeps exactly the units that are not pickups of the removed ids |
| LegRepair.FirstDeliveryLegFrom | src/app/models/Route.ts:110-112 | The result is the first leg, at or after the start, that delivers the id. It is `None` when no such leg delivers it |
| RepairTheorems.MovePickupMovesIff | src/app/models/Route.ts:110-124 | A candidate changes the legs exactly when its first delivery leg lies strictly later. The move puts it at index 0 of that leg in front of the old contents, removes every pickup of its id from the current leg, and leaves every other leg alone |
| RepairTheorems.EarlierDeliveryKeepsPickup | src/app/models/Route.ts:110-114 | A search from leg 0 finding a delivery in an earlier leg leaves the pickup where it is, even if a later leg also delivers it |
| RepairTheorems.TwoMovesIntoSameLeg | src/app/models/Route.ts:123 | Two pickups moved into the same leg end up in reverse order of processing, in front of that leg's old contents |
| RepairTheorems.RepairIsPermutation | src/app/models/Route.ts:102-128 | The flattened repaired route is a permutation of the input: nothing is lost or duplicated |
| RepairTheorems.RepairMovesOnlyPickups | src/app/models/Route.ts:102-126 | Repair keeps the number of legs and each leg's non-pickup units in order, and no shipment's first delivery leg changes |
| RepairTheorems.RepairPlacesPickups | src/app/models/Route.ts:107-124 | After repair, no pickup sits in a leg before the first leg that delivers its shipment |
| RepairTheorems.RepairKeepsLegOrder | src/app/models/Route.ts:110-124 | Every repaired leg is some moved-in pickups, all first delivered in that leg, followed by the original leg in its original order. The only pickups removed from it are those of shipments first delivered in a later leg |
| RepairTheorems.RepairKeepsSettledPickups | src/app/models/Route.ts:110-119 | A pickup whose shipment is first delivered in its own leg, in an earlier leg, or nowhere, is still in its leg after the repair |
| Aggregation.ExpandAggregate | src/app/models/Route.ts:137-160 | Expanding the aggregation's result into members gives back the steps it folded, in order |
| Aggregation.AggregateWellFormed | src/app/models/Route.ts:139-157 | After aggregation, no two neighbours share type and description. Every aggregate has two or more members, all with the aggregate's type and description |
| Aggregation.AggregateExpand | src/app/models/Route.ts:137-160 | Aggregating the expansion of any well-formed sequence gives that sequence back, so aggregation and expansion are inverse |
| Aggregation.AtomicStepsCount | src/app/models/Route.ts:138 | The `instanceof RouteStep` filter keeps each plain step as often as it occurs, and drops every aggregate |
| Routes.RouteTotalCountsTravel | src/app/models/Route.ts:28-30 | A route's total moves one for one with each of setup, service, travel duration and waiting time |
| Routes.RouteLegs | src/app/models/Route.ts:98-99 | A route has one more leg than reload boundaries, and its legs flatten back to its units |
| Routes.OptimizeKeepsSteps | src/app/models/Route.ts:97-163 | After post-processing, the expanded units are a permutation of the input's plain steps, and the result is well formed |
| Routes.OptimizePermutesPlainSteps | src/app/models/Route.ts:21-26 | For a route as received, all plain steps, post-processing permutes its steps |
| Routes.Located | src/app/models/Route.ts:55 | The filter keeps only located units, and never more units than it was given |
| Routes.LocatedCounts | src/app/models/Route.ts:67 | The filter keeps every located unit as often as it occurs, and drops the others |
| Routes.LocatedAppend | src/app/models/Route.ts:67 | The filter keeps order: it distributes over concatenation |
| Routes.StepsAsFeatures | src/app/models/Route.ts:63-70 | There is one feature per located unit, in order. The `k`-th is that unit's feature drawn with index `k`, counted among located units only |
| Routes.FeatureStopNumber | src/app/models/Route.ts:66-68 | A plain shipment step at position `k` of the located units reads "Stop: k+1", however many unlocated units come before it |
| Routes.DirectLine | src/app/models/Route.ts:47-61 | The line has one coordinate per located unit, in order. Each is that unit's `location` getter |
| Routes.DirectLineHoleAtAggregate | src/app/models/Route.ts:54-56 | An aggregate located only by a later member gives the direct line an absent coordinate, yet still gets a point feature |
| RouteDetails.IconNoneIffUnknownType | src/app/route-details/route-details.component.ts:65-81 | The icon is "none" exactly for strings that are not a step type |
| RouteDetails.IconsTellKindsApart | src/app/route-details/route-details.component.ts:65-81 | Two kinds share an icon exactly when they are equal, or are job and delivery |
| RouteDetails.HeaderReadsBack | src/app/route-details/route-details.component.ts:84-101 | Reading any header back yields what its unit conveys: an aggregate's member shipment numbers in order, or a step's kind and shipment number |
| RouteDetails.AggregateHeaderReadsBack | src/app/route-details/route-details.component.ts:84-86 | An aggregate's header, split at its commas, reads back as its members' `id + 1` in member order, whatever the aggregate's kind |
| RouteDetails.PlainHeaderReadsBack | src/app/route-details/route-details.component.ts:87-101 | A plain step's header reads back as its kind's header content, with shipment `id + 1` for pickup, job and delivery |
| RouteDetails.AggregateHeaderListsMembers | src/app/route-details/route-details.component.ts:84-86 | An aggregate's header starts with "Shipments: " and holds one comma fewer than it has members |
| VroomRequest.CeilDivIsLeastCover | src/app/vroom/vroom.service.ts:46 | The ceiling of `a / b` is the least count that reaches `a` in multiples of `b` |
| VroomRequest.AssignTasks | src/app/vroom/vroom.service.ts:44-48 | With automatic assignment every vehicle's `maxTasks` is overwritten with the shared budget; otherwise the vehicles are unchanged. Id, type and speed factor are kept |
| VroomRequest.GenerateRequest | src/app/vroom/vroom.service.ts:25-83 | There is one shipment DTO per shipment and one vehicle DTO per vehicle, and the options are always `{"g": true}` |
| VroomRequest.ShipmentDtosRoundTrip | src/app/vroom/vroom.service.ts:26-42 | Each shipment DTO reads back as its shipment, minus the amount when capacities are off. Pickup and delivery carry the shipment's id, and the priority is the class default 0 |
| VroomRequest.VehicleDtosRoundTrip | src/app/vroom/vroom.service.ts:50-62 | Each vehicle DTO reads back as the vehicle the builder leaves. Its profile is the type, its description "{type} {id}" reads back to the id, and it starts at the depot |
| VroomRequest.TaskBudgetCoversAllTasks | src/app/vroom/vroom.service.ts:44-55 | With automatic assignment every vehicle's `max_tasks` is the least budget that lets the fleet take both tasks of every shipment. Otherwise it is the vehicle's own |
| VroomRequest.CapacityIgnoresConfiguredValue | src/app/vroom/vroom.service.ts:64-68 | With capacities on, every vehicle gets capacity `[4]`. The request is the same for every non-zero configured value |
| VroomRequest.CapacityOffOnlyDropsFields | src/app/vroom/vroom.service.ts:64-74 | With capacities off, the request differs from the one with capacities on only in dropping every vehicle's capacity and every shipment's amount |
| AppMap.ShipmentPoints | src/app/map/app-map.service.ts:90-141 | Building the layer fails exactly when pickups are aggregated over an empty list |
| AppMap.ShipmentLabelReadsBack | src/app/map/app-map.service.ts:101 | A label reads back as shipment `id + 1` and the address, whatever characters the address holds |
| AppMap.SeparatePickupsLayout | src/app/map/app-map.service.ts:120-140 | Without aggregation there are 2n features: every pickup in order, then every delivery in order, each at its side's coordinates with a label naming shipment and address |
| AppMap.AggregatedPickupLayout | src/app/map/app-map.service.ts:108-119 | With aggregation there are n+1 features: one pickup at the first shipment's pickup with its bare address, then every delivery in order |
| AppMap.PickupsBeforeDeliveries | src/app/map/app-map.service.ts:137-140 | All pickup features come before all delivery features, and there are no other features |
| AppMap.DropPickupsCounts | src/app/map/app-map.service.ts:155-157 | The filter removes exactly the "pickup" features and keeps every other feature as often as it occurs |
| AppMap.DropPickupsAppend | src/app/map/app-map.service.ts:155-157 | The filter keeps order: it distributes over concatenation |
| AppMap.DisplayRoute | src/app/map/app-map.service.ts:165-169 | The line layer is the encoded street geometry exactly when streets are matched, and the direct line otherwise |
| AppMap.DisplayRoutePoints | src/app/map/app-map.service.ts:151-158 | The point layer is the route's step features. When pickups are aggregated, every pickup feature is removed and every other feature keeps its multiplicity |
| Text.IntToStringRoundTrip | src/app/models/RouteStep.ts:42 | Parsing the decimal text of an integer gives back that integer |
| Text.SplitJoin | src/app/route-details/route-details.component.ts:85 | Splitting at a one-character separator undoes `_.join` when no part contains the separator |

## Left out

- HTTP, configuration and framework plumbing are not part of this model. That covers `calculateRoute`, `transformResponseToRoute`, the config service, authentication and bootstrap; they are I/O.
- `getGeometryAsGeoJson` is not modelled. Its polyline decoding goes through a foreign library working on floats. `DisplayRoute` represents the street line by the encoded string it would decode.
- RouteSteps.Step.LabelLines: it omits the "Distance: … km" and "ETA: …" lines that follow the stop line. They depend on float rounding and on the wall clock. So the modelled description is the first three lines of the client's.
- Time and number formatting, random scenario generation, colours, projections, building filters, map layers, styles, event emission and `console.log` tracing are not modelled. They are wall-clock, float, random or UI concerns.
- RouteDetails.Header: the source's "none" header is for a `type` outside the six step kinds. Step kinds are a closed datatype here, so that branch has no counterpart. `MaterialIcon` takes the type as a string and keeps its "none" case.
- Numbers are unbounded integers. JavaScript's doubles, NaN and overflow are not modelled. `Truthy` treats an absent or zero capacity as falsy.
- Speed factors and coordinates are copied, never computed on, and are modelled as opaque reals.
- Mutation is modelled by returning the new state. The mutated vehicles come back as the second component of `GenerateRequest`, and the repaired legs as `Repair`'s result.
- RouteSteps.Step.ToFeature requires a location, and DisplayUnits.DisplayUnit.ToFeature requires one for a plain step. Every caller filters on `hasLocation` first. What the client would do for an unlocated plain step is not modelled.


/** The shipments of a scenario, as the client holds them (the `Shipment` class). */
module Shipments {
  import opened Wrappers
  import opened GeoJson

  /**
   One side of a shipment as it is held at run time. `serviceTimeSeconds`
   is read by the request builder although the declared shape has no such
   field, so it may be absent.
   */
  datatype Address = Address(addressName: string, coordinates: Position, serviceTimeSeconds: Option<int>)

  /** A shipment; `amount` is likewise read although the declared shape omits it. */
  datatype Shipment = Shipment(id: int, pickup: Address, delivery: Address, amount: Option<int>)
}

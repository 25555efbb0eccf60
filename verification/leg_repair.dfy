/**
 The repair pass of route post-processing. Legs are walked in order; a pickup
 of the current leg whose shipment is not delivered in that leg is moved to
 the front of the first leg that delivers it, provided that leg comes later.
 */
module LegRepair {
  import opened Wrappers
  import opened RouteSteps
  import opened DisplayUnits
  import opened Legs

  type Leg = seq<DisplayUnit>

  predicate IsPickup(u: DisplayUnit) {
    u.Kind() == Pickup
  }

  predicate AllPickups(s: Leg) {
    forall i :: 0 <= i < |s| ==> IsPickup(s[i])
  }

  /** The `id`s of the deliveries of a leg. */
  function DeliveryIds(leg: Leg): (ids: set<Option<int>>)
    ensures forall i :: 0 <= i < |leg| && leg[i].Kind() == Delivery ==> leg[i].Id() in ids
  {
    if leg == [] then {}
    else if leg[0].Kind() == Delivery then {leg[0].Id()} + DeliveryIds(leg[1..])
    else DeliveryIds(leg[1..])
  }

  /**
   `_.differenceBy(pickups, deliveries, 'id')`: the pickups of `s`, in order
   and with repetitions, whose id is not among `delivered`.
   */
  function UndeliveredPickups(s: Leg, delivered: set<Option<int>>): Leg {
    if s == [] then []
    else if IsPickup(s[0]) && s[0].Id() !in delivered then [s[0]] + UndeliveredPickups(s[1..], delivered)
    else UndeliveredPickups(s[1..], delivered)
  }

  /** The pickups of a leg that the leg itself does not deliver: the candidates for moving. */
  function Candidates(leg: Leg): Leg {
    UndeliveredPickups(leg, DeliveryIds(leg))
  }

  /** The pickups of `s` whose id is in `ids`, in order. */
  function PickupsWithIds(s: Leg, ids: set<Option<int>>): Leg {
    if s == [] then []
    else if IsPickup(s[0]) && s[0].Id() in ids then [s[0]] + PickupsWithIds(s[1..], ids)
    else PickupsWithIds(s[1..], ids)
  }

  /** `s` without the pickups whose id is in `ids` (the `filter` of the move, for one id). */
  function RemovePickupsOf(s: Leg, ids: set<Option<int>>): Leg {
    if s == [] then []
    else if IsPickup(s[0]) && s[0].Id() in ids then RemovePickupsOf(s[1..], ids)
    else [s[0]] + RemovePickupsOf(s[1..], ids)
  }

  /** Membership in `UndeliveredPickups`: exactly the pickups of `s` whose id is not delivered. */
  lemma {:induction false} InUndelivered(s: Leg, delivered: set<Option<int>>, u: DisplayUnit)
    ensures u in UndeliveredPickups(s, delivered) <==> u in s && IsPickup(u) && u.Id() !in delivered
  {
    if s != [] {
      InUndelivered(s[1..], delivered, u);
      assert s == [s[0]] + s[1..];
    }
  }

  /** Membership in `PickupsWithIds`: exactly the pickups of `s` whose id is in `ids`. */
  lemma {:induction false} InPickupsWithIds(s: Leg, ids: set<Option<int>>, u: DisplayUnit)
    ensures u in PickupsWithIds(s, ids) <==> u in s && IsPickup(u) && u.Id() in ids
  {
    if s != [] {
      InPickupsWithIds(s[1..], ids, u);
      assert s == [s[0]] + s[1..];
    }
  }

  /** Membership in `RemovePickupsOf`: everything of `s` but the pickups whose id is in `ids`. */
  lemma {:induction false} InRemovePickupsOf(s: Leg, ids: set<Option<int>>, u: DisplayUnit)
    ensures u in RemovePickupsOf(s, ids) <==> u in s && !(IsPickup(u) && u.Id() in ids)
  {
    if s != [] {
      InRemovePickupsOf(s[1..], ids, u);
      assert s == [s[0]] + s[1..];
    }
  }

  /** The first leg at or after `from` that delivers shipment `x`. */
  function FirstDeliveryLegFrom(legs: seq<Leg>, x: Option<int>, from: nat): (r: Option<nat>)
    ensures r.Some? ==>
      && from <= r.value < |legs|
      && x in DeliveryIds(legs[r.value])
      && forall l :: from <= l < r.value ==> x !in DeliveryIds(legs[l])
    ensures r.None? ==> forall l :: from <= l < |legs| ==> x !in DeliveryIds(legs[l])
    decreases |legs| - from
  {
    if from >= |legs| then None
    else if x in DeliveryIds(legs[from]) then Some(from)
    else FirstDeliveryLegFrom(legs, x, from + 1)
  }

  /** `legs.findIndex(...)`: the search starts at leg 0, not after the current leg. */
  function FirstDeliveryLeg(legs: seq<Leg>, x: Option<int>): Option<nat> {
    FirstDeliveryLegFrom(legs, x, 0)
  }

  /** A pickup of shipment `x` examined in leg `L` is moved: its first delivering leg lies after `L`. */
  predicate MovesOut(legs: seq<Leg>, L: nat, x: Option<int>) {
    var d := FirstDeliveryLeg(legs, x);
    d.Some? && d.value > L
  }

  /**
   One iteration of the inner loop: when the first leg delivering the
   pickup's shipment comes after leg `L`, every pickup of that shipment is
   filtered out of leg `L` and this pickup is put in front of that leg.
   */
  function MovePickup(legs: seq<Leg>, L: nat, pickup: DisplayUnit): (r: seq<Leg>)
    requires L < |legs|
    ensures |r| == |legs|
  {
    var d := FirstDeliveryLeg(legs, pickup.Id());
    if d.Some? && d.value > L then
      legs[L := RemovePickupsOf(legs[L], {pickup.Id()})][d.value := [pickup] + legs[d.value]]
    else legs
  }

  /** The inner `forEach` over the candidates of leg `L`, in order. */
  function MoveAll(legs: seq<Leg>, L: nat, pickups: Leg): (r: seq<Leg>)
    requires L < |legs|
    ensures |r| == |legs|
    decreases |pickups|
  {
    if pickups == [] then legs else MoveAll(MovePickup(legs, L, pickups[0]), L, pickups[1..])
  }

  /**
   The outer `forEach` from leg `L` on. Each leg's candidates are computed
   from the leg as it stands when its turn comes, after earlier legs have
   pushed pickups into it.
   */
  function RepairFrom(legs: seq<Leg>, L: nat): (r: seq<Leg>)
    requires L <= |legs|
    ensures |r| == |legs|
    decreases |legs| - L
  {
    if L == |legs| then legs else RepairFrom(MoveAll(legs, L, Candidates(legs[L])), L + 1)
  }

  /** The whole repair pass over the legs. */
  function Repair(legs: seq<Leg>): (r: seq<Leg>)
    ensures |r| == |legs|
  {
    RepairFrom(legs, 0)
  }
}

/**
 Correctness of the repair pass: it only moves pickups, it loses and
 duplicates nothing, it leaves no pickup in a leg before the first leg that
 delivers its shipment, and within every leg the units it did not move keep
 their order.
 */
module RepairCorrectness {
  import opened Wrappers
  import opened RouteSteps
  import opened DisplayUnits
  import opened Legs
  import opened LegRepair
  import opened LegFacts

  /** The shipments whose pickups, among the already processed candidates `done`, left leg `L`. */
  ghost function MovedIds(legs: seq<Leg>, L: nat, done: Leg): set<Option<int>> {
    set u | u in done && MovesOut(legs, L, u.Id()) :: u.Id()
  }

  /** The candidates of `done` that were pushed to the front of leg `d`, the latest first. */
  function FrontInserts(legs: seq<Leg>, L: nat, done: Leg, d: nat): (r: Leg)
    ensures forall u :: u in r ==> u in done && FirstDeliveryLeg(legs, u.Id()) == Some(d) && d > L
    decreases |done|
  {
    if done == [] then []
    else
      var c := done[|done| - 1];
      var earlier := FrontInserts(legs, L, done[..|done| - 1], d);
      assert forall u :: u in done[..|done| - 1] ==> u in done;
      if FirstDeliveryLeg(legs, c.Id()) == Some(d) && d > L then [c] + earlier else earlier
  }

  lemma MovedIdsSnoc(legs: seq<Leg>, L: nat, done: Leg, c: DisplayUnit)
    ensures MovedIds(legs, L, done + [c]) ==
      MovedIds(legs, L, done) + (if MovesOut(legs, L, c.Id()) then {c.Id()} else {})
  {
    var a := MovedIds(legs, L, done + [c]);
    var b := MovedIds(legs, L, done) + (if MovesOut(legs, L, c.Id()) then {c.Id()} else {});
    forall x | x in a
      ensures x in b
    {
      var u :| u in done + [c] && MovesOut(legs, L, u.Id()) && u.Id() == x;
      if u != c {
        assert u in done;
      }
    }
    forall x | x in b
      ensures x in a
    {
      if x in MovedIds(legs, L, done) {
        var u :| u in done && MovesOut(legs, L, u.Id()) && u.Id() == x;
        assert u in done + [c];
      } else {
        assert c in done + [c];
      }
    }
  }

  lemma FrontInsertsSnoc(legs: seq<Leg>, L: nat, done: Leg, c: DisplayUnit, d: nat)
    ensures FrontInserts(legs, L, done + [c], d) ==
      if FirstDeliveryLeg(legs, c.Id()) == Some(d) && d > L then [c] + FrontInserts(legs, L, done, d)
      else FrontInserts(legs, L, done, d)
  {
    assert (done + [c])[..|done|] == done;
  }

  /**
   The state of the inner loop over the candidates of leg `L` of `legs`,
   once the candidates `done` are processed and `rest` remain: leg `L` has
   lost every pickup of a moved shipment, every other leg has gained the moved
   pickups in front, and the units are those of `legs` less the pending
   candidates whose shipment has already been filtered out.
   */
  ghost predicate MoveState(legs: seq<Leg>, L: nat, done: Leg, rest: Leg, cur: seq<Leg>)
    requires L < |legs|
  {
    var moved := MovedIds(legs, L, done);
    && SameNonPickups(cur, legs)
    && cur[L] == RemovePickupsOf(legs[L], moved)
    && (forall l :: 0 <= l < |legs| && l != L ==> cur[l] == FrontInserts(legs, L, done, l) + legs[l])
    && multiset(Flatten(cur)) + multiset(PickupsWithIds(rest, moved)) == multiset(Flatten(legs))
  }

  /** `MoveState` from its four parts, with the moved shipments named. */
  lemma AssembleMoveState(legs: seq<Leg>, L: nat, done: Leg, rest: Leg, cur: seq<Leg>, moved: set<Option<int>>)
    requires L < |legs| == |cur|
    requires moved == MovedIds(legs, L, done)
    requires SameNonPickups(cur, legs)
    requires cur[L] == RemovePickupsOf(legs[L], moved)
    requires forall l :: 0 <= l < |legs| && l != L ==> cur[l] == FrontInserts(legs, L, done, l) + legs[l]
    requires multiset(Flatten(cur)) + multiset(PickupsWithIds(rest, moved)) == multiset(Flatten(legs))
    ensures MoveState(legs, L, done, rest, cur)
  {
  }

  lemma CandidateFacts(legs: seq<Leg>, L: nat, done: Leg, rest: Leg)
    requires L < |legs| && rest != []
    requires done + rest == Candidates(legs[L])
    ensures rest[0] in legs[L] && IsPickup(rest[0]) && rest[0].Id() !in DeliveryIds(legs[L])
  {
    assert (done + rest)[|done|] == rest[0];
    InUndelivered(legs[L], DeliveryIds(legs[L]), rest[0]);
  }

  lemma InsertsUnchanged(legs: seq<Leg>, L: nat, done: Leg, c: DisplayUnit, cur: seq<Leg>)
    requires L < |legs| && |cur| == |legs|
    requires !MovesOut(legs, L, c.Id())
    requires forall l :: 0 <= l < |legs| && l != L ==> cur[l] == FrontInserts(legs, L, done, l) + legs[l]
    ensures forall l :: 0 <= l < |legs| && l != L ==> cur[l] == FrontInserts(legs, L, done + [c], l) + legs[l]
  {
    forall l | 0 <= l < |legs| && l != L
      ensures cur[l] == FrontInserts(legs, L, done + [c], l) + legs[l]
    {
      FrontInsertsSnoc(legs, L, done, c, l);
    }
  }

  lemma StayKeepsIds(legs: seq<Leg>, L: nat, done: Leg, c: DisplayUnit)
    requires !MovesOut(legs, L, c.Id())
    ensures MovedIds(legs, L, done + [c]) == MovedIds(legs, L, done)
    ensures c.Id() !in MovedIds(legs, L, done)
  {
    MovedIdsSnoc(legs, L, done, c);
  }

  lemma StayLeavesLegs(legs: seq<Leg>, L: nat, c: DisplayUnit, cur: seq<Leg>)
    requires L < |legs|
    requires SameNonPickups(cur, legs)
    requires !MovesOut(legs, L, c.Id())
    ensures MovePickup(cur, L, c) == cur
  {
    FirstDeliveryLegAgrees(cur, legs);
  }

  /** A candidate that stays: nothing changes and no filtered shipment is involved. */
  lemma StayStep(legs: seq<Leg>, L: nat, done: Leg, rest: Leg, cur: seq<Leg>)
    requires L < |legs| && rest != []
    requires MoveState(legs, L, done, rest, cur)
    requires !MovesOut(legs, L, rest[0].Id())
    ensures MoveState(legs, L, done + [rest[0]], rest[1..], MovePickup(cur, L, rest[0]))
  {
    var c := rest[0];
    var moved := MovedIds(legs, L, done);
    StayLeavesLegs(legs, L, c, cur);
    StayKeepsIds(legs, L, done, c);
    InsertsUnchanged(legs, L, done, c, cur);
    assert PickupsWithIds(rest, moved) == PickupsWithIds(rest[1..], moved);
  }

  /** The legs after one move, described leg by leg. */
  lemma MoveShape(cur: seq<Leg>, L: nat, c: DisplayUnit, d: nat)
    requires L < |cur| && L < d < |cur|
    requires FirstDeliveryLeg(cur, c.Id()) == Some(d)
    ensures var r := MovePickup(cur, L, c);
      && r[L] == RemovePickupsOf(cur[L], {c.Id()})
      && r[d] == [c] + cur[d]
      && forall l :: 0 <= l < |cur| && l != L && l != d ==> r[l] == cur[l]
  {
  }

  /** Pointwise multiset algebra for one move: two leg updates, one split of leg `L`. */
  lemma ShapeAlgebra<T>(fa: multiset<T>, fr: multiset<T>, fc: multiset<T>, pw: multiset<T>, rm: multiset<T>,
                        cd: multiset<T>, c: T)
    requires fa + (pw + rm) == fc + rm
    requires fr + cd == fa + (multiset{c} + cd)
    ensures fr + pw == fc + multiset{c}
  {
    forall o
      ensures (fr + pw)[o] == (fc + multiset{c})[o]
    {
      assert (fa + (pw + rm))[o] == (fc + rm)[o];
      assert (fr + cd)[o] == (fa + (multiset{c} + cd))[o];
    }
  }

  /** One move takes the pickups of `c`'s shipment out of leg `L` and adds `c` once. */
  lemma MoveMultiset(cur: seq<Leg>, L: nat, c: DisplayUnit, d: nat)
    requires L < |cur| && L < d < |cur|
    requires FirstDeliveryLeg(cur, c.Id()) == Some(d)
    ensures multiset(Flatten(MovePickup(cur, L, c))) + multiset(PickupsWithIds(cur[L], {c.Id()}))
      == multiset(Flatten(cur)) + multiset{c}
  {
    var x := c.Id();
    var removed := RemovePickupsOf(cur[L], {x});
    var a := cur[L := removed];
    var r := a[d := [c] + cur[d]];
    assert MovePickup(cur, L, c) == r;
    FlattenUpdate(cur, L, removed);
    FlattenUpdate(a, d, [c] + cur[d]);
    SplitByIds(cur[L], {x});
    assert a[d] == cur[d];
    assert multiset([c] + cur[d]) == multiset{c} + multiset(cur[d]);
    ShapeAlgebra(multiset(Flatten(a)), multiset(Flatten(r)), multiset(Flatten(cur)),
      multiset(PickupsWithIds(cur[L], {x})), multiset(removed), multiset(cur[d]), c);
  }

  lemma MoveKeepsNonPickups(legs: seq<Leg>, cur: seq<Leg>, L: nat, c: DisplayUnit, d: nat)
    requires L < |cur| && L < d < |cur|
    requires IsPickup(c)
    requires SameNonPickups(cur, legs)
    requires FirstDeliveryLeg(cur, c.Id()) == Some(d)
    ensures SameNonPickups(MovePickup(cur, L, c), legs)
  {
    MoveShape(cur, L, c, d);
    NonPickupsOfRemoved(cur[L], {c.Id()});
    NonPickupsOfPrepended(c, cur[d]);
  }

  lemma InsertsMoved(legs: seq<Leg>, L: nat, done: Leg, c: DisplayUnit, d: nat, cur: seq<Leg>, r: seq<Leg>)
    requires L < |legs| && |cur| == |legs| == |r|
    requires FirstDeliveryLeg(legs, c.Id()) == Some(d) && L < d < |legs|
    requires r[d] == [c] + cur[d]
    requires forall l :: 0 <= l < |cur| && l != L && l != d ==> r[l] == cur[l]
    requires forall l :: 0 <= l < |legs| && l != L ==> cur[l] == FrontInserts(legs, L, done, l) + legs[l]
    ensures forall l :: 0 <= l < |legs| && l != L ==> r[l] == FrontInserts(legs, L, done + [c], l) + legs[l]
  {
    forall l | 0 <= l < |legs| && l != L
      ensures r[l] == FrontInserts(legs, L, done + [c], l) + legs[l]
    {
      FrontInsertsSnoc(legs, L, done, c, l);
    }
  }

  /** Pointwise multiset algebra for a repeated move. */
  lemma AgainAlgebra<T>(fr: multiset<T>, fc: multiset<T>, all: multiset<T>, c: T, p: multiset<T>)
    requires fr == fc + multiset{c}
    requires fc + (multiset{c} + p) == all
    ensures fr + p == all
  {
    assert forall o :: (fr + p)[o] == all[o];
  }

  /** Pointwise multiset algebra for a first move. */
  lemma FirstAlgebra<T>(fr: multiset<T>, fc: multiset<T>, all: multiset<T>, c: T, w: multiset<T>, p: multiset<T>)
    requires fr + (multiset{c} + w) == fc + multiset{c}
    requires fc + p == all
    ensures fr + (p + w) == all
  {
    forall o
      ensures (fr + (p + w))[o] == all[o]
    {
      assert (fr + (multiset{c} + w))[o] == (fc + multiset{c})[o];
      assert (fc + p)[o] == all[o];
    }
  }

  /**
   The units after moving `c` out of leg `L`, when another pickup of the same
   shipment was moved before: the filter finds nothing left to remove.
   */
  lemma MoveAgainMultiset(legs: seq<Leg>, L: nat, rest: Leg, cur: seq<Leg>, r: seq<Leg>, moved: set<Option<int>>)
    requires L < |legs| == |cur| && rest != [] && IsPickup(rest[0]) && rest[0].Id() in moved
    requires cur[L] == RemovePickupsOf(legs[L], moved)
    requires multiset(Flatten(r)) + multiset(PickupsWithIds(cur[L], {rest[0].Id()}))
      == multiset(Flatten(cur)) + multiset{rest[0]}
    requires multiset(Flatten(cur)) + multiset(PickupsWithIds(rest, moved)) == multiset(Flatten(legs))
    ensures multiset(Flatten(r)) + multiset(PickupsWithIds(rest[1..], moved)) == multiset(Flatten(legs))
  {
    var c := rest[0];
    NothingLeftToRemove(legs[L], moved, {c.Id()});
    assert PickupsWithIds(rest, moved) == [c] + PickupsWithIds(rest[1..], moved);
    AgainAlgebra(multiset(Flatten(r)), multiset(Flatten(cur)), multiset(Flatten(legs)), c,
      multiset(PickupsWithIds(rest[1..], moved)));
  }

  /**
   For the first candidate of shipment `x` to move, the pickups of `x` left
   in leg `L` are that candidate followed by the later candidates of `x`.
   */
  lemma FirstMoveTakes(legs: seq<Leg>, L: nat, done: Leg, rest: Leg)
    requires L < |legs| && rest != []
    requires done + rest == Candidates(legs[L])
    requires IsPickup(rest[0]) && rest[0].Id() !in DeliveryIds(legs[L])
    requires MovesOut(legs, L, rest[0].Id()) && rest[0].Id() !in MovedIds(legs, L, done)
    ensures PickupsWithIds(RemovePickupsOf(legs[L], MovedIds(legs, L, done)), {rest[0].Id()})
      == [rest[0]] + PickupsWithIds(rest[1..], {rest[0].Id()})
  {
    var x := rest[0].Id();
    var moved := MovedIds(legs, L, done);
    PickupsWithIdsOfRemoved(legs[L], moved, {x});
    PickupsWithIdsOfUndelivered(legs[L], DeliveryIds(legs[L]), {x});
    PickupsWithIdsAppend(done, rest, {x});
    forall u | u in done && IsPickup(u)
      ensures u.Id() !in {x}
    {
    }
    NoPickupsWithIds(done, {x});
  }

  /** The pending candidates once shipment `x` joins the moved ones. */
  lemma PendingAfterFirstMove(rest: Leg, moved: set<Option<int>>)
    requires rest != [] && rest[0].Id() !in moved
    ensures PickupsWithIds(rest, moved) == PickupsWithIds(rest[1..], moved)
    ensures multiset(PickupsWithIds(rest[1..], moved + {rest[0].Id()}))
      == multiset(PickupsWithIds(rest[1..], moved)) + multiset(PickupsWithIds(rest[1..], {rest[0].Id()}))
  {
    PickupsWithDisjointIds(rest[1..], moved, {rest[0].Id()});
  }

  /**
   The units after moving `c` out of leg `L` for the first shipment of its
   id: every pickup of that shipment leaves leg `L`, all but `c` itself
   still pending.
   */
  lemma MoveFirstMultiset(legs: seq<Leg>, L: nat, done: Leg, rest: Leg, cur: seq<Leg>, r: seq<Leg>)
    requires L < |legs| == |cur| && rest != []
    requires done + rest == Candidates(legs[L])
    requires IsPickup(rest[0]) && rest[0].Id() !in DeliveryIds(legs[L])
    requires MovesOut(legs, L, rest[0].Id()) && rest[0].Id() !in MovedIds(legs, L, done)
    requires cur[L] == RemovePickupsOf(legs[L], MovedIds(legs, L, done))
    requires multiset(Flatten(r)) + multiset(PickupsWithIds(cur[L], {rest[0].Id()}))
      == multiset(Flatten(cur)) + multiset{rest[0]}
    requires multiset(Flatten(cur)) + multiset(PickupsWithIds(rest, MovedIds(legs, L, done))) == multiset(Flatten(legs))
    ensures multiset(Flatten(r)) + multiset(PickupsWithIds(rest[1..], MovedIds(legs, L, done) + {rest[0].Id()}))
      == multiset(Flatten(legs))
  {
    var c := rest[0];
    var moved := MovedIds(legs, L, done);
    FirstMoveTakes(legs, L, done, rest);
    PendingAfterFirstMove(rest, moved);
    var later := PickupsWithIds(rest[1..], {c.Id()});
    assert multiset(PickupsWithIds(cur[L], {c.Id()})) == multiset{c} + multiset(later);
    FirstAlgebra(multiset(Flatten(r)), multiset(Flatten(cur)), multiset(Flatten(legs)), c,
      multiset(later), multiset(PickupsWithIds(rest[1..], moved)));
  }

  /** The units after a move: those of `legs`, less the candidates still pending. */
  lemma MoveOutMultiset(legs: seq<Leg>, L: nat, done: Leg, rest: Leg, cur: seq<Leg>, d: nat)
    requires L < |legs| == |cur| && rest != [] && L < d < |legs|
    requires done + rest == Candidates(legs[L])
    requires IsPickup(rest[0]) && rest[0].Id() !in DeliveryIds(legs[L])
    requires MovesOut(legs, L, rest[0].Id()) && FirstDeliveryLeg(cur, rest[0].Id()) == Some(d)
    requires cur[L] == RemovePickupsOf(legs[L], MovedIds(legs, L, done))
    requires multiset(Flatten(cur)) + multiset(PickupsWithIds(rest, MovedIds(legs, L, done))) == multiset(Flatten(legs))
    ensures multiset(Flatten(MovePickup(cur, L, rest[0])))
      + multiset(PickupsWithIds(rest[1..], MovedIds(legs, L, done) + {rest[0].Id()})) == multiset(Flatten(legs))
  {
    var c := rest[0];
    var x := c.Id();
    var moved := MovedIds(legs, L, done);
    var r := MovePickup(cur, L, c);
    MoveMultiset(cur, L, c, d);
    if x in moved {
      assert moved + {x} == moved;
      MoveAgainMultiset(legs, L, rest, cur, r, moved);
    } else {
      MoveFirstMultiset(legs, L, done, rest, cur, r);
    }
  }

  /** A candidate that moves to leg `d`. */
  lemma MoveOutStep(legs: seq<Leg>, L: nat, done: Leg, rest: Leg, cur: seq<Leg>)
    requires L < |legs| && rest != []
    requires done + rest == Candidates(legs[L])
    requires MoveState(legs, L, done, rest, cur)
    requires MovesOut(legs, L, rest[0].Id())
    ensures MoveState(legs, L, done + [rest[0]], rest[1..], MovePickup(cur, L, rest[0]))
  {
    var c := rest[0];
    var x := c.Id();
    var d := FirstDeliveryLeg(legs, x).value;
    var moved := MovedIds(legs, L, done);
    var r := MovePickup(cur, L, c);
    CandidateFacts(legs, L, done, rest);
    assert FirstDeliveryLeg(cur, x) == Some(d) by {
      FirstDeliveryLegAgrees(cur, legs);
    }
    assert MovedIds(legs, L, done + [c]) == moved + {x} by {
      MovedIdsSnoc(legs, L, done, c);
    }
    assert SameNonPickups(r, legs) by {
      MoveKeepsNonPickups(legs, cur, L, c, d);
    }
    assert r[L] == RemovePickupsOf(legs[L], moved + {x}) by {
      MoveShape(cur, L, c, d);
      RemoveTwice(legs[L], moved, {x});
    }
    assert forall l :: 0 <= l < |legs| && l != L ==> r[l] == FrontInserts(legs, L, done + [c], l) + legs[l] by {
      MoveShape(cur, L, c, d);
      InsertsMoved(legs, L, done, c, d, cur, r);
    }
    MoveOutMultiset(legs, L, done, rest, cur, d);
    AssembleMoveState(legs, L, done + [c], rest[1..], r, moved + {x});
  }

  /** Processing one candidate keeps `MoveState`, whether it moves or stays. */
  lemma OneStep(legs: seq<Leg>, L: nat, done: Leg, rest: Leg, cur: seq<Leg>)
    requires L < |legs| && rest != []
    requires done + rest == Candidates(legs[L])
    requires MoveState(legs, L, done, rest, cur)
    ensures MoveState(legs, L, done + [rest[0]], rest[1..], MovePickup(cur, L, rest[0]))
  {
    if MovesOut(legs, L, rest[0].Id()) {
      MoveOutStep(legs, L, done, rest, cur);
    } else {
      StayStep(legs, L, done, rest, cur);
    }
  }

  /** The inner loop keeps `MoveState` to the last candidate. */
  lemma {:induction false} MoveAllKeepsState(legs: seq<Leg>, L: nat, done: Leg, rest: Leg, cur: seq<Leg>)
    requires L < |legs|
    requires done + rest == Candidates(legs[L])
    requires MoveState(legs, L, done, rest, cur)
    ensures MoveState(legs, L, Candidates(legs[L]), [], MoveAll(cur, L, rest))
    decreases |rest|
  {
    if rest == [] {
      assert done == Candidates(legs[L]);
    } else {
      var c := rest[0];
      OneStep(legs, L, done, rest, cur);
      ShiftHead(done, rest);
      MoveAllKeepsState(legs, L, done + [c], rest[1..], MovePickup(cur, L, c));
    }
  }
}

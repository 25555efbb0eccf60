/**
 What the whole repair pass guarantees, leg by leg: the units are permuted,
 only pickups move, every pickup ends up no earlier than the first leg that
 delivers its shipment, and each leg is the pickups pushed into it followed
 by its own units less some filtered pickups, in their original order.
 */
module RepairTheorems {
  import opened Wrappers
  import opened RouteSteps
  import opened DisplayUnits
  import opened Legs
  import opened LegRepair
  import opened LegFacts
  import opened RepairCorrectness

  /**
   One step of the inner loop changes the legs exactly when the pickup's
   first delivering leg lies after `L`; then the pickup heads that leg, its
   shipment's pickups leave leg `L`, and no other leg changes.
   */
  lemma MovePickupMovesIff(legs: seq<Leg>, L: nat, p: DisplayUnit)
    requires L < |legs|
    ensures MovePickup(legs, L, p) != legs <==> MovesOut(legs, L, p.Id())
    ensures MovesOut(legs, L, p.Id()) ==>
      var d := FirstDeliveryLeg(legs, p.Id()).value;
      var r := MovePickup(legs, L, p);
      && r[d][0] == p && r[d][1..] == legs[d]
      && r[L] == RemovePickupsOf(legs[L], {p.Id()})
      && forall l :: 0 <= l < |legs| && l != L && l != d ==> r[l] == legs[l]
  {
    if MovesOut(legs, L, p.Id()) {
      var d := FirstDeliveryLeg(legs, p.Id()).value;
      MoveShape(legs, L, p, d);
      assert |MovePickup(legs, L, p)[d]| == |legs[d]| + 1;
    }
  }

  /**
   The search for the destination starts at leg 0: a pickup whose shipment
   is delivered in an earlier leg stays put, even if a later leg delivers it
   too.
   */
  lemma EarlierDeliveryKeepsPickup(legs: seq<Leg>, L: nat, p: DisplayUnit, k: nat)
    requires k < L < |legs|
    requires p.Id() in DeliveryIds(legs[k])
    ensures MovePickup(legs, L, p) == legs
  {
    var d := FirstDeliveryLeg(legs, p.Id());
    assert d.Some? && d.value <= k;
  }

  /** Two pickups moved into the same leg end up in reverse order of processing. */
  lemma TwoMovesIntoSameLeg(legs: seq<Leg>, L: nat, p1: DisplayUnit, p2: DisplayUnit)
    requires L < |legs| && IsPickup(p1)
    requires MovesOut(legs, L, p1.Id())
    requires FirstDeliveryLeg(legs, p2.Id()) == FirstDeliveryLeg(legs, p1.Id())
    ensures MovePickup(MovePickup(legs, L, p1), L, p2)[FirstDeliveryLeg(legs, p1.Id()).value] ==
      [p2, p1] + legs[FirstDeliveryLeg(legs, p1.Id()).value]
  {
    var d := FirstDeliveryLeg(legs, p1.Id()).value;
    var r1 := MovePickup(legs, L, p1);
    MoveShape(legs, L, p1, d);
    MoveKeepsNonPickups(legs, legs, L, p1, d);
    FirstDeliveryLegAgrees(r1, legs);
    MoveShape(r1, L, p2, d);
  }

  /**
   `s` is `tail` preceded by pickups whose shipment is first delivered in leg
   `l` of `legs`: the pickups the repair pushed into that leg.
   */
  predicate LedBy(legs: seq<Leg>, l: nat, s: Leg, tail: Leg)
    decreases |s|
  {
    || s == tail
    || (&& s != []
        && IsPickup(s[0])
        && FirstDeliveryLeg(legs, s[0].Id()) == Some(l)
        && LedBy(legs, l, s[1..], tail))
  }

  /** Every shipment of `ids` is first delivered in a leg after `l`: the only pickups the repair takes out of leg `l`. */
  predicate DeliveredLater(legs: seq<Leg>, l: nat, ids: set<Option<int>>) {
    forall x :: x in ids ==> MovesOut(legs, l, x)
  }

  /**
   Leg `l` as the repair can leave it: pushed-in pickups, then the leg less
   the pickups of some shipments first delivered after `l`.
   */
  ghost predicate Reshaped(legs: seq<Leg>, l: nat, s: Leg)
    requires l < |legs|
  {
    exists ids :: DeliveredLater(legs, l, ids) && LedBy(legs, l, s, RemovePickupsOf(legs[l], ids))
  }

  /** No pickup of leg `l` is waiting for a later leg that delivers it. */
  predicate Settled(legs: seq<Leg>, l: nat, s: Leg) {
    forall u :: u in s && IsPickup(u) ==> !MovesOut(legs, l, u.Id())
  }

  /** The state of the outer loop over the legs of `legs` before leg `L` is processed. */
  ghost predicate RepairState(legs: seq<Leg>, L: nat, cur: seq<Leg>) {
    && L <= |legs| == |cur|
    && SameNonPickups(cur, legs)
    && multiset(Flatten(cur)) == multiset(Flatten(legs))
    && (forall l :: 0 <= l < L ==> Settled(legs, l, cur[l]))
    && (forall l :: 0 <= l < |legs| ==> Reshaped(legs, l, cur[l]))
  }

  lemma {:induction false} LedByRemove(legs: seq<Leg>, l: nat, s: Leg, tail: Leg, ids: set<Option<int>>)
    requires LedBy(legs, l, s, tail)
    requires forall x :: x in ids ==> FirstDeliveryLeg(legs, x) != Some(l)
    ensures LedBy(legs, l, RemovePickupsOf(s, ids), RemovePickupsOf(tail, ids))
    decreases |s|
  {
    if s != tail {
      LedByRemove(legs, l, s[1..], tail, ids);
      Cons(s[0], RemovePickupsOf(s[1..], ids));
    }
  }

  lemma {:induction false} LedByPrepend(legs: seq<Leg>, l: nat, f: Leg, s: Leg, tail: Leg)
    requires LedBy(legs, l, s, tail)
    requires forall u :: u in f ==> IsPickup(u) && FirstDeliveryLeg(legs, u.Id()) == Some(l)
    ensures LedBy(legs, l, f + s, tail)
    decreases |f|
  {
    if f != [] {
      assert forall u :: u in f[1..] ==> u in f;
      LedByPrepend(legs, l, f[1..], s, tail);
      assert f[0] in f;
      var t := f + s;
      assert t[1..] == f[1..] + s;
      assert t[0] == f[0];
      assert t != [] && IsPickup(t[0]) && FirstDeliveryLeg(legs, t[0].Id()) == Some(l) && LedBy(legs, l, t[1..], tail);
    } else {
      assert f + s == s;
    }
  }

  /** `LedBy` read as a split point: a prefix of pushed-in pickups, then `tail` itself. */
  lemma {:induction false} LedBySplit(legs: seq<Leg>, l: nat, s: Leg, tail: Leg)
    requires LedBy(legs, l, s, tail)
    ensures |tail| <= |s| && s[|s| - |tail|..] == tail
    ensures forall i :: 0 <= i < |s| - |tail| ==> IsPickup(s[i]) && FirstDeliveryLeg(legs, s[i].Id()) == Some(l)
    decreases |s|
  {
    if s != tail {
      LedBySplit(legs, l, s[1..], tail);
      assert s[1..][|s| - 1 - |tail|..] == s[|s| - |tail|..];
      forall i | 0 < i < |s| - |tail|
        ensures IsPickup(s[i]) && FirstDeliveryLeg(legs, s[i].Id()) == Some(l)
      {
        assert s[i] == s[1..][i - 1];
      }
    }
  }

  /** No pushed-in pickups leave `FrontInserts` empty for the legs up to `L`. */
  lemma FrontInsertsUpTo(legs: seq<Leg>, L: nat, done: Leg, l: nat)
    requires l <= L
    ensures FrontInserts(legs, L, done, l) == []
  {
  }

  /** The pushed-in candidates of one leg are pickups first delivered at their new leg. */
  lemma FrontInsertsArePickups(cur: seq<Leg>, legs: seq<Leg>, L: nat, l: nat)
    requires L < |cur|
    requires SameNonPickups(cur, legs)
    ensures forall u :: u in FrontInserts(cur, L, Candidates(cur[L]), l) ==>
      IsPickup(u) && FirstDeliveryLeg(legs, u.Id()) == Some(l)
  {
    FirstDeliveryLegAgrees(cur, legs);
    forall u | u in FrontInserts(cur, L, Candidates(cur[L]), l)
      ensures IsPickup(u)
    {
      InUndelivered(cur[L], DeliveryIds(cur[L]), u);
    }
  }

  /** At the start no candidate has been processed. */
  lemma MoveStateInit(cur: seq<Leg>, L: nat)
    requires L < |cur|
    ensures MoveState(cur, L, [], Candidates(cur[L]), cur)
  {
    var moved := MovedIds(cur, L, []);
    assert moved == {};
    RemoveNothing(cur[L]);
    forall l | 0 <= l < |cur| && l != L
      ensures cur[l] == FrontInserts(cur, L, [], l) + cur[l]
    {
      assert FrontInserts(cur, L, [], l) == [];
    }
    NoPickupsWithIds(Candidates(cur[L]), moved);
    AssembleMoveState(cur, L, [], Candidates(cur[L]), cur, moved);
  }

  /** The shape of the legs after the inner loop over leg `L`. */
  lemma AfterLeg(cur: seq<Leg>, L: nat)
    requires L < |cur|
    ensures var next := MoveAll(cur, L, Candidates(cur[L]));
      var moved := MovedIds(cur, L, Candidates(cur[L]));
      && SameNonPickups(next, cur)
      && next[L] == RemovePickupsOf(cur[L], moved)
      && (forall l :: 0 <= l < |cur| && l != L ==> next[l] == FrontInserts(cur, L, Candidates(cur[L]), l) + cur[l])
      && multiset(Flatten(next)) == multiset(Flatten(cur))
  {
    var cands := Candidates(cur[L]);
    MoveStateInit(cur, L);
    MoveAllKeepsState(cur, L, [], cands, cur);
    assert [] + cands == cands;
    assert PickupsWithIds([], MovedIds(cur, L, cands)) == [];
  }

  /** Every pickup left in leg `L` after its turn stays there for good. */
  lemma SettledAfterLeg(cur: seq<Leg>, L: nat, s: Leg)
    requires L < |cur|
    requires s == RemovePickupsOf(cur[L], MovedIds(cur, L, Candidates(cur[L])))
    ensures Settled(cur, L, s)
  {
    var cands := Candidates(cur[L]);
    var moved := MovedIds(cur, L, cands);
    forall u | u in s && IsPickup(u)
      ensures !MovesOut(cur, L, u.Id())
    {
      InRemovePickupsOf(cur[L], moved, u);
      var x := u.Id();
      if x in DeliveryIds(cur[L]) {
        var d := FirstDeliveryLeg(cur, x);
        assert d.Some? && d.value <= L;
      } else {
        InUndelivered(cur[L], DeliveryIds(cur[L]), u);
      }
    }
  }

  lemma SettledAgrees(cur: seq<Leg>, legs: seq<Leg>, l: nat, s: Leg)
    requires SameNonPickups(cur, legs)
    requires Settled(cur, l, s)
    ensures Settled(legs, l, s)
  {
    FirstDeliveryLegAgrees(cur, legs);
  }

  /** Leg `L` after its turn is still reshaped: the moved shipments join the filtered ones. */
  lemma ReshapedAfterLeg(legs: seq<Leg>, cur: seq<Leg>, L: nat, s: Leg)
    requires L < |legs| == |cur|
    requires SameNonPickups(cur, legs)
    requires Reshaped(legs, L, cur[L])
    requires s == RemovePickupsOf(cur[L], MovedIds(cur, L, Candidates(cur[L])))
    ensures Reshaped(legs, L, s)
  {
    var moved := MovedIds(cur, L, Candidates(cur[L]));
    var ids :| DeliveredLater(legs, L, ids) && LedBy(legs, L, cur[L], RemovePickupsOf(legs[L], ids));
    FirstDeliveryLegAgrees(cur, legs);
    LedByRemove(legs, L, cur[L], RemovePickupsOf(legs[L], ids), moved);
    RemoveTwice(legs[L], ids, moved);
    assert DeliveredLater(legs, L, ids + moved);
    assert LedBy(legs, L, s, RemovePickupsOf(legs[L], ids + moved));
  }

  /** Any other leg after the turn of leg `L` is still reshaped: pickups were only pushed in front. */
  lemma ReshapedOtherLeg(legs: seq<Leg>, cur: seq<Leg>, L: nat, l: nat, s: Leg)
    requires L < |legs| == |cur| && l < |legs|
    requires SameNonPickups(cur, legs)
    requires Reshaped(legs, l, cur[l])
    requires s == FrontInserts(cur, L, Candidates(cur[L]), l) + cur[l]
    ensures Reshaped(legs, l, s)
  {
    var ids :| DeliveredLater(legs, l, ids) && LedBy(legs, l, cur[l], RemovePickupsOf(legs[l], ids));
    FrontInsertsArePickups(cur, legs, L, l);
    LedByPrepend(legs, l, FrontInserts(cur, L, Candidates(cur[L]), l), cur[l], RemovePickupsOf(legs[l], ids));
  }

  /** One turn of the outer loop keeps `RepairState`. */
  lemma LegStep(legs: seq<Leg>, L: nat, cur: seq<Leg>)
    requires L < |legs|
    requires RepairState(legs, L, cur)
    ensures RepairState(legs, L + 1, MoveAll(cur, L, Candidates(cur[L])))
  {
    var next := MoveAll(cur, L, Candidates(cur[L]));
    AfterLeg(cur, L);
    assert SameNonPickups(next, legs);
    forall l | 0 <= l < L + 1
      ensures Settled(legs, l, next[l])
    {
      if l < L {
        FrontInsertsUpTo(cur, L, Candidates(cur[L]), l);
        assert next[l] == cur[l];
      } else {
        SettledAfterLeg(cur, L, next[L]);
        SettledAgrees(cur, legs, L, next[L]);
      }
    }
    forall l | 0 <= l < |legs|
      ensures Reshaped(legs, l, next[l])
    {
      if l == L {
        ReshapedAfterLeg(legs, cur, L, next[L]);
      } else {
        ReshapedOtherLeg(legs, cur, L, l, next[l]);
      }
    }
  }

  lemma {:induction false} RepairFromKeepsState(legs: seq<Leg>, L: nat, cur: seq<Leg>)
    requires RepairState(legs, L, cur)
    ensures RepairState(legs, |legs|, RepairFrom(cur, L))
    decreases |legs| - L
  {
    if L < |legs| {
      LegStep(legs, L, cur);
      RepairFromKeepsState(legs, L + 1, MoveAll(cur, L, Candidates(cur[L])));
    }
  }

  lemma RepairStateInit(legs: seq<Leg>)
    ensures RepairState(legs, 0, legs)
  {
    forall l | 0 <= l < |legs|
      ensures Reshaped(legs, l, legs[l])
    {
      RemoveNothing(legs[l]);
      assert DeliveredLater(legs, l, {});
      assert LedBy(legs, l, legs[l], RemovePickupsOf(legs[l], {}));
    }
  }

  lemma RepairEndState(legs: seq<Leg>)
    ensures RepairState(legs, |legs|, Repair(legs))
  {
    RepairStateInit(legs);
    RepairFromKeepsState(legs, 0, legs);
  }

  /** The repair loses and duplicates nothing: the flattened legs are a permutation of the input. */
  lemma RepairIsPermutation(legs: seq<Leg>)
    ensures multiset(Flatten(Repair(legs))) == multiset(Flatten(legs))
  {
    RepairEndState(legs);
  }

  /** Only pickups move: every leg keeps its other units, in order, and so each shipment's first delivering leg. */
  lemma RepairMovesOnlyPickups(legs: seq<Leg>)
    ensures |Repair(legs)| == |legs|
    ensures forall l :: 0 <= l < |legs| ==> NonPickups(Repair(legs)[l]) == NonPickups(legs[l])
    ensures forall x :: FirstDeliveryLeg(Repair(legs), x) == FirstDeliveryLeg(legs, x)
  {
    RepairEndState(legs);
    FirstDeliveryLegAgrees(Repair(legs), legs);
  }

  /**
   After the repair no pickup sits in a leg before the first leg that
   delivers its shipment. A pickup whose first delivering leg comes earlier
   stays where it is.
   */
  lemma RepairPlacesPickups(legs: seq<Leg>)
    ensures forall l, u :: 0 <= l < |Repair(legs)| && u in Repair(legs)[l] && IsPickup(u) ==>
      FirstDeliveryLeg(legs, u.Id()).None? || FirstDeliveryLeg(legs, u.Id()).value <= l
  {
    RepairEndState(legs);
  }

  /**
   Leg `s` is some pickups, all first delivered in leg `l`, followed by leg
   `l` of `legs` with the pickups of some shipments filtered out and every
   other unit in its original order. The filtered shipments are all first
   delivered in a leg after `l`, so a pickup whose shipment is first
   delivered in leg `l` or before, or never, keeps its place.
   */
  ghost predicate KeepsLegOrder(legs: seq<Leg>, l: nat, s: Leg)
    requires l < |legs|
  {
    exists n, ids ::
      && 0 <= n <= |s|
      && (forall i :: 0 <= i < n ==> IsPickup(s[i]) && FirstDeliveryLeg(legs, s[i].Id()) == Some(l))
      && DeliveredLater(legs, l, ids)
      && s[n..] == RemovePickupsOf(legs[l], ids)
      && DropsOnlyPickups(legs[l], s[n..])
  }

  /** The units of every leg that the repair does not move keep their relative order. */
  lemma RepairKeepsLegOrder(legs: seq<Leg>)
    ensures forall l :: 0 <= l < |legs| ==> KeepsLegOrder(legs, l, Repair(legs)[l])
  {
    var r := Repair(legs);
    RepairEndState(legs);
    forall l | 0 <= l < |legs|
      ensures KeepsLegOrder(legs, l, r[l])
    {
      var ids :| DeliveredLater(legs, l, ids) && LedBy(legs, l, r[l], RemovePickupsOf(legs[l], ids));
      LedBySplit(legs, l, r[l], RemovePickupsOf(legs[l], ids));
      DropsOnlyRemovedPickups(legs[l], ids);
      var n := |r[l]| - |RemovePickupsOf(legs[l], ids)|;
      assert r[l][n..] == RemovePickupsOf(legs[l], ids);
    }
  }

  /**
   A pickup whose shipment is first delivered in its own leg, in an earlier
   one, or nowhere, is never moved: it is still in its leg after the repair.
   */
  lemma RepairKeepsSettledPickups(legs: seq<Leg>, l: nat, u: DisplayUnit)
    requires l < |legs|
    requires u in legs[l] && IsPickup(u)
    requires FirstDeliveryLeg(legs, u.Id()).None? || FirstDeliveryLeg(legs, u.Id()).value <= l
    ensures u in Repair(legs)[l]
  {
    var s := Repair(legs)[l];
    RepairKeepsLegOrder(legs);
    var n, ids :|
      && 0 <= n <= |s|
      && DeliveredLater(legs, l, ids)
      && s[n..] == RemovePickupsOf(legs[l], ids);
    assert u.Id() !in ids;
    InRemovePickupsOf(legs[l], ids, u);
    assert u in s[n..];
  }
}

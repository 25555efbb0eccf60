/** Facts about the filters the repair pass applies to a single leg. */
module LegFacts {
  import opened Wrappers
  import opened RouteSteps
  import opened DisplayUnits
  import opened Legs
  import opened LegRepair

  /** The units of a leg that are not pickups; the repair never moves them. */
  function NonPickups(s: Leg): Leg {
    if s == [] then []
    else if IsPickup(s[0]) then NonPickups(s[1..])
    else [s[0]] + NonPickups(s[1..])
  }

  /**
   `kept` is `orig` with some of its pickups deleted and nothing else changed:
   the remaining units keep their relative order.
   */
  predicate DropsOnlyPickups(orig: Leg, kept: Leg)
    decreases |orig|
  {
    if orig == [] then kept == []
    else
      || (kept != [] && kept[0] == orig[0] && DropsOnlyPickups(orig[1..], kept[1..]))
      || (IsPickup(orig[0]) && DropsOnlyPickups(orig[1..], kept))
  }

  lemma Cons(u: DisplayUnit, s: Leg)
    ensures ([u] + s)[0] == u && ([u] + s)[1..] == s && [u] + s != []
  {
  }

  /** Moving the head of `rest` to the end of `done` keeps the concatenation. */
  lemma ShiftHead<T>(done: seq<T>, rest: seq<T>)
    requires rest != []
    ensures done + [rest[0]] + rest[1..] == done + rest
  {
    assert rest == [rest[0]] + rest[1..];
  }

  lemma {:induction false} NonPickupsOfRemoved(s: Leg, ids: set<Option<int>>)
    ensures NonPickups(RemovePickupsOf(s, ids)) == NonPickups(s)
  {
    if s != [] {
      NonPickupsOfRemoved(s[1..], ids);
      if !(IsPickup(s[0]) && s[0].Id() in ids) {
        Cons(s[0], RemovePickupsOf(s[1..], ids));
      }
    }
  }

  lemma NonPickupsOfPrepended(p: DisplayUnit, s: Leg)
    requires IsPickup(p)
    ensures NonPickups([p] + s) == NonPickups(s)
  {
    Cons(p, s);
  }

  lemma {:induction false} DeliveryIdsOfNonPickups(s: Leg)
    ensures DeliveryIds(NonPickups(s)) == DeliveryIds(s)
  {
    if s != [] {
      DeliveryIdsOfNonPickups(s[1..]);
      if !IsPickup(s[0]) {
        Cons(s[0], NonPickups(s[1..]));
        assert NonPickups(s) == [s[0]] + NonPickups(s[1..]);
      } else {
        assert s[0].Kind() != Delivery;
      }
    }
  }

  lemma {:induction false} RemoveTwice(s: Leg, a: set<Option<int>>, b: set<Option<int>>)
    ensures RemovePickupsOf(RemovePickupsOf(s, a), b) == RemovePickupsOf(s, a + b)
  {
    if s != [] {
      RemoveTwice(s[1..], a, b);
      if !(IsPickup(s[0]) && s[0].Id() in a) {
        Cons(s[0], RemovePickupsOf(s[1..], a));
      }
    }
  }

  lemma {:induction false} RemoveNothing(s: Leg)
    ensures RemovePickupsOf(s, {}) == s
  {
    if s != [] {
      RemoveNothing(s[1..]);
    }
  }

  lemma {:induction false} RemoveAppend(a: Leg, b: Leg, ids: set<Option<int>>)
    ensures RemovePickupsOf(a + b, ids) == RemovePickupsOf(a, ids) + RemovePickupsOf(b, ids)
  {
    if a == [] {
      assert a + b == b;
    } else {
      assert (a + b)[0] == a[0] && (a + b)[1..] == a[1..] + b;
      RemoveAppend(a[1..], b, ids);
    }
  }

  lemma {:induction false} PickupsWithIdsAppend(a: Leg, b: Leg, ids: set<Option<int>>)
    ensures PickupsWithIds(a + b, ids) == PickupsWithIds(a, ids) + PickupsWithIds(b, ids)
  {
    if a == [] {
      assert a + b == b;
    } else {
      assert (a + b)[0] == a[0] && (a + b)[1..] == a[1..] + b;
      PickupsWithIdsAppend(a[1..], b, ids);
    }
  }

  /** Splitting a leg by an id set loses and duplicates nothing. */
  lemma {:induction false} SplitByIds(s: Leg, ids: set<Option<int>>)
    ensures multiset(s) == multiset(PickupsWithIds(s, ids)) + multiset(RemovePickupsOf(s, ids))
  {
    if s != [] {
      SplitByIds(s[1..], ids);
      assert s == [s[0]] + s[1..];
    }
  }

  lemma {:induction false} PickupsWithDisjointIds(s: Leg, a: set<Option<int>>, b: set<Option<int>>)
    requires a !! b
    ensures multiset(PickupsWithIds(s, a + b)) == multiset(PickupsWithIds(s, a)) + multiset(PickupsWithIds(s, b))
  {
    if s != [] {
      PickupsWithDisjointIds(s[1..], a, b);
    }
  }

  lemma {:induction false} PickupsWithIdsOfRemoved(s: Leg, removed: set<Option<int>>, ids: set<Option<int>>)
    requires removed !! ids
    ensures PickupsWithIds(RemovePickupsOf(s, removed), ids) == PickupsWithIds(s, ids)
  {
    if s != [] {
      PickupsWithIdsOfRemoved(s[1..], removed, ids);
      if !(IsPickup(s[0]) && s[0].Id() in removed) {
        Cons(s[0], RemovePickupsOf(s[1..], removed));
      }
    }
  }

  lemma {:induction false} PickupsWithIdsOfUndelivered(s: Leg, delivered: set<Option<int>>, ids: set<Option<int>>)
    requires delivered !! ids
    ensures PickupsWithIds(UndeliveredPickups(s, delivered), ids) == PickupsWithIds(s, ids)
  {
    if s != [] {
      PickupsWithIdsOfUndelivered(s[1..], delivered, ids);
      if IsPickup(s[0]) && s[0].Id() !in delivered {
        Cons(s[0], UndeliveredPickups(s[1..], delivered));
      }
    }
  }

  lemma {:induction false} NoPickupsWithIds(s: Leg, ids: set<Option<int>>)
    requires forall u :: u in s && IsPickup(u) ==> u.Id() !in ids
    ensures PickupsWithIds(s, ids) == []
  {
    if s != [] {
      assert forall u :: u in s[1..] ==> u in s;
      NoPickupsWithIds(s[1..], ids);
      assert s[0] in s;
    }
  }

  /** Once the pickups of `removed` are filtered out, none of the shipments in `ids` is left. */
  lemma {:induction false} NothingLeftToRemove(s: Leg, removed: set<Option<int>>, ids: set<Option<int>>)
    requires ids <= removed
    ensures PickupsWithIds(RemovePickupsOf(s, removed), ids) == []
  {
    if s != [] {
      NothingLeftToRemove(s[1..], removed, ids);
      if !(IsPickup(s[0]) && s[0].Id() in removed) {
        Cons(s[0], RemovePickupsOf(s[1..], removed));
      }
    }
  }

  lemma {:induction false} DropsOnlyRemovedPickups(s: Leg, ids: set<Option<int>>)
    ensures DropsOnlyPickups(s, RemovePickupsOf(s, ids))
  {
    if s != [] {
      DropsOnlyRemovedPickups(s[1..], ids);
      if !(IsPickup(s[0]) && s[0].Id() in ids) {
        Cons(s[0], RemovePickupsOf(s[1..], ids));
      }
    }
  }

  lemma Cancel<T>(a: multiset<T>, b: multiset<T>, c: multiset<T>)
    requires a + b == c + b
    ensures a == c
  {
    assert forall o :: (a + b)[o] == a[o] + b[o];
  }

  /** Replacing leg `i` swaps exactly that leg's units in the flattened multiset. */
  lemma {:induction false} FlattenUpdate(legs: seq<Leg>, i: nat, x: Leg)
    requires i < |legs|
    ensures multiset(Flatten(legs[i := x])) + multiset(legs[i]) == multiset(Flatten(legs)) + multiset(x)
  {
    var legs' := legs[i := x];
    assert Flatten(legs') == legs'[0] + Flatten(legs'[1..]);
    assert Flatten(legs) == legs[0] + Flatten(legs[1..]);
    if i == 0 {
      assert legs'[1..] == legs[1..];
    } else {
      var tail := legs[1..];
      assert legs'[0] == legs[0];
      assert legs'[1..] == tail[i - 1 := x];
      assert tail[i - 1] == legs[i];
      FlattenUpdate(tail, i - 1, x);
      var a := multiset(legs[0]);
      var t' := multiset(Flatten(tail[i - 1 := x]));
      var t := multiset(Flatten(tail));
      assert t' + multiset(legs[i]) == t + multiset(x);
      calc {
        multiset(Flatten(legs')) + multiset(legs[i]);
        a + t' + multiset(legs[i]);
        a + (t' + multiset(legs[i]));
        a + (t + multiset(x));
        a + t + multiset(x);
        multiset(Flatten(legs)) + multiset(x);
      }
    }
  }

  /** Legs with the same non-pickup units, leg by leg. */
  predicate SameNonPickups(a: seq<Leg>, b: seq<Leg>) {
    |a| == |b| && forall l :: 0 <= l < |a| ==> NonPickups(a[l]) == NonPickups(b[l])
  }

  lemma {:induction false} FirstDeliveryLegFromAgrees(a: seq<Leg>, b: seq<Leg>, x: Option<int>, from: nat)
    requires SameNonPickups(a, b)
    ensures FirstDeliveryLegFrom(a, x, from) == FirstDeliveryLegFrom(b, x, from)
    decreases |a| - from
  {
    if from < |a| {
      DeliveryIdsOfNonPickups(a[from]);
      DeliveryIdsOfNonPickups(b[from]);
      FirstDeliveryLegFromAgrees(a, b, x, from + 1);
    }
  }

  /** Moving pickups around cannot change which leg first delivers a shipment. */
  lemma FirstDeliveryLegAgrees(a: seq<Leg>, b: seq<Leg>)
    requires SameNonPickups(a, b)
    ensures forall x :: FirstDeliveryLeg(a, x) == FirstDeliveryLeg(b, x)
  {
    forall x {
      FirstDeliveryLegFromAgrees(a, b, x, 0);
    }
  }
}

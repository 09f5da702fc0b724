/** Renaming several files through temporary names, as legs of a journey: where each file
    starts, the name it is parked under, and where it ends
    (`crates/delune-library/src/import.rs`). */
module Renaming {
  import opened Paths
  import opened Relocation
  import opened Rollback

  datatype Leg = Leg(from: Place, via: Place, to: Place)

  /** Files of their own, under unused temporary names of their own. */
  ghost predicate ParkSafe<C>(legs: seq<Leg>, files: map<Place, C>) {
    && DistinctFroms(legs)
    && (forall a, b :: 0 <= a < b < |legs| ==> legs[a].via != legs[b].via)
    && (forall a :: 0 <= a < |legs| ==> legs[a].via !in files)
    && (forall a, b :: 0 <= a < |legs| && 0 <= b < |legs| ==> legs[a].via != legs[b].from)
  }

  /** Renames that can't get in each other's way, or in a bystander's: distinct files, distinct
      targets, unused temporary names, and targets that are free or being renamed away. */
  ghost predicate LegsSafe<C>(legs: seq<Leg>, files: map<Place, C>) {
    && DistinctFroms(legs)
    && (forall a, b :: 0 <= a < b < |legs| ==> legs[a].to != legs[b].to && legs[a].via != legs[b].via)
    && (forall a :: 0 <= a < |legs| ==> legs[a].via !in files)
    && (forall a, b :: 0 <= a < |legs| && 0 <= b < |legs| ==> legs[a].via != legs[b].to && legs[a].via != legs[b].from)
    && (forall a :: 0 <= a < |legs| && legs[a].to in files ==> StartsAt(legs, legs[a].to))
  }

  predicate DistinctFroms(legs: seq<Leg>) {
    forall a, b :: 0 <= a < b < |legs| ==> legs[a].from != legs[b].from
  }

  predicate StartsAt(legs: seq<Leg>, p: Place) {
    exists a :: 0 <= a < |legs| && legs[a].from == p
  }

  predicate EndsAt(legs: seq<Leg>, p: Place) {
    exists a :: 0 <= a < |legs| && legs[a].to == p
  }

  /** No later rename starts where an earlier one ends. */
  predicate UndoSafe(legs: seq<Leg>) {
    forall a, b :: 0 <= a < b < |legs| ==> legs[b].from != legs[a].to
  }

  // ---- where the files are part way ----

  function Parked(legs: seq<Leg>): Trips {
    seq(|legs|, i requires 0 <= i < |legs| => (legs[i].from, legs[i].via))
  }

  /** The renamed files, the last of the plan first: the order they are renamed and undone in. */
  function Renamed(legs: seq<Leg>): Trips {
    seq(|legs|, k requires 0 <= k < |legs| => (legs[|legs| - 1 - k].from, legs[|legs| - 1 - k].to))
  }

  function TripOf(leg: Leg, parked: bool): (Place, Place) {
    (leg.from, if parked then leg.via else leg.to)
  }

  /** Renamed files come first, from the last of the plan down, then the parked ones. */
  function OrderAt(n: nat, m: nat, k: nat): nat
    requires m <= n && k < n
  {
    if k < n - m then n - 1 - k else k - (n - m)
  }

  /** With the first `m` files of the plan parked and the others renamed. */
  function PartWay(legs: seq<Leg>, m: nat): Trips
    requires m <= |legs|
  {
    seq(|legs|, k requires 0 <= k < |legs| =>
      TripOf(legs[OrderAt(|legs|, m, k)], OrderAt(|legs|, m, k) < m))
  }

  lemma InPartWay(legs: seq<Leg>, m: nat, i: nat)
    requires m <= |legs| && i < |legs|
    ensures TripOf(legs[i], i < m) in PartWay(legs, m)
  {
    var k := if i < m then i + (|legs| - m) else |legs| - 1 - i;
    assert PartWay(legs, m)[k] == TripOf(legs[i], i < m);
  }

  lemma FromPartWay(legs: seq<Leg>, m: nat, t: (Place, Place)) returns (i: nat)
    requires m <= |legs| && t in PartWay(legs, m)
    ensures i < |legs| && t == TripOf(legs[i], i < m)
  {
    var k :| 0 <= k < |legs| && PartWay(legs, m)[k] == t;
    i := OrderAt(|legs|, m, k);
  }

  lemma StartsAreHomes(legs: seq<Leg>, m: nat, p: Place)
    requires m <= |legs| && StartsAt(legs, p)
    ensures IsHome(PartWay(legs, m), p)
  {
    var i :| 0 <= i < |legs| && legs[i].from == p;
    InPartWay(legs, m, i);
  }

  /** Part way through, the unwinding is exact when no later rename starts where an earlier
      one ends. */
  lemma PartWayComesHome(legs: seq<Leg>, m: nat)
    requires m <= |legs| && DistinctFroms(legs)
    requires forall a, b :: 0 <= a < |legs| && 0 <= b < |legs| ==> legs[a].via != legs[b].from
    ensures DistinctHomes(PartWay(legs, m))
    ensures UndoSafe(legs) ==> HomesFreeInTime(PartWay(legs, m))
  {
    var n, trips := |legs|, PartWay(legs, m);
    forall a, b | 0 <= a < b < n
      ensures trips[a].0 != trips[b].0
      ensures UndoSafe(legs) ==> trips[a].0 != trips[b].1
    {
      var i, k := OrderAt(n, m, a), OrderAt(n, m, b);
      assert i != k && (k < i || k < m);
    }
  }

  /** After all the renames the unwinding is exact if and only if no later rename starts where
      an earlier one ends. */
  lemma AllRenamedComesHomeIff(legs: seq<Leg>)
    ensures HomesFreeInTime(Renamed(legs)) <==> UndoSafe(legs)
  {
    var n, trips := |legs|, Renamed(legs);
    if !UndoSafe(legs) {
      var a, b :| 0 <= a < b < n && legs[b].from == legs[a].to;
      assert trips[n - 1 - b].0 == trips[n - 1 - a].1;
    }
    if !HomesFreeInTime(trips) {
      var a, b :| 0 <= a < b < n && trips[a].0 == trips[b].1;
      assert legs[n - 1 - a].from == legs[n - 1 - b].to;
    }
  }

  // ---- one step ----

  lemma ParkNext<C>(before: map<Place, C>, j: Journey, legs: seq<Leg>, k: nat, now: map<Place, C>)
    requires ParkSafe(legs, before) && k < |legs|
    requires Away(before, j, Parked(legs[..k]), now) && legs[k].from in now
    ensures legs[k].from in before
    ensures Away(before, j.Onward(legs[k].from, legs[k].via), Parked(legs[..k + 1]), Move(now, legs[k].from, legs[k].via))
  {
    var parked := Parked(legs[..k]);
    forall t | t in parked ensures t.0 != legs[k].from && t.1 != legs[k].from && t.1 != legs[k].via {
      var i :| 0 <= i < k && parked[i] == t;
    }
    assert j.home[legs[k].from] in before && j.at[j.home[legs[k].from]] == legs[k].from;
    FreeSpot(before, j, parked, now, legs[k].via);
    Leave(before, j, parked, now, legs[k].from, legs[k].via);
    assert Parked(legs[..k + 1]) == parked + [(legs[k].from, legs[k].via)];
  }

  lemma SettleNext<C>(before: map<Place, C>, j: Journey, legs: seq<Leg>, m: nat, now: map<Place, C>)
    requires LegsSafe(legs, before) && 0 < m <= |legs|
    requires Away(before, j, PartWay(legs, m), now)
    ensures legs[m - 1].from in before
    ensures Away(before, j.Onward(legs[m - 1].from, legs[m - 1].to), PartWay(legs, m - 1),
                 Move(now, legs[m - 1].via, legs[m - 1].to))
  {
    var trips, to := PartWay(legs, m), legs[m - 1].to;
    if to in before {
      StartsAreHomes(legs, m, to);
    }
    forall t | t in trips ensures t.1 != to {
      var i := FromPartWay(legs, m, t);
    }
    FreeSpot(before, j, trips, now, to);
    forall t ensures t in PartWay(legs, m - 1) <==> t == TripOf(legs[m - 1], false) || (t in trips && t.0 != legs[m - 1].from) {
      SettledTrip(legs, m, t);
    }
    InPartWay(legs, m, m - 1);
    GoOn(before, j, trips, now, TripOf(legs[m - 1], true), to, PartWay(legs, m - 1));
  }

  lemma SettledTrip(legs: seq<Leg>, m: nat, t: (Place, Place))
    requires 0 < m <= |legs| && DistinctFroms(legs)
    ensures t in PartWay(legs, m - 1) <==>
      t == TripOf(legs[m - 1], false) || (t in PartWay(legs, m) && t.0 != legs[m - 1].from)
  {
    InPartWay(legs, m - 1, m - 1);
    if t in PartWay(legs, m - 1) {
      var i := FromPartWay(legs, m - 1, t);
      InPartWay(legs, m, i);
      if i != m - 1 {
        DifferentFroms(legs, i, m - 1);
      }
    }
    if t in PartWay(legs, m) {
      var i := FromPartWay(legs, m, t);
      InPartWay(legs, m - 1, i);
    }
  }

  lemma DifferentFroms(legs: seq<Leg>, i: nat, k: nat)
    requires DistinctFroms(legs) && i < |legs| && k < |legs| && i != k
    ensures legs[i].from != legs[k].from
  {
    if i < k {
    } else {
      assert legs[k].from != legs[i].from;
    }
  }

  // ---- unwinding ----

  lemma PartWayUnwinds<C>(before: map<Place, C>, j: Journey, legs: seq<Leg>, m: nat, now: map<Place, C>)
    requires LegsSafe(legs, before) && m <= |legs| && Away(before, j, PartWay(legs, m), now) && UndoSafe(legs)
    ensures BroughtHome(now, PartWay(legs, m)) == before
  {
    PartWayComesHome(legs, m);
    HomeAgain(before, j, PartWay(legs, m), now);
  }

  lemma ParkedUnwinds<C>(before: map<Place, C>, j: Journey, legs: seq<Leg>, k: nat, now: map<Place, C>)
    requires ParkSafe(legs, before) && k <= |legs| && Away(before, j, Parked(legs[..k]), now)
    ensures BroughtHome(now, Parked(legs[..k])) == before
  {
    var parked := Parked(legs[..k]);
    forall a, b | 0 <= a < b < |parked| ensures parked[a].0 != parked[b].0 && parked[a].0 != parked[b].1 {
      assert parked[a].0 == legs[a].from && parked[b] == (legs[b].from, legs[b].via);
    }
    HomeAgain(before, j, parked, now);
  }

  /** Once every file is renamed, moving them straight back restores the library if and only if
      no later rename starts where an earlier one ends. */
  lemma UnrenamingIff<C>(before: map<Place, C>, j: Journey, legs: seq<Leg>, now: map<Place, C>)
    requires LegsSafe(legs, before) && Away(before, j, Renamed(legs), now)
    ensures BroughtHome(now, Renamed(legs)) == before <==> UndoSafe(legs)
  {
    AllRenamedComesHomeIff(legs);
    var trips := Renamed(legs);
    forall a, b | 0 <= a < b < |trips| ensures trips[a].0 != trips[b].0 {
      assert legs[|legs| - 1 - b].from != legs[|legs| - 1 - a].from;
    }
    HomeAgainIff(before, j, trips, now);
  }
}

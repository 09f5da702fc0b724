/** When moving files one after another loses none: exactly when no place is moved to twice, or
    while a file is there (`crates/delune-library/src/import.rs`). A rename replaces what is at its
    target without a word, so the number of files says whether one was lost. The general condition on a
    list of moves is then worked out for the renames of a plan, which go through temporary names, where
    it comes to distinct targets, each of them free or itself renamed away. */
module Overwriting {
  import opened Paths
  import opened Relocation
  import opened Rollback
  import opened Renaming

  /** The tree after all trips, taken in order. */
  function MoveAll<C>(files: map<Place, C>, trips: Trips): map<Place, C>
    decreases |trips|
  {
    if trips == [] then files
    else Move(MoveAll(files, trips[..|trips| - 1]), trips[|trips| - 1].0, trips[|trips| - 1].1)
  }

  lemma MoveOneMore<C>(files: map<Place, C>, trips: Trips, t: (Place, Place))
    ensures MoveAll(files, trips + [t]) == Move(MoveAll(files, trips), t.0, t.1)
  {
    assert (trips + [t])[..|trips + [t]| - 1] == trips;
  }

  /** Each trip starts at a file of its own, and none where another ends. */
  ghost predicate Direct<C>(files: map<Place, C>, trips: Trips) {
    && (forall a, b :: 0 <= a < b < |trips| ==> trips[a].0 != trips[b].0)
    && (forall t :: t in trips ==> t.0 in files)
    && (forall t, u :: t in trips && u in trips ==> t.0 != u.1)
  }

  /** Nothing is in the way. */
  ghost predicate TargetsFree<C>(files: map<Place, C>, trips: Trips) {
    && (forall a, b :: 0 <= a < b < |trips| ==> trips[a].1 != trips[b].1)
    && (forall a :: 0 <= a < |trips| ==> trips[a].1 !in files)
  }

  lemma DirectBefore<C>(files: map<Place, C>, trips: Trips)
    requires trips != [] && Direct(files, trips)
    ensures var rest, last := trips[..|trips| - 1], trips[|trips| - 1];
      Direct(files, rest) && !IsHome(rest, last.0) && !IsSpot(rest, last.0) && last.0 in files && last.0 != last.1
    ensures forall p :: IsHome(trips, p) <==> IsHome(trips[..|trips| - 1], p) || p == trips[|trips| - 1].0
    ensures forall p :: IsSpot(trips, p) <==> IsSpot(trips[..|trips| - 1], p) || p == trips[|trips| - 1].1
  {
    var rest, last := trips[..|trips| - 1], trips[|trips| - 1];
    assert trips == rest + [last] && last in trips;
    assert forall t :: t in trips <==> t in rest || t == last;
  }

  /** What is where, after all trips. */
  lemma {:induction false} MovedKeys<C>(files: map<Place, C>, trips: Trips)
    requires Direct(files, trips)
    ensures forall p :: p in MoveAll(files, trips) <==> (p in files && !IsHome(trips, p)) || IsSpot(trips, p)
    decreases |trips|
  {
    if trips != [] {
      DirectBefore(files, trips);
      MovedKeys(files, trips[..|trips| - 1]);
    }
  }

  lemma {:induction false} NeverGrows<C>(files: map<Place, C>, trips: Trips)
    ensures |MoveAll(files, trips)| <= |files|
    decreases |trips|
  {
    if trips != [] {
      NeverGrows(files, trips[..|trips| - 1]);
      MoveSize(MoveAll(files, trips[..|trips| - 1]), trips[|trips| - 1].0, trips[|trips| - 1].1);
    }
  }

  lemma MoveSizeIff<C>(files: map<Place, C>, from: Place, to: Place)
    requires from in files && from != to
    ensures |Move(files, from, to)| == if to in files then |files| - 1 else |files|
  {
    if to in files {
      assert Move(files, from, to).Keys == files.Keys - {from};
    } else {
      assert Move(files, from, to).Keys == files.Keys - {from} + {to};
    }
  }

  lemma FreeOneMore<C>(files: map<Place, C>, trips: Trips)
    requires trips != []
    ensures var rest, last := trips[..|trips| - 1], trips[|trips| - 1];
      TargetsFree(files, trips) <==> TargetsFree(files, rest) && !IsSpot(rest, last.1) && last.1 !in files
  {
    var rest, last := trips[..|trips| - 1], trips[|trips| - 1];
    assert trips == rest + [last];
    if !IsSpot(rest, last.1) {
      forall a | 0 <= a < |rest| ensures rest[a].1 != last.1 {
        assert rest[a] in rest;
      }
    }
  }

  /** No file is lost exactly when nothing is in the way. */
  lemma {:induction false} NoneLostIff<C>(files: map<Place, C>, trips: Trips)
    requires Direct(files, trips)
    ensures |MoveAll(files, trips)| == |files| <==> TargetsFree(files, trips)
    decreases |trips|
  {
    if trips != [] {
      var rest, last := trips[..|trips| - 1], trips[|trips| - 1];
      DirectBefore(files, trips);
      FreeOneMore(files, trips);
      MovedKeys(files, rest);
      NoneLostIff(files, rest);
      NeverGrows(files, rest);
      assert last in trips && forall t :: t in rest ==> t in trips;
      MoveSizeIff(MoveAll(files, rest), last.0, last.1);
    }
  }

  // ---- renaming through temporary names ----

  /** The second step of a renaming: with the first `m` files still under temporary names. */
  function Settles(legs: seq<Leg>, m: nat): Trips
    requires m <= |legs|
    decreases |legs| - m
  {
    if m == |legs| then [] else Settles(legs, m + 1) + [(legs[m].via, legs[m].to)]
  }

  /** All files renamed to temporary names, then, the last first, to their new ones. */
  function RenamedAll<C>(files: map<Place, C>, legs: seq<Leg>): map<Place, C> {
    MoveAll(MoveAll(files, Parked(legs)), Settles(legs, 0))
  }

  /** The files to be renamed are there, and their temporary names are nobody else's. */
  ghost predicate CanPark<C>(files: map<Place, C>, legs: seq<Leg>) {
    && DistinctFroms(legs)
    && (forall a, b :: 0 <= a < b < |legs| ==> legs[a].via != legs[b].via)
    && (forall a :: 0 <= a < |legs| ==> legs[a].from in files && legs[a].via !in files)
    && (forall a, b :: 0 <= a < |legs| && 0 <= b < |legs| ==> legs[a].via != legs[b].to && legs[a].via != legs[b].from)
  }

  lemma ParkedIsFree<C>(files: map<Place, C>, legs: seq<Leg>)
    requires CanPark(files, legs)
    ensures Direct(files, Parked(legs)) && TargetsFree(files, Parked(legs))
    ensures forall p :: IsHome(Parked(legs), p) <==> StartsAt(legs, p)
    ensures forall a :: 0 <= a < |legs| ==> IsSpot(Parked(legs), legs[a].via)
  {
    var trips := Parked(legs);
    forall a | 0 <= a < |legs| ensures trips[a] in trips && trips[a] == (legs[a].from, legs[a].via) {}
  }

  lemma {:induction false} SettlesAt(legs: seq<Leg>, m: nat)
    requires m <= |legs|
    ensures |Settles(legs, m)| == |legs| - m
    ensures forall k :: 0 <= k < |legs| - m ==> Settles(legs, m)[k] == (legs[|legs| - 1 - k].via, legs[|legs| - 1 - k].to)
    decreases |legs| - m
  {
    if m < |legs| {
      SettlesAt(legs, m + 1);
    }
  }

  lemma SettlesAreDirect<C>(files: map<Place, C>, legs: seq<Leg>)
    requires CanPark(files, legs)
    ensures Direct(MoveAll(files, Parked(legs)), Settles(legs, 0))
  {
    ParkedIsFree(files, legs);
    MovedKeys(files, Parked(legs));
    SettlesAt(legs, 0);
  }

  /** Where a file ends is free after the parking when nobody is there, or whoever is there
      has been parked. */
  lemma ParkedHas<C>(files: map<Place, C>, legs: seq<Leg>, a: nat)
    requires CanPark(files, legs) && a < |legs|
    ensures legs[a].to in MoveAll(files, Parked(legs)) <==> legs[a].to in files && !StartsAt(legs, legs[a].to)
  {
    ParkedIsFree(files, legs);
    MovedKeys(files, Parked(legs));
    assert !IsSpot(Parked(legs), legs[a].to);
  }

  lemma SettlesAreFreeIff<C>(parked: map<Place, C>, legs: seq<Leg>)
    ensures TargetsFree(parked, Settles(legs, 0)) <==>
      (forall a, b :: 0 <= a < b < |legs| ==> legs[a].to != legs[b].to) && (forall a :: 0 <= a < |legs| ==> legs[a].to !in parked)
  {
    var n, settles := |legs|, Settles(legs, 0);
    SettlesAt(legs, 0);
    if TargetsFree(parked, settles) {
      forall a, b | 0 <= a < b < n ensures legs[a].to != legs[b].to {
        assert settles[n - 1 - b].1 != settles[n - 1 - a].1;
      }
      forall a | 0 <= a < n ensures legs[a].to !in parked {
        assert settles[n - 1 - a].1 !in parked;
      }
    }
  }

  /** Renaming loses no file exactly when targets are distinct, and each is free or being
      renamed away. */
  lemma RenamingKeepsFilesIff<C>(files: map<Place, C>, legs: seq<Leg>)
    requires CanPark(files, legs)
    ensures |RenamedAll(files, legs)| == |files| <==> LegsSafe(legs, files)
  {
    ParkedIsFree(files, legs);
    NoneLostIff(files, Parked(legs));
    SettlesAreDirect(files, legs);
    SettlesAreFreeIff(MoveAll(files, Parked(legs)), legs);
    forall a | 0 <= a < |legs|
      ensures legs[a].to in MoveAll(files, Parked(legs)) <==> legs[a].to in files && !StartsAt(legs, legs[a].to)
    {
      ParkedHas(files, legs, a);
    }
    NoneLostIff(MoveAll(files, Parked(legs)), Settles(legs, 0));
  }
}

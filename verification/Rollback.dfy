/** Files sent away one by one, and brought home one by one, straight back and in order:
    how the import engine moves and how it unwinds (`crates/delune-library/src/import.rs`). */
module Rollback {
  import opened Paths
  import opened Relocation

  /** Files on the way: where each belongs, and where it is. */
  type Trips = seq<(Place, Place)>

  /** `now` is `before` with exactly the files of `trips` away from home. */
  ghost predicate Away<C>(before: map<Place, C>, j: Journey, trips: Trips, now: map<Place, C>) {
    && Relocated(before, j, now)
    && (forall t :: t in trips ==> t.0 in before && j.at[t.0] == t.1)
    && (forall p :: p in before && !IsHome(trips, p) ==> j.at[p] == p)
  }

  predicate IsHome(trips: Trips, p: Place) {
    exists t :: t in trips && t.0 == p
  }

  predicate IsSpot(trips: Trips, p: Place) {
    exists t :: t in trips && t.1 == p
  }

  lemma NobodyAway<C>(files: map<Place, C>)
    ensures Away(files, Nowhere(files), [], files)
  {
  }

  /** A place is free when whoever began there is away and nobody has come. */
  lemma FreeSpot<C>(before: map<Place, C>, j: Journey, trips: Trips, now: map<Place, C>, x: Place)
    requires Away(before, j, trips, now)
    requires x in before ==> IsHome(trips, x)
    requires !IsSpot(trips, x)
    ensures x !in now
  {
  }

  /** One more file leaves for a free place. */
  lemma Leave<C>(before: map<Place, C>, j: Journey, trips: Trips, now: map<Place, C>, p: Place, to: Place)
    requires Away(before, j, trips, now) && p in before && !IsHome(trips, p) && to !in now
    ensures Away(before, j.Onward(p, to), trips + [(p, to)], Move(now, p, to))
    ensures p in now
  {
    MoveToFree(before, j, now, p, to);
    var more := trips + [(p, to)];
    assert (p, to) in more;
    forall q | q in before && !IsHome(more, q) ensures q != p && !IsHome(trips, q) {
      assert forall t :: t in trips ==> t in more;
    }
  }

  /** A file on the way goes on to another free place; the list is kept in any order. */
  lemma GoOn<C>(before: map<Place, C>, j: Journey, trips: Trips, now: map<Place, C>, trip: (Place, Place), to: Place, after: Trips)
    requires Away(before, j, trips, now) && trip in trips && to !in now
    requires forall t :: t in after <==> t == (trip.0, to) || (t in trips && t.0 != trip.0)
    ensures Away(before, j.Onward(trip.0, to), after, Move(now, trip.1, to))
    ensures trip.1 in now
  {
    MoveToFree(before, j, now, trip.0, to);
    assert (trip.0, to) in after;
    assert forall q :: q in before && !IsHome(after, q) ==> q != trip.0 && !IsHome(trips, q);
  }

  // ---- bringing files home ----

  /** Each file moved straight home, in the order of the list. */
  function BroughtHome<C>(now: map<Place, C>, trips: Trips): map<Place, C>
    decreases |trips|
  {
    if trips == [] then now else BroughtHome(Move(now, trips[0].1, trips[0].0), trips[1..])
  }

  /** Nobody's home is the place of a file brought home later. */
  predicate HomesFreeInTime(trips: Trips) {
    forall a, b :: 0 <= a < b < |trips| ==> trips[a].0 != trips[b].1
  }

  predicate DistinctHomes(trips: Trips) {
    forall a, b :: 0 <= a < b < |trips| ==> trips[a].0 != trips[b].0
  }

  /** The first file comes home to a free place, or is there. */
  lemma FirstHome<C>(before: map<Place, C>, j: Journey, trips: Trips, now: map<Place, C>) returns (j': Journey)
    requires Away(before, j, trips, now) && trips != [] && DistinctHomes(trips)
    requires forall b :: 0 < b < |trips| ==> trips[0].0 != trips[b].1
    ensures Away(before, j', trips[1..], Move(now, trips[0].1, trips[0].0))
  {
    var (home, spot) := trips[0];
    FirstApart(trips);
    if home == spot {
      j' := j;
      assert Move(now, spot, home) == now;
    } else {
      FreeSpot(before, j, trips, now, home);
      MoveToFree(before, j, now, home, home);
      j' := j.Onward(home, home);
    }
  }

  lemma FirstApart(trips: Trips)
    requires trips != [] && DistinctHomes(trips) && forall b :: 0 < b < |trips| ==> trips[0].0 != trips[b].1
    ensures trips[0] in trips && forall t :: t in trips <==> t == trips[0] || t in trips[1..]
    ensures forall t :: t in trips[1..] ==> t.0 != trips[0].0 && t.1 != trips[0].0
    ensures forall q :: IsHome(trips, q) ==> IsHome(trips[1..], q) || q == trips[0].0
  {
    forall t | t in trips[1..] ensures t.0 != trips[0].0 && t.1 != trips[0].0 {
      var b :| 0 < b < |trips| && trips[b] == t;
    }
  }

  /** Rollback is exact when every home is free in time. */
  lemma {:induction false} HomeAgain<C>(before: map<Place, C>, j: Journey, trips: Trips, now: map<Place, C>)
    requires Away(before, j, trips, now) && DistinctHomes(trips) && HomesFreeInTime(trips)
    ensures BroughtHome(now, trips) == before
    decreases |trips|
  {
    if trips == [] {
      forall p | p in before ensures j.at[p] == p {
        assert !IsHome(trips, p);
      }
      AllHome(before, j, now);
    } else {
      var j' := FirstHome(before, j, trips, now);
      HomeAgain(before, j', trips[1..], Move(now, trips[0].1, trips[0].0));
    }
  }

  /** A place no trip begins or ends at is left as it is. */
  lemma {:induction false} HomeLeaves<C>(now: map<Place, C>, trips: Trips, p: Place)
    requires !IsHome(trips, p) && !IsSpot(trips, p)
    ensures p in BroughtHome(now, trips) <==> p in now
    ensures p in now ==> BroughtHome(now, trips)[p] == now[p]
    decreases |trips|
  {
    if trips != [] {
      assert trips[0] in trips;
      assert forall t :: t in trips[1..] ==> t in trips;
      HomeLeaves(Move(now, trips[0].1, trips[0].0), trips[1..], p);
    }
  }

  /** A home that is taken is taken by a file that leaves it no later. */
  predicate HomesClear<C>(now: map<Place, C>, trips: Trips) {
    forall b :: 0 <= b < |trips| && trips[b].0 in now ==> exists a :: 0 <= a <= b && trips[a].1 == trips[b].0
  }

  lemma NextHomesClear<C>(now: map<Place, C>, trips: Trips)
    requires trips != [] && DistinctHomes(trips) && HomesClear(now, trips)
    ensures HomesClear(Move(now, trips[0].1, trips[0].0), trips[1..])
  {
    var next, rest := Move(now, trips[0].1, trips[0].0), trips[1..];
    forall b | 0 <= b < |rest| && rest[b].0 in next ensures exists a :: 0 <= a <= b && rest[a].1 == rest[b].0 {
      assert rest[b] == trips[b + 1] && trips[b + 1].0 in now;
      var a :| 0 <= a <= b + 1 && trips[a].1 == trips[b + 1].0;
      assert 0 < a && rest[a - 1] == trips[a];
    }
  }

  /** Bringing files home keeps every file, even when some of them are no longer where they
      should be. */
  lemma {:induction false} HomeKeepsFiles<C>(now: map<Place, C>, trips: Trips) returns (j: Journey)
    requires DistinctHomes(trips) && HomesClear(now, trips)
    requires HomesFreeInTime(trips)
    ensures Relocated(now, j, BroughtHome(now, trips))
    decreases |trips|
  {
    NothingMoved(now);
    j := Nowhere(now);
    if trips != [] {
      var (home, spot) := trips[0];
      var next := Move(now, spot, home);
      NextHomesClear(now, trips);
      var again := HomeKeepsFiles(next, trips[1..]);
      if spot in now && spot != home {
        MoveToFree(now, j, now, spot, home);
        Compose(now, j.Onward(spot, home), next, again, BroughtHome(next, trips[1..]));
        j := After(j.Onward(spot, home), again);
      } else {
        assert next == now;
        j := again;
      }
    }
  }

  lemma {:induction false} NeverMore<C>(now: map<Place, C>, trips: Trips)
    ensures |BroughtHome(now, trips)| <= |now|
    decreases |trips|
  {
    if trips != [] {
      MoveSize(now, trips[0].1, trips[0].0);
      NeverMore(Move(now, trips[0].1, trips[0].0), trips[1..]);
    }
  }

  lemma MoveSize<C>(files: map<Place, C>, from: Place, to: Place)
    ensures |Move(files, from, to)| <= |files|
    ensures from in files && to in files && from != to ==> |Move(files, from, to)| < |files|
  {
    if from in files {
      assert Move(files, from, to).Keys == files.Keys - {from} + {to};
      if to in files && from != to {
        assert Move(files, from, to).Keys == files.Keys - {from};
      }
    }
  }

  /** When a home isn't free in time, bringing the files home overwrites one. */
  lemma FirstHomeTaken<C>(before: map<Place, C>, j: Journey, trips: Trips, now: map<Place, C>, b: nat)
    requires Away(before, j, trips, now) && DistinctHomes(trips) && 0 < b < |trips| && trips[0].0 == trips[b].1
    ensures trips[0].1 != trips[0].0 && trips[0].1 in now && trips[0].0 in now
  {
    assert trips[0] in trips && trips[b] in trips;
    assert trips[b].0 != trips[0].0 && j.at[trips[b].0] == trips[0].0 && j.at[trips[0].0] == trips[0].1;
  }

  lemma TakenLater(trips: Trips)
    requires !HomesFreeInTime(trips) && forall b :: 0 < b < |trips| ==> trips[0].0 != trips[b].1
    ensures !HomesFreeInTime(trips[1..])
  {
    var a, b :| 0 <= a < b < |trips| && trips[a].0 == trips[b].1;
    assert 0 < a && trips[1..][a - 1].0 == trips[1..][b - 1].1;
  }

  lemma {:induction false} HomeTaken<C>(before: map<Place, C>, j: Journey, trips: Trips, now: map<Place, C>)
    requires Away(before, j, trips, now) && DistinctHomes(trips) && !HomesFreeInTime(trips)
    ensures |BroughtHome(now, trips)| < |now|
    decreases |trips|
  {
    var (home, spot) := trips[0];
    var next := Move(now, spot, home);
    assert trips[0] in trips;
    if b :| 0 < b < |trips| && trips[0].0 == trips[b].1 {
      FirstHomeTaken(before, j, trips, now, b);
      MoveSize(now, spot, home);
      NeverMore(next, trips[1..]);
    } else {
      var j' := FirstHome(before, j, trips, now);
      TakenLater(trips);
      HomeTaken(before, j', trips[1..], next);
      RelocatedSameSize(before, j, now, j', next);
    }
  }

  lemma RelocatedSameSize<C>(before: map<Place, C>, j: Journey, now: map<Place, C>, j': Journey, next: map<Place, C>)
    requires Relocated(before, j, now) && Relocated(before, j', next)
    ensures |now| == |next|
  {
    RelocatedSize(before, j, now);
    RelocatedSize(before, j', next);
  }

  /** Bringing files straight home, in order, restores the tree if and only if no file's
      home is still taken by one that comes home later. */
  lemma HomeAgainIff<C>(before: map<Place, C>, j: Journey, trips: Trips, now: map<Place, C>)
    requires Away(before, j, trips, now) && DistinctHomes(trips)
    ensures BroughtHome(now, trips) == before <==> HomesFreeInTime(trips)
  {
    if HomesFreeInTime(trips) {
      HomeAgain(before, j, trips, now);
    } else {
      HomeTaken(before, j, trips, now);
      RelocatedSize(before, j, now);
    }
  }
}

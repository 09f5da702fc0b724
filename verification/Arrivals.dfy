/** Moving tracks from staging to their destinations, and back when one can't be moved
    (`crates/delune-library/src/import.rs`). */
module Arrivals {
  import opened Text
  import opened Paths
  import opened Relocation
  import opened Trash
  import opened Rollback
  import opened Overwriting
  import opened Plans

  function ArrivingTracks(tracks: seq<PlannedFile>): seq<PlannedFile> {
    if tracks == [] then []
    else (if tracks[0].skip then [] else [tracks[0]]) + ArrivingTracks(tracks[1..])
  }

  function ArrivalTrips(arriving: seq<PlannedFile>): Trips {
    seq(|arriving|, i requires 0 <= i < |arriving| => (Staged(arriving[i].source), PlaceOf(arriving[i].destination)))
  }

  /** Distinct destinations, all free. */
  ghost predicate ArrivalsSafe<C>(arriving: seq<PlannedFile>, files: map<Place, C>) {
    && (forall a, b :: 0 <= a < b < |arriving| ==> PlaceOf(arriving[a].destination) != PlaceOf(arriving[b].destination))
    && (forall a :: 0 <= a < |arriving| ==> PlaceOf(arriving[a].destination) !in files)
  }

  lemma ArrivedElsewhere<C>(before: map<Place, C>, arriving: seq<PlannedFile>, k: nat)
    requires ArrivalsSafe(arriving, before) && k < |arriving|
    ensures forall t :: t in ArrivalTrips(arriving[..k]) ==> t.1 != PlaceOf(arriving[k].destination) && t.1.Library?
  {
    var trips, to := ArrivalTrips(arriving[..k]), PlaceOf(arriving[k].destination);
    forall t | t in trips ensures t.1 != to && t.1.Library? {
      var i :| 0 <= i < k && trips[i] == t;
      assert PlaceOf(arriving[i].destination) != to;
    }
  }

  lemma ArriveNext<C>(before: map<Place, C>, j: Journey, arriving: seq<PlannedFile>, k: nat, now: map<Place, C>)
    requires ArrivalsSafe(arriving, before) && k < |arriving|
    requires Away(before, j, ArrivalTrips(arriving[..k]), now) && Staged(arriving[k].source) in now
    ensures Staged(arriving[k].source) in before
    ensures Away(before, j.Onward(Staged(arriving[k].source), PlaceOf(arriving[k].destination)), ArrivalTrips(arriving[..k + 1]),
                 Move(now, Staged(arriving[k].source), PlaceOf(arriving[k].destination)))
  {
    var trips, source, to := ArrivalTrips(arriving[..k]), Staged(arriving[k].source), PlaceOf(arriving[k].destination);
    ArrivedElsewhere(before, arriving, k);
    FreeSpot(before, j, trips, now, to);
    assert j.home[source] in before && j.at[j.home[source]] == source;
    Leave(before, j, trips, now, source, to);
    assert ArrivalTrips(arriving[..k + 1]) == trips + [(source, to)];
  }

  lemma ArrivalsUnwind<C>(before: map<Place, C>, j: Journey, arriving: seq<PlannedFile>, k: nat, now: map<Place, C>)
    requires ArrivalsSafe(arriving, before) && k <= |arriving| && Away(before, j, ArrivalTrips(arriving[..k]), now)
    ensures BroughtHome(now, ArrivalTrips(arriving[..k])) == before
  {
    var trips := ArrivalTrips(arriving[..k]);
    forall a, b | 0 <= a < b < |trips| ensures trips[a].0 != trips[b].0 {
      assert trips[a] in trips && trips[b] in trips;
      assert j.at[trips[a].0] == PlaceOf(arriving[a].destination) && j.at[trips[b].0] == PlaceOf(arriving[b].destination);
    }
    HomeAgain(before, j, trips, now);
  }

  lemma ArrivalTripAt(arriving: seq<PlannedFile>, k: nat)
    requires k < |arriving|
    ensures ArrivalTrips(arriving)[k] == (Staged(arriving[k].source), PlaceOf(arriving[k].destination))
  {
  }

  /** Staged tracks with files of their own all arrive, and no file is replaced, exactly when
      their destinations are distinct and free. */
  lemma ArrivingKeepsFilesIff<C>(files: map<Place, C>, arriving: seq<PlannedFile>)
    requires forall a :: 0 <= a < |arriving| ==> Staged(arriving[a].source) in files
    requires forall a, b :: 0 <= a < b < |arriving| ==> arriving[a].source != arriving[b].source
    ensures |MoveAll(files, ArrivalTrips(arriving))| == |files| <==> ArrivalsSafe(arriving, files)
  {
    var trips := ArrivalTrips(arriving);
    forall a | 0 <= a < |arriving| ensures trips[a] == (Staged(arriving[a].source), PlaceOf(arriving[a].destination)) {
      ArrivalTripAt(arriving, a);
    }
    NoneLostIff(files, trips);
  }

  function DestinationPlaces(arriving: seq<PlannedFile>): seq<Place> {
    seq(|arriving|, i requires 0 <= i < |arriving| => PlaceOf(arriving[i].destination))
  }

  lemma OneMoreArrival(arriving: seq<PlannedFile>, k: nat)
    requires k < |arriving|
    ensures DestinationPlaces(arriving[..k + 1]) == DestinationPlaces(arriving[..k]) + [PlaceOf(arriving[k].destination)]
    ensures ArrivalTrips(arriving[..k + 1]) ==
      ArrivalTrips(arriving[..k]) + [(Staged(arriving[k].source), PlaceOf(arriving[k].destination))]
  {
    assert arriving[..k + 1] == arriving[..k] + [arriving[k]];
  }

  /** One track moves from staging to its destination. */
  method ArriveOne<C>(disk: Disk<C>, track: PlannedFile) returns (to: Option<Parts>, moved: bool)
    modifies disk`files
    ensures to == Resolve(track.destination)
    ensures moved ==> to.Some? && Library(to.value) == PlaceOf(track.destination) && Staged(track.source) in old(disk.files)
    ensures moved ==> disk.files == Move(old(disk.files), Staged(track.source), PlaceOf(track.destination))
    ensures !moved ==> disk.files == old(disk.files)
  {
    to := Resolve(track.destination);
    moved := false;
    if to.Some? {
      moved := disk.Rename(Staged(track.source), Library(to.value));
    }
  }

  /** The first `k` tracks have arrived. */
  ghost predicate Coming<C>(arriving: seq<PlannedFile>, before: map<Place, C>, j: Journey, k: nat, arrived: Trips, now: map<Place, C>) {
    && k <= |arriving| && arrived == ArrivalTrips(arriving[..k]) && now == MoveAll(before, arrived)
    && (ArrivalsSafe(arriving, before) ==> Away(before, j, arrived, now))
  }

  /** The next track arrives; if it can't, those before it go back. */
  method ArriveNextTrack<C>(disk: Disk<C>, track: PlannedFile, arrived: Trips, ghost arriving: seq<PlannedFile>, ghost k: nat,
                            ghost before: map<Place, C>, ghost start: Journey)
      returns (more: Trips, error: Option<ImportError>, ghost j: Journey)
    requires k < |arriving| && arriving[k] == track && Coming(arriving, before, start, k, arrived, disk.files)
    modifies disk`files, disk`stuck
    ensures old(disk.stuck) <= disk.stuck
    ensures error.None? ==> disk.stuck == old(disk.stuck) && Coming(arriving, before, j, k + 1, more, disk.files)
    ensures error.Some? ==>
      error.value == if Resolve(track.destination).None? then UnsafeDestination(track.destination) else Io
    ensures error.Some? && ArrivalsSafe(arriving, before) && disk.stuck == old(disk.stuck) ==> disk.files == before
  {
    ghost var now := disk.files;
    j, more := start, arrived;
    var to, moved := ArriveOne(disk, track);
    if !moved {
      if ArrivalsSafe(arriving, before) {
        ArrivalsUnwind(before, j, arriving, k, now);
      }
      BringHome(disk, arrived);
      return arrived, Some(if to.None? then UnsafeDestination(track.destination) else Io), j;
    }
    if ArrivalsSafe(arriving, before) {
      ArriveNext(before, start, arriving, k, now);
      j := start.Onward(Staged(track.source), PlaceOf(track.destination));
    }
    more := arrived + [(Staged(track.source), Library(to.value))];
    MoveOneMore(before, arrived, (Staged(track.source), Library(to.value)));
    OneMoreArrival(arriving, k);
    error := None;
  }

  /** Move the arriving tracks in; on failure move back those that already arrived. */
  method Arrive<C>(disk: Disk<C>, arriving: seq<PlannedFile>)
      returns (r: Result<seq<Place>, ImportError>, arrived: Trips, ghost j: Journey)
    modifies disk`files, disk`stuck
    ensures old(disk.stuck) <= disk.stuck
    ensures r.Ok? ==> disk.stuck == old(disk.stuck) && r.value == DestinationPlaces(arriving)
    ensures r.Ok? ==> disk.files == MoveAll(old(disk.files), ArrivalTrips(arriving))
    ensures r.Ok? && ArrivalsSafe(arriving, old(disk.files)) ==> Away(old(disk.files), j, ArrivalTrips(arriving), disk.files)
    ensures r.Err? && (forall t :: t in arriving ==> Resolve(t.destination).Some?) ==> r.error == Io
    ensures r.Err? && ArrivalsSafe(arriving, old(disk.files)) && disk.stuck == old(disk.stuck) ==> disk.files == old(disk.files)
  {
    ghost var before, stuck := disk.files, disk.stuck;
    j := Nowhere(before);
    NobodyAway(before);
    var imported: seq<Place> := [];
    arrived := [];
    for k := 0 to |arriving|
      invariant disk.stuck == stuck && Coming(arriving, before, j, k, arrived, disk.files)
      invariant imported == DestinationPlaces(arriving[..k])
    {
      var error;
      arrived, error, j := ArriveNextTrack(disk, arriving[k], arrived, arriving, k, before, j);
      if error.Some? {
        return Err(error.value), arrived, j;
      }
      OneMoreArrival(arriving, k);
      imported := imported + [arrived[k].1];
    }
    assert arriving[..|arriving|] == arriving;
    return Ok(imported), arrived, j;
  }
}

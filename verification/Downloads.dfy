/** The server's job list and its slot limit, with the methods that update them
    (`crates/delune-server/src/downloads.rs`). `SlotProtocol` interleaves these updates. */
module Downloads {
  import opened Text
  import opened Slots

  class Downloads {
    var jobs: seq<Job>
    /** The limit; with 0, every job may start. */
    var slots: nat
    /** How often everyone waiting has been woken. */
    var wakes: nat

    ghost predicate Valid()
      reads this
    {
      UniqueIds(jobs)
    }

    constructor ()
      ensures Valid() && jobs == [] && slots == 0 && wakes == 0
    {
      jobs, slots, wakes := [], 0, 0;
    }

    method WakeWaiting()
      modifies this`wakes
      ensures wakes == old(wakes) + 1
    {
      wakes := wakes + 1;
    }

    /** Change the limit; everyone waiting is woken when it really changed. */
    method SetSlots(limit: Option<nat>)
      modifies this`slots, this`wakes
      ensures slots == if limit.None? then 0 else limit.value
      ensures wakes == old(wakes) + if slots != old(slots) then 1 else 0
    {
      var wanted := if limit.None? then 0 else limit.value;
      var before := slots;
      slots := wanted;
      if before != wanted {
        WakeWaiting();
      }
    }

    /** The first job with this id. */
    method Find(id: string) returns (found: Option<nat>)
      ensures found.None? ==> !Known(jobs, id)
      ensures found.Some? ==> found.value < |jobs| && jobs[found.value].id == id
      ensures found.Some? ==> forall k :: 0 <= k < found.value ==> jobs[k].id != id
    {
      for i := 0 to |jobs|
        invariant forall k :: 0 <= k < i ==> jobs[k].id != id
      {
        if jobs[i].id == id {
          return Some(i);
        }
      }
      return None;
    }

    /** Put `id` in line unless it is in it, or past it, already. */
    method Join(id: string)
      requires Valid()
      modifies this`jobs
      ensures Valid() && jobs == Joined(old(jobs), id)
    {
      var entry := Find(id);
      if entry.Some? && jobs[entry.value].slot == Idle {
        jobs := jobs[entry.value := jobs[entry.value].(slot := Waiting)];
      }
    }

    /** An attempt by `id`: it holds a slot afterwards if the free slots reach it in line. Whoever they
        don't reach is told its place anew. */
    method TryTakeSlot(id: string) returns (taken: bool)
      requires Valid()
      modifies this`jobs
      ensures Valid()
      ensures jobs == TakeSlot(old(jobs), id, slots)
      ensures taken == Taken(old(jobs), id, slots)
    {
      var limit := slots;
      var holding := HoldingCount(jobs);
      Join(id);
      SameHolders(old(jobs), id);
      var free := if limit == 0 then None else Some(if holding < limit then limit - holding else 0);
      taken := RenumberLine(id, LineUp(jobs, |jobs|), free, limit);
      AllRenumbered(old(jobs), jobs, id, limit);
    }

    /** Go down the line: `id` gets a slot if it is near enough the front, and every other
        job learns its place. */
    method RenumberLine(id: string, line: seq<nat>, free: Option<nat>, ghost limit: nat) returns (taken: bool)
      requires Valid() && line == LineUp(jobs, |jobs|) && free == FreeSlots(jobs, limit)
      modifies this`jobs
      ensures Renumbered(old(jobs), jobs, line, id, limit)
      ensures taken == Granted(old(jobs), line, id, limit)
    {
      ghost var joined := jobs;
      taken := false;
      for place := 0 to |line|
        invariant Renumbered(joined, jobs, line[..place], id, limit)
        invariant taken == Granted(joined, line[..place], id, limit)
      {
        var i := line[place];
        PlaceDecides(joined, limit, place);
        RenumberNext(joined, jobs, line[..place], id, limit, i);
        var grant := GrantedAt(jobs[i], id, place, free);
        jobs := jobs[i := PlacedAt(jobs[i], id, place, free, |line|)];
        taken := taken || grant;
        assert line[..place + 1] == line[..place] + [i];
      }
      assert line[..|line|] == line;
    }

    /** `id` has nothing of the slots any more, and whoever waits may try again. */
    method ReleaseSlot(id: string)
      requires Valid()
      modifies this`jobs, this`wakes
      ensures Valid()
      ensures jobs == Released(old(jobs), id)
      ensures wakes == old(wakes) + 1
    {
      var entry := Find(id);
      if entry.Some? {
        jobs := jobs[entry.value := jobs[entry.value].(slot := Idle, waitingForSlot := None)];
      }
      WakeWaiting();
    }

    /** Give a waiting job a priority above every other. */
    method Prioritise(id: string) returns (moved: bool)
      requires Valid()
      modifies this`jobs, this`wakes
      ensures Valid()
      ensures moved == CanPrioritise(old(jobs), id)
      ensures jobs == if moved then Prioritised(old(jobs), id) else old(jobs)
      ensures wakes == old(wakes) + if moved then 1 else 0
    {
      var top := TopPriority(jobs);
      var entry := Find(id);
      if entry.None? || jobs[entry.value].slot != Waiting {
        return false;
      }
      jobs := jobs[entry.value := jobs[entry.value].(priority := top + 1)];
      WakeWaiting();
      return true;
    }

    /** Forget a job and wake the others. */
    method Remove(id: string) returns (found: bool)
      requires Valid()
      modifies this`jobs, this`wakes
      ensures Valid()
      ensures found == Known(old(jobs), id)
      ensures jobs == Without(old(jobs), id) && !Known(jobs, id)
      ensures wakes == old(wakes) + if found then 1 else 0
    {
      var entry := Find(id);
      WithoutAt(jobs, id, if entry.Some? then entry.value else |jobs|);
      if entry.None? {
        return false;
      }
      jobs := jobs[..entry.value] + jobs[entry.value + 1..];
      WakeWaiting();
      return true;
    }
  }

  /** One more than the jobs ahead that no free slot reaches, as far as a `u32` goes. */
  function PlaceShown(place: nat, free: Option<nat>, waiting: nat): nat {
    var reached := if free.None? || waiting < free.value then waiting else free.value;
    var shown := if place < reached then 1 else place - reached + 1;
    if shown < U32_MAX then shown else U32_MAX
  }

  /** The jobs in `done` have been granted or numbered; the others are as they were. */
  ghost predicate Renumbered(joined: seq<Job>, jobs: seq<Job>, done: seq<nat>, id: string, limit: nat) {
    |jobs| == |joined| && forall i: nat :: i < |joined| ==>
      jobs[i] == if i in done then AfterTry(joined, id, limit, i) else joined[i]
  }

  ghost predicate Granted(joined: seq<Job>, done: seq<nat>, id: string, limit: nat) {
    exists i: nat :: i in done && i < |joined| && joined[i].id == id && Startable(joined, limit, i)
  }

  lemma RenumberNext(joined: seq<Job>, jobs: seq<Job>, done: seq<nat>, id: string, limit: nat, i: nat)
    requires i < |joined| && joined[i].slot == Waiting && Renumbered(joined, jobs, done, id, limit)
    ensures Renumbered(joined, jobs[i := AfterTry(joined, id, limit, i)], done + [i], id, limit)
    ensures Granted(joined, done + [i], id, limit) ==
      (Granted(joined, done, id, limit) || (joined[i].id == id && WithinFree(joined, limit, i)))
    ensures jobs[i].id == joined[i].id
    ensures i !in done ==> jobs[i] == joined[i]
  {
    assert i in done + [i];
    if Granted(joined, done, id, limit) {
      var k: nat :| k in done && k < |joined| && joined[k].id == id && Startable(joined, limit, k);
      assert k in done + [i];
    }
    forall k: nat | k < |joined| ensures k in done + [i] <==> k in done || k == i {}
  }

  lemma AllRenumbered(before: seq<Job>, jobs: seq<Job>, id: string, limit: nat)
    requires var joined := Joined(before, id); Renumbered(joined, jobs, LineUp(joined, |joined|), id, limit)
    ensures jobs == TakeSlot(before, id, limit)
    ensures var joined := Joined(before, id); Granted(joined, LineUp(joined, |joined|), id, limit) == Taken(before, id, limit)
    ensures UniqueIds(before) ==> UniqueIds(jobs)
  {
  }

  predicate GrantedAt(job: Job, id: string, place: nat, free: Option<nat>) {
    (free.None? || place < free.value) && job.id == id
  }

  /** The waiting job at `place` in a line of `waiting` jobs, granted a slot or told its place. */
  function PlacedAt(job: Job, id: string, place: nat, free: Option<nat>, waiting: nat): Job {
    if GrantedAt(job, id, place, free) then job.(slot := Holding, waitingForSlot := None)
    else job.(waitingForSlot := Some(PlaceShown(place, free, waiting)))
  }

  lemma SameHolders(jobs: seq<Job>, id: string)
    ensures HoldingCount(jobs) == |Holders(Joined(jobs, id))|
  {
    HoldingCountIsHolders(jobs);
    assert Holders(jobs) == Holders(Joined(jobs, id));
  }

  /** A job's place in the sorted line decides whether it may start, and what it shows. */
  lemma PlaceDecides(jobs: seq<Job>, limit: nat, place: nat)
    requires UniqueIds(jobs) && place < |LineUp(jobs, |jobs|)|
    ensures var line := LineUp(jobs, |jobs|);
      && line[place] in line
      && line[place] !in line[..place]
      && (WithinFree(jobs, limit, line[place]) <==> FreeSlots(jobs, limit).None? || place < FreeSlots(jobs, limit).value)
      && Shown(jobs, limit, line[place]) == PlaceShown(place, FreeSlots(jobs, limit), |line|)
  {
    PlaceInLine(jobs, place);
    LineIsDistinct(jobs);
    LineSize(jobs);
  }

  lemma {:induction false} WithoutAt(jobs: seq<Job>, id: string, i: nat)
    requires i <= |jobs| && forall k :: 0 <= k < i ==> jobs[k].id != id
    requires i < |jobs| ==> jobs[i].id == id
    ensures Without(jobs, id) == if i < |jobs| then jobs[..i] + jobs[i + 1..] else jobs
  {
    if 0 < i {
      WithoutAt(jobs[1..], id, i - 1);
      assert jobs == [jobs[0]] + jobs[1..];
    }
  }
}

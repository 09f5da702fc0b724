/** The wait/notify protocol around the slots (`crates/delune-server/src/downloads.rs`). */
module SlotProtocol {
  // A step relation over every task and every request that touches the jobs. Each step is one
  // atomic piece of the code: a critical section under the jobs lock, the unlocked read of the
  // limit, or one call of `notify_waiters`, so a run is any interleaving of them.

  import opened Text
  import opened Slots

  /** Where a task is in `wait_for_slot`, and after it. */
  datatype Pc =
    | Start               // top of the loop
    | Armed               // registered for the next wake-up
    | Read(limit: nat)    // has read the limit, not yet taken the lock
    | Parked              // its attempt failed; waits for a wake-up or a cancellation
    | Running             // holds the slot
    | Done

  datatype Task = Task(id: string, pc: Pc, woken: bool, cancelled: bool)

  /** `pending` counts the `notify_waiters` calls whose change is made but that haven't
      happened yet. */
  datatype State = State(limit: nat, jobs: seq<Job>, tasks: map<nat, Task>, pending: nat)

  datatype Step =
    | AddJob(job: Job)                  // a new entry in the list, under an id never used before
    | Spawn(t: nat, id: string)         // a task for a job: started, resumed or restarted
    | Arm(t: nat)
    | ReadLimit(t: nat)
    | Try(t: nat)                       // `try_take_slot` under the lock
    | Loop(t: nat)                      // the wake-up arrived
    | Abandon(t: nat)                   // the cancellation arrived: `release_slot`'s update
    | Finish(t: nat)                    // the download ended: `release_slot`'s update
    | SetSlots(limit: nat)              // the new limit is stored
    | Prioritise(id: string)            // the new priority is stored
    | Remove(id: string)                // the entry is taken out of the list
    | Cancel(t: nat)                    // the cancel switch is thrown
    | Notify                            // a pending `notify_waiters` happens

  predicate Live(pc: Pc) {
    pc.Start? || pc.Armed? || pc.Read? || pc.Parked?
  }

  predicate Enabled(s: State, step: Step) {
    match step
    case AddJob(job) => job.slot == Idle && !Known(s.jobs, job.id) && forall t :: t in s.tasks ==> s.tasks[t].id != job.id
    case Spawn(t, _) => t !in s.tasks
    case Arm(t) => t in s.tasks && s.tasks[t].pc.Start?
    case ReadLimit(t) => t in s.tasks && s.tasks[t].pc.Armed?
    case Try(t) => t in s.tasks && s.tasks[t].pc.Read?
    case Loop(t) => t in s.tasks && s.tasks[t].pc.Parked? && s.tasks[t].woken
    case Abandon(t) => t in s.tasks && s.tasks[t].pc.Parked? && s.tasks[t].cancelled
    case Finish(t) => t in s.tasks && s.tasks[t].pc.Running?
    case SetSlots(_) => true
    case Prioritise(_) => true
    case Remove(id) => Known(s.jobs, id)
    case Cancel(t) => t in s.tasks
    case Notify => 0 < s.pending
  }

  function Woken(task: Task): Task {
    if task.pc.Armed? || task.pc.Read? || task.pc.Parked? then task.(woken := true) else task
  }

  ghost function Apply(s: State, step: Step): State
    requires Enabled(s, step)
  {
    match step
    case AddJob(job) => s.(jobs := s.jobs + [job])
    case Spawn(t, id) => s.(tasks := s.tasks[t := Task(id, Start, false, false)])
    case Arm(t) => s.(tasks := s.tasks[t := s.tasks[t].(pc := Armed, woken := false)])
    case ReadLimit(t) => s.(tasks := s.tasks[t := s.tasks[t].(pc := Read(s.limit))])
    case Try(t) =>
      var task := s.tasks[t];
      var pc := if Taken(s.jobs, task.id, task.pc.limit) then Running else Parked;
      s.(jobs := TakeSlot(s.jobs, task.id, task.pc.limit), tasks := s.tasks[t := task.(pc := pc)])
    case Loop(t) => s.(tasks := s.tasks[t := s.tasks[t].(pc := Start)])
    case Abandon(t) => Release(s, t)
    case Finish(t) => Release(s, t)
    case SetSlots(limit) => if limit == s.limit then s else s.(limit := limit, pending := s.pending + 1)
    case Prioritise(id) =>
      if CanPrioritise(s.jobs, id) then s.(jobs := Prioritised(s.jobs, id), pending := s.pending + 1) else s
    case Remove(id) => s.(jobs := Without(s.jobs, id), pending := s.pending + 1)
    case Cancel(t) => s.(tasks := s.tasks[t := s.tasks[t].(cancelled := true)])
    case Notify => s.(tasks := map t | t in s.tasks :: Woken(s.tasks[t]), pending := s.pending - 1)
  }

  ghost function Release(s: State, t: nat): State
    requires t in s.tasks
  {
    s.(jobs := Released(s.jobs, s.tasks[t].id), tasks := s.tasks[t := s.tasks[t].(pc := Done)], pending := s.pending + 1)
  }

  /** As the server starts: saved jobs hold nothing and no task runs yet. */
  predicate Initial(s: State) {
    UniqueIds(s.jobs) && s.tasks == map[] && s.pending == 0 &&
    forall i :: 0 <= i < |s.jobs| ==> s.jobs[i].slot == Idle
  }

  ghost predicate IsRun(states: seq<State>, steps: seq<Step>) {
    |states| == |steps| + 1 && Initial(states[0]) &&
    forall k :: 0 <= k < |steps| ==> Enabled(states[k], steps[k]) && states[k + 1] == Apply(states[k], steps[k])
  }

  // ---- the invariant ----

  /** A task that read a limit that has changed since will be woken. */
  ghost predicate ReadsAreFresh(s: State) {
    forall t :: t in s.tasks && s.tasks[t].pc.Read? ==>
      s.tasks[t].woken || 0 < s.pending || s.tasks[t].pc.limit == s.limit
  }

  /** The job of task `t` has nothing to try for now. */
  ghost predicate NothingToTry(s: State, id: string) {
    forall i :: 0 <= i < |s.jobs| && s.jobs[i].id == id ==>
      s.jobs[i].slot != Idle && !Startable(s.jobs, s.limit, i)
  }

  /** A task waits unwoken only while its job can't start. */
  ghost predicate ParkedForAReason(s: State) {
    forall t :: t in s.tasks && s.tasks[t].pc.Parked? ==>
      s.tasks[t].woken || 0 < s.pending || NothingToTry(s, s.tasks[t].id)
  }

  ghost predicate HasLiveTask(s: State, id: string) {
    exists t :: t in s.tasks && s.tasks[t].id == id && Live(s.tasks[t].pc)
  }

  ghost predicate LineIsAttended(s: State) {
    forall i :: 0 <= i < |s.jobs| && s.jobs[i].slot == Waiting ==> HasLiveTask(s, s.jobs[i].id)
  }

  ghost predicate Inv(s: State) {
    UniqueIds(s.jobs) && ReadsAreFresh(s) && ParkedForAReason(s) && LineIsAttended(s)
  }

  lemma InitialInv(s: State)
    requires Initial(s)
    ensures Inv(s)
  {
  }

  lemma {:induction false} WithoutKeepsIds(jobs: seq<Job>, id: string)
    requires UniqueIds(jobs)
    ensures UniqueIds(Without(jobs, id))
  {
    if jobs != [] && jobs[0].id != id {
      WithoutKeepsIds(jobs[1..], id);
      var rest := Without(jobs[1..], id);
      forall k | 0 <= k < |rest| ensures rest[k].id != jobs[0].id {
        assert rest[k] in jobs[1..];
      }
    }
  }

  lemma StepKeepsIds(s: State, step: Step)
    requires UniqueIds(s.jobs) && Enabled(s, step)
    ensures UniqueIds(Apply(s, step).jobs)
  {
    if step.Remove? {
      WithoutKeepsIds(s.jobs, step.id);
    }
  }

  lemma StepKeepsReads(s: State, step: Step)
    requires ReadsAreFresh(s) && Enabled(s, step)
    ensures ReadsAreFresh(Apply(s, step))
  {
  }

  lemma StepKeepsAttendance(s: State, step: Step)
    requires Inv(s) && Enabled(s, step)
    ensures LineIsAttended(Apply(s, step))
  {
    var s' := Apply(s, step);
    forall i | 0 <= i < |s'.jobs| && s'.jobs[i].slot == Waiting
      ensures HasLiveTask(s', s'.jobs[i].id)
    {
      if step.Try? && s.tasks[step.t].id == s'.jobs[i].id {
        TriedInVain(s, step, i);
      } else {
        WaitedBefore(s, step, i);
        StaysAttended(s, step, i);
      }
    }
  }

  lemma TriedInVain(s: State, step: Step, i: nat)
    requires UniqueIds(s.jobs) && Enabled(s, step) && step.Try? && i < |Apply(s, step).jobs|
    requires Apply(s, step).jobs[i].slot == Waiting && Apply(s, step).jobs[i].id == s.tasks[step.t].id
    ensures Apply(s, step).tasks[step.t].pc.Parked?
  {
    var id, limit := s.tasks[step.t].id, s.tasks[step.t].pc.limit;
    if Taken(s.jobs, id, limit) {
      var g := TakenIndex(s.jobs, id, limit);
      assert false;
    }
  }

  predicate WasInLine(s: State, id: string) {
    exists k :: 0 <= k < |s.jobs| && s.jobs[k].id == id && s.jobs[k].slot == Waiting
  }

  lemma WaitedBefore(s: State, step: Step, i: nat)
    requires Enabled(s, step) && i < |Apply(s, step).jobs| && Apply(s, step).jobs[i].slot == Waiting
    requires step.Try? ==> s.tasks[step.t].id != Apply(s, step).jobs[i].id
    ensures WasInLine(s, Apply(s, step).jobs[i].id)
  {
    var s' := Apply(s, step);
    if step.Remove? {
      assert s'.jobs[i] in s.jobs;
    } else {
      assert step.Try? ==> s.jobs[i].slot == Waiting;
    }
  }

  lemma StaysAttended(s: State, step: Step, i: nat)
    requires LineIsAttended(s) && Enabled(s, step) && i < |Apply(s, step).jobs| && Apply(s, step).jobs[i].slot == Waiting
    requires step.Try? ==> s.tasks[step.t].id != Apply(s, step).jobs[i].id
    requires WasInLine(s, Apply(s, step).jobs[i].id)
    ensures HasLiveTask(Apply(s, step), Apply(s, step).jobs[i].id)
  {
    var s', id := Apply(s, step), Apply(s, step).jobs[i].id;
    var t :| t in s.tasks && s.tasks[t].id == id && Live(s.tasks[t].pc);
    assert t in s'.tasks && s'.tasks[t].id == id && Live(s'.tasks[t].pc);
  }

  /** A failed attempt by a job that is in line already changes no slot. */
  lemma FailedAttemptKeepsOut(jobs: seq<Job>, id: string, limit: nat, now: nat, i: nat)
    requires UniqueIds(jobs) && i < |jobs| && jobs[i].id == id && jobs[i].slot != Idle
    requires !Taken(jobs, id, limit) && !Startable(jobs, now, i)
    ensures TakeSlot(jobs, id, limit)[i].slot == jobs[i].slot
    ensures !Startable(TakeSlot(jobs, id, limit), now, i)
  {
    var after := TakeSlot(jobs, id, limit);
    NotTaken(jobs, id, limit);
    assert Holders(after) == Holders(jobs);
    StaysOut(jobs, after, now, i, {});
  }

  /** An attempt leaves whoever had nothing to try with nothing to try. */
  lemma AttemptKeepsNothingToTry(jobs: seq<Job>, asker: string, limit: nat, now: nat, i: nat)
    requires UniqueIds(jobs) && i < |jobs| && jobs[i].slot != Idle && !Startable(jobs, now, i)
    ensures TakeSlot(jobs, asker, limit)[i].slot != Idle && !Startable(TakeSlot(jobs, asker, limit), now, i)
  {
    if jobs[i].id != asker {
      AttemptKeepsOthersOut(jobs, asker, limit, now, i);
    } else if !Taken(jobs, asker, limit) {
      FailedAttemptKeepsOut(jobs, asker, limit, now, i);
    }
  }

  lemma NewJobKeepsNothingToTry(s: State, job: Job, id: string)
    requires Enabled(s, AddJob(job)) && NothingToTry(s, id) && id != job.id
    ensures NothingToTry(Apply(s, AddJob(job)), id)
  {
    var more := s.jobs + [job];
    assert Holders(more) == Holders(s.jobs);
    forall i | 0 <= i < |more| && more[i].id == id
      ensures more[i].slot != Idle && !Startable(more, s.limit, i)
    {
      assert Ahead(more, i) == Ahead(s.jobs, i);
    }
  }

  lemma StepKeepsParkedForAReason(s: State, step: Step)
    requires Inv(s) && Enabled(s, step)
    ensures ParkedForAReason(Apply(s, step))
  {
    var s' := Apply(s, step);
    forall t | t in s'.tasks && s'.tasks[t].pc.Parked?
      ensures s'.tasks[t].woken || 0 < s'.pending || NothingToTry(s', s'.tasks[t].id)
    {
      var id := s'.tasks[t].id;
      if step.Try? && step.t == t {
        NotTaken(s.jobs, id, s.tasks[t].pc.limit);
      } else if step.Try? && NothingToTry(s, id) {
        forall i | 0 <= i < |s.jobs| && s.jobs[i].id == id
          ensures s'.jobs[i].slot != Idle && !Startable(s'.jobs, s.limit, i)
        {
          AttemptKeepsNothingToTry(s.jobs, s.tasks[step.t].id, s.tasks[step.t].pc.limit, s.limit, i);
        }
      } else if step.AddJob? && NothingToTry(s, id) {
        NewJobKeepsNothingToTry(s, step.job, id);
      } else if NothingToTry(s, id) && s'.jobs == s.jobs && s'.limit == s.limit {
        assert NothingToTry(s', id);
      }
    }
  }

  /** Every step keeps the invariant. */
  lemma StepKeepsInv(s: State, step: Step)
    requires Inv(s) && Enabled(s, step)
    ensures Inv(Apply(s, step))
  {
    StepKeepsIds(s, step);
    StepKeepsReads(s, step);
    StepKeepsParkedForAReason(s, step);
    StepKeepsAttendance(s, step);
  }

  lemma {:induction false} RunKeepsInv(states: seq<State>, steps: seq<Step>, k: nat)
    requires IsRun(states, steps) && k <= |steps|
    ensures Inv(states[k])
  {
    if k == 0 {
      InitialInv(states[0]);
    } else {
      RunKeepsInv(states, steps, k - 1);
      StepKeepsInv(states[k - 1], steps[k - 1]);
    }
  }

  // ---- the theorems, over every run ----

  /** Task `t` is on its way to an attempt, or has been told to make one. */
  predicate AboutToTry(task: Task) {
    task.pc.Start? || task.pc.Armed? || task.pc.Read? || (task.pc.Parked? && task.woken)
  }

  /** No lost wake-up: in every state of every run, a waiting job the free slots reach has
      a task about to try, or a `notify_waiters` is still to come. */
  lemma NoLostWakeUp(states: seq<State>, steps: seq<Step>, k: nat, i: nat)
    requires IsRun(states, steps) && k <= |steps|
    requires i < |states[k].jobs| && Startable(states[k].jobs, states[k].limit, i)
    ensures 0 < states[k].pending ||
      exists t :: t in states[k].tasks && states[k].tasks[t].id == states[k].jobs[i].id && AboutToTry(states[k].tasks[t])
  {
    RunKeepsInv(states, steps, k);
    var s := states[k];
    var t :| t in s.tasks && s.tasks[t].id == s.jobs[i].id && Live(s.tasks[t].pc);
    assert AboutToTry(s.tasks[t]) || 0 < s.pending;
  }

  /** Nothing is about to happen by itself: no wake-up is due and no task is moving. */
  predicate Quiet(s: State) {
    s.pending == 0 && forall t :: t in s.tasks ==> !AboutToTry(s.tasks[t])
  }

  /** No slot is left idle while a job waits: when things are quiet, either nobody waits or
      the limit is used up. */
  lemma QuietMeansFull(states: seq<State>, steps: seq<Step>, k: nat)
    requires IsRun(states, steps) && k <= |steps| && Quiet(states[k])
    ensures Line(states[k].jobs) == {} || 0 < states[k].limit <= |Holders(states[k].jobs)|
  {
    RunKeepsInv(states, steps, k);
    var s := states[k];
    if Line(s.jobs) != {} {
      var w :| w in Line(s.jobs);
      assert w in LineUp(s.jobs, |s.jobs|);
      var first := LineUp(s.jobs, |s.jobs|)[0];
      PlaceInLine(s.jobs, 0);
      assert !Startable(s.jobs, s.limit, first) by {
        if Startable(s.jobs, s.limit, first) {
          NoLostWakeUp(states, steps, k, first);
        }
      }
    }
  }

  // ---- the limit holds ----

  /** No more jobs than `most` hold a slot, and no task goes by a higher limit. */
  ghost predicate WithinLimit(s: State, most: nat) {
    UniqueIds(s.jobs) && |Holders(s.jobs)| <= most &&
    forall t :: t in s.tasks && s.tasks[t].pc.Read? ==> 0 < s.tasks[t].pc.limit <= most
  }

  lemma {:induction false} WithoutKeepsHolders(jobs: seq<Job>, id: string)
    ensures |Holders(Without(jobs, id))| <= |Holders(jobs)|
  {
    if jobs != [] {
      HoldersOfRest(jobs);
      if jobs[0].id != id {
        WithoutKeepsHolders(jobs[1..], id);
        HoldersOfRest(Without(jobs, id));
      }
    }
  }

  lemma StepKeepsLimit(s: State, step: Step, most: nat)
    requires Enabled(s, step) && 0 < s.limit <= most && WithinLimit(s, most)
    ensures WithinLimit(Apply(s, step), most)
  {
    StepKeepsIds(s, step);
    var s' := Apply(s, step);
    match step
    case Try(t) =>
      var limit := s.tasks[t].pc.limit;
      if Taken(s.jobs, s.tasks[t].id, limit) {
        GrantRespectsLimit(s.jobs, s.tasks[t].id, limit);
      } else {
        NotTaken(s.jobs, s.tasks[t].id, limit);
        assert Holders(s'.jobs) == Holders(s.jobs);
      }
    case Remove(id) => WithoutKeepsHolders(s.jobs, id);
    case _ =>
      assert Holders(s'.jobs) <= Holders(s.jobs);
      SubsetSize(Holders(s'.jobs), Holders(s.jobs));
  }

  /** The limits in force from state `i` to state `k`; none of them says that there is no limit. */
  ghost predicate Limited(states: seq<State>, i: nat, k: nat)
    requires k < |states|
  {
    forall j :: i <= j <= k ==> 0 < states[j].limit
  }

  ghost function LargestLimit(states: seq<State>, i: nat, k: nat): (most: nat)
    requires i <= k < |states|
    ensures forall j :: i <= j <= k ==> states[j].limit <= most
    ensures exists j :: i <= j <= k && states[j].limit == most
  {
    if i == k then states[k].limit
    else
      var rest := LargestLimit(states, i, k - 1);
      if rest < states[k].limit then states[k].limit else rest
  }

  /** Once within a limit, a run stays within it as long as no higher one is set, whatever else
      is going on. */
  lemma {:induction false} StaysWithinLimit(states: seq<State>, steps: seq<Step>, i: nat, k: nat, most: nat)
    requires IsRun(states, steps) && i <= k <= |steps| && Limited(states, i, k)
    requires WithinLimit(states[i], most) && forall j :: i <= j <= k ==> states[j].limit <= most
    ensures WithinLimit(states[k], most)
  {
    if i < k {
      StaysWithinLimit(states, steps, i, k - 1, most);
      StepKeepsLimit(states[k - 1], steps[k - 1], most);
    }
  }

  /** No interleaving lets more jobs hold a slot than the largest limit in force so far. */
  lemma HoldersNeverExceedLimit(states: seq<State>, steps: seq<Step>, k: nat)
    requires IsRun(states, steps) && k <= |steps| && Limited(states, 0, k)
    ensures |Holders(states[k].jobs)| <= LargestLimit(states, 0, k)
  {
    assert Holders(states[0].jobs) == {};
    StaysWithinLimit(states, steps, 0, k, LargestLimit(states, 0, k));
  }

  /** Nor when the limit is first set as the server starts. */
  lemma HoldersNeverExceedLimitSet(states: seq<State>, steps: seq<Step>, k: nat)
    requires IsRun(states, steps) && 1 <= k <= |steps| && steps[0].SetSlots? && Limited(states, 1, k)
    ensures |Holders(states[k].jobs)| <= LargestLimit(states, 1, k)
  {
    assert Enabled(states[0], steps[0]) && states[1] == Apply(states[0], steps[0]);
    assert Holders(states[1].jobs) == {};
    StaysWithinLimit(states, steps, 1, k, LargestLimit(states, 1, k));
  }

  /** While the limit stays put, no more jobs than it hold a slot. */
  lemma SameLimit(states: seq<State>, steps: seq<Step>, k: nat)
    requires IsRun(states, steps) && k <= |steps| && forall j :: 0 <= j < k ==> !steps[j].SetSlots?
    ensures states[k].limit == states[0].limit
    ensures 0 < states[0].limit ==> |Holders(states[k].jobs)| <= states[0].limit
  {
    LimitStays(states, steps, k);
    if 0 < states[0].limit {
      forall j | 0 <= j <= k ensures states[j].limit == states[0].limit {
        LimitStays(states, steps, j);
      }
      HoldersNeverExceedLimit(states, steps, k);
    }
  }

  lemma {:induction false} LimitStays(states: seq<State>, steps: seq<Step>, k: nat)
    requires IsRun(states, steps) && k <= |steps| && forall j :: 0 <= j < k ==> !steps[j].SetSlots?
    ensures states[k].limit == states[0].limit
  {
    if 0 < k {
      LimitStays(states, steps, k - 1);
      assert Enabled(states[k - 1], steps[k - 1]) && states[k] == Apply(states[k - 1], steps[k - 1]);
    }
  }

  // ---- who holds a slot runs ----

  ghost predicate Holds(jobs: seq<Job>, id: string) {
    exists i :: 0 <= i < |jobs| && jobs[i].id == id && jobs[i].slot == Holding
  }

  ghost predicate Runs(s: State, id: string) {
    exists t :: t in s.tasks && s.tasks[t].id == id && s.tasks[t].pc.Running?
  }

  /** Every job that holds a slot has a task that runs, so no slot leaks. */
  ghost predicate HoldersRun(s: State) {
    forall id :: Holds(s.jobs, id) ==> Runs(s, id)
  }

  /** Every task that runs holds a slot of its own. */
  ghost predicate RunnersHold(s: State) {
    && (forall id :: Runs(s, id) ==> Holds(s.jobs, id))
    && (forall t, u :: t in s.tasks && u in s.tasks && s.tasks[t].pc.Running? && s.tasks[u].pc.Running? && s.tasks[t].id == s.tasks[u].id ==>
          t == u)
  }

  lemma HoldsFirst(jobs: seq<Job>, id: string)
    requires jobs != []
    ensures Holds(jobs, id) <==> (jobs[0].id == id && jobs[0].slot == Holding) || Holds(jobs[1..], id)
  {
    var rest := jobs[1..];
    if i :| 0 <= i < |jobs| && jobs[i].id == id && jobs[i].slot == Holding {
      assert 0 < i ==> rest[i - 1] == jobs[i];
    }
    if i :| 0 <= i < |rest| && rest[i].id == id && rest[i].slot == Holding {
      assert jobs[i + 1] == rest[i];
    }
  }

  lemma {:induction false} WithoutHolds(jobs: seq<Job>, id: string, other: string)
    requires UniqueIds(jobs)
    ensures Holds(Without(jobs, id), other) <==> Holds(jobs, other) && other != id
  {
    if jobs != [] {
      HoldsFirst(jobs, other);
      if jobs[0].id == id {
        assert !Holds(jobs[1..], id) by {
          assert forall i :: 0 <= i < |jobs[1..]| ==> jobs[1..][i] == jobs[i + 1];
        }
      } else {
        WithoutHolds(jobs[1..], id, other);
        HoldsFirst(Without(jobs, id), other);
      }
    }
  }

  lemma TakeSlotHolds(jobs: seq<Job>, id: string, limit: nat, other: string)
    requires UniqueIds(jobs)
    ensures Holds(TakeSlot(jobs, id, limit), other) <==> Holds(jobs, other) || (other == id && Taken(jobs, id, limit))
  {
    var after := TakeSlot(jobs, id, limit);
    assert forall i :: 0 <= i < |jobs| ==> after[i].id == jobs[i].id;
    if Taken(jobs, id, limit) {
      var g := TakenIndex(jobs, id, limit);
      assert forall i :: 0 <= i < |jobs| ==> (after[i].slot == Holding <==> i == g || jobs[i].slot == Holding);
      assert after[g].id == id;
    } else {
      NotTaken(jobs, id, limit);
      assert forall i :: 0 <= i < |jobs| ==> (after[i].slot == Holding <==> jobs[i].slot == Holding);
    }
    if i :| 0 <= i < |jobs| && jobs[i].id == other && jobs[i].slot == Holding {
      assert after[i].id == other && after[i].slot == Holding;
    }
  }

  /** The job whose slot the step takes away, if any. */
  function Loser(s: State, step: Step): Option<string>
    requires Enabled(s, step)
  {
    match step
    case Abandon(t) => Some(s.tasks[t].id)
    case Finish(t) => Some(s.tasks[t].id)
    case Remove(id) => Some(id)
    case _ => None
  }

  /** Slots change hands by attempts and by releasing and removing only. */
  lemma StepHolds(s: State, step: Step, id: string)
    requires UniqueIds(s.jobs) && Enabled(s, step)
    ensures Holds(Apply(s, step).jobs, id) <==>
      (Holds(s.jobs, id) && Loser(s, step) != Some(id)) ||
      (step.Try? && s.tasks[step.t].id == id && Taken(s.jobs, id, s.tasks[step.t].pc.limit))
  {
    var after := Apply(s, step).jobs;
    match step
    case Try(t) =>
      TakeSlotHolds(s.jobs, s.tasks[t].id, s.tasks[t].pc.limit, id);
    case Remove(gone) =>
      WithoutHolds(s.jobs, gone, id);
    case AddJob(job) =>
      assert forall i :: 0 <= i < |s.jobs| ==> after[i] == s.jobs[i];
    case _ =>
      assert |after| == |s.jobs| && forall i :: 0 <= i < |s.jobs| ==> after[i].id == s.jobs[i].id;
      assert forall i :: 0 <= i < |s.jobs| ==>
        (after[i].slot == Holding <==> s.jobs[i].slot == Holding && Loser(s, step) != Some(s.jobs[i].id));
  }

  /** A task begins to run when it takes a slot, and stops when its download ends. */
  lemma StepRuns(s: State, step: Step, t: nat)
    requires Enabled(s, step) && t in Apply(s, step).tasks
    ensures Apply(s, step).tasks[t].pc.Running? <==>
      (t in s.tasks && s.tasks[t].pc.Running? && step != Finish(t)) ||
      (step == Try(t) && Taken(s.jobs, s.tasks[t].id, s.tasks[t].pc.limit))
    ensures t in s.tasks ==> Apply(s, step).tasks[t].id == s.tasks[t].id
    ensures t !in s.tasks ==> step.Spawn? && step.t == t
  {
  }

  /** Every step keeps it that holders run. */
  lemma StepKeepsHoldersRun(s: State, step: Step)
    requires UniqueIds(s.jobs) && HoldersRun(s) && Enabled(s, step)
    ensures HoldersRun(Apply(s, step))
  {
    var s' := Apply(s, step);
    forall id | Holds(s'.jobs, id) ensures Runs(s', id) {
      StepHolds(s, step, id);
      if step.Try? && s.tasks[step.t].id == id && Taken(s.jobs, id, s.tasks[step.t].pc.limit) {
        StepRuns(s, step, step.t);
      } else {
        var t :| t in s.tasks && s.tasks[t].id == id && s.tasks[t].pc.Running?;
        StepRuns(s, step, t);
      }
    }
  }

  lemma {:induction false} RunKeepsHoldersRun(states: seq<State>, steps: seq<Step>, k: nat)
    requires IsRun(states, steps) && k <= |steps|
    ensures HoldersRun(states[k])
  {
    if 0 < k {
      RunKeepsHoldersRun(states, steps, k - 1);
      RunKeepsInv(states, steps, k - 1);
      StepKeepsHoldersRun(states[k - 1], steps[k - 1]);
    }
  }

  /** In every state of every run, whoever holds a slot has a task that downloads. */
  lemma NoLeakedSlot(states: seq<State>, steps: seq<Step>, k: nat, i: nat)
    requires IsRun(states, steps) && k <= |steps| && i < |states[k].jobs| && states[k].jobs[i].slot == Holding
    ensures Runs(states[k], states[k].jobs[i].id)
  {
    RunKeepsHoldersRun(states, steps, k);
    assert Holds(states[k].jobs, states[k].jobs[i].id);
  }

  /** A running job is removed, or a second task of a running job gives up waiting. */
  ghost predicate LosesRunner(s: State, step: Step) {
    || (step.Remove? && Runs(s, step.id))
    || (step.Abandon? && step.t in s.tasks && Runs(s, s.tasks[step.t].id))
  }

  /** Those two steps, and only they, let a task run without a slot. */
  lemma RunnersHoldIff(s: State, step: Step)
    requires UniqueIds(s.jobs) && RunnersHold(s) && HoldersRun(s) && Enabled(s, step)
    ensures RunnersHold(Apply(s, step)) <==> !LosesRunner(s, step)
  {
    var s' := Apply(s, step);
    if LosesRunner(s, step) {
      var id := if step.Remove? then step.id else s.tasks[step.t].id;
      var t :| t in s.tasks && s.tasks[t].id == id && s.tasks[t].pc.Running?;
      StepRuns(s, step, t);
      StepHolds(s, step, id);
      assert Runs(s', id) && !Holds(s'.jobs, id);
    } else {
      forall id | Runs(s', id) ensures Holds(s'.jobs, id) {
        RunnerStillHolds(s, step, id);
      }
      forall t, u | t in s'.tasks && u in s'.tasks && s'.tasks[t].pc.Running? && s'.tasks[u].pc.Running? && s'.tasks[t].id == s'.tasks[u].id
        ensures t == u
      {
        RunsAlone(s, step, t, u);
      }
    }
  }

  lemma RunnerStillHolds(s: State, step: Step, id: string)
    requires UniqueIds(s.jobs) && RunnersHold(s) && Enabled(s, step) && !LosesRunner(s, step) && Runs(Apply(s, step), id)
    ensures Holds(Apply(s, step).jobs, id)
  {
    var s' := Apply(s, step);
    var t :| t in s'.tasks && s'.tasks[t].id == id && s'.tasks[t].pc.Running?;
    StepRuns(s, step, t);
    StepHolds(s, step, id);
    if t in s.tasks && s.tasks[t].pc.Running? {
      assert Runs(s, id);
      assert step.Finish? ==> s.tasks[step.t].id != id;
    }
  }

  lemma RunsAlone(s: State, step: Step, t: nat, u: nat)
    requires UniqueIds(s.jobs) && RunnersHold(s) && Enabled(s, step)
    requires t in Apply(s, step).tasks && u in Apply(s, step).tasks
    requires Apply(s, step).tasks[t].id == Apply(s, step).tasks[u].id
    requires Apply(s, step).tasks[t].pc.Running? && Apply(s, step).tasks[u].pc.Running?
    ensures t == u
  {
    StepRuns(s, step, t);
    StepRuns(s, step, u);
    if t != u && step.Try? {
      if step.t == t {
        TakenWasFree(s, s.tasks[t].id, s.tasks[t].pc.limit);
      } else if step.t == u {
        TakenWasFree(s, s.tasks[u].id, s.tasks[u].pc.limit);
      }
    }
  }

  /** A job that runs has its slot already. */
  lemma TakenWasFree(s: State, id: string, limit: nat)
    requires UniqueIds(s.jobs) && RunnersHold(s) && Taken(s.jobs, id, limit)
    ensures !Runs(s, id)
  {
    var g := TakenIndex(s.jobs, id, limit);
    assert !Holds(s.jobs, id);
  }

  ghost function Runners(s: State): set<nat> {
    set t | t in s.tasks && s.tasks[t].pc.Running?
  }

  ghost function IndexOf(jobs: seq<Job>, id: string): (i: nat)
    requires Holds(jobs, id)
    ensures i in Holders(jobs) && jobs[i].id == id
  {
    var i: nat :| i < |jobs| && jobs[i].id == id && jobs[i].slot == Holding;
    i
  }

  lemma {:induction false} SameSize(a: set<nat>, b: set<nat>, to: map<nat, nat>)
    requires to.Keys == a && to.Values == b && forall x, y :: x in a && y in a && to[x] == to[y] ==> x == y
    ensures |a| == |b|
    decreases a
  {
    if a != {} {
      var x :| x in a;
      assert (to - {x}).Values == b - {to[x]} by {
        assert forall y :: y in b - {to[x]} ==> exists z :: z in a - {x} && to[z] == y;
      }
      SameSize(a - {x}, b - {to[x]}, to - {x});
    } else {
      assert b == {};
    }
  }

  /** Then as many tasks run as jobs hold a slot. */
  lemma AsManyRun(s: State)
    requires UniqueIds(s.jobs) && HoldersRun(s) && RunnersHold(s)
    ensures |Runners(s)| == |Holders(s.jobs)|
  {
    forall t | t in Runners(s) ensures Holds(s.jobs, s.tasks[t].id) {
      assert Runs(s, s.tasks[t].id);
    }
    var to := map t | t in Runners(s) :: IndexOf(s.jobs, s.tasks[t].id);
    forall i | i in Holders(s.jobs) ensures i in to.Values {
      assert Holds(s.jobs, s.jobs[i].id);
      var t :| t in s.tasks && s.tasks[t].id == s.jobs[i].id && s.tasks[t].pc.Running?;
      assert t in to && to[t] == i;
    }
    SameSize(Runners(s), Holders(s.jobs), to);
  }

  /** In a run in which no running job is removed and none loses its slot to a second task of its
      own, exactly as many tasks download as jobs hold a slot. */
  lemma {:induction false} AsManyRunAsHold(states: seq<State>, steps: seq<Step>, k: nat)
    requires IsRun(states, steps) && k <= |steps| && forall j :: 0 <= j < k ==> !LosesRunner(states[j], steps[j])
    ensures RunnersHold(states[k]) && |Runners(states[k])| == |Holders(states[k].jobs)|
  {
    if 0 < k {
      AsManyRunAsHold(states, steps, k - 1);
      RunKeepsInv(states, steps, k - 1);
      RunKeepsHoldersRun(states, steps, k - 1);
      assert Enabled(states[k - 1], steps[k - 1]);
      RunnersHoldIff(states[k - 1], steps[k - 1]);
    }
    RunKeepsInv(states, steps, k);
    RunKeepsHoldersRun(states, steps, k);
    AsManyRun(states[k]);
  }

  lemma StepRunners(s: State, step: Step)
    requires Enabled(s, step) && (step.Remove? || step.Abandon?)
    ensures Runners(Apply(s, step)) == Runners(s)
  {
  }

  /** After the first such step one task more downloads than jobs hold a slot, whatever the limit. */
  lemma OneMoreRuns(s: State, step: Step)
    requires UniqueIds(s.jobs) && HoldersRun(s) && RunnersHold(s) && Enabled(s, step) && LosesRunner(s, step)
    ensures |Runners(Apply(s, step))| == |Holders(Apply(s, step).jobs)| + 1
  {
    var id := Loser(s, step).value;
    var s' := Apply(s, step);
    AsManyRun(s);
    StepRunners(s, step);
    assert Holds(s.jobs, id);
    if step.Remove? {
      WithoutHolder(s.jobs, id);
    } else {
      var i := IndexOf(s.jobs, id);
      assert Holders(s'.jobs) == Holders(s.jobs) - {i};
    }
  }

  lemma {:induction false} WithoutHolder(jobs: seq<Job>, id: string)
    requires UniqueIds(jobs) && Holds(jobs, id)
    ensures |Holders(Without(jobs, id))| + 1 == |Holders(jobs)|
  {
    HoldersOfRest(jobs);
    if jobs[0].id == id {
      var i := IndexOf(jobs, id);
      assert i == 0;
    } else {
      var i := IndexOf(jobs, id);
      assert jobs[1..][i - 1] == jobs[i];
      WithoutHolder(jobs[1..], id);
      HoldersOfRest(Without(jobs, id));
    }
  }

  // ---- prioritise ----

  /** Prioritising puts a waiting job first and keeps the others in their order. */
  lemma PrioritiseMovesToFront(jobs: seq<Job>, id: string, p: nat)
    requires UniqueIds(jobs) && p < |jobs| && jobs[p].id == id && jobs[p].slot == Waiting
    ensures Ahead(Prioritised(jobs, id), p) == {}
    ensures Line(Prioritised(jobs, id)) == Line(jobs)
    ensures forall i, j :: 0 <= i < |jobs| && 0 <= j < |jobs| && i != p && j != p ==>
      Before(Prioritised(jobs, id)[i], Prioritised(jobs, id)[j]) == Before(jobs[i], jobs[j])
  {
    var after := Prioritised(jobs, id);
    BeforeIsTotal(after[p], after[p]);
    assert forall k :: 0 <= k < |jobs| && k != p ==> after[k].priority < after[p].priority;
  }
}

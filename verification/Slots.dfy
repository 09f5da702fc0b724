/** Jobs, the line they wait in, and what one attempt to take a slot does to them
    (`crates/delune-server/src/downloads.rs`). */
module Slots {
  import opened Text

  /** What a job has of the limited slots: nothing, a place in line, or one of them. */
  datatype Slot = Idle | Waiting | Holding

  datatype Job = Job(id: string, priority: nat, createdAt: nat, slot: Slot, waitingForSlot: Option<nat>)

  const U32_MAX: nat := 0xffff_ffff

  predicate UniqueIds(jobs: seq<Job>) {
    forall i, j :: 0 <= i < j < |jobs| ==> jobs[i].id != jobs[j].id
  }

  /** Higher priority first, then older, then by id. */
  predicate Before(a: Job, b: Job) {
    if a.priority != b.priority then a.priority > b.priority
    else if a.createdAt != b.createdAt then a.createdAt < b.createdAt
    else Less(a.id, b.id)
  }

  lemma BeforeIsTotal(a: Job, b: Job)
    ensures a.id != b.id ==> Before(a, b) || Before(b, a)
    ensures !(Before(a, b) && Before(b, a))
    ensures a.id == b.id && a.priority == b.priority && a.createdAt == b.createdAt ==> !Before(a, b)
  {
    LessIsTotal(a.id, b.id);
    LessIsStrict(a.id, b.id);
  }

  lemma BeforeIsTransitive(a: Job, b: Job, c: Job)
    requires Before(a, b) && Before(b, c)
    ensures Before(a, c)
  {
    if a.priority == b.priority == c.priority && a.createdAt == b.createdAt == c.createdAt {
      LessIsTransitive(a.id, b.id, c.id);
    }
  }

  // ---- the line ----

  ghost function Holders(jobs: seq<Job>): set<nat> {
    set k: nat | k < |jobs| && jobs[k].slot == Holding
  }

  ghost function Line(jobs: seq<Job>): set<nat> {
    set k: nat | k < |jobs| && jobs[k].slot == Waiting
  }

  /** The waiting jobs ahead of job `i`. */
  ghost function Ahead(jobs: seq<Job>, i: nat): set<nat>
    requires i < |jobs|
  {
    set k: nat | k < |jobs| && jobs[k].slot == Waiting && Before(jobs[k], jobs[i])
  }

  /** How many slots are free under `limit`, or `None` when there is no limit. */
  ghost function FreeSlots(jobs: seq<Job>, limit: nat): Option<nat> {
    if limit == 0 then None
    else if limit <= |Holders(jobs)| then Some(0)
    else Some(limit - |Holders(jobs)|)
  }

  /** Fewer waiting jobs than free slots are ahead of job `i`. */
  ghost predicate WithinFree(jobs: seq<Job>, limit: nat, i: nat)
    requires i < |jobs|
  {
    FreeSlots(jobs, limit).Some? ==> |Ahead(jobs, i)| < FreeSlots(jobs, limit).value
  }

  /** Job `i` is waiting and could start now. */
  ghost predicate Startable(jobs: seq<Job>, limit: nat, i: nat)
    requires i < |jobs|
  {
    jobs[i].slot == Waiting && WithinFree(jobs, limit, i)
  }

  predicate Known(jobs: seq<Job>, id: string) {
    exists i :: 0 <= i < |jobs| && jobs[i].id == id
  }

  /** The job joins the line unless it is in it, or past it, already. */
  function Joined(jobs: seq<Job>, id: string): (r: seq<Job>)
    ensures |r| == |jobs|
    ensures forall i :: 0 <= i < |jobs| ==>
      r[i] == if jobs[i].id == id && jobs[i].slot == Idle then jobs[i].(slot := Waiting) else jobs[i]
  {
    seq(|jobs|, i requires 0 <= i < |jobs| =>
      if jobs[i].id == id && jobs[i].slot == Idle then jobs[i].(slot := Waiting) else jobs[i])
  }

  /** The place shown to a waiting job: how many before it in line the free slots don't reach, and one. */
  ghost function Shown(jobs: seq<Job>, limit: nat, i: nat): (n: nat)
    requires i < |jobs|
  {
    var free := FreeSlots(jobs, limit);
    var skipped := if free.None? || |Line(jobs)| < free.value then |Line(jobs)| else free.value;
    var place := if |Ahead(jobs, i)| < skipped then 1 else |Ahead(jobs, i)| - skipped + 1;
    if place < U32_MAX then place else U32_MAX
  }

  /** What `try_take_slot` leaves of job `i`, once job `id` is in `line`. */
  ghost function AfterTry(line: seq<Job>, id: string, limit: nat, i: nat): Job
    requires i < |line|
  {
    if line[i].slot != Waiting then line[i]
    else if line[i].id == id && WithinFree(line, limit, i) then line[i].(slot := Holding, waitingForSlot := None)
    else line[i].(waitingForSlot := Some(Shown(line, limit, i)))
  }

  /** One attempt by `id` to take a slot under `limit`. */
  ghost function TakeSlot(jobs: seq<Job>, id: string, limit: nat): (r: seq<Job>)
    ensures |r| == |jobs|
  {
    var line := Joined(jobs, id);
    seq(|line|, i requires 0 <= i < |line| => AfterTry(line, id, limit, i))
  }

  ghost predicate Taken(jobs: seq<Job>, id: string, limit: nat) {
    exists i :: 0 <= i < |jobs| && jobs[i].id == id && Startable(Joined(jobs, id), limit, i)
  }

  /** With `id` neither holding nor waiting. */
  function Released(jobs: seq<Job>, id: string): (r: seq<Job>)
    ensures |r| == |jobs|
    ensures forall i :: 0 <= i < |jobs| ==>
      r[i] == if jobs[i].id == id then jobs[i].(slot := Idle, waitingForSlot := None) else jobs[i]
  {
    seq(|jobs|, i requires 0 <= i < |jobs| =>
      if jobs[i].id == id then jobs[i].(slot := Idle, waitingForSlot := None) else jobs[i])
  }

  function TopPriority(jobs: seq<Job>): (top: nat)
    ensures forall i :: 0 <= i < |jobs| ==> jobs[i].priority <= top
    ensures jobs != [] ==> exists i :: 0 <= i < |jobs| && jobs[i].priority == top
  {
    if jobs == [] then 0
    else
      var rest := TopPriority(jobs[1..]);
      if rest <= jobs[0].priority then jobs[0].priority else rest
  }

  predicate CanPrioritise(jobs: seq<Job>, id: string) {
    exists i :: 0 <= i < |jobs| && jobs[i].id == id && jobs[i].slot == Waiting
  }

  function Prioritised(jobs: seq<Job>, id: string): (r: seq<Job>)
    ensures |r| == |jobs|
    ensures forall i :: 0 <= i < |jobs| ==>
      r[i] == if jobs[i].id == id then jobs[i].(priority := TopPriority(jobs) + 1) else jobs[i]
  {
    seq(|jobs|, i requires 0 <= i < |jobs| =>
      if jobs[i].id == id then jobs[i].(priority := TopPriority(jobs) + 1) else jobs[i])
  }

  function Without(jobs: seq<Job>, id: string): (r: seq<Job>)
    ensures !Known(jobs, id) ==> r == jobs
    ensures forall job :: job in r ==> job in jobs
  {
    if jobs == [] then []
    else if jobs[0].id == id then jobs[1..]
    else [jobs[0]] + Without(jobs[1..], id)
  }

  // ---- what an attempt means ----

  lemma SameOrder(a: seq<Job>, b: seq<Job>, i: nat)
    requires |a| == |b| && i < |a|
    requires forall k :: 0 <= k < |a| ==> a[k].id == b[k].id && a[k].priority == b[k].priority && a[k].createdAt == b[k].createdAt
    ensures Ahead(b, i) == set k | k in Line(b) && Before(a[k], a[i])
  {
  }

  lemma SubsetSize<T>(a: set<T>, b: set<T>)
    requires a <= b
    ensures |a| <= |b|
  {
    if a != {} {
      var x :| x in a;
      SubsetSize(a - {x}, b - {x});
    }
  }

  /** A grant takes exactly one job, the one that asked, out of the line. */
  lemma TakenIndex(jobs: seq<Job>, id: string, limit: nat) returns (g: nat)
    requires UniqueIds(jobs) && Taken(jobs, id, limit)
    ensures g < |jobs| && jobs[g].id == id && jobs[g].slot != Holding
    ensures Startable(Joined(jobs, id), limit, g)
    ensures TakeSlot(jobs, id, limit)[g].slot == Holding
    ensures forall i :: 0 <= i < |jobs| && i != g ==> TakeSlot(jobs, id, limit)[i].slot == jobs[i].slot
    ensures Holders(TakeSlot(jobs, id, limit)) == Holders(jobs) + {g}
    ensures Line(TakeSlot(jobs, id, limit)) == Line(jobs) - {g}
  {
    g :| 0 <= g < |jobs| && jobs[g].id == id && Startable(Joined(jobs, id), limit, g);
  }

  /** Without a grant the line only gains the job that asked, and that job can't start. */
  lemma NotTaken(jobs: seq<Job>, id: string, limit: nat)
    requires UniqueIds(jobs) && !Taken(jobs, id, limit)
    ensures forall i :: 0 <= i < |jobs| ==> TakeSlot(jobs, id, limit)[i].slot == Joined(jobs, id)[i].slot
    ensures forall i :: 0 <= i < |jobs| && jobs[i].id == id ==> !Startable(TakeSlot(jobs, id, limit), limit, i)
  {
    var line, after := Joined(jobs, id), TakeSlot(jobs, id, limit);
    assert Holders(after) == Holders(line) && Line(after) == Line(line);
    forall i | 0 <= i < |jobs| && jobs[i].id == id
      ensures !Startable(after, limit, i)
    {
      SameOrder(line, after, i);
      assert Ahead(after, i) == Ahead(line, i);
      assert !Startable(line, limit, i);
    }
  }

  ghost predicate SameKeys(a: seq<Job>, b: seq<Job>) {
    |a| == |b| && forall k :: 0 <= k < |a| ==>
      a[k].id == b[k].id && a[k].priority == b[k].priority && a[k].createdAt == b[k].createdAt
  }

  lemma SameKeysSameOrder(a: seq<Job>, b: seq<Job>, k: nat, i: nat)
    requires SameKeys(a, b) && k < |a| && i < |a|
    ensures Before(a[k], a[i]) == Before(b[k], b[i])
  {
  }

  /** A job that can't start still can't when jobs join the line, or leave it for a slot. */
  lemma StaysOut(a: seq<Job>, b: seq<Job>, limit: nat, i: nat, granted: set<nat>)
    requires SameKeys(a, b) && i < |a|
    requires |Holders(b)| == |Holders(a)| + |granted| && Line(a) <= Line(b) + granted
    requires b[i].slot == Waiting ==> a[i].slot == Waiting
    requires !Startable(a, limit, i)
    ensures !Startable(b, limit, i)
  {
    if b[i].slot == Waiting {
      forall k | k in Ahead(a, i) ensures k in Ahead(b, i) + granted {
        assert k in Line(a);
        SameKeysSameOrder(a, b, k, i);
        assert k in granted || k in Line(b);
      }
      SubsetSize(Ahead(a, i), Ahead(b, i) + granted);
      assert Ahead(b, i) + granted == Ahead(b, i) + (granted - Ahead(b, i));
      SubsetSize(granted - Ahead(b, i), granted);
    }
  }

  /** An attempt by one job never lets another one start that couldn't before,
      whatever the limit is by now and whatever limit the attempt went by. */
  lemma AttemptKeepsOthersOut(jobs: seq<Job>, id: string, limit: nat, now: nat, i: nat)
    requires UniqueIds(jobs) && i < |jobs| && jobs[i].id != id
    requires !Startable(jobs, now, i)
    ensures !Startable(TakeSlot(jobs, id, limit), now, i)
  {
    if Taken(jobs, id, limit) {
      var g := TakenIndex(jobs, id, limit);
      assert g !in Holders(jobs);
      StaysOut(jobs, TakeSlot(jobs, id, limit), now, i, {g});
    } else {
      NotTaken(jobs, id, limit);
      assert Holders(TakeSlot(jobs, id, limit)) == Holders(jobs);
      StaysOut(jobs, TakeSlot(jobs, id, limit), now, i, {});
    }
  }

  /** A grant goes to a job with fewer than `free` waiting ahead of it, and never pushes
      the holders past the limit the attempt read. */
  lemma GrantRespectsLimit(jobs: seq<Job>, id: string, limit: nat)
    requires UniqueIds(jobs) && 0 < limit && Taken(jobs, id, limit)
    ensures |Holders(TakeSlot(jobs, id, limit))| == |Holders(jobs)| + 1 <= limit
  {
    var g := TakenIndex(jobs, id, limit);
    assert Holders(Joined(jobs, id)) == Holders(jobs);
  }

  // ---- the line, sorted ----

  predicate BeforeAt(jobs: seq<Job>, a: nat, b: nat) {
    a < |jobs| && b < |jobs| && Before(jobs[a], jobs[b])
  }

  function Insert(jobs: seq<Job>, line: seq<nat>, i: nat): (r: seq<nat>)
    ensures forall x :: x in r <==> x in line || x == i
  {
    if line == [] || BeforeAt(jobs, i, line[0]) then [i] + line
    else [line[0]] + Insert(jobs, line[1..], i)
  }

  /** The waiting jobs among the first `n`, in line order. */
  function LineUp(jobs: seq<Job>, n: nat): (r: seq<nat>)
    requires n <= |jobs|
    ensures forall x: nat :: x in r <==> x < n && jobs[x].slot == Waiting
  {
    if n == 0 then []
    else if jobs[n - 1].slot == Waiting then Insert(jobs, LineUp(jobs, n - 1), n - 1)
    else LineUp(jobs, n - 1)
  }

  ghost predicate InOrder(jobs: seq<Job>, line: seq<nat>) {
    forall a, b :: 0 <= a < b < |line| ==> BeforeAt(jobs, line[a], line[b])
  }

  ghost function Members(line: seq<nat>): set<nat> {
    set k | k in line
  }

  lemma {:induction false} InsertKeepsOrder(jobs: seq<Job>, line: seq<nat>, i: nat)
    requires UniqueIds(jobs) && i < |jobs| && i !in line && forall x :: x in line ==> x < |jobs|
    requires InOrder(jobs, line)
    ensures InOrder(jobs, Insert(jobs, line, i))
  {
    if line == [] {
    } else if BeforeAt(jobs, i, line[0]) {
      forall k | 0 <= k < |line| ensures BeforeAt(jobs, i, line[k]) {
        if k > 0 { BeforeIsTransitive(jobs[i], jobs[line[0]], jobs[line[k]]); }
      }
    } else {
      InsertKeepsOrder(jobs, line[1..], i);
      assert line[0] in line;
      BeforeIsTotal(jobs[i], jobs[line[0]]);
      var rest := Insert(jobs, line[1..], i);
      forall k | 0 <= k < |rest| ensures BeforeAt(jobs, line[0], rest[k]) {
        assert rest[k] in rest;
      }
    }
  }

  /** The line holds the waiting jobs in order. */
  lemma {:induction false} LineUpIsInOrder(jobs: seq<Job>, n: nat)
    requires UniqueIds(jobs) && n <= |jobs|
    ensures InOrder(jobs, LineUp(jobs, n))
  {
    if n > 0 {
      var line := LineUp(jobs, n - 1);
      LineUpIsInOrder(jobs, n - 1);
      if jobs[n - 1].slot == Waiting {
        assert n - 1 !in line && forall x :: x in line ==> x < |jobs|;
        InsertKeepsOrder(jobs, line, n - 1);
      }
    }
  }

  ghost predicate Distinct(line: seq<nat>) {
    forall a, b :: 0 <= a < b < |line| ==> line[a] != line[b]
  }

  /** A prefix of the line is the set of jobs ahead of the next one. */
  lemma {:induction false} PrefixSize(line: seq<nat>, p: nat)
    requires p <= |line| && Distinct(line)
    ensures |Members(line[..p])| == p
  {
    if p > 0 {
      PrefixSize(line, p - 1);
      MembersMore(line, p);
    } else {
      assert Members(line[..p]) == {};
    }
  }

  lemma MembersMore(line: seq<nat>, p: nat)
    requires 0 < p <= |line| && Distinct(line)
    ensures Members(line[..p]) == Members(line[..p - 1]) + {line[p - 1]} && line[p - 1] !in Members(line[..p - 1])
  {
    assert line[..p] == line[..p - 1] + [line[p - 1]];
  }

  lemma PlaceInLine(jobs: seq<Job>, p: nat)
    requires UniqueIds(jobs) && p < |LineUp(jobs, |jobs|)|
    ensures var line := LineUp(jobs, |jobs|);
      line[p] in line && Ahead(jobs, line[p]) == Members(line[..p]) && |Ahead(jobs, line[p])| == p
  {
    var line := LineUp(jobs, |jobs|);
    LineUpIsInOrder(jobs, |jobs|);
    LineIsDistinct(jobs);
    PrefixSize(line, p);
    assert line[p] in line;
    forall k | k in Ahead(jobs, line[p]) ensures k in line[..p] {
      assert k in line;
      var q :| 0 <= q < |line| && line[q] == k;
      BeforeIsTotal(jobs[line[p]], jobs[k]);
      assert q < p;
      assert line[..p][q] == k;
    }
    forall k | k in line[..p] ensures k in Ahead(jobs, line[p]) {
      var q :| 0 <= q < p && line[..p][q] == k;
      assert k in line && BeforeAt(jobs, line[q], line[p]);
    }
  }

  lemma LineSize(jobs: seq<Job>)
    requires UniqueIds(jobs)
    ensures |Line(jobs)| == |LineUp(jobs, |jobs|)|
  {
    var line := LineUp(jobs, |jobs|);
    LineIsDistinct(jobs);
    PrefixSize(line, |line|);
    assert line[..|line|] == line;
    assert Members(line) == Line(jobs);
  }

  /** Waiting jobs the free slots don't reach. */
  ghost function Beyond(jobs: seq<Job>, limit: nat): set<nat> {
    set k: nat | k < |jobs| && jobs[k].slot == Waiting && !WithinFree(jobs, limit, k)
  }

  lemma SlicesNest(line: seq<nat>, f: nat, p: nat)
    requires f <= p <= |line| && Distinct(line)
    ensures |Members(line[..p]) - Members(line[..f])| == p - f
    ensures forall q :: 0 <= q < |line| ==> (line[q] in Members(line[..p]) - Members(line[..f]) <==> f <= q < p)
  {
    PrefixSize(line, p);
    PrefixSize(line, f);
    forall q | 0 <= q < |line|
      ensures line[q] in Members(line[..p]) <==> q < p
      ensures line[q] in Members(line[..f]) <==> q < f
    {
      if q < p { assert line[..p][q] == line[q]; }
      if q < f { assert line[..f][q] == line[q]; }
    }
    assert Members(line[..f]) <= Members(line[..p]) by {
      forall k | k in Members(line[..f]) ensures k in Members(line[..p]) {
        var q :| 0 <= q < f && line[..f][q] == k;
        assert line[..p][q] == k;
      }
    }
  }

  /** The jobs beyond the free slots are numbered 1, 2, 3… in line order: each shows one
      more than the number of such jobs ahead of it. Jobs the free slots reach show 1. */
  lemma NumberedInOrder(jobs: seq<Job>, limit: nat, i: nat)
    requires UniqueIds(jobs) && i < |jobs| && jobs[i].slot == Waiting && |jobs| < U32_MAX
    ensures Shown(jobs, limit, i) == |Beyond(jobs, limit) * Ahead(jobs, i)| + 1
  {
    var line := LineUp(jobs, |jobs|);
    assert i in line;
    var p :| 0 <= p < |line| && line[p] == i;
    PlaceInLine(jobs, p);
    var free := FreeSlots(jobs, limit);
    var f := if free.None? || p < free.value then p else free.value;
    BeyondIsASlice(jobs, limit, i, p, f);
    LineIsDistinct(jobs);
    SlicesNest(line, f, p);
    LineSize(jobs);
    LineNoLonger(jobs);
  }

  lemma BeyondIsASlice(jobs: seq<Job>, limit: nat, i: nat, p: nat, f: nat)
    requires UniqueIds(jobs) && f <= p < |LineUp(jobs, |jobs|)| && i == LineUp(jobs, |jobs|)[p] && i < |jobs|
    requires f == if FreeSlots(jobs, limit).None? || p < FreeSlots(jobs, limit).value then p else FreeSlots(jobs, limit).value
    ensures var line := LineUp(jobs, |jobs|);
      Beyond(jobs, limit) * Ahead(jobs, i) == Members(line[..p]) - Members(line[..f])
  {
    var line := LineUp(jobs, |jobs|);
    PlaceInLine(jobs, p);
    LineIsDistinct(jobs);
    SlicesNest(line, f, p);
    forall k | k in Members(line[..p])
      ensures k in Beyond(jobs, limit) <==> k !in Members(line[..f])
    {
      var q :| 0 <= q < p && line[..p][q] == k;
      BeyondAt(jobs, limit, p, f, q);
    }
  }

  lemma BeyondAt(jobs: seq<Job>, limit: nat, p: nat, f: nat, q: nat)
    requires UniqueIds(jobs) && q < p < |LineUp(jobs, |jobs|)| && f <= p
    requires f == if FreeSlots(jobs, limit).None? || p < FreeSlots(jobs, limit).value then p else FreeSlots(jobs, limit).value
    ensures LineUp(jobs, |jobs|)[q] in Beyond(jobs, limit) <==> LineUp(jobs, |jobs|)[q] !in Members(LineUp(jobs, |jobs|)[..f])
  {
    var line := LineUp(jobs, |jobs|);
    LineIsDistinct(jobs);
    SlicesNest(line, f, p);
    PlaceInLine(jobs, q);
  }

  lemma LineIsDistinct(jobs: seq<Job>)
    requires UniqueIds(jobs)
    ensures Distinct(LineUp(jobs, |jobs|))
  {
    var line := LineUp(jobs, |jobs|);
    LineUpIsInOrder(jobs, |jobs|);
    forall a, b | 0 <= a < b < |line| ensures line[a] != line[b] {
      assert BeforeAt(jobs, line[a], line[b]);
      BeforeIsTotal(jobs[line[a]], jobs[line[b]]);
    }
  }

  lemma LineNoLonger(jobs: seq<Job>)
    ensures |Line(jobs)| <= |jobs|
  {
    IndicesBelow(Line(jobs), |jobs|);
  }

  lemma {:induction false} IndicesBelow(indices: set<nat>, n: nat)
    requires forall k :: k in indices ==> k < n
    ensures |indices| <= n
  {
    if n > 0 {
      IndicesBelow(indices - {n - 1}, n - 1);
    } else {
      assert indices == {};
    }
  }

  lemma HoldersOfRest(jobs: seq<Job>)
    requires jobs != []
    ensures |Holders(jobs)| == |Holders(jobs[1..])| + if jobs[0].slot == Holding then 1 else 0
  {
    var rest := Holders(jobs[1..]);
    var shifted := Shifted(rest);
    ShiftedSize(rest);
    assert Holders(jobs) == shifted + if jobs[0].slot == Holding then {0} else {} by {
      forall k | k in Holders(jobs) && k > 0 ensures k in shifted {
        assert k - 1 in rest;
      }
    }
  }

  function Shifted(numbers: set<nat>): set<nat> {
    set k: nat | k in numbers :: k + 1
  }

  lemma {:induction false} ShiftedSize(numbers: set<nat>)
    ensures |Shifted(numbers)| == |numbers|
  {
    if numbers != {} {
      var k :| k in numbers;
      ShiftedSize(numbers - {k});
      forall j | j in Shifted(numbers) ensures j in Shifted(numbers - {k}) + {k + 1} {
        var i :| i in numbers && i + 1 == j;
        assert i == k || i in numbers - {k};
      }
      forall j | j in Shifted(numbers - {k}) ensures j in Shifted(numbers) {
        var i :| i in numbers - {k} && i + 1 == j;
        assert i in numbers;
      }
      assert k + 1 in Shifted(numbers);
      assert Shifted(numbers) == Shifted(numbers - {k}) + {k + 1};
    }
  }

  /** How many jobs hold a slot, counted in one pass. */
  function HoldingCount(jobs: seq<Job>): nat {
    if jobs == [] then 0 else (if jobs[0].slot == Holding then 1 else 0) + HoldingCount(jobs[1..])
  }

  lemma {:induction false} HoldingCountIsHolders(jobs: seq<Job>)
    ensures HoldingCount(jobs) == |Holders(jobs)|
  {
    if jobs == [] {
      assert Holders(jobs) == {};
    } else {
      HoldersOfRest(jobs);
      HoldingCountIsHolders(jobs[1..]);
    }
  }
}

/**
 The locks a running job holds: the rig lock, shared or exclusive, and then -- shared -- each of its
 boards' locks, in id order. Any number of jobs take and give back theirs, one at a time.
*/
module Locks {
  import opened Names

  /** Taking its locks or, once its run is over, giving them back, last taken first. */
  datatype Phase = Taking | Giving

  /** `held` is how many of its locks the job holds: the rig lock first, then its boards in order. */
  datatype Job = Job(shared: bool, boards: seq<string>, held: nat, phase: Phase)

  function Total(j: Job): nat {
    if j.shared then 1 + |j.boards| else 1
  }

  ghost predicate ValidJob(j: Job) {
    j.held <= Total(j) && Increasing(j.boards)
  }

  predicate HoldsRig(j: Job) {
    j.held > 0
  }

  ghost predicate HoldsBoard(j: Job, b: string) {
    j.shared && exists m :: 0 <= m < |j.boards| && m + 1 < j.held && j.boards[m] == b
  }

  predicate Over(j: Job) {
    j.phase == Giving && j.held == 0
  }

  // ---- the steps ----

  datatype Event = Start(shared: bool, boards: seq<string>) | Take(i: nat) | Leave(i: nat) | Give(i: nat)

  /** Whether the next lock of job i is to be had: `flock` on a file no other job has open to its exclusion. */
  ghost predicate CanTake(jobs: seq<Job>, i: nat)
    requires i < |jobs|
  {
    var j := jobs[i];
    && j.phase == Taking && j.held < Total(j)
    && (if j.held == 0 then
          forall k :: 0 <= k < |jobs| && k != i && HoldsRig(jobs[k]) ==> j.shared && jobs[k].shared
        else
          forall k :: 0 <= k < |jobs| && k != i ==> !HoldsBoard(jobs[k], j.boards[j.held - 1]))
  }

  ghost predicate Enabled(jobs: seq<Job>, e: Event) {
    match e
    case Start(_, boards) => Distinct(boards)
    case Take(i) => i < |jobs| && CanTake(jobs, i)
    case Leave(i) => i < |jobs| && jobs[i].phase == Taking && jobs[i].held == Total(jobs[i])
    case Give(i) => i < |jobs| && jobs[i].phase == Giving && jobs[i].held > 0
  }

  ghost function After(jobs: seq<Job>, e: Event): seq<Job>
    requires Enabled(jobs, e)
  {
    match e
    case Start(shared, boards) => jobs + [Job(shared, Sorted(boards), 0, Taking)]
    case Take(i) => jobs[i := jobs[i].(held := jobs[i].held + 1)]
    case Leave(i) => jobs[i := jobs[i].(phase := Giving)]
    case Give(i) => jobs[i := jobs[i].(held := jobs[i].held - 1)]
  }

  /** What a history of steps leads to, from a farm that runs nothing. */
  ghost predicate Leads(from: seq<Job>, events: seq<Event>, to: seq<Job>)
    decreases events
  {
    if events == [] then from == to
    else Enabled(from, events[0]) && Leads(After(from, events[0]), events[1..], to)
  }

  // ---- who excludes whom ----

  /** A job with the rig lock exclusively is alone with it; jobs that share it share no board. */
  ghost predicate Compatible(a: Job, b: Job) {
    && (HoldsRig(a) && HoldsRig(b) ==> a.shared && b.shared)
    && forall x :: HoldsBoard(a, x) ==> !HoldsBoard(b, x)
  }

  ghost predicate Exclusion(jobs: seq<Job>) {
    && (forall i :: 0 <= i < |jobs| ==> ValidJob(jobs[i]))
    && forall i, k {:trigger Compatible(jobs[i], jobs[k])} :: 0 <= i < |jobs| && 0 <= k < |jobs| && i != k ==>
      Compatible(jobs[i], jobs[k])
  }

  /** Giving up a lock excludes nobody. */
  lemma FewerIsCompatible(a: Job, fewer: Job, b: Job)
    requires Compatible(a, b) && Compatible(b, a)
    requires fewer.shared == a.shared && fewer.boards == a.boards && fewer.held <= a.held
    ensures Compatible(fewer, b) && Compatible(b, fewer)
  {
    assert forall x :: HoldsBoard(fewer, x) ==> HoldsBoard(a, x);
  }

  lemma TakeIsCompatible(jobs: seq<Job>, i: nat, k: nat)
    requires Exclusion(jobs) && i < |jobs| && k < |jobs| && i != k && CanTake(jobs, i)
    ensures Compatible(After(jobs, Take(i))[i], jobs[k]) && Compatible(jobs[k], After(jobs, Take(i))[i])
  {
    var a, b, next := jobs[i], jobs[k], After(jobs, Take(i))[i];
    assert Compatible(a, b) && Compatible(b, a);
    forall x | HoldsBoard(next, x) ensures !HoldsBoard(b, x) {
      var m :| 0 <= m < |next.boards| && m + 1 < next.held && next.boards[m] == x;
      assert m + 1 < a.held ==> HoldsBoard(a, x);
    }
  }

  lemma StepKeepsExclusion(jobs: seq<Job>, e: Event)
    requires Exclusion(jobs) && Enabled(jobs, e)
    ensures Exclusion(After(jobs, e))
  {
    var after := After(jobs, e);
    if e.Start? { SortedIncreasing(e.boards); }
    forall i, k | 0 <= i < |after| && 0 <= k < |after| && i != k ensures Compatible(after[i], after[k]) {
      if i < |jobs| && k < |jobs| {
        assert Compatible(jobs[i], jobs[k]) && Compatible(jobs[k], jobs[i]);
        match e
        case Take(m) =>
          if m == i { TakeIsCompatible(jobs, i, k); }
          if m == k { TakeIsCompatible(jobs, k, i); }
        case Give(m) =>
          if m == i { FewerIsCompatible(jobs[i], after[i], jobs[k]); }
          if m == k { FewerIsCompatible(jobs[k], after[k], jobs[i]); }
        case _ =>
      }
    }
  }

  /**
   In every reachable state the exclusive rig lock excludes every other holder of it, and no board
   lock has two holders.
  */
  lemma {:induction false} ExclusionHolds(from: seq<Job>, events: seq<Event>, to: seq<Job>)
    requires Exclusion(from) && Leads(from, events, to)
    ensures Exclusion(to)
    decreases events
  {
    if events != [] {
      StepKeepsExclusion(from, events[0]);
      ExclusionHolds(After(from, events[0]), events[1..], to);
    }
  }

  // ---- nobody waits on each other ----

  /** Job i has the rig lock and waits for a board. */
  predicate Waits(jobs: seq<Job>, i: nat)
    requires i < |jobs|
  {
    jobs[i].phase == Taking && 0 < jobs[i].held < Total(jobs[i])
  }

  function Wanted(jobs: seq<Job>, i: nat): string
    requires i < |jobs| && Waits(jobs, i)
  {
    jobs[i].boards[jobs[i].held - 1]
  }

  /** Those that wait for a board after the one job i waits for. */
  ghost function Later(jobs: seq<Job>, i: nat): set<nat>
    requires i < |jobs| && Waits(jobs, i)
  {
    set k: nat | k < |jobs| && Waits(jobs, k) && Before(Wanted(jobs, i), Wanted(jobs, k))
  }

  ghost predicate CanStep(jobs: seq<Job>, i: nat) {
    Enabled(jobs, Take(i)) || Enabled(jobs, Leave(i)) || Enabled(jobs, Give(i))
  }

  /** Whoever holds the board that job i waits for waits, if at all, for a later one. */
  lemma HolderWantsLater(jobs: seq<Job>, i: nat, k: nat)
    requires Exclusion(jobs) && i < |jobs| && k < |jobs| && Waits(jobs, i) && Waits(jobs, k)
    requires HoldsBoard(jobs[k], Wanted(jobs, i))
    ensures Before(Wanted(jobs, i), Wanted(jobs, k))
    ensures Later(jobs, k) < Later(jobs, i)
  {
    var m :| 0 <= m < |jobs[k].boards| && m + 1 < jobs[k].held && jobs[k].boards[m] == Wanted(jobs, i);
    assert Before(jobs[k].boards[m], jobs[k].boards[jobs[k].held - 1]);
    forall h | h in Later(jobs, k) ensures h in Later(jobs, i) {
      BeforeTransitive(Wanted(jobs, i), Wanted(jobs, k), Wanted(jobs, h));
    }
    BeforeIrreflexive(Wanted(jobs, k));
    assert k in Later(jobs, i) && k !in Later(jobs, k);
  }

  lemma HolderHolds(j: Job, b: string)
    requires HoldsBoard(j, b)
    ensures j.shared && j.held > 1
  {}

  /** Following who waits for whom ends with a job that can go on. */
  lemma {:induction false} SomeoneMoves(jobs: seq<Job>, i: nat) returns (k: nat)
    requires Exclusion(jobs) && i < |jobs| && Waits(jobs, i)
    ensures CanStep(jobs, k)
    decreases Later(jobs, i)
  {
    if CanTake(jobs, i) {
      k := i;
    } else {
      k :| 0 <= k < |jobs| && k != i && HoldsBoard(jobs[k], Wanted(jobs, i));
      HolderHolds(jobs[k], Wanted(jobs, i));
      assert ValidJob(jobs[k]);
      if Waits(jobs, k) {
        HolderWantsLater(jobs, i, k);
        k := SomeoneMoves(jobs, k);
      } else if jobs[k].phase == Taking {
        assert Enabled(jobs, Leave(k));
      } else {
        assert Enabled(jobs, Give(k));
      }
    }
  }

  /** No deadlock: while any job is not over, some job can take a lock, end its run, or give one back. */
  lemma NoDeadlock(jobs: seq<Job>, i: nat)
    requires Exclusion(jobs) && i < |jobs| && !Over(jobs[i])
    ensures exists k :: 0 <= k < |jobs| && CanStep(jobs, k)
  {
    assert ValidJob(jobs[i]);
    if k: nat :| k < |jobs| && HoldsRig(jobs[k]) {
      assert ValidJob(jobs[k]);
      if Waits(jobs, k) {
        var m := SomeoneMoves(jobs, k);
      } else if jobs[k].phase == Taking {
        assert Enabled(jobs, Leave(k)) && CanStep(jobs, k);
      } else {
        assert Enabled(jobs, Give(k)) && CanStep(jobs, k);
      }
    } else {
      assert Enabled(jobs, Take(i)) && CanStep(jobs, i);
    }
  }

  // ---- and everybody gets through ----

  /** The steps a job has left. */
  function Left(j: Job): nat
    requires j.held <= Total(j)
  {
    if j.phase == Giving then j.held else (Total(j) - j.held) + 1 + Total(j)
  }

  ghost function Work(jobs: seq<Job>): nat
    requires forall i :: 0 <= i < |jobs| ==> ValidJob(jobs[i])
  {
    if jobs == [] then 0 else
      assert ValidJob(jobs[0]);
      Left(jobs[0]) + Work(jobs[1..])
  }

  lemma {:induction false} WorkOfChange(jobs: seq<Job>, i: nat, j: Job)
    requires (forall k :: 0 <= k < |jobs| ==> ValidJob(jobs[k])) && i < |jobs| && ValidJob(j)
    ensures Work(jobs[i := j]) == Work(jobs) - Left(jobs[i]) + Left(j)
  {
    if i == 0 {
      assert jobs[i := j][1..] == jobs[1..];
    } else {
      WorkOfChange(jobs[1..], i - 1, j);
      assert jobs[i := j][1..] == jobs[1..][i - 1 := j];
    }
  }

  /** Every step but a new arrival is progress ... */
  lemma StepIsProgress(jobs: seq<Job>, e: Event)
    requires Exclusion(jobs) && Enabled(jobs, e) && !e.Start?
    ensures Exclusion(After(jobs, e)) && Work(After(jobs, e)) == Work(jobs) - 1
  {
    StepKeepsExclusion(jobs, e);
    WorkOfChange(jobs, e.i, After(jobs, e)[e.i]);
  }

  /** ... so without arrivals no history is longer than the work there was ... */
  lemma {:induction false} HistoriesEnd(from: seq<Job>, events: seq<Event>, to: seq<Job>)
    requires Exclusion(from) && Leads(from, events, to) && forall e :: e in events ==> !e.Start?
    ensures Exclusion(to) && |events| + Work(to) == Work(from)
    decreases events
  {
    if events != [] {
      StepIsProgress(from, events[0]);
      HistoriesEnd(After(from, events[0]), events[1..], to);
    }
  }

  /** ... and one that cannot go on has seen every job through. */
  lemma EveryJobGetsThrough(from: seq<Job>, events: seq<Event>, to: seq<Job>)
    requires Exclusion(from) && Leads(from, events, to)
    requires forall k :: 0 <= k < |to| ==> !CanStep(to, k)
    ensures forall i :: 0 <= i < |to| ==> Over(to[i])
  {
    ExclusionHolds(from, events, to);
    forall i | 0 <= i < |to| ensures Over(to[i]) {
      if !Over(to[i]) { NoDeadlock(to, i); }
    }
  }

  // ---- what a job holds while it runs ----

  /** Job i has all its locks and its run is not over. */
  predicate Running(jobs: seq<Job>, i: nat) {
    i < |jobs| && jobs[i].phase == Taking && jobs[i].held == Total(jobs[i])
  }

  lemma RunningHoldsAll(jobs: seq<Job>, i: nat)
    requires Running(jobs, i)
    ensures HoldsRig(jobs[i]) && (jobs[i].shared ==> forall b :: b in jobs[i].boards ==> HoldsBoard(jobs[i], b))
  {
    if jobs[i].shared {
      forall b | b in jobs[i].boards ensures HoldsBoard(jobs[i], b) {
        var m :| 0 <= m < |jobs[i].boards| && jobs[i].boards[m] == b;
      }
    }
  }

  lemma TogetherIsApart(events: seq<Event>, to: seq<Job>, i: nat, k: nat)
    requires Leads([], events, to) && Running(to, i) && Running(to, k) && i != k
    ensures to[i].shared && to[k].shared && forall b :: b in to[i].boards ==> b !in to[k].boards
  {
    ExclusionHolds([], events, to);
    RunningHoldsAll(to, i);
    RunningHoldsAll(to, k);
    assert Compatible(to[i], to[k]);
  }

  lemma {:induction false} LeadsOn(from: seq<Job>, first: seq<Event>, mid: seq<Job>, second: seq<Event>, to: seq<Job>)
    requires Leads(from, first, mid) && Leads(mid, second, to)
    ensures Leads(from, first + second, to)
    decreases first
  {
    if first == [] {
      assert first + second == second;
    } else {
      LeadsOn(After(from, first[0]), first[1..], mid, second, to);
      assert (first + second)[0] == first[0] && (first + second)[1..] == first[1..] + second;
    }
  }

  /** Nothing that another job holds, or may come to hold, is in the way of job i. */
  ghost predicate InNobodysWay(jobs: seq<Job>, i: nat) {
    i < |jobs| && jobs[i].shared &&
    forall k :: 0 <= k < |jobs| && k != i ==> jobs[k].shared && forall b :: b in jobs[i].boards ==> b !in jobs[k].boards
  }

  lemma {:induction false} TakesAll(jobs: seq<Job>, i: nat) returns (events: seq<Event>, to: seq<Job>)
    requires InNobodysWay(jobs, i) && jobs[i].phase == Taking && jobs[i].held <= Total(jobs[i])
    ensures Leads(jobs, events, to) && to == jobs[i := jobs[i].(held := Total(jobs[i]))]
    decreases Total(jobs[i]) - jobs[i].held
  {
    if jobs[i].held == Total(jobs[i]) {
      events, to := [], jobs;
    } else {
      assert jobs[i].held > 0 ==> jobs[i].boards[jobs[i].held - 1] in jobs[i].boards;
      events, to := TakesAll(After(jobs, Take(i)), i);
      assert ([Take(i)] + events)[1..] == events;
      events := [Take(i)] + events;
    }
  }

  /** Some history brings jobs started with these to run at the same time. */
  ghost predicate CanRunTogether(shared: bool, boards: seq<string>, shared': bool, boards': seq<string>) {
    exists events, to, i: nat, k: nat ::
      Leads([], events, to) && i != k && Runs(to, i, shared, boards) && Runs(to, k, shared', boards')
  }

  ghost predicate Runs(jobs: seq<Job>, i: nat, shared: bool, boards: seq<string>) {
    Running(jobs, i) && jobs[i].shared == shared && jobs[i].boards == Sorted(boards)
  }

  lemma BothStart(boards: seq<string>, boards': seq<string>) returns (events: seq<Event>, to: seq<Job>)
    requires Distinct(boards) && Distinct(boards')
    ensures Leads([], events, to)
    ensures to == [Job(true, Sorted(boards), 0, Taking), Job(true, Sorted(boards'), 0, Taking)]
  {
    var one, two := Start(true, boards), Start(true, boards');
    to := After(After([], one), two);
    events := [one, two];
    assert events[1..] == [two] && [two][1..] == [];
    assert Leads(to, [], to);
    assert Leads(After([], one), [two], to);
  }

  lemma BothRun(boards: seq<string>, boards': seq<string>)
    requires Distinct(boards) && Distinct(boards') && forall b :: b in boards ==> b !in boards'
    ensures CanRunTogether(true, boards, true, boards')
  {
    forall b ensures b in Sorted(boards) <==> b in boards { SortedMembers(boards, b); }
    forall b ensures b in Sorted(boards') <==> b in boards' { SortedMembers(boards', b); }
    var first, started := BothStart(boards, boards');
    var second, half := TakesAll(started, 0);
    var third, to := TakesAll(half, 1);
    LeadsOn([], first, started, second, half);
    LeadsOn([], first + second, half, third, to);
    assert Runs(to, 0, true, boards) && Runs(to, 1, true, boards');
  }

  /** Two jobs can run at the same time exactly if both share the rig, with no board in common. */
  lemma RunTogetherIff(shared: bool, boards: seq<string>, shared': bool, boards': seq<string>)
    requires Distinct(boards) && Distinct(boards')
    ensures CanRunTogether(shared, boards, shared', boards') <==>
            shared && shared' && forall b :: b in boards ==> b !in boards'
  {
    if CanRunTogether(shared, boards, shared', boards') {
      var events, to, i: nat, k: nat :|
        Leads([], events, to) && i != k && Runs(to, i, shared, boards) && Runs(to, k, shared', boards');
      TogetherIsApart(events, to, i, k);
      forall b | b in boards ensures b !in boards' {
        SortedMembers(boards, b);
        SortedMembers(boards', b);
      }
    }
    if shared && shared' && forall b :: b in boards ==> b !in boards' { BothRun(boards, boards'); }
  }

  /** How many locks job i has taken, and how many it has given back. */
  function Taken(events: seq<Event>, i: nat): nat {
    if events == [] then 0 else (if events[0] == Take(i) then 1 else 0) + Taken(events[1..], i)
  }

  function Given(events: seq<Event>, i: nat): nat {
    if events == [] then 0 else (if events[0] == Give(i) then 1 else 0) + Given(events[1..], i)
  }

  /** Where a job is, from what it has taken and given. */
  ghost predicate IsAt(jobs: seq<Job>, i: nat, taken: nat, given: nat) {
    if i >= |jobs| then taken == 0 && given == 0
    else
      && jobs[i].held + given == taken
      && if jobs[i].phase == Taking then given == 0 else taken == Total(jobs[i])
  }

  lemma StepMoves(jobs: seq<Job>, e: Event, i: nat, taken: nat, given: nat)
    requires Enabled(jobs, e) && IsAt(jobs, i, taken, given)
    ensures IsAt(After(jobs, e), i, taken + if e == Take(i) then 1 else 0, given + if e == Give(i) then 1 else 0)
  {
  }

  lemma {:induction false} AlwaysIsAt(from: seq<Job>, events: seq<Event>, to: seq<Job>, i: nat, taken: nat, given: nat)
    requires IsAt(from, i, taken, given) && Leads(from, events, to)
    ensures IsAt(to, i, taken + Taken(events, i), given + Given(events, i))
    decreases events
  {
    if events != [] {
      var e := events[0];
      StepMoves(from, e, i, taken, given);
      AlwaysIsAt(After(from, e), events[1..], to, i,
                 taken + if e == Take(i) then 1 else 0, given + if e == Give(i) then 1 else 0);
    }
  }

  lemma {:induction false} StaysAsStarted(from: seq<Job>, events: seq<Event>, to: seq<Job>, i: nat)
    requires Leads(from, events, to) && i < |from|
    ensures i < |to| && to[i].shared == from[i].shared && to[i].boards == from[i].boards
    decreases events
  {
    if events != [] { StaysAsStarted(After(from, events[0]), events[1..], to, i); }
  }

  /**
   A job that shares the rig takes the rig lock and one lock for each board it was started with; one that does
   not takes the rig lock and nothing else. It gives back as many as it took, and takes none again.
  */
  lemma TakesAndGives(
      before: seq<Event>, jobs: seq<Job>, shared: bool, boards: seq<string>, later: seq<Event>, to: seq<Job>)
    requires Leads([], before, jobs) && Distinct(boards) && Leads(After(jobs, Start(shared, boards)), later, to)
    ensures |jobs| < |to| && to[|jobs|].shared == shared && Increasing(to[|jobs|].boards)
    ensures forall b :: b in to[|jobs|].boards <==> b in boards
    ensures Taken(later, |jobs|) <= 1 + if shared then |boards| else 0
    ensures Running(to, |jobs|) || Given(later, |jobs|) > 0 ==>
              Taken(later, |jobs|) == 1 + if shared then |boards| else 0
    ensures Over(to[|jobs|]) ==> Given(later, |jobs|) == Taken(later, |jobs|) == 1 + if shared then |boards| else 0
  {
    var i := |jobs|;
    SortedIncreasing(boards);
    SortedLength(boards);
    forall b ensures b in Sorted(boards) <==> b in boards { SortedMembers(boards, b); }
    ExclusionHolds([], before, jobs);
    StepKeepsExclusion(jobs, Start(shared, boards));
    ExclusionHolds(After(jobs, Start(shared, boards)), later, to);
    StaysAsStarted(After(jobs, Start(shared, boards)), later, to, i);
    AlwaysIsAt(After(jobs, Start(shared, boards)), later, to, i, 0, 0);
    assert ValidJob(to[i]);
  }
}

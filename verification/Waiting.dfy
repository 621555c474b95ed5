/**
 Bounded waiting, worker by worker. On a worker it may go to, the first of the queue that may go there
 starts as soon as the runs it found there have ended: round after round of plans, what starts behind
 it never takes what it waits for. A demand barred by a reserved board it names, or one for a rig that
 is away, waits as long as that lasts; another may still be the first that may go to a worker.
*/
module Waiting {
  import opened Names
  import opened Allocation
  import opened Pools
  import opened Rules
  import opened Safety

  /** One plan: what it was made from, the queue it was made for, and what ran. */
  datatype Round = Round(config: Config, queue: seq<Demand>, running: seq<Grant>)

  // ---- a rig on which nothing is in the way of d ----

  /** Everything on the rig runs shared and keeps clear of d. */
  ghost predicate ClearOf(r: RigState, d: Demand) {
    forall g :: g in r.active ==> g.shared && KeepsClear(g, d, r.boards)
  }

  lemma {:induction false} BusyIgnored(pool: seq<Board>, n: Need, busy: set<string>, c: nat)
    requires forall b :: b in pool && b.target == n.target ==> b.id !in busy
    ensures Count(pool, n, busy) == Count(pool, n, {})
    ensures First(pool, n, busy, c) == First(pool, n, {}, c)
    ensures Rest(pool, n, busy, c) == Rest(pool, n, {}, c)
  {
    if pool != [] {
      BusyIgnored(pool[1..], n, busy, c);
      if c != 0 { BusyIgnored(pool[1..], n, busy, c - 1); }
    }
  }

  /** Boards busy in families nobody here wants change nothing. */
  lemma {:induction false} PicksIgnoreBusy(needs: seq<Need>, pool: seq<Board>, all: seq<Board>, busy: set<string>)
    requires forall b :: b in pool ==> b in all
    requires forall n :: n in needs ==> Count(pool, n, {}) <= Count(all, n, {})
    requires forall b :: b in all && b.id in busy ==> b.target !in WantedFamilies(needs, all)
    ensures PickNeeds(needs, pool, busy, {}) == PickNeeds(needs, pool, {}, {})
  {
    if needs != [] {
      var n, wanted := needs[0], Take(needs[0], pool);
      assert n in needs && forall x :: x in needs[1..] ==> x in needs;
      assert WantedFamilies(needs[1..], all) <= WantedFamilies(needs, all);
      if wanted > 0 {
        assert n.target in WantedFamilies(needs, all);
        BusyIgnored(pool, n, busy, wanted);
        var rest := Rest(pool, n, {}, wanted);
        forall b | b in rest ensures b in all { RestSubset(pool, n, {}, wanted, b); }
        forall x | x in needs[1..] ensures Count(rest, x, {}) <= Count(all, x, {}) {
          CountAfter(pool, n, wanted, x);
        }
        PicksIgnoreBusy(needs[1..], rest, all, busy);
      } else {
        PicksIgnoreBusy(needs[1..], pool, all, busy);
      }
    }
  }

  lemma {:induction false} AllShared(active: seq<Grant>)
    requires forall g :: g in active ==> g.shared
    ensures FirstSolo(active).None?
  {
    if active != [] { AllShared(active[1..]); }
  }

  /** The demand would have these boards but for one it names that is reserved. */
  predicate Barred(d: Demand, boards: seq<Board>) {
    FitsIdle(d, boards) && NamesReserved(d, boards)
  }

  /** A barred demand starts on no such rig, whatever runs there and whatever is withheld. */
  lemma BarredNeverStarts(r: RigState, d: Demand)
    requires Barred(d, r.boards)
    ensures Attempt(r, d).Waits?
  {
    NoneTaken(d.boards, r.boards, {});
    NoneTaken(d.boards, r.boards, HeldBoards(r.active) + r.blockedBoards);
  }

  /** A demand that everything running keeps clear of is granted while a slot is free; alone, if nothing runs. */
  lemma StartsWhenClear(r: RigState, d: Demand)
    requires ValidRig(r) && Unblocked(r) && ValidDemand(d)
    requires !Barred(d, r.boards)
    requires ClearOf(r, d) && |r.active| < r.limit
    requires r.active == [] || (!Alone(r, d) && Feasible(r, d))
    ensures Attempt(r, d).Granted?
  {
    if r.active == [] {
      IdleRigStartsIff(r, d);
    } else {
      AllShared(r.active);
      var busy := HeldBoards(r.active);
      assert busy + r.blockedBoards == busy;
      assert forall g :: g in r.active ==> KeepsClear(g, d, r.boards);
      assert forall x :: x in d.resources ==> x !in HeldResources(r.active);
      assert forall id :: id in d.boards ==> id !in busy;
      assert forall b :: b in r.boards && b.id in busy ==> b.target !in WantedFamilies(d.needs, r.boards);
      if d.boards != [] {
        NoneTaken(d.boards, r.boards, busy);
        NoneAhead(d.boards, r.boards, {});
      } else {
        PicksIgnoreBusy(d.needs, r.boards, r.boards, busy);
        FitsIffPicked(d.needs, r.boards);
      }
      assert Choose(d, r.boards, busy, {}).Chosen?;
    }
  }

  // ---- one plan ----

  /** Whether a rig is a candidate does not change in the course of a plan. */
  lemma CandidateStays(run: Run, t: nat, d: Demand, k: nat)
    requires IsRun(run) && t <= |run.queue| && k < |run.states[0]|
    ensures Candidate(run.states[t], d, k) <==> Candidate(run.states[0], d, k)
  {
    forall h | 0 <= h < |run.states[0]|
      ensures Fits(run.states[t], d, h) <==> Fits(run.states[0], d, h)
      ensures Runs(run.states[t], d, h) <==> Runs(run.states[0], d, h)
    {
      RigsGrow(run, 0, t, h);
    }
  }

  /** Rig k is a candidate for none of the first i demands. */
  ghost predicate NobodyAhead(run: Run, i: nat, k: nat)
    requires Sized(run) && i <= |run.queue| && k < |run.states[0]|
  {
    forall h :: 0 <= h < i ==> !Candidate(run.states[0], run.queue[h], k)
  }

  /** A rig nobody ahead may go to is found as it was. */
  lemma {:induction false} FoundUntouched(run: Run, i: nat, k: nat)
    requires IsRun(run) && i <= |run.queue| && k < |run.states[0]| && NobodyAhead(run, i, k)
    ensures run.states[i][k] == run.states[0][k]
  {
    if i > 0 {
      FoundUntouched(run, i - 1, k);
      CandidateStays(run, i - 1, run.queue[i - 1], k);
      assert Step(run, i - 1);
    }
  }

  /** The i-th demand is the first that may go to rig k, and is left waiting. */
  ghost predicate FirstWaits(run: Run, i: nat, k: nat) {
    && IsRun(run) && i < |run.queue| && k < |run.states[0]|
    && NobodyAhead(run, i, k) && LeftOn(run, i, k)
  }

  /** While the first waits that runs alone, or that the rig cannot meet, nothing starts there. */
  lemma NothingBesideAlone(run: Run, i: nat, k: nat, j: nat, g: Grant)
    requires FirstWaits(run, i, k) && ValidRig(run.states[0][k]) && Unblocked(run.states[0][k])
    requires forall d :: d in run.queue ==> ValidDemand(d)
    requires !Barred(run.queue[i], run.states[0][k].boards)
    requires Alone(run.states[0][k], run.queue[i]) || !Feasible(run.states[0][k], run.queue[i])
    requires i < j < |run.queue|
    ensures !StartsOn(run, j, k, g)
  {
    var r, d := run.states[0][k], run.queue[i];
    FoundUntouched(run, i, k);
    LeftStep(run.states[i], d, k);
    AloneStartsIff(r, d);
    assert d in run.queue;
    if StartsOn(run, j, k, g) {
      NoOvertaking(run, i, j, k, g);
      RigsGrow(run, i, j, k);
      SoloRemains(r.active, run.states[j][k].active);
    }
  }

  lemma {:induction false} SoloRemains(active: seq<Grant>, more: seq<Grant>)
    requires active <= more
    ensures FirstSolo(active).Some? ==> FirstSolo(more).Some?
  {
    if active != [] { SoloRemains(active[1..], more[1..]); }
  }

  lemma NoneBeforeFirst(run: Run, i: nat, k: nat, j: nat, g: Grant)
    requires FirstWaits(run, i, k) && j < |run.queue| && StartsOn(run, j, k, g)
    ensures i < j
  {
    CandidateStays(run, j, run.queue[j], k);
  }

  /** What a plan starts on a worker the first waits for, it starts behind it. */
  lemma StartsBehind(run: Run, i: nat, k: nat, g: Grant) returns (j: nat)
    requires FirstWaits(run, i, k) && DistinctNames(run.states[0])
    requires g in StartsBy(run, |run.queue|) && g.worker == run.states[0][k].name
    ensures i < j < |run.queue| && StartsOn(run, j, k, g)
  {
    var h: nat;
    j, h := StartsComeFrom(run, |run.queue|, g);
    assert h == k;
    NoneBeforeFirst(run, i, k, j, g);
  }

  lemma FirstWaitsIsFirstLeft(run: Run, i: nat, k: nat)
    requires FirstWaits(run, i, k)
    ensures FirstLeftOn(run, i, k)
  {
    forall h | 0 <= h < i ensures !LeftOn(run, h, k) {
      CandidateStays(run, h, run.queue[h], k);
    }
  }

  lemma StartsShared(run: Run, i: nat, k: nat, j: nat, g: Grant)
    requires FirstWaits(run, i, k) && ValidRig(run.states[0][k]) && Unblocked(run.states[0][k])
    requires forall d :: d in run.queue ==> ValidDemand(d)
    requires !Barred(run.queue[i], run.states[0][k].boards)
    requires i < j < |run.queue| && StartsOn(run, j, k, g)
    ensures g.shared
  {
    if !g.shared {
      FirstWaitsIsFirstLeft(run, i, k);
      RigsGrow(run, 0, j, k);
      RigsGrow(run, i, j, k);
      AloneStartsIff(run.states[j][k], run.queue[j]);
      FirstLeftOnIdle(run, i, k);
    }
  }

  /** And it runs shared and keeps clear of the first. */
  lemma StartsKeepClear(run: Run, i: nat, k: nat, g: Grant)
    requires FirstWaits(run, i, k) && ValidRig(run.states[0][k]) && Unblocked(run.states[0][k])
    requires DistinctNames(run.states[0])
    requires forall d :: d in run.queue ==> ValidDemand(d)
    requires !Barred(run.queue[i], run.states[0][k].boards)
    requires g in StartsBy(run, |run.queue|) && g.worker == run.states[0][k].name
    ensures g.shared && KeepsClear(g, run.queue[i], run.states[0][k].boards)
    ensures !Alone(run.states[0][k], run.queue[i]) && Feasible(run.states[0][k], run.queue[i])
  {
    var j := StartsBehind(run, i, k, g);
    StartsShared(run, i, k, j, g);
    NoOvertaking(run, i, j, k, g);
    if Alone(run.states[0][k], run.queue[i]) || !Feasible(run.states[0][k], run.queue[i]) {
      NothingBesideAlone(run, i, k, j, g);
    }
  }

  // ---- round after round ----

  /** A round as the farm makes them: board ids unique, demands valid, each job running once, workers' runs apart. */
  ghost predicate GoodRound(r: Round) {
    && UniqueIds(r.config.boards)
    && (forall d :: d in r.queue ==> ValidDemand(d))
    && UniqueJobs(r.running)
    && forall w :: Apart(RunningOn(r.running, w))
  }

  ghost function RigsOf(r: Round): seq<RigState> {
    InitialRigs(r.config, r.running)
  }

  ghost function RunOfRound(r: Round): Run {
    PlanRun(r.queue, r.config, r.running)
  }

  ghost function StartOf(r: Round): seq<Grant> {
    PlanOf(r.queue, r.config, r.running, false).start
  }

  ghost predicate RigIs(r: Round, k: nat, w: Option<string>) {
    k < |RigsOf(r)| && RigsOf(r)[k].name == w
  }

  /** Worker w is one the demand may go to. */
  ghost predicate MayUse(r: Round, d: Demand, w: Option<string>) {
    exists k :: RigIs(r, k, w) && Candidate(RigsOf(r), d, k)
  }

  /** The i-th of the queue is the first that may go to w. */
  ghost predicate IsFirst(r: Round, i: nat, w: Option<string>) {
    i < |r.queue| && MayUse(r, r.queue[i], w) && forall h :: 0 <= h < i ==> !MayUse(r, r.queue[h], w)
  }

  /** The plan starts the i-th of the queue, on whichever worker. */
  ghost predicate StartsIt(r: Round, i: nat) {
    i < |r.queue| && Decide(RunOfRound(r).states[i], r.queue[i]).Starts?
  }

  /** Grant g is grant x, which may since have settled on other boards if it is not shared. */
  ghost predicate Became(x: Grant, g: Grant) {
    g.jobId == x.jobId && g.worker == x.worker && g.shared == x.shared && (x.shared ==> g == x)
  }

  ghost predicate From(grants: seq<Grant>, g: Grant) {
    exists x :: x in grants && Became(x, g)
  }

  /** On worker w, what runs in the next round ran in this one, started in it, or is one of the old runs. */
  ghost predicate Follows(r: Round, next: Round, w: Option<string>, early: set<string>) {
    forall g :: g in RunningOn(next.running, w) ==> g.jobId in early || From(r.running + StartOf(r), g)
  }

  /** The jobs on worker w that are not old. */
  ghost function Late(r: Round, w: Option<string>, early: set<string>): set<string> {
    set g | g in RunningOn(r.running, w) && g.jobId !in early :: g.jobId
  }

  ghost predicate MayShare(c: Config, d: Demand, w: Option<string>) {
    && d.concurrent && !d.wholeRig && LimitOf(c.limits, c.limit, w) != 1
    && FitsIdle(d, BoardsOn(c.boards, w))
  }

  /** What has started on w since is clear of d, and leaves it a slot once the old runs are gone. */
  ghost predicate LeavesRoom(r: Round, c: Config, d: Demand, w: Option<string>, early: set<string>) {
    && (forall g :: g in RunningOn(r.running, w) && g.jobId !in early ==>
          g.shared && KeepsClear(g, d, BoardsOn(c.boards, w)) && MayShare(c, d, w))
    && |Late(r, w, early)| < LimitOf(c.limits, c.limit, w)
  }

  /** Worker w has the same boards and the same limit in both. */
  ghost predicate SameWorker(c: Config, c': Config, w: Option<string>) {
    BoardsOn(c.boards, w) == BoardsOn(c'.boards, w) && LimitOf(c.limits, c.limit, w) == LimitOf(c'.limits, c'.limit, w)
  }

  lemma {:induction false} IdsCount(grants: seq<Grant>)
    ensures |Ids(grants)| <= |grants|
    ensures UniqueJobs(grants) ==> |Ids(grants)| == |grants|
  {
    if grants != [] {
      IdsCount(grants[1..]);
      assert Ids(grants) == {grants[0].jobId} + Ids(grants[1..]);
    }
  }

  lemma {:induction false} RunningOnUnique(grants: seq<Grant>, w: Option<string>)
    requires UniqueJobs(grants)
    ensures UniqueJobs(RunningOn(grants, w))
  {
    if grants != [] {
      RunningOnUnique(grants[1..], w);
      forall g | g in RunningOn(grants[1..], w) ensures g.jobId != grants[0].jobId {
        RunningOnMember(grants[1..], w, g);
      }
    }
  }

  lemma {:induction false} Smaller<T>(a: set<T>, b: set<T>)
    requires a <= b
    ensures |a| <= |b|
    ensures a != b ==> |a| < |b|
  {
    if a == {} {
      if b != {} { var x :| x in b; assert |b| == |b - {x}| + 1; }
    } else {
      var x :| x in a;
      Smaller(a - {x}, b - {x});
    }
  }

  /** The i-th demand waits at the head of those that may go to w, not barred there. */
  ghost predicate Waits(r: Round, i: nat, w: Option<string>) {
    && GoodRound(r) && IsFirst(r, i, w) && !StartsIt(r, i)
    && !Barred(r.queue[i], BoardsOn(r.config.boards, w))
  }

  lemma AttemptWhenOldGone(r: Round, d: Demand, w: Option<string>, early: set<string>, alone: bool)
    requires GoodRound(r) && d in r.queue && !Barred(d, BoardsOn(r.config.boards, w))
    requires LeavesRoom(r, r.config, d, w, early)
    requires forall g :: g in RunningOn(r.running, w) ==> g.jobId !in early
    ensures Attempt(InitialRig(r.config, r.running, w, alone), d).Granted?
  {
    var rig := InitialRig(r.config, r.running, w, alone);
    BoardsOnUnique(r.config.boards, w);
    RunningOnUnique(r.running, w);
    IdsCount(rig.active);
    assert Late(r, w, early) == Ids(rig.active);
    if rig.active != [] { assert rig.active[0] in rig.active; }
    StartsWhenClear(rig, d);
  }

  /** The rig of worker w, in the run of the round, when its first demand waits. */
  lemma WaitsThere(r: Round, i: nat, w: Option<string>) returns (k: nat)
    requires Waits(r, i, w)
    ensures RigIs(r, k, w) && FirstWaits(RunOfRound(r), i, k) && RunOfRound(r).states[0] == RigsOf(r)
    ensures RunOfRound(r).queue == r.queue
  {
    var run := RunOfRound(r);
    PlanIsRun(r.queue, r.config, r.running);
    k :| RigIs(r, k, w) && Candidate(RigsOf(r), r.queue[i], k);
    forall h | 0 <= h < i ensures !Candidate(run.states[0], run.queue[h], k) {
      assert !MayUse(r, r.queue[h], w);
    }
    CandidateStays(run, i, r.queue[i], k);
  }

  /** Once no old run is left on w, the first that may go there starts. */
  lemma FirstStartsWhenOldGone(r: Round, i: nat, w: Option<string>, early: set<string>)
    requires GoodRound(r) && IsFirst(r, i, w) && !Barred(r.queue[i], BoardsOn(r.config.boards, w))
    requires LeavesRoom(r, r.config, r.queue[i], w, early)
    requires forall g :: g in RunningOn(r.running, w) ==> g.jobId !in early
    ensures StartsIt(r, i)
  {
    if !StartsIt(r, i) {
      var k := WaitsThere(r, i, w);
      AttemptWhenOldGone(r, r.queue[i], w, early, |RigNames(r.config, r.running)| == 1);
      FoundUntouched(RunOfRound(r), i, k);
      LeftStep(RunOfRound(r).states[i], r.queue[i], k);
    }
  }

  /** And while it waits, whatever starts on w leaves it room. */
  lemma RoomIsKept(r: Round, i: nat, next: Round, w: Option<string>, early: set<string>)
    requires Waits(r, i, w) && LeavesRoom(r, r.config, r.queue[i], w, early) && Follows(r, next, w, early)
    ensures LeavesRoom(next, r.config, r.queue[i], w, early)
  {
    var started := RunningOn(StartOf(r), w);
    forall g | g in RunningOn(next.running, w) && g.jobId !in early
      ensures g.jobId in Late(r, w, early) || g in started
      ensures g.shared && KeepsClear(g, r.queue[i], BoardsOn(r.config.boards, w)) && MayShare(r.config, r.queue[i], w)
    {
      LateIsClear(r, i, next, w, early, g);
    }
    SlotsLeft(r, i, w, early);
    assert Late(next, w, early) <= Late(r, w, early) + Ids(started);
    FitTogether(Late(next, w, early), Late(r, w, early), started, LimitOf(r.config.limits, r.config.limit, w));
  }

  lemma FitTogether(next: set<string>, late: set<string>, started: seq<Grant>, limit: nat)
    requires next <= late + Ids(started) && |late| < limit
    requires started == [] || |late| + |started| < limit
    ensures |next| < limit
  {
    Smaller(next, late + Ids(started));
    if started == [] {
      assert late + Ids(started) == late;
    } else {
      IdsCount(started);
      assert |late + Ids(started)| <= |late| + |Ids(started)|;
    }
  }

  lemma LateIsClear(r: Round, i: nat, next: Round, w: Option<string>, early: set<string>, g: Grant)
    requires Waits(r, i, w) && LeavesRoom(r, r.config, r.queue[i], w, early) && Follows(r, next, w, early)
    requires g in RunningOn(next.running, w) && g.jobId !in early
    ensures g.jobId in Late(r, w, early) || g in RunningOn(StartOf(r), w)
    ensures g.shared && KeepsClear(g, r.queue[i], BoardsOn(r.config.boards, w)) && MayShare(r.config, r.queue[i], w)
  {
    RunningOnMember(next.running, w, g);
    assert From(r.running + StartOf(r), g);
    var x :| x in r.running + StartOf(r) && Became(x, g);
    RunningOnMember(r.running, w, x);
    RunningOnMember(StartOf(r), w, x);
    if x in StartOf(r) {
      StartIsClear(r, i, w, x);
    } else {
      assert x in RunningOn(r.running, w);
    }
  }

  lemma StartIsClear(r: Round, i: nat, w: Option<string>, g: Grant)
    requires Waits(r, i, w) && g in StartOf(r) && g.worker == w
    ensures g.shared && KeepsClear(g, r.queue[i], BoardsOn(r.config.boards, w)) && MayShare(r.config, r.queue[i], w)
  {
    PlanIsRun(r.queue, r.config, r.running);
    PlanStarts(r.queue, r.config, r.running);
    var k := WaitsThere(r, i, w);
    StartsKeepClear(RunOfRound(r), i, k, g);
  }

  /** The old runs still there hold at least one slot, so what starts beside them cannot fill the worker. */
  lemma SlotsLeft(r: Round, i: nat, w: Option<string>, early: set<string>)
    requires Waits(r, i, w) && LeavesRoom(r, r.config, r.queue[i], w, early)
    ensures var on := RunningOn(StartOf(r), w);
      on == [] || |Late(r, w, early)| + |on| < LimitOf(r.config.limits, r.config.limit, w)
  {
    var run, active := RunOfRound(r), RunningOn(r.running, w);
    PlanIsRun(r.queue, r.config, r.running);
    PlanStarts(r.queue, r.config, r.running);
    PlanTracks(run, |run.queue|);
    var k := WaitsThere(r, i, w);
    assert Tracks(run.states[0][k], run.states[|run.queue|][k], StartsBy(run, |run.queue|));
    if forall g :: g in active ==> g.jobId !in early {
      FirstStartsWhenOldGone(r, i, w, early);
    } else {
      var g :| g in active && g.jobId in early;
      assert Late(r, w, early) <= Ids(active) && g.jobId in Ids(active) && g.jobId !in Late(r, w, early);
      Smaller(Late(r, w, early), Ids(active));
      IdsCount(active);
    }
  }

  /** A worker with boards that the demand fits is one it may go to in every round, whatever runs. */
  lemma FittingMayUse(r: Round, d: Demand, w: Option<string>)
    requires BoardsOn(r.config.boards, w) != []
    requires OfferedTo(InitialRig(r.config, [], w, false), d) && Eligible(InitialRig(r.config, [], w, false), d)
    ensures MayUse(r, d, w)
  {
    RigsAreWorkers(r.config, r.running);
    var b := BoardsOn(r.config.boards, w)[0];
    BoardsOnMember(r.config.boards, w, b);
    var names := RigNames(r.config, r.running);
    var k :| 0 <= k < |names| && names[k] == w;
    assert RigIs(r, k, w) && Fits(RigsOf(r), d, k);
  }

  /** A demand for another rig, or of a profile the worker does not run, never goes to w. */
  lemma OthersMayNot(r: Round, d: Demand, w: Option<string>)
    requires !OfferedTo(InitialRig(r.config, [], w, false), d) || !RunsProfile(InitialRig(r.config, [], w, false), d)
    ensures !MayUse(r, d, w)
  {
  }

  // ---- round after round ----

  /** In this round d is in the queue, the first that may go to w. */
  ghost predicate LeadsOn(r: Round, d: Demand, w: Option<string>) {
    exists i: nat :: IsFirst(r, i, w) && r.queue[i] == d
  }

  /** In this round d is in the queue and starts. */
  ghost predicate StartsNow(r: Round, d: Demand) {
    exists i: nat :: StartsIt(r, i) && r.queue[i] == d
  }

  /** Round t of a demand that leads on w in each of them, the worker keeping its boards and its limit. */
  ghost predicate LeadsAt(rounds: seq<Round>, t: nat, d: Demand, w: Option<string>)
    requires t < |rounds|
  {
    GoodRound(rounds[t]) && LeadsOn(rounds[t], d, w) && SameWorker(rounds[0].config, rounds[t].config, w)
  }

  ghost predicate FollowsAt(rounds: seq<Round>, t: nat, w: Option<string>, early: set<string>)
    requires t + 1 < |rounds|
  {
    Follows(rounds[t], rounds[t + 1], w, early)
  }

  ghost predicate Leads(rounds: seq<Round>, d: Demand, w: Option<string>, early: set<string>) {
    && (forall t {:trigger LeadsAt(rounds, t, d, w)} :: 0 <= t < |rounds| ==> LeadsAt(rounds, t, d, w))
    && forall t {:trigger FollowsAt(rounds, t, w, early)} :: 0 <= t < |rounds| - 1 ==> FollowsAt(rounds, t, w, early)
  }

  lemma SameRoom(r: Round, c: Config, c': Config, d: Demand, w: Option<string>, early: set<string>)
    requires SameWorker(c, c', w)
    ensures LeavesRoom(r, c, d, w, early) <==> LeavesRoom(r, c', d, w, early)
  {
  }

  /** One round on: while d does not start, the room it is left goes over to the next. */
  lemma RoomGoesOver(r: Round, next: Round, c: Config, d: Demand, w: Option<string>, early: set<string>)
    requires GoodRound(r) && LeadsOn(r, d, w) && SameWorker(c, r.config, w) && Follows(r, next, w, early)
    requires !Barred(d, BoardsOn(c.boards, w)) && !StartsNow(r, d)
    requires LeavesRoom(r, c, d, w, early)
    ensures LeavesRoom(next, c, d, w, early)
  {
    var i: nat :| IsFirst(r, i, w) && r.queue[i] == d;
    SameRoom(r, c, r.config, d, w, early);
    RoomIsKept(r, i, next, w, early);
    SameRoom(next, c, r.config, d, w, early);
  }

  lemma LeaderStartsWhenOldGone(r: Round, c: Config, d: Demand, w: Option<string>, early: set<string>)
    requires GoodRound(r) && LeadsOn(r, d, w) && SameWorker(c, r.config, w)
    requires !Barred(d, BoardsOn(c.boards, w))
    requires LeavesRoom(r, c, d, w, early)
    requires early !! Ids(RunningOn(r.running, w))
    ensures StartsNow(r, d)
  {
    var i: nat :| IsFirst(r, i, w) && r.queue[i] == d;
    SameRoom(r, c, r.config, d, w, early);
    FirstStartsWhenOldGone(r, i, w, early);
  }

  ghost predicate NotBefore(rounds: seq<Round>, d: Demand, t: nat)
    requires t <= |rounds|
  {
    forall s {:trigger StartsNow(rounds[s], d)} :: 0 <= s < t ==> !StartsNow(rounds[s], d)
  }

  /** At first every run is old. */
  lemma RoomAtFirst(r: Round, d: Demand, w: Option<string>)
    ensures LeavesRoom(r, r.config, d, w, Ids(RunningOn(r.running, w)))
  {
    assert Late(r, w, Ids(RunningOn(r.running, w))) == {};
  }

  lemma RoomAfter(rounds: seq<Round>, d: Demand, w: Option<string>, early: set<string>, s: nat, t: nat)
    requires Leads(rounds, d, w, early) && s < t < |rounds| && NotBefore(rounds, d, t)
    requires !Barred(d, BoardsOn(rounds[0].config.boards, w))
    requires LeavesRoom(rounds[s], rounds[0].config, d, w, early)
    ensures LeavesRoom(rounds[s + 1], rounds[0].config, d, w, early)
  {
    assert LeadsAt(rounds, s, d, w) && FollowsAt(rounds, s, w, early) && !StartsNow(rounds[s], d);
    RoomGoesOver(rounds[s], rounds[s + 1], rounds[0].config, d, w, early);
  }

  lemma {:induction false} Spreads(b: seq<bool>, t: nat)
    requires t < |b| && b[0] && forall s :: 0 <= s < t && b[s] ==> b[s + 1]
    ensures b[t]
  {
    if t > 0 { Spreads(b, t - 1); }
  }

  lemma RoomThroughout(rounds: seq<Round>, d: Demand, w: Option<string>, early: set<string>, t: nat)
    requires Leads(rounds, d, w, early) && t < |rounds| && NotBefore(rounds, d, t)
    requires !Barred(d, BoardsOn(rounds[0].config.boards, w))
    requires LeavesRoom(rounds[0], rounds[0].config, d, w, early)
    ensures LeavesRoom(rounds[t], rounds[0].config, d, w, early)
  {
    var c := rounds[0].config;
    var room := seq(|rounds|, s requires 0 <= s < |rounds| => LeavesRoom(rounds[s], c, d, w, early));
    forall s | 0 <= s < t && room[s] ensures room[s + 1] {
      RoomAfter(rounds, d, w, early, s, t);
    }
    Spreads(room, t);
  }

  /**
   Bounded waiting. Take a worker that keeps its boards and its limit, and the first of the queue that
   may go there, not barred there. However many rounds pass, whatever starts behind it
   and whatever becomes of the other workers, in the first round that finds gone every run the worker
   had when the demand got to lead there, the demand starts -- if it had not started before.
  */
  lemma BoundedWaiting(rounds: seq<Round>, d: Demand, w: Option<string>, t: nat)
    requires t < |rounds| && Leads(rounds, d, w, Ids(RunningOn(rounds[0].running, w)))
    requires !Barred(d, BoardsOn(rounds[0].config.boards, w))
    requires Ids(RunningOn(rounds[0].running, w)) !! Ids(RunningOn(rounds[t].running, w))
    ensures exists s :: 0 <= s <= t && StartsNow(rounds[s], d)
  {
    var early := Ids(RunningOn(rounds[0].running, w));
    if NotBefore(rounds, d, t) {
      RoomAtFirst(rounds[0], d, w);
      RoomThroughout(rounds, d, w, early, t);
      assert LeadsAt(rounds, t, d, w);
      LeaderStartsWhenOldGone(rounds[t], rounds[0].config, d, w, early);
    }
  }
}

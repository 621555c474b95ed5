/** What runs never collides: one plan keeps every worker's grants apart and within its limit. */
module Safety {
  import opened Names
  import opened Allocation
  import opened Pools
  import opened Rules

  function Ids(grants: seq<Grant>): set<string> {
    set g | g in grants :: g.jobId
  }

  ghost predicate UniqueJobs(grants: seq<Grant>) {
    forall i, j :: 0 <= i < j < |grants| ==> grants[i].jobId != grants[j].jobId
  }

  ghost predicate OneEach(queue: seq<Demand>) {
    forall i, j :: 0 <= i < j < |queue| ==> queue[i].jobId != queue[j].jobId
  }

  /** Two runs that may go on beside each other. */
  ghost predicate Beside(a: Grant, b: Grant) {
    && a.shared && b.shared
    && a.resources !! b.resources
    && forall id :: id in a.boards ==> id !in b.boards
  }

  /** So a run that is not shared is alone. */
  ghost predicate Apart(active: seq<Grant>) {
    forall i, j {:trigger Beside(active[i], active[j])} :: 0 <= i < j < |active| ==> Beside(active[i], active[j])
  }

  /** Worker by worker: apart, and no more than its cap. */
  ghost predicate Safe(grants: seq<Grant>, cap: Option<string> -> nat) {
    forall w :: Apart(RunningOn(grants, w)) && |RunningOn(grants, w)| <= cap(w)
  }

  lemma {:induction false} NoSolo(active: seq<Grant>)
    requires FirstSolo(active).None?
    ensures forall g :: g in active ==> g.shared
  {
    if active != [] { NoSolo(active[1..]); }
  }

  /** A grant joins only what it may run beside, and only while there is room. */
  lemma GrantKeepsApart(r: RigState, d: Demand)
    requires ValidRig(r) && ValidDemand(d) && Apart(r.active)
    requires Attempt(r, d).Granted?
    ensures Apart(r.active + [Attempt(r, d).grant])
    ensures |r.active| < r.limit
  {
    var g := Attempt(r, d).grant;
    AloneStartsIff(r, d);
    if g.shared {
      NoSolo(r.active);
      var busy := HeldBoards(r.active) + r.blockedBoards;
      ChoiceIsSound(d, r.boards, busy, r.blockedTargets);
      forall h | h in r.active ensures Beside(h, g) {
        assert forall x :: x in h.resources ==> x in HeldResources(r.active);
        assert d.resources * HeldResources(r.active) == {};
        forall x | x in h.resources ensures x !in g.resources {
          assert x in d.resources ==> x in d.resources * HeldResources(r.active);
        }
        assert forall id :: id in h.boards ==> id in HeldBoards(r.active);
      }
    }
  }

  // ---- the grants on one worker, within all grants ----

  lemma {:induction false} RunningOnSplits(a: seq<Grant>, b: seq<Grant>, w: Option<string>)
    ensures RunningOn(a + b, w) == RunningOn(a, w) + RunningOn(b, w)
  {
    if a == [] {
      assert a + b == b;
    } else {
      assert (a + b)[0] == a[0] && (a + b)[1..] == a[1..] + b;
      RunningOnSplits(a[1..], b, w);
      var on := if a[0].worker == w then [a[0]] else [];
      assert RunningOn(a, w) == on + RunningOn(a[1..], w);
      assert RunningOn(a + b, w) == on + (RunningOn(a[1..], w) + RunningOn(b, w));
    }
  }

  lemma {:induction false} RunningOnMember(grants: seq<Grant>, w: Option<string>, g: Grant)
    ensures g in RunningOn(grants, w) <==> g in grants && g.worker == w
  {
    if grants != [] { RunningOnMember(grants[1..], w, g); }
  }

  lemma {:induction false} RunningOnCount(grants: seq<Grant>, w: Option<string>, g: Grant)
    ensures multiset(RunningOn(grants, w))[g] == if g.worker == w then multiset(grants)[g] else 0
  {
    if grants != [] {
      RunningOnCount(grants[1..], w, g);
      assert grants == [grants[0]] + grants[1..];
    }
  }

  // ---- the rigs of a plan ----

  lemma {:induction false} AdjoinNames(names: seq<Option<string>>, more: seq<Option<string>>)
    requires Distinct(names)
    ensures Distinct(Adjoin(names, more))
    ensures forall n :: n in Adjoin(names, more) <==> n in names || n in more
    decreases more
  {
    if more != [] {
      AdjoinNames(if more[0] in names then names else names + [more[0]], more[1..]);
    }
  }

  /** Some board, some run or some limit is this worker's. */
  ghost predicate Named(c: Config, running: seq<Grant>, w: Option<string>) {
    || (exists b :: b in c.boards && b.worker == w)
    || (exists g :: g in running && g.worker == w)
    || (exists l :: l in c.limits && l.name == w)
  }

  lemma AllMentioned(c: Config, running: seq<Grant>)
    ensures forall g :: g in running ==> g.worker in Mentioned(c, running)
    ensures forall b :: b in c.boards ==> b.worker in Mentioned(c, running)
    ensures forall l :: l in c.limits ==> l.name in Mentioned(c, running)
    ensures forall w :: w in Mentioned(c, running) ==> Named(c, running, w)
  {
    var all := Mentioned(c, running);
    forall l | l in c.limits ensures l.name in all {
      var i :| 0 <= i < |c.limits| && c.limits[i] == l;
      assert all[|c.boards| + |running| + i] == l.name;
    }
    forall w | w in all ensures Named(c, running, w) {
      var i :| 0 <= i < |all| && all[i] == w;
      if i < |c.boards| {
        assert c.boards[i].worker == w;
      } else if i < |c.boards| + |running| {
        assert running[i - |c.boards|].worker == w;
      } else {
        assert c.limits[i - |c.boards| - |running|].name == w;
      }
    }
    forall g | g in running ensures g.worker in all {
      var i :| 0 <= i < |running| && running[i] == g;
      assert all[|c.boards| + i] == g.worker;
    }
    forall b | b in c.boards ensures b.worker in all {
      var i :| 0 <= i < |c.boards| && c.boards[i] == b;
      assert all[i] == b.worker;
    }
  }

  /** Every worker is one rig, and only workers are; with no worker at all there is one rig, without a name. */
  lemma RigsAreWorkers(c: Config, running: seq<Grant>)
    ensures RigNames(c, running) != [] && Distinct(RigNames(c, running))
    ensures forall g :: g in running ==> g.worker in RigNames(c, running)
    ensures forall b :: b in c.boards ==> b.worker in RigNames(c, running)
    ensures forall w :: w in RigNames(c, running) <==>
              Named(c, running, w) || (w == None && forall v :: !Named(c, running, v))
  {
    AdjoinNames([], Mentioned(c, running));
    AllMentioned(c, running);
    MentionedIff(c, running);
  }

  lemma MentionedIff(c: Config, running: seq<Grant>)
    ensures forall w :: w in Mentioned(c, running) <==> Named(c, running, w)
  {
    AllMentioned(c, running);
  }

  lemma {:induction false} BoardsOnMember(boards: seq<Board>, w: Option<string>, b: Board)
    ensures b in BoardsOn(boards, w) <==> b in boards && b.worker == w
  {
    if boards != [] { BoardsOnMember(boards[1..], w, b); }
  }

  lemma {:induction false} BoardsOnUnique(boards: seq<Board>, w: Option<string>)
    requires UniqueIds(boards)
    ensures UniqueIds(BoardsOn(boards, w))
  {
    if boards != [] {
      BoardsOnUnique(boards[1..], w);
      forall b | b in BoardsOn(boards[1..], w) ensures b.id != boards[0].id {
        BoardsOnMember(boards[1..], w, b);
      }
    }
  }

  lemma InitialRigIsValid(c: Config, running: seq<Grant>, k: nat)
    requires UniqueIds(c.boards) && k < |InitialRigs(c, running)|
    ensures ValidRig(InitialRigs(c, running)[k]) && Unblocked(InitialRigs(c, running)[k])
  {
    BoardsOnUnique(c.boards, RigNames(c, running)[k]);
  }

  // ---- one plan ----

  ghost predicate AllValid(rs: seq<RigState>) {
    forall k :: 0 <= k < |rs| ==> ValidRig(rs[k]) && Apart(rs[k].active)
  }

  lemma AdvanceRigActive(rs: seq<RigState>, d: Demand, k: nat)
    requires k < |rs| && ValidDemand(d) && AllValid(rs)
    requires forall h :: 0 <= h < |rs| && h != k ==> rs[h].name != rs[k].name
    ensures AdvanceRig(rs, d, k).active == rs[k].active + RunningOn(Started(Decide(rs, d)), rs[k].name)
    ensures ValidRig(AdvanceRig(rs, d, k)) && Apart(AdvanceRig(rs, d, k).active)
    ensures |AdvanceRig(rs, d, k).active| <= |rs[k].active| || |AdvanceRig(rs, d, k).active| <= rs[k].limit
  {
    AdvanceGrows(rs, d, k);
    var v := Decide(rs, d);
    if v.Starts? {
      GrantsItsOwnBoards(rs[v.rig], d, "");
      assert RunningOn([v.grant], rs[k].name) == if v.rig == k then [v.grant] else [];
      if v.rig == k { GrantKeepsApart(rs[k], d); }
    }
  }

  /** Rig r as it began, and where it stands once `started` has started. */
  ghost predicate Tracks(r: RigState, now: RigState, started: seq<Grant>) {
    && now.name == r.name && now.limit == r.limit && ValidRig(now)
    && now.active == r.active + RunningOn(started, r.name)
    && Apart(now.active)
    && (|now.active| <= |r.active| || |now.active| <= r.limit)
  }

  ghost predicate DistinctNames(rs: seq<RigState>) {
    forall h, m :: 0 <= h < m < |rs| ==> rs[h].name != rs[m].name
  }

  ghost predicate AllTrack(rs: seq<RigState>, now: seq<RigState>, started: seq<Grant>) {
    && |now| == |rs|
    && forall k {:trigger Tracks(rs[k], now[k], started)} :: 0 <= k < |rs| ==> Tracks(rs[k], now[k], started)
  }

  lemma TrackStep(rs: seq<RigState>, before: seq<RigState>, started: seq<Grant>, d: Demand, k: nat)
    requires AllTrack(rs, before, started) && ValidDemand(d) && k < |rs|
    requires DistinctNames(rs)
    ensures Tracks(rs[k], AdvanceRig(before, d, k), started + Started(Decide(before, d)))
  {
    forall h | 0 <= h < |rs| ensures before[h].name == rs[h].name && ValidRig(before[h]) && Apart(before[h].active) {
      assert Tracks(rs[h], before[h], started);
    }
    assert Tracks(rs[k], before[k], started);
    AdvanceGrows(before, d, k);
    AdvanceRigActive(before, d, k);
    RunningOnSplits(started, Started(Decide(before, d)), rs[k].name);
  }

  lemma AllTrackStep(run: Run, t: nat, started: seq<Grant>)
    requires IsRun(run) && t < |run.queue| && ValidDemand(run.queue[t])
    requires DistinctNames(run.states[0]) && AllTrack(run.states[0], run.states[t], started)
    ensures AllTrack(run.states[0], run.states[t + 1], started + Started(Decide(run.states[t], run.queue[t])))
  {
    assert Step(run, t);
    forall k | 0 <= k < |run.states[0]|
      ensures Tracks(run.states[0][k], run.states[t + 1][k], started + Started(Decide(run.states[t], run.queue[t])))
    {
      TrackStep(run.states[0], run.states[t], started, run.queue[t], k);
    }
  }

  /** The grants made to the first i demands. */
  ghost function StartsBy(run: Run, i: nat): seq<Grant>
    requires Sized(run) && i <= |run.queue|
  {
    if i == 0 then [] else StartsBy(run, i - 1) + Started(Decide(run.states[i - 1], run.queue[i - 1]))
  }

  lemma InitiallyTracks(rs: seq<RigState>)
    requires AllValid(rs)
    ensures AllTrack(rs, rs, [])
  {
    forall k | 0 <= k < |rs| ensures Tracks(rs[k], rs[k], []) {
      assert rs[k].active + RunningOn([], rs[k].name) == rs[k].active;
    }
  }

  /** Throughout a plan, a rig's active runs are what ran there and what has started there since. */
  lemma {:induction false} PlanTracks(run: Run, i: nat)
    requires IsRun(run) && i <= |run.queue| && forall d :: d in run.queue ==> ValidDemand(d)
    requires AllValid(run.states[0]) && DistinctNames(run.states[0])
    ensures AllTrack(run.states[0], run.states[i], StartsBy(run, i))
  {
    if i == 0 {
      InitiallyTracks(run.states[0]);
    } else {
      PlanTracks(run, i - 1);
      AllTrackStep(run, i - 1, StartsBy(run, i - 1));
    }
  }

  lemma StartedThere(run: Run, t: nat, g: Grant) returns (k: nat)
    requires IsRun(run) && t < |run.queue| && g in Started(Decide(run.states[t], run.queue[t]))
    ensures k < |run.states[0]| && StartsOn(run, t, k, g)
    ensures g.jobId == run.queue[t].jobId && g.worker == run.states[0][k].name
  {
    k := Decide(run.states[t], run.queue[t]).rig;
    RigsGrow(run, 0, t, k);
    GrantIsForThisRig(run.states[t][k], run.queue[t]);
  }

  lemma StartsByMore(run: Run, t: nat, g: Grant)
    requires Sized(run) && t < |run.queue|
    ensures g in StartsBy(run, t + 1) <==> g in StartsBy(run, t) || g in Started(Decide(run.states[t], run.queue[t]))
  {
  }

  /** Whatever a plan starts, it starts for some demand, on one of its rigs. */
  lemma {:induction false} StartsComeFrom(run: Run, i: nat, g: Grant) returns (t: nat, k: nat)
    requires IsRun(run) && i <= |run.queue| && g in StartsBy(run, i)
    ensures t < i && k < |run.states[0]| && StartsOn(run, t, k, g)
    ensures g.jobId == run.queue[t].jobId && g.worker == run.states[0][k].name
  {
    StartsByMore(run, i - 1, g);
    if g in StartsBy(run, i - 1) {
      t, k := StartsComeFrom(run, i - 1, g);
    } else {
      t := i - 1;
      k := StartedThere(run, t, g);
    }
  }

  lemma GrantIsForThisRig(r: RigState, d: Demand)
    requires Attempt(r, d).Granted?
    ensures Attempt(r, d).grant.worker == r.name && Attempt(r, d).grant.jobId == d.jobId
  {
  }

  lemma NobodyOn(run: Run, w: Option<string>)
    requires IsRun(run) && forall k :: 0 <= k < |run.states[0]| ==> run.states[0][k].name != w
    ensures RunningOn(StartsBy(run, |run.queue|), w) == []
  {
    var on := RunningOn(StartsBy(run, |run.queue|), w);
    if on != [] {
      RunningOnMember(StartsBy(run, |run.queue|), w, on[0]);
      var t, k := StartsComeFrom(run, |run.queue|, on[0]);
    }
  }

  lemma {:induction false} StartsPrefix(run: Run, i: nat, j: nat)
    requires Sized(run) && i <= j <= |run.queue|
    ensures forall g :: g in StartsBy(run, i) ==> g in StartsBy(run, j)
    decreases j
  {
    if i < j { StartsPrefix(run, i, j - 1); }
  }

  lemma {:induction false} StartsAgree(run: Run, vs: seq<Verdict>)
    requires Sized(run) && |vs| <= |run.queue|
    requires forall t {:trigger vs[t]} :: 0 <= t < |vs| ==> vs[t] == Decide(run.states[t], run.queue[t])
    ensures StartsBy(run, |vs|) == StartsIn(vs)
  {
    if vs != [] { StartsAgree(run, vs[..|vs| - 1]); }
  }

  /** The rigs a plan is made from, and the run it makes of them. */
  ghost function PlanRun(queue: seq<Demand>, c: Config, running: seq<Grant>): Run {
    RunOf(InitialRigs(c, running), queue)
  }

  lemma PlanIsRun(queue: seq<Demand>, c: Config, running: seq<Grant>)
    requires UniqueIds(c.boards)
    ensures IsRun(PlanRun(queue, c, running)) && PlanRun(queue, c, running).queue == queue
    ensures PlanRun(queue, c, running).states[0] == InitialRigs(c, running)
    ensures DistinctNames(InitialRigs(c, running))
    ensures forall k :: 0 <= k < |InitialRigs(c, running)| ==>
      ValidRig(InitialRigs(c, running)[k]) && Unblocked(InitialRigs(c, running)[k])
  {
    var rs := InitialRigs(c, running);
    RunOfPlan(rs, queue);
    RigsAreWorkers(c, running);
    forall k | 0 <= k < |rs| ensures ValidRig(rs[k]) && Unblocked(rs[k]) {
      InitialRigIsValid(c, running, k);
    }
  }

  /** What the plan starts is what its run starts. */
  lemma PlanStarts(queue: seq<Demand>, c: Config, running: seq<Grant>)
    requires UniqueIds(c.boards)
    ensures IsRun(PlanRun(queue, c, running))
    ensures PlanOf(queue, c, running, false).start == StartsBy(PlanRun(queue, c, running), |queue|)
  {
    PlanIsRun(queue, c, running);
    StartsAgree(PlanRun(queue, c, running), Verdicts(InitialRigs(c, running), queue));
  }

  // ---- limits ----

  /** Each worker is listed once. */
  ghost predicate OneLimitEach(limits: seq<Limit>) {
    forall i, j :: 0 <= i < j < |limits| ==> limits[i].name != limits[j].name
  }

  function AtLeastOne(n: int): nat {
    if n < 1 then 1 else n
  }

  ghost predicate IsListed(limits: seq<Limit>, w: Option<string>) {
    exists l :: l in limits && l.name == w
  }

  /** What the configuration lets worker w run at once: its own limit if listed, else the farm's; one at least. */
  ghost predicate Allows(c: Config, w: Option<string>, n: nat) {
    if IsListed(c.limits, w) then exists l :: l in c.limits && l.name == w && n == AtLeastOne(l.runs)
    else n == AtLeastOne(c.limit)
  }

  lemma {:induction false} LimitIsAllowed(limits: seq<Limit>, limit: int, w: Option<string>)
    ensures if IsListed(limits, w)
            then exists l :: l in limits && l.name == w && LimitOf(limits, limit, w) == AtLeastOne(l.runs)
            else LimitOf(limits, limit, w) == AtLeastOne(limit)
  {
    if limits != [] {
      assert limits == [limits[0]] + limits[1..];
      if limits[0].name != w { LimitIsAllowed(limits[1..], limit, w); }
    }
  }

  /** The limit a plan goes by is the one configured, and no other. */
  lemma LimitIffAllowed(c: Config, w: Option<string>, n: nat)
    requires OneLimitEach(c.limits)
    ensures Allows(c, w, n) <==> n == LimitOf(c.limits, c.limit, w)
  {
    LimitIsAllowed(c.limits, c.limit, w);
    forall l, m | l in c.limits && m in c.limits && l.name == m.name ensures l == m {
      var i :| 0 <= i < |c.limits| && c.limits[i] == l;
      var j :| 0 <= j < |c.limits| && c.limits[j] == m;
    }
  }

  /** No configured limit is over the cap. */
  ghost predicate WithinCap(c: Config, cap: Option<string> -> nat) {
    && (forall l :: l in c.limits ==> AtLeastOne(l.runs) <= cap(l.name))
    && forall w :: !IsListed(c.limits, w) ==> AtLeastOne(c.limit) <= cap(w)
  }

  lemma LimitWithinCap(c: Config, cap: Option<string> -> nat, w: Option<string>)
    requires WithinCap(c, cap)
    ensures LimitOf(c.limits, c.limit, w) <= cap(w)
  {
    LimitIsAllowed(c.limits, c.limit, w);
  }

  /** What runs on worker w after a plan: no more than its limit, unless more ran there already. */
  lemma PlanKeepsToLimit(queue: seq<Demand>, c: Config, running: seq<Grant>, paused: bool, w: Option<string>, n: nat)
    requires UniqueIds(c.boards) && OneLimitEach(c.limits) && forall d :: d in queue ==> ValidDemand(d)
    requires Allows(c, w, n) && forall v :: Apart(RunningOn(running, v))
    ensures var on := RunningOn(running + PlanOf(queue, c, running, paused).start, w);
      |on| <= n || |on| <= |RunningOn(running, w)|
  {
    var start := PlanOf(queue, c, running, paused).start;
    LimitIffAllowed(c, w, n);
    RunningOnSplits(running, start, w);
    if !paused {
      var run := PlanRun(queue, c, running);
      PlanIsRun(queue, c, running);
      PlanStarts(queue, c, running);
      PlanTracks(run, |queue|);
      if k :| 0 <= k < |run.states[0]| && run.states[0][k].name == w {
        assert Tracks(run.states[0][k], run.states[|queue|][k], start);
      } else {
        NobodyOn(run, w);
      }
    }
  }

  /**
   A plan made from a safe farm leaves it safe, whatever the inventory says now: no worker gets
   past its cap, nothing runs beside a run that is alone, and no board or resource is held twice.
  */
  lemma PlanKeepsSafe(queue: seq<Demand>, c: Config, running: seq<Grant>, paused: bool, cap: Option<string> -> nat)
    requires UniqueIds(c.boards) && forall d :: d in queue ==> ValidDemand(d)
    requires Safe(running, cap)
    requires WithinCap(c, cap)
    ensures Safe(running + PlanOf(queue, c, running, paused).start, cap)
  {
    var start := PlanOf(queue, c, running, paused).start;
    if paused {
      assert running + start == running;
    } else {
      var run := PlanRun(queue, c, running);
      PlanIsRun(queue, c, running);
      PlanStarts(queue, c, running);
      PlanTracks(run, |queue|);
      forall w ensures Apart(RunningOn(running + start, w)) && |RunningOn(running + start, w)| <= cap(w) {
        RunningOnSplits(running, start, w);
        LimitWithinCap(c, cap, w);
        if k :| 0 <= k < |run.states[0]| && run.states[0][k].name == w {
          assert Tracks(run.states[0][k], run.states[|queue|][k], start);
        } else {
          NobodyOn(run, w);
        }
      }
    }
  }

  ghost predicate NamesIfQuarantined(d: Demand, boards: seq<Board>, id: string) {
    (exists b: Board :: b in boards && b.id == id && b.hold == Quarantined) ==> id in d.boards
  }

  /**
   Whatever a plan grants, it grants from the inventory it was made from: a board of the worker the
   run goes to, not reserved, and quarantined only where the run's own demand named it.
  */
  lemma PlanGrantsItsWorkersBoards(queue: seq<Demand>, c: Config, running: seq<Grant>, g: Grant, id: string)
    requires UniqueIds(c.boards) && forall d :: d in queue ==> ValidDemand(d)
    requires g in PlanOf(queue, c, running, false).start && id in g.boards
    ensures exists b: Board :: b in c.boards && b.id == id && b.worker == g.worker && b.hold != Reserved
    ensures exists d :: d in queue && d.jobId == g.jobId && NamesIfQuarantined(d, c.boards, id)
  {
    var run := PlanRun(queue, c, running);
    PlanIsRun(queue, c, running);
    PlanStarts(queue, c, running);
    var t, k := StartsComeFrom(run, |queue|, g);
    RigsGrow(run, 0, t, k);
    GrantsItsOwnBoards(run.states[t][k], queue[t], id);
    var b: Board :| b in run.states[0][k].boards && b.id == id && b.hold != Reserved
      && (b.hold == Quarantined ==> id in queue[t].boards);
    BoardsOnMember(c.boards, g.worker, b);
    forall x: Board | x in c.boards && x.id == id ensures x == b {
      SameBoard(c.boards, x, b);
    }
    assert queue[t] in queue && NamesIfQuarantined(queue[t], c.boards, id);
  }

  lemma UniqueAppend(grants: seq<Grant>, more: seq<Grant>)
    requires UniqueJobs(grants) && |more| <= 1
    requires forall x, y :: x in grants && y in more ==> x.jobId != y.jobId
    ensures UniqueJobs(grants + more)
  {
    forall i, j | 0 <= i < j < |grants + more| ensures (grants + more)[i].jobId != (grants + more)[j].jobId {
      if j == |grants| { assert grants[i] in grants && more[0] in more; }
    }
  }

  /** What the i-th demand starts is for its own job, and no demand before it was that job's. */
  lemma StartIsNew(run: Run, i: nat, x: Grant, y: Grant)
    requires IsRun(run) && i < |run.queue| && OneEach(run.queue)
    requires x in StartsBy(run, i) && y in Started(Decide(run.states[i], run.queue[i]))
    ensures x.jobId != y.jobId
  {
    var t, k := StartsComeFrom(run, i, x);
    var h := StartedThere(run, i, y);
  }

  lemma OneMoreStart(run: Run, i: nat)
    requires IsRun(run) && i < |run.queue| && OneEach(run.queue) && UniqueJobs(StartsBy(run, i))
    ensures UniqueJobs(StartsBy(run, i + 1))
  {
    var before, more := StartsBy(run, i), Started(Decide(run.states[i], run.queue[i]));
    forall x, y | x in before && y in more ensures x.jobId != y.jobId {
      StartIsNew(run, i, x, y);
    }
    UniqueAppend(before, more);
    assert StartsBy(run, i + 1) == before + more;
  }

  lemma {:induction false} StartsOnce(run: Run, i: nat)
    requires IsRun(run) && i <= |run.queue| && OneEach(run.queue)
    ensures UniqueJobs(StartsBy(run, i))
  {
    if i > 0 {
      StartsOnce(run, i - 1);
      OneMoreStart(run, i - 1);
    }
  }

  /** One run per job: a plan starts each queued job at most once, and nothing else. */
  lemma PlanStartsQueuedOnce(queue: seq<Demand>, c: Config, running: seq<Grant>, paused: bool)
    requires UniqueIds(c.boards) && OneEach(queue)
    ensures UniqueJobs(PlanOf(queue, c, running, paused).start)
    ensures forall g :: g in PlanOf(queue, c, running, paused).start ==> exists d :: d in queue && d.jobId == g.jobId
  {
    if !paused {
      var run, start := PlanRun(queue, c, running), PlanOf(queue, c, running, paused).start;
      PlanIsRun(queue, c, running);
      PlanStarts(queue, c, running);
      StartsOnce(run, |queue|);
      forall g | g in start ensures exists d :: d in queue && d.jobId == g.jobId {
        var t, k := StartsComeFrom(run, |queue|, g);
        assert queue[t] in queue;
      }
    }
  }
}

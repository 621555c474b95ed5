/**
 Which rig a demand goes to and what a plan says of the others: the rigs it tries, the first that grants
 it, and for every demand of the queue either a start or a reason that is true.
*/
module Placing {
  import opened Names
  import opened Allocation
  import opened Rules
  import opened Safety
  import opened Granting
  import opened Withheld
  import opened Picking

  // ---- the rigs there are ----

  ghost predicate StandAsIn(some: seq<Board>, all: seq<Board>) {
    forall h, k :: 0 <= h < k < |some| ==> StandsBefore(all, some[h], some[k])
  }

  lemma {:induction false} BoardsOnInOrder(boards: seq<Board>, w: Option<string>)
    ensures StandAsIn(BoardsOn(boards, w), boards)
  {
    if boards != [] {
      var on, rest := BoardsOn(boards, w), BoardsOn(boards[1..], w);
      BoardsOnInOrder(boards[1..], w);
      forall h, k | 0 <= h < k < |on| ensures StandsBefore(boards, on[h], on[k]) {
        var n := |on| - |rest|;
        if h < n {
          BoardsOnMember(boards[1..], w, on[k]);
          var j :| 0 <= j < |boards[1..]| && boards[1..][j] == on[k];
          assert boards[0] == on[h] && boards[j + 1] == on[k];
        } else {
          assert StandsBefore(boards[1..], rest[h - n], rest[k - n]);
          var i, j :| 0 <= i < j < |boards[1..]| && boards[1..][i] == on[h] && boards[1..][j] == on[k];
          assert boards[i + 1] == on[h] && boards[j + 1] == on[k];
        }
      }
    }
  }

  /** The worker's boards, in the order of the inventory. */
  ghost predicate HasBoardsOf(r: RigState, c: Config, w: Option<string>) {
    (forall b :: b in r.boards <==> b in c.boards && b.worker == w) && StandAsIn(r.boards, c.boards)
  }

  ghost predicate HasRunsOf(r: RigState, running: seq<Grant>, w: Option<string>) {
    forall g :: multiset(r.active)[g] == if g.worker == w then multiset(running)[g] else 0
  }

  ghost predicate IsOnlyWorker(c: Config, running: seq<Grant>, w: Option<string>) {
    forall v :: Named(c, running, v) ==> v == w
  }

  /** The rig of a worker, as a plan begins: its boards, its runs, its limit and its profiles, as configured. */
  ghost predicate IsOfWorker(r: RigState, c: Config, running: seq<Grant>, w: Option<string>) {
    && r.name == w && Unblocked(r) && HasBoardsOf(r, c, w) && HasRunsOf(r, running, w) && Allows(c, w, r.limit)
    && r.profiles == (if w in c.profiles then Some(c.profiles[w]) else None)
    && (r.aloneInFarm <==> IsOnlyWorker(c, running, w))
  }

  lemma BoardsAreIts(c: Config, running: seq<Grant>, k: nat)
    requires k < |InitialRigs(c, running)|
    ensures HasBoardsOf(InitialRigs(c, running)[k], c, RigNames(c, running)[k])
  {
    forall b: Board { BoardsOnMember(c.boards, RigNames(c, running)[k], b); }
    BoardsOnInOrder(c.boards, RigNames(c, running)[k]);
  }

  lemma RunsAreIts(c: Config, running: seq<Grant>, k: nat)
    requires k < |InitialRigs(c, running)|
    ensures HasRunsOf(InitialRigs(c, running)[k], running, RigNames(c, running)[k])
  {
    forall g: Grant { RunningOnCount(running, RigNames(c, running)[k], g); }
  }

  /** A plan has one rig for each worker there is, as configured, and no other. */
  lemma RigsAreAsConfigured(c: Config, running: seq<Grant>, k: nat)
    requires k < |InitialRigs(c, running)|
    ensures IsOfWorker(InitialRigs(c, running)[k], c, running, RigNames(c, running)[k])
    ensures Named(c, running, RigNames(c, running)[k]) || forall v :: !Named(c, running, v)
  {
    RigsAreWorkers(c, running);
    LimitIsAllowed(c.limits, c.limit, RigNames(c, running)[k]);
    BoardsAreIts(c, running, k);
    RunsAreIts(c, running, k);
    AloneIff(c, running, k);
  }

  lemma AloneIff(c: Config, running: seq<Grant>, k: nat)
    requires k < |RigNames(c, running)|
    ensures |RigNames(c, running)| == 1 <==> IsOnlyWorker(c, running, RigNames(c, running)[k])
  {
    var names := RigNames(c, running);
    RigsAreWorkers(c, running);
    if |names| > 1 {
      var m := if k == 0 then 1 else 0;
      assert names[m] != names[k] && names[m] in names && names[k] in names;
    }
  }

  /** Where a worker is met first, in a list of them. */
  function MetAt(all: seq<Option<string>>, w: Option<string>): nat {
    if all == [] || all[0] == w then 0 else 1 + MetAt(all[1..], w)
  }

  lemma {:induction false} AdjoinInOrder(
      names: seq<Option<string>>, more: seq<Option<string>>, all: seq<Option<string>>, n: nat)
    requires n <= |all| && more == all[n..] && Distinct(names)
    requires forall w :: w in names <==> w in all[..n]
    requires forall h, k :: 0 <= h < k < |names| ==> MetAt(all, names[h]) < MetAt(all, names[k])
    ensures forall h, k :: 0 <= h < k < |Adjoin(names, more)| ==>
              MetAt(all, Adjoin(names, more)[h]) < MetAt(all, Adjoin(names, more)[k])
    decreases more
  {
    if more != [] {
      assert all[..n + 1] == all[..n] + [more[0]] && more[1..] == all[n + 1..];
      if more[0] in names {
        AdjoinInOrder(names, more[1..], all, n + 1);
      } else {
        forall h | 0 <= h < |names| ensures MetAt(all, names[h]) < MetAt(all, more[0]) {
          assert names[h] in names;
          MetBefore(all, names[h], n);
          MetNotBefore(all, more[0], n);
        }
        AdjoinInOrder(names + [more[0]], more[1..], all, n + 1);
      }
    }
  }

  lemma {:induction false} MetBefore(all: seq<Option<string>>, w: Option<string>, n: nat)
    requires n <= |all| && w in all[..n]
    ensures MetAt(all, w) < n
  {
    if all[0] != w {
      assert all[..n] == [all[0]] + all[1..][..n - 1];
      MetBefore(all[1..], w, n - 1);
    }
  }

  lemma {:induction false} MetNotBefore(all: seq<Option<string>>, w: Option<string>, n: nat)
    requires n <= |all| && w !in all[..n]
    ensures MetAt(all, w) >= n
  {
    if n > 0 {
      assert all[..n] == [all[0]] + all[1..][..n - 1];
      MetNotBefore(all[1..], w, n - 1);
    }
  }

  /**
   The rigs stand in the order in which their workers are met, the boards read first, then the runs, then
   the limits: so that is the order in which a demand tries them.
  */
  lemma RigsStandInOrder(c: Config, running: seq<Grant>, h: nat, k: nat)
    requires h < k < |RigNames(c, running)|
    ensures var all := seq(|c.boards|, i requires 0 <= i < |c.boards| => c.boards[i].worker)
                       + seq(|running|, i requires 0 <= i < |running| => running[i].worker)
                       + seq(|c.limits|, i requires 0 <= i < |c.limits| => c.limits[i].name);
      MetAt(all, RigNames(c, running)[h]) < MetAt(all, RigNames(c, running)[k])
  {
    var all := Mentioned(c, running);
    assert all[0..] == all && all[..0] == [];
    AdjoinInOrder([], all, all, 0);
  }

  // ---- the rigs a demand tries ----

  /** The demand names no other rig, and this one runs its profile. */
  ghost predicate MayTry(r: RigState, d: Demand) {
    && (d.rig.Some? ==> r.name == d.rig)
    && (r.profiles.Some? && d.profile.Some? ==> d.profile.value in r.profiles.value)
  }

  /** And its boards could meet it: a whole-rig demand wants some, unless there is no other rig. */
  ghost predicate Suits(r: RigState, d: Demand) {
    && MayTry(r, d)
    && (if d.boards == [] && d.wholeRig then r.boards != [] || r.aloneInFarm else CanMeet(d, r.boards))
  }

  ghost predicate SomeSuits(rs: seq<RigState>, d: Demand) {
    exists k :: 0 <= k < |rs| && Suits(rs[k], d)
  }

  /** A demand tries every rig that suits it or, when none does, the first it may try. */
  lemma CandidateIff(rs: seq<RigState>, d: Demand, k: nat)
    requires k < |rs|
    ensures Candidate(rs, d, k) <==>
      if SomeSuits(rs, d) then Suits(rs[k], d) else MayTry(rs[k], d) && forall h :: 0 <= h < k ==> !MayTry(rs[h], d)
  {
    forall h | 0 <= h < |rs| ensures Fits(rs, d, h) <==> Suits(rs[h], d) {
      FitsIfItCanMeet(d, rs[h].boards);
    }
    forall h | 0 <= h < |rs| ensures Runs(rs, d, h) <==> MayTry(rs[h], d) {}
  }

  /** The first of these that is true. */
  function FirstTrue(answers: seq<bool>, from: nat): (found: Option<nat>)
    requires from <= |answers|
    decreases |answers| - from
  {
    if from == |answers| then None else if answers[from] then Some(from) else FirstTrue(answers, from + 1)
  }

  lemma {:induction false} FirstTrueIs(answers: seq<bool>, from: nat, h: nat)
    requires from <= h < |answers| && answers[h]
    ensures FirstTrue(answers, from).Some? && FirstTrue(answers, from).value <= h
    decreases h - from
  {
    if from < h { FirstTrueIs(answers, from + 1, h); }
  }

  lemma {:induction false} FirstGrantIsTrue(rs: seq<RigState>, d: Demand, answers: seq<bool>, from: nat)
    requires |answers| == |rs| && from <= |rs|
    requires forall k :: 0 <= k < |rs| ==> answers[k] == (Candidate(rs, d, k) && Attempt(rs[k], d).Granted?)
    ensures FirstGrant(rs, d, from) == FirstTrue(answers, from)
    decreases |rs| - from
  {
    if from < |rs| { FirstGrantIsTrue(rs, d, answers, from + 1); }
  }

  lemma GrantIsFirst(rs: seq<RigState>, d: Demand, h: nat)
    requires h < |rs| && Candidate(rs, d, h) && Attempt(rs[h], d).Granted?
    ensures FirstGrant(rs, d, 0).Some? && FirstGrant(rs, d, 0).value <= h
  {
    var answers := seq(|rs|, k requires 0 <= k < |rs| => Candidate(rs, d, k) && Attempt(rs[k], d).Granted?);
    FirstGrantIsTrue(rs, d, answers, 0);
    FirstTrueIs(answers, 0, h);
  }

  lemma {:induction false} CandidateIsFirst(rs: seq<RigState>, d: Demand, from: nat, h: nat)
    requires from <= h < |rs| && Candidate(rs, d, h)
    ensures FirstCandidate(rs, d, from).Some? && FirstCandidate(rs, d, from).value <= h
    decreases h - from
  {
    if from < h { CandidateIsFirst(rs, d, from + 1, h); }
  }

  /** A demand starts on the first rig it tries that grants it, with that grant; it is left if none does. */
  lemma StartsOnFirst(rs: seq<RigState>, d: Demand)
    ensures var v := Decide(rs, d);
      if v.Starts? then
        && v.rig < |rs| && Candidate(rs, d, v.rig) && Attempt(rs[v.rig], d) == Granted(v.grant)
        && forall h :: 0 <= h < v.rig && Candidate(rs, d, h) ==> Attempt(rs[h], d).Waits?
      else
        forall h :: 0 <= h < |rs| && Candidate(rs, d, h) ==> Attempt(rs[h], d).Waits?
  {
    forall h | 0 <= h < |rs| && Candidate(rs, d, h) && Attempt(rs[h], d).Granted?
      ensures FirstGrant(rs, d, 0).Some? && FirstGrant(rs, d, 0).value <= h
    {
      GrantIsFirst(rs, d, h);
    }
  }

  // ---- why it is left ----

  ghost predicate FirstTried(rs: seq<RigState>, d: Demand, k: nat) {
    k < |rs| && Candidate(rs, d, k) && forall h :: 0 <= h < k ==> !Candidate(rs, d, h)
  }

  /** The demand may try no rig: no rig has the name it gives, or the one that has does not run it, or none runs it. */
  ghost predicate NoneToTry(rs: seq<RigState>, d: Demand, why: Reason) {
    && (forall k :: 0 <= k < |rs| ==> !MayTry(rs[k], d))
    && match why
       case NoWorkerRunsIt => d.rig.None?
       case NotConnected => d.rig.Some? && forall k :: 0 <= k < |rs| ==> rs[k].name != d.rig
       case NotRunThere => d.rig.Some? && exists k :: 0 <= k < |rs| && rs[k].name == d.rig
       case _ => false
  }

  /** A demand left waiting is given the reason of the first rig it tries, or that there is none to try. */
  lemma ReasonIsFirst(rs: seq<RigState>, d: Demand)
    requires Decide(rs, d).Left?
    ensures NoneToTry(rs, d, Decide(rs, d).why) ||
            exists k: nat ::
              FirstTried(rs, d, k) && Attempt(rs[k], d).Waits? && Attempt(rs[k], d).why == Decide(rs, d).why
  {
    StartsOnFirst(rs, d);
    if FirstCandidate(rs, d, 0).Some? {
      var k := FirstCandidate(rs, d, 0).value;
      forall h | 0 <= h < k ensures !Candidate(rs, d, h) {
        if Candidate(rs, d, h) { CandidateIsFirst(rs, d, 0, h); }
      }
      assert FirstTried(rs, d, k);
    } else {
      NothingToTry(rs, d);
    }
  }

  lemma NothingToTry(rs: seq<RigState>, d: Demand)
    requires FirstGrant(rs, d, 0).None? && FirstCandidate(rs, d, 0).None?
    ensures NoneToTry(rs, d, Decide(rs, d).why)
  {
    forall k: nat | k < |rs| ensures !Candidate(rs, d, k) {
      if Candidate(rs, d, k) { CandidateIsFirst(rs, d, 0, k); }
    }
    if k :| 0 <= k < |rs| && MayTry(rs[k], d) { SomeIsTried(rs, d, k); }
    forall k | 0 <= k < |rs| ensures OfferedTo(rs[k], d) <==> d.rig.None? || rs[k].name == d.rig {}
  }

  lemma {:induction false} SomeIsTried(rs: seq<RigState>, d: Demand, k: nat)
    requires k < |rs| && MayTry(rs[k], d)
    ensures exists h :: 0 <= h < |rs| && Candidate(rs, d, h)
  {
    CandidateIff(rs, d, k);
    if h :| 0 <= h < |rs| && Suits(rs[h], d) {
      CandidateIff(rs, d, h);
    } else if h: nat :| h < k && MayTry(rs[h], d) {
      SomeIsTried(rs, d, h);
    }
  }

  // ---- the whole queue ----

  lemma {:induction false} WaitingIs(vs: seq<Verdict>, queue: seq<Demand>)
    requires |vs| <= |queue| && OneEach(queue)
    ensures forall i :: 0 <= i < |vs| && vs[i].Left? ==>
      queue[i].jobId in WaitingIn(vs, queue) && WaitingIn(vs, queue)[queue[i].jobId] == vs[i].why
    ensures forall id :: id in WaitingIn(vs, queue) ==> exists i :: 0 <= i < |vs| && queue[i].jobId == id && vs[i].Left?
  {
    if vs != [] {
      var n := |vs| - 1;
      WaitingIs(vs[..n], queue);
      forall id | id in WaitingIn(vs, queue) ensures exists i :: 0 <= i < |vs| && queue[i].jobId == id && vs[i].Left? {
        if id in WaitingIn(vs[..n], queue) {
          var i :| 0 <= i < n && queue[i].jobId == id && vs[..n][i].Left?;
          assert vs[i].Left?;
        }
      }
    }
  }

  /** The i-th demand waits, and the reason is true of the first rig it tries, or that it may try none. */
  ghost predicate WaitsTruly(run: Run, i: nat, why: Reason)
    requires Sized(run) && i < |run.queue|
  {
    || NoneToTry(run.states[i], run.queue[i], why)
    || exists k: nat :: k < |run.states[0]| && FirstTried(run.states[i], run.queue[i], k) && IsTrue(why, run, i, k)
  }

  lemma LeftWaitsTruly(run: Run, i: nat)
    requires IsRun(run) && i < |run.queue| && ValidDemand(run.queue[i])
    requires forall k :: 0 <= k < |run.states[0]| ==> ValidRig(run.states[0][k]) && Unblocked(run.states[0][k])
    requires Decide(run.states[i], run.queue[i]).Left?
    ensures WaitsTruly(run, i, Decide(run.states[i], run.queue[i]).why)
  {
    var rs, d := run.states[i], run.queue[i];
    ReasonIsFirst(rs, d);
    if !NoneToTry(rs, d, Decide(rs, d).why) {
      var k: nat :| FirstTried(rs, d, k) && Attempt(rs[k], d).Waits? && Attempt(rs[k], d).why == Decide(rs, d).why;
      ReasonIsTrue(run, i, k);
    }
  }

  /** Just the demands that are left wait, each with the reason it is left for. */
  ghost predicate WaitsAsLeft(waiting: map<string, Reason>, run: Run)
    requires Sized(run)
  {
    && (forall i :: 0 <= i < |run.queue| && Decide(run.states[i], run.queue[i]).Left? ==>
          run.queue[i].jobId in waiting && waiting[run.queue[i].jobId] == Decide(run.states[i], run.queue[i]).why)
    && (forall id :: id in waiting ==>
          exists i :: 0 <= i < |run.queue| && run.queue[i].jobId == id && Decide(run.states[i], run.queue[i]).Left?)
  }

  lemma PlanWaiting(queue: seq<Demand>, c: Config, running: seq<Grant>)
    requires UniqueIds(c.boards) && OneEach(queue)
    ensures WaitsAsLeft(PlanOf(queue, c, running, false).waiting, PlanRun(queue, c, running))
  {
    var run, vs := PlanRun(queue, c, running), Verdicts(InitialRigs(c, running), queue);
    PlanIsRun(queue, c, running);
    WaitingIs(vs, queue);
    forall i | 0 <= i < |queue| ensures vs[i] == Decide(run.states[i], queue[i]) {
      assert run.states[i] == RigsAt(InitialRigs(c, running), queue, i);
    }
  }

  lemma StartedOrLeft(run: Run, i: nat)
    requires IsRun(run) && i < |run.queue| && OneEach(run.queue)
    ensures Decide(run.states[i], run.queue[i]).Left? <==>
            !exists g :: g in StartsBy(run, |run.queue|) && g.jobId == run.queue[i].jobId
  {
    if Decide(run.states[i], run.queue[i]).Left? {
      forall g | g in StartsBy(run, |run.queue|) ensures g.jobId != run.queue[i].jobId { LeftNotStarted(run, i, g); }
    } else {
      StartIsInPlan(run, i);
    }
  }

  /** The i-th demand has started or waits, not both, and if it waits it is told why. */
  ghost predicate AnswersFor(plan: Plan, run: Run, i: nat)
    requires Sized(run) && i < |run.queue|
  {
    var id := run.queue[i].jobId;
    && (id in plan.waiting <==> !exists g :: g in plan.start && g.jobId == id)
    && (id in plan.waiting ==> WaitsTruly(run, i, plan.waiting[id]))
  }

  lemma WaitsOrStarts(plan: Plan, run: Run, i: nat)
    requires IsRun(run) && OneEach(run.queue) && i < |run.queue|
    requires plan.start == StartsBy(run, |run.queue|) && WaitsAsLeft(plan.waiting, run)
    ensures run.queue[i].jobId in plan.waiting <==> Decide(run.states[i], run.queue[i]).Left?
    ensures run.queue[i].jobId in plan.waiting ==>
      plan.waiting[run.queue[i].jobId] == Decide(run.states[i], run.queue[i]).why
    ensures run.queue[i].jobId in plan.waiting <==> !exists g :: g in plan.start && g.jobId == run.queue[i].jobId
  {
    StartedOrLeft(run, i);
    if run.queue[i].jobId in plan.waiting {
      var h :| 0 <= h < |run.queue| && run.queue[h].jobId == run.queue[i].jobId
        && Decide(run.states[h], run.queue[h]).Left?;
      assert h == i;
    }
  }

  lemma RunAnswersFor(plan: Plan, run: Run, i: nat)
    requires IsRun(run) && OneEach(run.queue) && i < |run.queue| && ValidDemand(run.queue[i])
    requires forall k :: 0 <= k < |run.states[0]| ==> ValidRig(run.states[0][k]) && Unblocked(run.states[0][k])
    requires plan.start == StartsBy(run, |run.queue|) && WaitsAsLeft(plan.waiting, run)
    ensures AnswersFor(plan, run, i)
  {
    WaitsOrStarts(plan, run, i);
    if run.queue[i].jobId in plan.waiting { LeftWaitsTruly(run, i); }
  }

  /**
   A plan answers for the whole queue. Every demand either starts, with a grant for its job, or is in
   `waiting` with a reason that is true, never both; and no other job is in `waiting`.
  */
  lemma PlanAnswersForAll(queue: seq<Demand>, c: Config, running: seq<Grant>, i: nat)
    requires UniqueIds(c.boards) && OneEach(queue) && (forall d :: d in queue ==> ValidDemand(d)) && i < |queue|
    ensures AnswersFor(PlanOf(queue, c, running, false), PlanRun(queue, c, running), i)
    ensures forall id :: id in PlanOf(queue, c, running, false).waiting ==> exists d :: d in queue && d.jobId == id
  {
    PlanIsRun(queue, c, running);
    PlanStarts(queue, c, running);
    PlanWaiting(queue, c, running);
    assert queue[i] in queue;
    RunAnswersFor(PlanOf(queue, c, running, false), PlanRun(queue, c, running), i);
    NoOthersWait(PlanOf(queue, c, running, false).waiting, PlanRun(queue, c, running));
  }

  lemma NoOthersWait(waiting: map<string, Reason>, run: Run)
    requires Sized(run) && WaitsAsLeft(waiting, run)
    ensures forall id :: id in waiting ==> exists d :: d in run.queue && d.jobId == id
  {
    forall id | id in waiting ensures exists d :: d in run.queue && d.jobId == id {
      var h :| 0 <= h < |run.queue| && run.queue[h].jobId == id;
      assert run.queue[h] in run.queue;
    }
  }

  lemma LeftNotStarted(run: Run, i: nat, g: Grant)
    requires IsRun(run) && i < |run.queue| && OneEach(run.queue) && Decide(run.states[i], run.queue[i]).Left?
    requires g in StartsBy(run, |run.queue|)
    ensures g.jobId != run.queue[i].jobId
  {
    var t, k := StartsComeFrom(run, |run.queue|, g);
  }

  lemma StartIsInPlan(run: Run, i: nat)
    requires IsRun(run) && i < |run.queue| && Decide(run.states[i], run.queue[i]).Starts?
    ensures Decide(run.states[i], run.queue[i]).grant in StartsBy(run, |run.queue|)
    ensures Decide(run.states[i], run.queue[i]).grant.jobId == run.queue[i].jobId
  {
    var v := Decide(run.states[i], run.queue[i]);
    GrantIsForThisRig(run.states[i][v.rig], run.queue[i]);
    StartsByMore(run, i, v.grant);
    StartsPrefix(run, i + 1, |run.queue|);
  }

  /** Two starts of a run stand in the order of their demands. */
  ghost predicate InQueueOrder(run: Run, a: Grant, b: Grant) {
    exists i, j :: 0 <= i < j < |run.queue| && run.queue[i].jobId == a.jobId && run.queue[j].jobId == b.jobId
  }

  /** What each demand adds is for its own job. */
  lemma StartsStep(run: Run, n: nat) returns (last: seq<Grant>)
    requires IsRun(run) && 0 < n <= |run.queue|
    ensures StartsBy(run, n) == StartsBy(run, n - 1) + last
    ensures forall g :: g in last ==> g.jobId == run.queue[n - 1].jobId
    ensures |last| <= 1
  {
    last := Started(Decide(run.states[n - 1], run.queue[n - 1]));
    forall g | g in last ensures g.jobId == run.queue[n - 1].jobId { var k := StartedThere(run, n - 1, g); }
  }

  lemma FirstThenLast(run: Run, n: nat, a: Grant, b: Grant)
    requires IsRun(run) && 0 < n <= |run.queue| && a in StartsBy(run, n - 1) && b.jobId == run.queue[n - 1].jobId
    ensures InQueueOrder(run, a, b)
  {
    var t, k := StartsComeFrom(run, n - 1, a);
  }

  lemma {:induction false} StartsInOrder(run: Run, n: nat, a: nat, b: nat)
    requires IsRun(run) && n <= |run.queue| && a < b < |StartsBy(run, n)|
    ensures InQueueOrder(run, StartsBy(run, n)[a], StartsBy(run, n)[b])
  {
    var last := StartsStep(run, n);
    var before := StartsBy(run, n - 1);
    if b < |before| {
      StartsInOrder(run, n - 1, a, b);
    } else {
      assert before[a] in before && last[b - |before|] in last;
      FirstThenLast(run, n, before[a], last[b - |before|]);
    }
  }

  /** What a plan starts it lists in queue order. */
  lemma PlanStartsInOrder(queue: seq<Demand>, c: Config, running: seq<Grant>, a: nat, b: nat)
    requires UniqueIds(c.boards) && a < b < |PlanOf(queue, c, running, false).start|
    ensures var start := PlanOf(queue, c, running, false).start;
      exists i, j :: 0 <= i < j < |queue| && queue[i].jobId == start[a].jobId && queue[j].jobId == start[b].jobId
  {
    PlanIsRun(queue, c, running);
    PlanStarts(queue, c, running);
    StartsInOrder(PlanRun(queue, c, running), |queue|, a, b);
  }

  lemma PausedStartsNothing(queue: seq<Demand>, c: Config, running: seq<Grant>)
    ensures var plan := PlanOf(queue, c, running, true);
      && plan.start == []
      && (forall id :: id in plan.waiting <==> exists d :: d in queue && d.jobId == id)
      && (forall id :: id in plan.waiting ==> plan.waiting[id] == Paused)
  {
  }
}

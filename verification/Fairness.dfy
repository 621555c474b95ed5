/** Bounded waiting of the farm at work: between two plans of one history nothing else comes to run. */
module Fairness {
  import opened Names
  import opened Allocation
  import opened Rules
  import opened Safety
  import opened Waiting
  import opened Dispatch

  // ---- what runs comes from the plan before ----

  ghost predicate AllFrom(base: seq<Grant>, grants: seq<Grant>) {
    forall g :: g in grants ==> From(base, g)
  }

  lemma {:induction false} PutFrom(base: seq<Grant>, grants: seq<Grant>, g: Grant)
    requires AllFrom(base, grants) && From(base, g)
    ensures AllFrom(base, Put(grants, g))
  {
    if grants != [] {
      assert grants[0] in grants && forall x :: x in grants[1..] ==> x in grants;
      PutFrom(base, grants[1..], g);
    }
  }

  lemma {:induction false} HoldBoardsFrom(base: seq<Grant>, grants: seq<Grant>, id: string, boards: seq<string>)
    requires AllFrom(base, grants)
    ensures AllFrom(base, HoldBoards(grants, id, boards))
  {
    if grants != [] {
      assert grants[0] in grants && forall x :: x in grants[1..] ==> x in grants;
      HoldBoardsFrom(base, grants[1..], id, boards);
      var x :| x in base && Became(x, grants[0]);
      assert Became(x, Rescoped(grants[0], id, boards));
    }
  }

  /** A plan that starts something: not one made while the queue is paused. */
  predicate Plans(e: Event) {
    e.Decision? && !e.paused
  }

  lemma StepFrom(s: Farm, e: Event, setup: Setup, base: seq<Grant>)
    requires Enabled(s, e, setup) && !Plans(e) && AllFrom(base, Held(s))
    ensures AllFrom(base, Held(After(s, e, setup)))
  {
    assert AllFrom(base, s.grants) && AllFrom(base, Planned(s));
    match e
    case Record =>
      assert s.dispatcher.grant in Planned(s);
      PutFrom(base, s.grants, s.dispatcher.grant);
    case Settle(id, boards) => HoldBoardsFrom(base, s.grants, id, boards);
    case Release(id) => WithoutMember(s.grants, id);
    case _ =>
  }

  // ---- the rounds of a history ----

  /** The t-th event is a plan, made with nothing paused. */
  ghost predicate PlansAt(h: History, t: nat)
    requires |h.states| == |h.events| + 1
  {
    t < |h.events| && Plans(h.events[t]) && h.states[t].dispatcher.HasQueue?
  }

  ghost function RoundAt(h: History, t: nat): Round
    requires |h.states| == |h.events| + 1 && PlansAt(h, t)
  {
    Round(h.events[t].config, h.states[t].dispatcher.queue, h.states[t].grants)
  }

  ghost predicate NoPlanBetween(h: History, t: nat, u: nat) {
    u <= |h.events| && forall v :: t < v < u ==> !Plans(h.events[v])
  }

  /** Until the next plan, whatever is held ran at the last one or was started by it. */
  lemma {:induction false} HeldFromPlan(h: History, t: nat, u: nat, setup: Setup)
    requires IsHistory(h, setup) && PlansAt(h, t) && t < u < |h.states| && NoPlanBetween(h, t, u)
    ensures AllFrom(RoundAt(h, t).running + StartOf(RoundAt(h, t)), Held(h.states[u]))
    decreases u
  {
    var base := RoundAt(h, t).running + StartOf(RoundAt(h, t));
    assert Happens(h, u - 1, setup);
    if u == t + 1 {
      assert Held(h.states[u]) == base;
      forall g | g in base ensures From(base, g) { assert Became(g, g); }
    } else {
      HeldFromPlan(h, t, u - 1, setup);
      StepFrom(h.states[u - 1], h.events[u - 1], setup, base);
    }
  }

  lemma RoundsFollow(h: History, t: nat, u: nat, w: Option<string>, early: set<string>, setup: Setup)
    requires IsHistory(h, setup) && PlansAt(h, t) && PlansAt(h, u) && t < u && NoPlanBetween(h, t, u)
    ensures Follows(RoundAt(h, t), RoundAt(h, u), w, early)
  {
    HeldFromPlan(h, t, u, setup);
    var base := RoundAt(h, t).running + StartOf(RoundAt(h, t));
    forall g | g in RunningOn(h.states[u].grants, w) ensures From(base, g) {
      RunningOnMember(h.states[u].grants, w, g);
      assert g in Held(h.states[u]);
    }
  }

  lemma RoundIsGood(h: History, t: nat, setup: Setup)
    requires IsHistory(h, setup) && PlansAt(h, t)
    ensures GoodRound(RoundAt(h, t))
  {
    assert Happens(h, t, setup);
    InvariantHolds(h, t, setup);
    FarmStaysSafe(h, t, setup);
  }

  // ---- bounded waiting ----

  /** All the plans of the history from one moment to another, in order. */
  ghost predicate AllPlans(h: History, at: seq<nat>)
    requires |h.states| == |h.events| + 1
  {
    && (forall i {:trigger PlansAt(h, at[i])} :: 0 <= i < |at| ==> PlansAt(h, at[i]))
    && forall i {:trigger at[i + 1]} :: 0 <= i < |at| - 1 ==> at[i] < at[i + 1] && NoPlanBetween(h, at[i], at[i + 1])
  }

  ghost function RoundsOf(h: History, at: seq<nat>): (rounds: seq<Round>)
    requires |h.states| == |h.events| + 1 && AllPlans(h, at)
    ensures |rounds| == |at|
    ensures forall i {:trigger rounds[i]} :: 0 <= i < |at| ==> PlansAt(h, at[i]) && rounds[i] == RoundAt(h, at[i])
  {
    seq(|at|, i requires 0 <= i < |at| => assert PlansAt(h, at[i]); RoundAt(h, at[i]))
  }

  /** At the i-th plan d is the first of the queue that may go to w, whose boards and limit are as at first. */
  ghost predicate LeadsInPlan(rounds: seq<Round>, i: nat, d: Demand, w: Option<string>)
    requires i < |rounds|
  {
    LeadsOn(rounds[i], d, w) && SameWorker(rounds[0].config, rounds[i].config, w)
  }

  ghost predicate LeadsInAll(rounds: seq<Round>, d: Demand, w: Option<string>) {
    forall i {:trigger LeadsInPlan(rounds, i, d, w)} :: 0 <= i < |rounds| ==> LeadsInPlan(rounds, i, d, w)
  }

  lemma PlansAreRounds(h: History, at: seq<nat>, d: Demand, w: Option<string>, early: set<string>, setup: Setup)
    requires IsHistory(h, setup) && AllPlans(h, at) && LeadsInAll(RoundsOf(h, at), d, w)
    ensures Leads(RoundsOf(h, at), d, w, early)
  {
    var rounds := RoundsOf(h, at);
    forall i | 0 <= i < |rounds| ensures LeadsAt(rounds, i, d, w) {
      assert LeadsInPlan(rounds, i, d, w) && PlansAt(h, at[i]) && rounds[i] == RoundAt(h, at[i]);
      RoundIsGood(h, at[i], setup);
    }
    forall i | 0 <= i < |rounds| - 1 ensures FollowsAt(rounds, i, w, early) {
      assert at[i] < at[i + 1] && rounds[i] == RoundAt(h, at[i]) && rounds[i + 1] == RoundAt(h, at[i + 1]);
      RoundsFollow(h, at[i], at[i + 1], w, early, setup);
    }
  }

  /** A demand that starts is among what its plan starts. */
  lemma StartIsPlanned(r: Round, i: nat)
    requires UniqueIds(r.config.boards) && StartsIt(r, i)
    ensures exists g :: g in StartOf(r) && g.jobId == r.queue[i].jobId
  {
    var run := RunOfRound(r);
    PlanIsRun(r.queue, r.config, r.running);
    PlanStarts(r.queue, r.config, r.running);
    var v := Decide(run.states[i], run.queue[i]);
    GrantIsForThisRig(run.states[i][v.rig], run.queue[i]);
    assert StartsBy(run, i + 1) == StartsBy(run, i) + Started(v);
    assert v.grant in StartsBy(run, i + 1);
    StartsPrefix(run, i + 1, |run.queue|);
  }

  /** The plan made at the t-th event starts g: the dispatcher goes on to claim it. */
  ghost predicate StartsAt(h: History, t: nat, g: Grant) {
    t + 1 < |h.states| && h.states[t + 1].dispatcher.Claiming? && g in h.states[t + 1].dispatcher.todo
  }

  lemma PlanStartsIt(h: History, t: nat, d: Demand, setup: Setup) returns (g: Grant)
    requires IsHistory(h, setup) && PlansAt(h, t) && StartsNow(RoundAt(h, t), d)
    ensures StartsAt(h, t, g) && g.jobId == d.jobId
  {
    var r := RoundAt(h, t);
    assert Happens(h, t, setup);
    var i: nat :| StartsIt(r, i) && r.queue[i] == d;
    StartIsPlanned(r, i);
    g :| g in StartOf(r) && g.jobId == d.jobId;
  }

  /** No run on w in the first of these rounds is there still in the last. */
  ghost predicate OldAreGone(rounds: seq<Round>, w: Option<string>)
    requires rounds != []
  {
    Ids(RunningOn(rounds[0].running, w)) !! Ids(RunningOn(rounds[|rounds| - 1].running, w))
  }

  lemma StartsInTime(h: History, at: seq<nat>, d: Demand, w: Option<string>, setup: Setup) returns (i: nat)
    requires IsHistory(h, setup) && at != [] && AllPlans(h, at) && LeadsInAll(RoundsOf(h, at), d, w)
    requires OldAreGone(RoundsOf(h, at), w) && !Barred(d, BoardsOn(RoundsOf(h, at)[0].config.boards, w))
    ensures i < |at| && PlansAt(h, at[i]) && StartsNow(RoundAt(h, at[i]), d)
  {
    var rounds, n := RoundsOf(h, at), |at| - 1;
    PlansAreRounds(h, at, d, w, Ids(RunningOn(rounds[0].running, w)), setup);
    BoundedWaiting(rounds, d, w, n);
    i :| 0 <= i <= n && StartsNow(rounds[i], d);
    assert rounds[i] == RoundAt(h, at[i]);
  }

  /**
   Bounded waiting of the farm. In any history, take a worker that keeps its boards and its limit, and
   a demand that is, in plan after plan, the first of the queue that may go there and is not barred by a
   reserved board of it -- whatever is submitted, claimed, finished, released, settled, cancelled or paused
   meanwhile, and whatever other workers come, go or change. By the first plan that finds gone every
   run the worker had when the demand got to lead there, a plan has started the demand.
  */
  lemma FarmBoundedWaiting(h: History, at: seq<nat>, d: Demand, w: Option<string>, setup: Setup)
    requires IsHistory(h, setup) && at != [] && AllPlans(h, at) && LeadsInAll(RoundsOf(h, at), d, w)
    requires OldAreGone(RoundsOf(h, at), w) && !Barred(d, BoardsOn(RoundsOf(h, at)[0].config.boards, w))
    ensures exists i, g :: 0 <= i < |at| && StartsAt(h, at[i], g) && g.jobId == d.jobId
  {
    var i := StartsInTime(h, at, d, w, setup);
    var g := PlanStartsIt(h, at[i], d, setup);
  }
}

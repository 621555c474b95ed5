/**
 What holds of every plan: when a later demand can start in front of an earlier one, when a rig may
 be left idle, and what a grant may contain.
*/
module Rules {
  import opened Names
  import opened Allocation
  import opened Pools

  /** What the service asks for: a whole-rig demand names no board and lists no need. */
  predicate ValidDemand(d: Demand) {
    d.wholeRig ==> d.boards == [] && d.needs == []
  }

  ghost predicate ValidRig(r: RigState) {
    UniqueIds(r.boards) && r.limit >= 1
  }

  /** The demand names a board of this rig that an operator has reserved. */
  predicate NamesReserved(d: Demand, boards: seq<Board>) {
    exists id :: id in d.boards && IsReserved(boards, id)
  }

  // ---- what one attempt may grant ----

  lemma {:induction false} RestBeyond(pool: seq<Board>, n: Need, busy: set<string>, c: nat, c': nat)
    requires Min(c, Count(pool, n, busy)) == Min(c', Count(pool, n, busy))
    ensures Rest(pool, n, busy, c) == Rest(pool, n, busy, c')
  {
    if pool != [] {
      if c == 0 || c' == 0 {
        NothingTaken(pool, n, busy, c);
        NothingTaken(pool, n, busy, c');
      } else if Free(pool[0], n, busy) {
        RestBeyond(pool[1..], n, busy, c - 1, c' - 1);
      } else {
        RestBeyond(pool[1..], n, busy, c, c');
      }
    }
  }

  lemma {:induction false} NothingTaken(pool: seq<Board>, n: Need, busy: set<string>, c: nat)
    requires Min(c, Count(pool, n, busy)) == 0
    ensures Rest(pool, n, busy, c) == pool
  {
    if pool != [] && c != 0 {
      NothingTaken(pool[1..], n, busy, c);
    }
  }

  /** With nothing running and nobody ahead, needs are met exactly when the rig as connected meets them. */
  lemma {:induction false} FitsIffPicked(needs: seq<Need>, pool: seq<Board>)
    ensures FitsNeeds(needs, pool) <==> PickNeeds(needs, pool, {}, {}).Picked?
  {
    if needs != [] {
      var n := needs[0];
      var wanted := Take(n, pool);
      if wanted == 0 {
        NothingTaken(pool, n, {}, n.count);
        FitsIffPicked(needs[1..], pool);
      } else if wanted <= Count(pool, n, {}) {
        RestBeyond(pool, n, {}, n.count, wanted);
        FitsIffPicked(needs[1..], Rest(pool, n, {}, n.count));
      }
    }
  }

  lemma IdleChoice(d: Demand, boards: seq<Board>)
    requires FitsIdle(d, boards)
    ensures Choose(d, boards, {}, {}).Chosen? <==> !NamesReserved(d, boards)
  {
    NoneTaken(d.boards, boards, {});
    NoneAhead(d.boards, boards, {});
    FitsIffPicked(d.needs, boards);
  }

  /**
   Exactly when a rig starts a demand alone: nobody ahead waits for the whole rig, nothing runs, the
   demand runs alone or cannot be met, and it does not name a reserved board. What demands ahead
   wait for short of the whole rig plays no part.
  */
  lemma AloneStartsIff(r: RigState, d: Demand)
    requires ValidRig(r) && ValidDemand(d)
    ensures (Attempt(r, d).Granted? && !Attempt(r, d).grant.shared) <==>
      && r.blockedWhole.None?
      && r.active == []
      && (Alone(r, d) || !Feasible(r, d))
      && !(FitsIdle(d, r.boards) && NamesReserved(d, r.boards))
  {
    if FitsIdle(d, r.boards) { IdleChoice(d, r.boards); }
  }

  /** An idle rig with nobody waiting for anything on it turns a demand away only for a reserved board. */
  lemma IdleRigStartsIff(r: RigState, d: Demand)
    requires ValidRig(r) && ValidDemand(d) && r.active == [] && Unblocked(r)
    ensures Attempt(r, d).Granted? <==> !(FitsIdle(d, r.boards) && NamesReserved(d, r.boards))
  {
    AloneStartsIff(r, d);
    if FitsIdle(d, r.boards) { IdleChoice(d, r.boards); }
    assert HeldBoards(r.active) + r.blockedBoards == {};
    assert r.blockedTargets == {};
  }

  ghost predicate Unblocked(r: RigState) {
    r.blockedWhole.None? && r.blockedTargets == {} && r.blockedBoards == {} && r.blockedResources == {}
  }

  lemma {:induction false} BankMember(boards: seq<Board>, id: string)
    ensures id in BankIds(boards) <==> exists b: Board :: b in boards && b.id == id && b.hold == Unheld
  {
    if boards != [] { BankMember(boards[1..], id); }
  }

  lemma {:induction false} BankDistinct(boards: seq<Board>)
    requires UniqueIds(boards)
    ensures Distinct(BankIds(boards))
  {
    if boards != [] {
      BankDistinct(boards[1..]);
      forall id | id in BankIds(boards[1..]) ensures id != boards[0].id {
        BankMember(boards[1..], id);
      }
      DistinctAppend(if boards[0].hold == Unheld then [boards[0].id] else [], BankIds(boards[1..]));
    }
  }

  /**
   A grant carries the rig's name and the demand's id. Its boards are distinct boards of this rig,
   none reserved, and any that is quarantined was named by the demand.
  */
  lemma GrantsItsOwnBoards(r: RigState, d: Demand, id: string)
    requires ValidRig(r) && ValidDemand(d)
    requires Attempt(r, d).Granted?
    ensures Attempt(r, d).grant.worker == r.name && Attempt(r, d).grant.jobId == d.jobId
    ensures Distinct(Attempt(r, d).grant.boards)
    ensures id in Attempt(r, d).grant.boards ==>
      exists b: Board :: b in r.boards && b.id == id && b.hold != Reserved && (b.hold == Quarantined ==> id in d.boards)
  {
    var g := Attempt(r, d).grant;
    if g.shared {
      ChoiceIsSound(d, r.boards, HeldBoards(r.active) + r.blockedBoards, r.blockedTargets);
    } else {
      BankDistinct(r.boards);
      BankMember(r.boards, id);
      if Feasible(r, d) { ChoiceIsSound(d, r.boards, {}, {}); }
    }
  }

  /** The boards of a demand that fits and names boards are the ones it names; if it does not fit, there are none. */
  lemma NamedGetsExactlyThose(r: RigState, d: Demand)
    requires ValidRig(r) && ValidDemand(d) && d.boards != []
    requires Attempt(r, d).Granted?
    ensures FitsIdle(d, r.boards) ==> (set id | id in Attempt(r, d).grant.boards) == (set id | id in d.boards)
    ensures !FitsIdle(d, r.boards) ==> Attempt(r, d).grant.boards == [] && !Attempt(r, d).grant.shared
  {
    if FitsIdle(d, r.boards) {
      if Attempt(r, d).grant.shared {
        ChoiceIsSound(d, r.boards, HeldBoards(r.active) + r.blockedBoards, r.blockedTargets);
      } else {
        ChoiceIsSound(d, r.boards, {}, {});
      }
    }
  }

  // ---- nothing jumps the queue ----

  /** Grant g keeps clear of all that demand d waits for on these boards. */
  ghost predicate KeepsClear(g: Grant, d: Demand, boards: seq<Board>) {
    && g.resources !! d.resources
    && (forall id :: id in g.boards ==> id !in d.boards)
    && (forall b :: b in boards && b.id in g.boards ==> b.target !in WantedFamilies(d.needs, boards))
  }

  ghost predicate Withholds(r: RigState, d: Demand) {
    && d.resources <= r.blockedResources
    && (set id | id in d.boards) <= r.blockedBoards
    && WantedFamilies(d.needs, r.boards) <= r.blockedTargets
  }

  /** A plan only ever adds: grants at the end, and things withheld. */
  ghost predicate Grows(r: RigState, r': RigState) {
    && r'.name == r.name && r'.boards == r.boards && r'.limit == r.limit
    && r'.profiles == r.profiles && r'.aloneInFarm == r.aloneInFarm
    && r.active <= r'.active
    && (r.blockedWhole.Some? ==> r'.blockedWhole.Some?)
    && r.blockedTargets <= r'.blockedTargets
    && r.blockedBoards <= r'.blockedBoards
    && r.blockedResources <= r'.blockedResources
  }

  lemma BlockGrows(r: RigState, d: Demand, whole: bool)
    ensures Grows(r, Block(r, d, whole))
    ensures whole ==> Block(r, d, whole).blockedWhole.Some?
    ensures !whole ==> Withholds(Block(r, d, whole), d)
  {
  }

  lemma AdvanceGrows(rs: seq<RigState>, d: Demand, k: nat)
    requires k < |rs|
    ensures Grows(rs[k], AdvanceRig(rs, d, k))
  {
    if Decide(rs, d).Left? && Candidate(rs, d, k) && Attempt(rs[k], d).Waits? {
      BlockGrows(rs[k], d, Attempt(rs[k], d).whole);
    }
  }

  // ---- the course of a plan, demand by demand ----

  /** A queue, and the rigs as each demand finds them and as the last one leaves them. */
  datatype Run = Run(queue: seq<Demand>, states: seq<seq<RigState>>)

  ghost predicate Sized(run: Run) {
    && |run.states| == |run.queue| + 1
    && forall t {:trigger run.states[t]} :: 0 <= t <= |run.queue| ==> |run.states[t]| == |run.states[0]|
  }

  ghost predicate Step(run: Run, t: nat)
    requires Sized(run) && t < |run.queue|
  {
    run.states[t + 1] == Advance(run.states[t], run.queue[t])
  }

  ghost predicate IsRun(run: Run) {
    Sized(run) && forall t {:trigger Step(run, t)} :: 0 <= t < |run.queue| ==> Step(run, t)
  }

  /** The run a plan makes from these rigs. */
  ghost function RunOf(rs: seq<RigState>, queue: seq<Demand>): (run: Run)
    ensures run.queue == queue && |run.states| == |queue| + 1
    ensures forall t {:trigger run.states[t]} :: 0 <= t <= |queue| ==> run.states[t] == RigsAt(rs, queue, t)
  {
    Run(queue, seq(|queue| + 1, t requires 0 <= t <= |queue| => RigsAt(rs, queue, t)))
  }

  lemma RunOfPlan(rs: seq<RigState>, queue: seq<Demand>)
    ensures IsRun(RunOf(rs, queue)) && RunOf(rs, queue).states[0] == rs
  {
    var run := RunOf(rs, queue);
    forall t | 0 <= t < |queue| ensures Step(run, t) {
      assert run.states[t + 1] == RigsAt(rs, queue, t + 1);
    }
  }

  /** The i-th demand was left waiting, with rig k among its candidates. */
  ghost predicate LeftOn(run: Run, i: nat, k: nat)
    requires Sized(run) && i < |run.queue| && k < |run.states[0]|
  {
    Decide(run.states[i], run.queue[i]).Left? && Candidate(run.states[i], run.queue[i], k)
  }

  /** Left waiting with `whole` set. */
  ghost predicate ForWhole(run: Run, i: nat, k: nat)
    requires Sized(run) && i < |run.queue| && k < |run.states[0]|
  {
    var outcome := Attempt(run.states[i][k], run.queue[i]);
    outcome.Waits? && outcome.whole
  }

  /** The j-th demand was started on rig k, with grant g. */
  ghost predicate StartsOn(run: Run, j: nat, k: nat, g: Grant)
    requires Sized(run) && j < |run.queue|
  {
    Decide(run.states[j], run.queue[j]) == Starts(k, g)
  }

  lemma StepGrows(run: Run, t: nat, k: nat)
    requires IsRun(run) && t < |run.queue| && k < |run.states[0]|
    ensures Grows(run.states[t][k], run.states[t + 1][k])
  {
    assert Step(run, t);
    AdvanceGrows(run.states[t], run.queue[t], k);
  }

  lemma GrowsOn(a: RigState, b: RigState, c: RigState)
    requires Grows(a, b) && Grows(b, c)
    ensures Grows(a, c)
  {
  }

  lemma {:induction false} RigsGrow(run: Run, i: nat, j: nat, k: nat)
    requires IsRun(run) && i <= j <= |run.queue| && k < |run.states[0]|
    ensures Grows(run.states[i][k], run.states[j][k])
    decreases j
  {
    if i < j {
      RigsGrow(run, i, j - 1, k);
      StepGrows(run, j - 1, k);
      GrowsOn(run.states[i][k], run.states[j - 1][k], run.states[j][k]);
    }
  }

  lemma {:induction false} NoneGranted(rs: seq<RigState>, d: Demand, from: nat, k: nat)
    requires from <= k < |rs| && FirstGrant(rs, d, from).None? && Candidate(rs, d, k)
    ensures Attempt(rs[k], d).Waits?
    decreases |rs| - from
  {
    if from < k { NoneGranted(rs, d, from + 1, k); }
  }

  /** Left waiting: turned away by every candidate, each of which keeps what it waits for. */
  lemma LeftStep(rs: seq<RigState>, d: Demand, k: nat)
    requires k < |rs| && Decide(rs, d).Left? && Candidate(rs, d, k)
    ensures Attempt(rs[k], d).Waits?
    ensures Advance(rs, d)[k] == Block(rs[k], d, Attempt(rs[k], d).whole)
  {
    NoneGranted(rs, d, 0, k);
  }

  lemma OtherStep(rs: seq<RigState>, d: Demand, k: nat)
    requires k < |rs| && !(Decide(rs, d).Left? && Candidate(rs, d, k))
    ensures Unblocked(rs[k]) ==> Unblocked(Advance(rs, d)[k])
  {
  }

  // ---- nothing jumps the queue ----

  lemma SharedGrantAvoids(r: RigState, d: Demand, ahead: Demand)
    requires ValidRig(r) && Withholds(r, ahead)
    requires Attempt(r, d).Granted? && Attempt(r, d).grant.shared
    ensures KeepsClear(Attempt(r, d).grant, ahead, r.boards)
  {
    var g := Attempt(r, d).grant;
    ChoiceIsSound(d, r.boards, HeldBoards(r.active) + r.blockedBoards, r.blockedTargets);
    assert g.resources == d.resources && d.resources * r.blockedResources == {};
    forall x | x in g.resources ensures x !in ahead.resources {
      assert x in r.blockedResources ==> x in d.resources * r.blockedResources;
    }
    forall b | b in r.boards && b.id in g.boards ensures b.target !in r.blockedTargets {
      var c: Board :| c in r.boards && c.id == b.id && c.target !in r.blockedTargets;
      SameBoard(r.boards, b, c);
    }
  }

  /** The rig withholds the whole of itself, or the resources, boards and families d asks of it. */
  ghost predicate Keeps(r: RigState, d: Demand, whole: bool) {
    if whole then r.blockedWhole.Some? else Withholds(r, d)
  }

  lemma LeftBlocks(run: Run, i: nat, k: nat)
    requires IsRun(run) && i < |run.queue| && k < |run.states[0]| && LeftOn(run, i, k)
    ensures Keeps(run.states[i + 1][k], run.queue[i], ForWhole(run, i, k))
  {
    assert Step(run, i);
    LeftStep(run.states[i], run.queue[i], k);
    BlockGrows(run.states[i][k], run.queue[i], ForWhole(run, i, k));
  }

  lemma GrowthKeeps(r: RigState, r': RigState, d: Demand, whole: bool)
    requires Grows(r, r') && Keeps(r, d, whole)
    ensures Keeps(r', d, whole)
  {
  }

  /** What a demand left waiting keeps stays kept for the rest of the plan. */
  lemma LeftIsKept(run: Run, i: nat, j: nat, k: nat)
    requires IsRun(run) && i < j <= |run.queue| && k < |run.states[0]| && LeftOn(run, i, k)
    ensures Keeps(run.states[j][k], run.queue[i], ForWhole(run, i, k))
  {
    LeftBlocks(run, i, k);
    RigsGrow(run, i + 1, j, k);
    GrowthKeeps(run.states[i + 1][k], run.states[j][k], run.queue[i], ForWhole(run, i, k));
  }

  /**
   No overtaking within one plan. A demand left waiting keeps, on each of its candidate rigs,
   everything it waits for there: a run started later beside others keeps clear of its resources,
   its named boards and the families it wants that the rig has; and while it waits for the whole
   rig, nothing later starts there at all.
  */
  lemma NoOvertaking(run: Run, i: nat, j: nat, k: nat, g: Grant)
    requires IsRun(run) && i < j < |run.queue| && k < |run.states[0]|
    requires ValidRig(run.states[0][k])
    requires LeftOn(run, i, k) && StartsOn(run, j, k, g)
    ensures !ForWhole(run, i, k)
    ensures g.shared ==> KeepsClear(g, run.queue[i], run.states[0][k].boards)
  {
    LeftIsKept(run, i, j, k);
    RigsGrow(run, 0, j, k);
    if g.shared && !ForWhole(run, i, k) {
      SharedGrantAvoids(run.states[j][k], run.queue[j], run.queue[i]);
    }
  }

  // ---- no rig is left idle for nothing ----

  lemma {:induction false} StaysUnblocked(run: Run, j: nat, k: nat)
    requires IsRun(run) && j <= |run.queue| && k < |run.states[0]| && Unblocked(run.states[0][k])
    requires forall i :: 0 <= i < j ==> !LeftOn(run, i, k)
    ensures Unblocked(run.states[j][k])
  {
    if j > 0 {
      StaysUnblocked(run, j - 1, k);
      assert Step(run, j - 1) && !LeftOn(run, j - 1, k);
      OtherStep(run.states[j - 1], run.queue[j - 1], k);
    }
  }

  /** The i-th demand is the first left waiting on rig k. */
  ghost predicate FirstLeftOn(run: Run, i: nat, k: nat)
    requires Sized(run) && i < |run.queue| && k < |run.states[0]|
  {
    LeftOn(run, i, k) && forall h :: 0 <= h < i ==> !LeftOn(run, h, k)
  }

  /** If the first demand left waiting on a rig finds it idle, it named a reserved board. */
  lemma FirstLeftOnIdle(run: Run, i: nat, k: nat)
    requires IsRun(run) && i < |run.queue| && k < |run.states[0]|
    requires ValidRig(run.states[0][k]) && Unblocked(run.states[0][k]) && ValidDemand(run.queue[i])
    requires FirstLeftOn(run, i, k) && run.states[i][k].active == []
    ensures FitsIdle(run.queue[i], run.states[0][k].boards)
    ensures NamesReserved(run.queue[i], run.states[0][k].boards)
  {
    StaysUnblocked(run, i, k);
    RigsGrow(run, 0, i, k);
    LeftStep(run.states[i], run.queue[i], k);
    IdleRigStartsIff(run.states[i][k], run.queue[i]);
  }

  /**
   Work conservation. A rig still idle when the plan is made is wanted by nobody, or the first
   demand left waiting with it as a candidate named a board of its that is reserved.
  */
  lemma WorkConservation(run: Run, i: nat, k: nat)
    requires IsRun(run) && i < |run.queue| && k < |run.states[0]|
    requires ValidRig(run.states[0][k]) && Unblocked(run.states[0][k]) && ValidDemand(run.queue[i])
    requires run.states[|run.queue|][k].active == []
    requires FirstLeftOn(run, i, k)
    ensures FitsIdle(run.queue[i], run.states[0][k].boards)
    ensures NamesReserved(run.queue[i], run.states[0][k].boards)
  {
    RigsGrow(run, i, |run.queue|, k);
    FirstLeftOnIdle(run, i, k);
  }

  lemma {:induction false} FindFirstLeft(run: Run, i: nat, k: nat) returns (h: nat)
    requires Sized(run) && i < |run.queue| && k < |run.states[0]| && LeftOn(run, i, k)
    ensures h <= i && FirstLeftOn(run, h, k)
  {
    if m :| 0 <= m < i && LeftOn(run, m, k) {
      h := FindFirstLeft(run, m, k);
    } else {
      h := i;
    }
  }

  /**
   A run with the rig to itself starts past an earlier demand waiting there only if some demand at
   or before that one named a reserved board.
  */
  lemma AlonePassesOnlyReserved(run: Run, i: nat, j: nat, k: nat, g: Grant)
    requires IsRun(run) && i < j < |run.queue| && k < |run.states[0]|
    requires ValidRig(run.states[0][k]) && Unblocked(run.states[0][k])
    requires forall d :: d in run.queue ==> ValidDemand(d)
    requires LeftOn(run, i, k) && StartsOn(run, j, k, g) && !g.shared
    ensures exists h :: 0 <= h <= i && LeftOn(run, h, k) && NamesReserved(run.queue[h], run.states[0][k].boards)
  {
    var h := FindFirstLeft(run, i, k);
    RigsGrow(run, h, j, k);
    RigsGrow(run, 0, j, k);
    AloneStartsIff(run.states[j][k], run.queue[j]);
    FirstLeftOnIdle(run, h, k);
  }

  /**
   So with no reserved board named, nothing jumps a demand that was queued first: whatever starts
   on a rig it waits for starts beside others and keeps clear of it.
  */
  lemma NothingJumpsTheQueue(run: Run, i: nat, j: nat, k: nat, g: Grant)
    requires IsRun(run) && i < j < |run.queue| && k < |run.states[0]|
    requires ValidRig(run.states[0][k]) && Unblocked(run.states[0][k])
    requires forall d :: d in run.queue ==> ValidDemand(d) && !NamesReserved(d, run.states[0][k].boards)
    requires LeftOn(run, i, k) && StartsOn(run, j, k, g)
    ensures g.shared && KeepsClear(g, run.queue[i], run.states[0][k].boards)
  {
    NoOvertaking(run, i, j, k, g);
    if !g.shared {
      AlonePassesOnlyReserved(run, i, j, k, g);
    }
  }
}

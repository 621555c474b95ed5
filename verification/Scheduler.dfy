/**
 The decision as it is made: rigs that remember what the jobs ahead wait for, and the loop over the
 queue. Each method is proved against Allocation.
*/
module Scheduler {
  import opened Names
  import opened Allocation
  import opened Choosing

  // ---- a rig ----

  /** A worker's boards and the runs on it, with what is withheld from the demands still to come. */
  class Rig {
    const name: Option<string>
    const boards: seq<Board>
    const limit: nat
    const profiles: Option<set<string>>
    const aloneInFarm: bool
    var active: seq<Grant>
    // Withheld for demands already considered: the whole rig, families, boards, resources.
    var blockedWhole: Option<string>
    var blockedTargets: set<string>
    var blockedBoards: set<string>
    var blockedResources: set<string>

    constructor (name: Option<string>, boards: seq<Board>, active: seq<Grant>, limit: int,
                 profiles: Option<set<string>>, aloneInFarm: bool)
      ensures State() == RigState(name, boards, active, if limit < 1 then 1 else limit, profiles, aloneInFarm,
                                  None, {}, {}, {})
    {
      this.name := name;
      this.boards := boards;
      this.active := active;
      this.limit := if limit < 1 then 1 else limit;
      this.profiles := profiles;
      this.aloneInFarm := aloneInFarm;
      blockedWhole, blockedTargets, blockedBoards, blockedResources := None, {}, {}, {};
    }

    ghost function State(): RigState
      reads this
    {
      RigState(name, boards, active, limit, profiles, aloneInFarm,
               blockedWhole, blockedTargets, blockedBoards, blockedResources)
    }

    method Runs(d: Demand) returns (runs: bool)
      ensures runs == RunsProfile(State(), d)
    {
      runs := profiles.None? || d.profile.None? || d.profile.value in profiles.value;
    }

    method CanTake(d: Demand) returns (eligible: bool)
      ensures eligible == Eligible(State(), d)
    {
      var runs := Runs(d);
      if !runs {
        return false;
      }
      if d.boards != [] {
        return (set id | id in d.boards) <= IdSet(boards);
      }
      if d.wholeRig {
        return boards != [] || aloneInFarm;
      }
      eligible := CanFitIdle(d, boards);
    }

    /** Add to what is withheld all that d asks of this rig, or the rig as a whole. */
    method Withhold(d: Demand, whole: bool)
      modifies this
      ensures State() == Block(old(State()), d, whole)
    {
      if whole {
        if blockedWhole.None? { blockedWhole := Some(d.jobId); }
        return;
      }
      ghost var before := blockedTargets;
      for i := 0 to |d.needs|
        invariant State() == old(State()).(blockedTargets := before + WantedFamilies(d.needs[..i], boards))
      {
        var n := d.needs[i];
        assert d.needs[..i + 1] == d.needs[..i] + [n];
        if Take(n, boards) > 0 { blockedTargets := blockedTargets + {n.target}; }
        WantedMore(d.needs[..i], n, boards);
      }
      assert d.needs[..|d.needs|] == d.needs;
      blockedBoards := blockedBoards + set id | id in d.boards;
      blockedResources := blockedResources + d.resources;
    }

    method FindSolo() returns (solo: Option<Grant>)
      ensures solo == FirstSolo(active)
    {
      for i := 0 to |active|
        invariant FirstSolo(active) == FirstSolo(active[i..])
      {
        assert active[i..][1..] == active[i + 1..];
        if !active[i].shared {
          return Some(active[i]);
        }
      }
      return None;
    }

    /** Answer d from this rig's state, changing nothing. */
    method TryGrant(d: Demand) returns (outcome: Outcome)
      requires UniqueIds(boards)
      ensures outcome == Attempt(State(), d)
    {
      var alone := d.wholeRig || !d.concurrent || limit == 1;
      if blockedWhole.Some? {
        return Waits(BehindWhole(blockedWhole.value), alone);
      }
      var solo := FindSolo();
      if solo.Some? {
        return Waits(TakenAlone(solo.value.jobId), alone);
      }
      var feasible := d.wholeRig;
      if !feasible { feasible := CanFitIdle(d, boards); }
      if alone || !feasible {
        outcome := TryAlone(d, feasible);
      } else {
        outcome := TryShared(d);
      }
    }

    method TryAlone(d: Demand, feasible: bool) returns (outcome: Outcome)
      requires UniqueIds(boards) && feasible == Feasible(State(), d)
      ensures outcome == AttemptAlone(State(), d)
    {
      if active != [] {
        return Waits(if feasible then NotIdle else NotIdleToRediscover, true);
      }
      var chosen := Chosen([]);
      if feasible { chosen := ChooseBoards(d, boards, {}, {}); }
      if chosen.Short? {
        return Waits(ShortOf(chosen.what), false);
      }
      var granted := chosen.ids;
      if d.wholeRig && d.holdsBoards { granted := BankIds(boards); }
      return Granted(Grant(d.jobId, granted, RESOURCES, false, d.wholeRig, name));
    }

    method TryShared(d: Demand) returns (outcome: Outcome)
      requires UniqueIds(boards)
      ensures outcome == AttemptShared(State(), d)
    {
      if |active| >= limit {
        return Waits(NoSlot, false);
      }
      if d.resources * HeldResources(active) != {} {
        return Waits(ResourceBusy, false);
      }
      if d.resources * blockedResources != {} {
        return Waits(ResourceAhead, false);
      }
      var chosen := ChooseBoards(d, boards, HeldBoards(active) + blockedBoards, blockedTargets);
      if chosen.Short? {
        return Waits(ShortOf(chosen.what), false);
      }
      return Granted(Grant(d.jobId, chosen.ids, d.resources, true, false, name));
    }

    method Start(g: Grant)
      modifies this`active
      ensures active == old(active) + [g]
    {
      active := active + [g];
    }
  }

  lemma WantedMore(needs: seq<Need>, n: Need, boards: seq<Board>)
    ensures WantedFamilies(needs + [n], boards) ==
            WantedFamilies(needs, boards) + (if Take(n, boards) > 0 then {n.target} else {})
  {
    assert forall x :: x in needs + [n] <==> x in needs || x == n;
  }

  // ---- one demand against the farm's rigs ----

  ghost function States(rigs: seq<Rig>): (rs: seq<RigState>)
    reads rigs
    ensures |rs| == |rigs|
    ensures forall k :: 0 <= k < |rigs| ==> rs[k] == rigs[k].State()
  {
    seq(|rigs|, k requires 0 <= k < |rigs| reads rigs => rigs[k].State())
  }

  ghost predicate Usable(rigs: seq<Rig>) {
    && (forall i, j :: 0 <= i < j < |rigs| ==> rigs[i] != rigs[j])
    && forall k :: 0 <= k < |rigs| ==> UniqueIds(rigs[k].boards)
  }

  ghost predicate Ascending(ks: seq<nat>) {
    forall i, j :: 0 <= i < j < |ks| ==> ks[i] < ks[j]
  }

  /** The demand's candidates, in order, and no others. */
  ghost predicate ListsCandidates(ks: seq<nat>, rs: seq<RigState>, d: Demand) {
    && (forall i :: 0 <= i < |ks| ==> ks[i] < |rs| && Candidate(rs, d, ks[i]))
    && (forall k :: 0 <= k < |rs| && Candidate(rs, d, k) ==> k in ks)
    && Ascending(ks)
  }

  /** The rigs the demand fits or, when it fits none, the first that runs its profile. */
  method FindCandidates(rigs: seq<Rig>, d: Demand) returns (ks: seq<nat>)
    ensures ListsCandidates(ks, States(rigs), d)
  {
    ghost var rs := States(rigs);
    ks := [];
    var first: Option<nat> := None;
    for k := 0 to |rigs|
      invariant forall i :: 0 <= i < |ks| ==> ks[i] < k && Fits(rs, d, ks[i])
      invariant forall h :: 0 <= h < k && Fits(rs, d, h) ==> h in ks
      invariant forall i, j :: 0 <= i < j < |ks| ==> ks[i] < ks[j]
      invariant first.None? ==> forall h :: 0 <= h < k ==> !Runs(rs, d, h)
      invariant first.Some? ==>
        first.value < k && Runs(rs, d, first.value) && forall h :: 0 <= h < first.value ==> !Runs(rs, d, h)
    {
      if d.rig.None? || rigs[k].name == d.rig {
        var runs := rigs[k].Runs(d);
        if runs && first.None? { first := Some(k); }
        var fits := rigs[k].CanTake(d);
        if fits { ks := ks + [k]; }
      }
    }
    FitsAreListed(ks, first, rs, d);
    if ks == [] && first.Some? {
      ks := [first.value];
    }
  }

  lemma FitsAreListed(ks: seq<nat>, first: Option<nat>, rs: seq<RigState>, d: Demand)
    requires forall i :: 0 <= i < |ks| ==> ks[i] < |rs| && Fits(rs, d, ks[i])
    requires forall h :: 0 <= h < |rs| && Fits(rs, d, h) ==> h in ks
    requires forall i, j :: 0 <= i < j < |ks| ==> ks[i] < ks[j]
    requires first.None? ==> forall h :: 0 <= h < |rs| ==> !Runs(rs, d, h)
    requires first.Some? ==>
      first.value < |rs| && Runs(rs, d, first.value) && forall h :: 0 <= h < first.value ==> !Runs(rs, d, h)
    ensures ListsCandidates(if ks == [] && first.Some? then [first.value] else ks, rs, d)
  {
    if ks != [] { assert Fits(rs, d, ks[0]); }
    forall k | 0 <= k < |rs| && Candidate(rs, d, k)
      ensures k in ks || (ks == [] && first == Some(k))
    {
      if !Fits(rs, d, k) {
        assert Runs(rs, d, k) && first.Some?;
        assert !(first.value < k);
      }
    }
  }

  lemma {:induction false} FirstGrantIs(rs: seq<RigState>, d: Demand, from: nat, k: nat)
    requires from <= k < |rs| && Candidate(rs, d, k) && Attempt(rs[k], d).Granted?
    requires forall h :: from <= h < k && Candidate(rs, d, h) ==> Attempt(rs[h], d).Waits?
    ensures FirstGrant(rs, d, from) == Some(k)
    decreases k - from
  {
    if from < k { FirstGrantIs(rs, d, from + 1, k); }
  }

  lemma {:induction false} NoGrantIs(rs: seq<RigState>, d: Demand, from: nat)
    requires from <= |rs|
    requires forall h :: from <= h < |rs| && Candidate(rs, d, h) ==> Attempt(rs[h], d).Waits?
    ensures FirstGrant(rs, d, from) == None
    decreases |rs| - from
  {
    if from < |rs| { NoGrantIs(rs, d, from + 1); }
  }

  lemma {:induction false} FirstCandidateIs(rs: seq<RigState>, d: Demand, from: nat, ks: seq<nat>)
    requires from <= |rs| && ListsCandidates(ks, rs, d)
    requires forall i :: 0 <= i < |ks| ==> from <= ks[i]
    ensures FirstCandidate(rs, d, from) == if ks == [] then None else Some(ks[0])
    decreases |rs| - from
  {
    if from < |rs| {
      if Candidate(rs, d, from) {
        assert from in ks;
      } else {
        FirstCandidateIs(rs, d, from + 1, ks);
      }
    }
  }

  /** What the first of the listed rigs, found as rs, answered: each that the demand waits. */
  ghost predicate Waited(rs: seq<RigState>, d: Demand, ks: seq<nat>, outcomes: seq<Outcome>) {
    && |outcomes| <= |ks|
    && forall i :: 0 <= i < |outcomes| ==>
      ks[i] < |rs| && outcomes[i] == Attempt(rs[ks[i]], d) && outcomes[i].Waits?
  }

  lemma WaitedMore(rs: seq<RigState>, d: Demand, ks: seq<nat>, outcomes: seq<Outcome>, outcome: Outcome)
    requires Waited(rs, d, ks, outcomes) && |outcomes| < |ks| && ks[|outcomes|] < |rs|
    requires outcome == Attempt(rs[ks[|outcomes|]], d) && outcome.Waits?
    ensures Waited(rs, d, ks, outcomes + [outcome])
  {
  }

  lemma PlacedAt(rs: seq<RigState>, d: Demand, ks: seq<nat>, outcomes: seq<Outcome>)
    requires ListsCandidates(ks, rs, d) && Waited(rs, d, ks, outcomes) && |outcomes| < |ks|
    requires Attempt(rs[ks[|outcomes|]], d).Granted?
    ensures Decide(rs, d) == Starts(ks[|outcomes|], Attempt(rs[ks[|outcomes|]], d).grant)
  {
    var k := ks[|outcomes|];
    forall h | 0 <= h < k && Candidate(rs, d, h) ensures Attempt(rs[h], d).Waits? {
      assert h in ks;
    }
    FirstGrantIs(rs, d, 0, k);
  }

  lemma PlacedNowhere(rs: seq<RigState>, d: Demand, ks: seq<nat>, outcomes: seq<Outcome>)
    requires ListsCandidates(ks, rs, d) && Waited(rs, d, ks, outcomes) && |outcomes| == |ks|
    ensures Decide(rs, d).Left?
    ensures ks != [] ==> Decide(rs, d).why == outcomes[0].why
    ensures ks == [] ==> FirstGrant(rs, d, 0).None? && FirstCandidate(rs, d, 0).None?
  {
    forall h | 0 <= h < |rs| && Candidate(rs, d, h) ensures Attempt(rs[h], d).Waits? {
      assert h in ks;
    }
    NoGrantIs(rs, d, 0);
    FirstCandidateIs(rs, d, 0, ks);
  }

  method AskOne(rigs: seq<Rig>, ghost rs: seq<RigState>, d: Demand, k: nat) returns (outcome: Outcome)
    requires Usable(rigs) && States(rigs) == rs && k < |rs|
    ensures outcome == Attempt(rs[k], d)
  {
    outcome := rigs[k].TryGrant(d);
  }

  /** Ask the listed rigs in turn until one grants the demand. */
  method Ask(rigs: seq<Rig>, ghost rs: seq<RigState>, d: Demand, ks: seq<nat>)
      returns (outcomes: seq<Outcome>, start: Option<Grant>)
    requires Usable(rigs) && States(rigs) == rs && ListsCandidates(ks, rs, d)
    ensures Waited(rs, d, ks, outcomes)
    ensures start.None? ==> |outcomes| == |ks|
    ensures start.Some? ==> |outcomes| < |ks| && Decide(rs, d) == Starts(ks[|outcomes|], start.value)
  {
    outcomes := [];
    for m := 0 to |ks|
      invariant |outcomes| == m && Waited(rs, d, ks, outcomes)
    {
      var outcome := AskOne(rigs, rs, d, ks[m]);
      if outcome.Granted? {
        PlacedAt(rs, d, ks, outcomes);
        return outcomes, Some(outcome.grant);
      }
      WaitedMore(rs, d, ks, outcomes, outcome);
      outcomes := outcomes + [outcome];
    }
    return outcomes, None;
  }

  method StartOn(rigs: seq<Rig>, ghost rs: seq<RigState>, d: Demand, k: nat, g: Grant)
    requires Usable(rigs) && States(rigs) == rs
    requires k < |rigs| && Decide(rs, d) == Starts(k, g)
    modifies rigs
    ensures States(rigs) == Advance(rs, d)
  {
    rigs[k].Start(g);
  }

  /** Start the demand on the first candidate that grants it; otherwise each keeps what it waits for. */
  method Place(rigs: seq<Rig>, d: Demand) returns (v: Verdict)
    requires Usable(rigs)
    modifies rigs
    ensures v == Decide(old(States(rigs)), d)
    ensures States(rigs) == Advance(old(States(rigs)), d)
  {
    ghost var rs := States(rigs);
    var ks := FindCandidates(rigs, d);
    var outcomes, start := Ask(rigs, rs, d, ks);
    if start.Some? {
      StartOn(rigs, rs, d, ks[|outcomes|], start.value);
      return Starts(ks[|outcomes|], start.value);
    }
    PlacedNowhere(rs, d, ks, outcomes);
    KeptByAll(rs, d, ks, outcomes);
    if ks == [] {
      var why := WhyNoCandidate(rigs, d);
      return Left(why);
    }
    WithholdAll(rigs, rs, d, ks, outcomes);
    return Left(outcomes[0].why);
  }

  method WhyNoCandidate(rigs: seq<Rig>, d: Demand) returns (why: Reason)
    requires FirstGrant(States(rigs), d, 0).None? && FirstCandidate(States(rigs), d, 0).None?
    ensures Decide(States(rigs), d) == Left(why)
  {
    if d.rig.None? {
      return NoWorkerRunsIt;
    }
    for k := 0 to |rigs|
      invariant forall h :: 0 <= h < k ==> !OfferedTo(States(rigs)[h], d)
    {
      if rigs[k].name == d.rig {
        assert OfferedTo(States(rigs)[k], d);
        return NotRunThere;
      }
    }
    return NotConnected;
  }

  ghost function Among(ks: seq<nat>): set<nat> {
    set k | k in ks
  }

  lemma NextIsNew(ks: seq<nat>, m: nat)
    requires Ascending(ks) && m < |ks|
    ensures ks[m] !in Among(ks[..m]) && Among(ks[..m + 1]) == Among(ks[..m]) + {ks[m]}
  {
    assert ks[..m + 1] == ks[..m] + [ks[m]];
  }

  /** Each listed rig, found as rs, keeps what the demand waits for there, and no other rig changes. */
  method WithholdAll(rigs: seq<Rig>, ghost rs: seq<RigState>, d: Demand, ks: seq<nat>, outcomes: seq<Outcome>)
    requires Usable(rigs) && States(rigs) == rs
    requires Ascending(ks) && Waited(rs, d, ks, outcomes) && |outcomes| == |ks|
    modifies rigs
    ensures States(rigs) == KeptBy(rs, d, Among(ks))
  {
    for m := 0 to |ks|
      invariant States(rigs) == KeptBy(rs, d, Among(ks[..m]))
    {
      NextIsNew(ks, m);
      WithholdOn(rigs, rs, d, ks[m], outcomes[m].whole, Among(ks[..m]));
    }
    assert ks[..|ks|] == ks;
  }

  /** One rig keeps what the demand waits for, whatever the others already do. */
  method WithholdOn(rigs: seq<Rig>, ghost rs: seq<RigState>, d: Demand, k: nat, whole: bool, ghost done: set<nat>)
    requires Usable(rigs) && k < |rigs| == |rs| && k !in done
    requires Attempt(rs[k], d).Waits? && whole == Attempt(rs[k], d).whole
    requires States(rigs) == KeptBy(rs, d, done)
    modifies rigs[k]
    ensures States(rigs) == KeptBy(rs, d, done + {k})
  {
    assert rigs[k].State() == rs[k];
    rigs[k].Withhold(d, whole);
  }

  /** The rigs once those in `done` keep what d waits for. */
  ghost function KeptBy(rs: seq<RigState>, d: Demand, done: set<nat>): (kept: seq<RigState>)
    ensures |kept| == |rs|
  {
    seq(|rs|, h requires 0 <= h < |rs| =>
      if h in done && Attempt(rs[h], d).Waits? then Block(rs[h], d, Attempt(rs[h], d).whole) else rs[h])
  }

  lemma KeptByAll(rs: seq<RigState>, d: Demand, ks: seq<nat>, outcomes: seq<Outcome>)
    requires ListsCandidates(ks, rs, d) && Waited(rs, d, ks, outcomes) && |outcomes| == |ks| && Decide(rs, d).Left?
    ensures KeptBy(rs, d, Among(ks)) == Advance(rs, d)
    ensures ks == [] ==> rs == Advance(rs, d)
  {
    forall h | 0 <= h < |rs| ensures KeptBy(rs, d, Among(ks))[h] == AdvanceRig(rs, d, h) {
      assert h in Among(ks) <==> Candidate(rs, d, h);
    }
  }

  // ---- the queue ----

  method CollectNames(c: Config, running: seq<Grant>) returns (names: seq<Option<string>>)
    ensures names == RigNames(c, running)
  {
    var all := Mentioned(c, running);
    names := [];
    for i := 0 to |all|
      invariant Adjoin([], all) == Adjoin(names, all[i..])
    {
      assert all[i..][0] == all[i] && all[i..][1..] == all[i + 1..];
      if all[i] !in names { names := names + [all[i]]; }
    }
    if names == [] { names := [None]; }
  }

  method MakeRigs(c: Config, running: seq<Grant>) returns (rigs: seq<Rig>)
    requires UniqueIds(c.boards)
    ensures fresh(rigs) && Usable(rigs) && States(rigs) == InitialRigs(c, running)
  {
    var names := CollectNames(c, running);
    rigs := [];
    for k := 0 to |names|
      invariant |rigs| == k && fresh(rigs) && Usable(rigs)
      invariant forall h :: 0 <= h < k ==> rigs[h].State() == InitialRig(c, running, names[h], |names| == 1)
    {
      var name := names[k];
      var profiles := if name in c.profiles then Some(c.profiles[name]) else None;
      var rig := new Rig(name, BoardsOn(c.boards, name), RunningOn(running, name),
                         LimitOf(c.limits, c.limit, name), profiles, |names| == 1);
      BoardsStayUnique(c.boards, name);
      rigs := rigs + [rig];
    }
  }

  lemma {:induction false} BoardsStayUnique(boards: seq<Board>, w: Option<string>)
    requires UniqueIds(boards)
    ensures UniqueIds(BoardsOn(boards, w)) && forall b :: b in BoardsOn(boards, w) ==> b in boards
  {
    if boards != [] {
      BoardsStayUnique(boards[1..], w);
      assert forall b :: b in BoardsOn(boards[1..], w) ==> b.id != boards[0].id;
    }
  }

  lemma OneMore(vs: seq<Verdict>, v: Verdict, queue: seq<Demand>)
    requires |vs| + 1 <= |queue|
    ensures StartsIn(vs + [v]) == StartsIn(vs) + Started(v)
    ensures WaitingIn(vs + [v], queue) ==
            if v.Starts? then WaitingIn(vs, queue) else WaitingIn(vs, queue)[queue[|vs|].jobId := v.why]
  {
    assert (vs + [v])[..|vs|] == vs;
  }

  lemma VerdictsExtend(rs: seq<RigState>, queue: seq<Demand>, i: nat)
    requires i < |queue|
    ensures Verdicts(rs, queue)[..i + 1] == Verdicts(rs, queue)[..i] + [VerdictAt(rs, queue, i)]
  {
  }

  /** Place the i-th demand on the rigs as those before it left them, and note what became of it. */
  method Consider(rigs: seq<Rig>, ghost rs: seq<RigState>, queue: seq<Demand>, i: nat, plan: Plan)
      returns (next: Plan)
    requires i < |queue| && Usable(rigs) && States(rigs) == RigsAt(rs, queue, i)
    requires plan == Plan(StartsIn(Verdicts(rs, queue)[..i]), WaitingIn(Verdicts(rs, queue)[..i], queue))
    modifies rigs
    ensures States(rigs) == RigsAt(rs, queue, i + 1)
    ensures next == Plan(StartsIn(Verdicts(rs, queue)[..i + 1]), WaitingIn(Verdicts(rs, queue)[..i + 1], queue))
  {
    var v := Place(rigs, queue[i]);
    VerdictsExtend(rs, queue, i);
    OneMore(Verdicts(rs, queue)[..i], v, queue);
    match v
    case Starts(_, g) => next := plan.(start := plan.start + [g]);
    case Left(why) => next := plan.(waiting := plan.waiting[queue[i].jobId := why]);
  }

  /** Consider the demands one by one; the plan is that of Allocation.PlanOf. */
  method MakePlan(queue: seq<Demand>, c: Config, running: seq<Grant>, paused: bool) returns (plan: Plan)
    requires UniqueIds(c.boards)
    ensures plan == PlanOf(queue, c, running, paused)
  {
    if paused {
      return Plan([], PausedWaiting(queue));
    }
    var rigs := MakeRigs(c, running);
    ghost var vs := Verdicts(InitialRigs(c, running), queue);
    plan := Plan([], map[]);
    for i := 0 to |queue|
      invariant fresh(rigs) && Usable(rigs) && States(rigs) == RigsAt(InitialRigs(c, running), queue, i)
      invariant plan == Plan(StartsIn(vs[..i]), WaitingIn(vs[..i], queue))
    {
      plan := Consider(rigs, InitialRigs(c, running), queue, i, plan);
    }
    assert vs[..|queue|] == vs;
  }
}

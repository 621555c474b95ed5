/**
 Exactly where a run starts past a demand that was queued first, over every farm and every queue the
 service can make.
*/
module Jumping {
  import opened Names
  import opened Allocation
  import opened Rules
  import opened Safety
  import S = Service

  // ---- starting past an earlier demand ----

  /** The j-th demand starts with grant g on rig k, for which the i-th waits: alone, or with what it waits for. */
  ghost predicate Passes(run: Run, i: nat, j: nat, k: nat, g: Grant) {
    && Sized(run) && i < j < |run.queue| && k < |run.states[0]|
    && LeftOn(run, i, k) && StartsOn(run, j, k, g)
    && (!g.shared || !KeepsClear(g, run.queue[i], run.states[0][k].boards))
  }

  /** And what it takes is what the i-th waits for. */
  ghost predicate Jumps(run: Run, i: nat, j: nat, k: nat, g: Grant) {
    Passes(run, i, j, k, g) && !KeepsClear(g, run.queue[i], run.states[0][k].boards)
  }

  ghost predicate IsMade(d: Demand, profiles: map<string, S.Profile>) {
    exists id, kind, request :: d == S.DemandOf(id, kind, request, profiles)
  }

  /** A queue of the service: the demands of different jobs, made with one table of profiles. */
  ghost predicate MadeQueue(queue: seq<Demand>, profiles: map<string, S.Profile>) {
    OneEach(queue) && forall d :: d in queue ==> IsMade(d, profiles)
  }

  /** With some queue, the plan lets something start on rig k past a demand that waits for it. */
  ghost predicate MayBePassed(c: Config, running: seq<Grant>, k: nat) {
    exists queue, profiles, i: nat, j: nat, g ::
      MadeQueue(queue, profiles) && Passes(PlanRun(queue, c, running), i, j, k, g)
  }

  ghost predicate MayBeJumped(c: Config, running: seq<Grant>, k: nat) {
    exists queue, profiles, i: nat, j: nat, g ::
      MadeQueue(queue, profiles) && Jumps(PlanRun(queue, c, running), i, j, k, g)
  }

  /** Nothing runs on the rig, one of its boards is reserved, and there is a profile it runs. */
  ghost predicate Exposed(r: RigState) {
    && r.active == []
    && (exists b :: b in r.boards && b.hold == Reserved)
    && (r.profiles.None? || r.profiles.value != {})
  }

  // ---- only there ----

  lemma MadeIsValid(d: Demand, profiles: map<string, S.Profile>)
    requires IsMade(d, profiles)
    ensures ValidDemand(d) && (d.boards != [] ==> d.profile.Some?)
  {
    var id, kind, request :| d == S.DemandOf(id, kind, request, profiles);
    S.DemandIsValid(id, kind, request, profiles);
  }

  lemma PassedIsExposed(run: Run, i: nat, j: nat, k: nat, g: Grant, profiles: map<string, S.Profile>)
    requires IsRun(run) && MadeQueue(run.queue, profiles) && Passes(run, i, j, k, g)
    requires ValidRig(run.states[0][k]) && Unblocked(run.states[0][k])
    ensures Exposed(run.states[0][k])
  {
    forall d | d in run.queue ensures ValidDemand(d) && (d.boards != [] ==> d.profile.Some?) {
      MadeIsValid(d, profiles);
    }
    NoOvertaking(run, i, j, k, g);
    var h := PassedNamesReserved(run, i, j, k, g);
    RigsGrow(run, 0, h, k);
    RigsGrow(run, 0, j, k);
    AloneStartsIff(run.states[j][k], run.queue[j]);
    assert run.queue[h] in run.queue;
    assert RunsProfile(run.states[h][k], run.queue[h]);
  }

  lemma PassedNamesReserved(run: Run, i: nat, j: nat, k: nat, g: Grant) returns (h: nat)
    requires IsRun(run) && Passes(run, i, j, k, g) && !g.shared
    requires forall d :: d in run.queue ==> ValidDemand(d)
    requires ValidRig(run.states[0][k]) && Unblocked(run.states[0][k])
    ensures h < |run.queue| && LeftOn(run, h, k) && run.queue[h].boards != []
    ensures exists b :: b in run.states[0][k].boards && b.hold == Reserved
  {
    AlonePassesOnlyReserved(run, i, j, k, g);
    h :| 0 <= h <= i && LeftOn(run, h, k) && NamesReserved(run.queue[h], run.states[0][k].boards);
  }

  // ---- and there ----

  /** A profile that uses the gateway. */
  function Using(name: string): map<string, S.Profile> {
    map[name := S.Profile(name, true, false, [], {"gateway"})]
  }

  /** Waits for one named board of one rig, and for the gateway. */
  function Naming(name: string, board: string, rig: Option<string>): Demand {
    S.DemandOf(Dots(0), S.SUITE, S.Request(name, [board], rig), Using(name))
  }

  /** A discovery, which takes a whole rig. */
  function Discovery(n: nat): Demand {
    S.Bare(Dots(n), false)
  }

  function Witness(name: string, board: string, rig: Option<string>, rigs: nat): (queue: seq<Demand>)
    ensures |queue| == rigs + 1 && queue[0] == Naming(name, board, rig)
    ensures forall t :: 1 <= t <= rigs ==> queue[t] == Discovery(t)
  {
    [Naming(name, board, rig)] + seq(rigs, t requires 0 <= t < rigs => Discovery(t + 1))
  }

  lemma NamingIs(name: string, board: string, rig: Option<string>)
    ensures Naming(name, board, rig) == Demand(Dots(0), false, true, [board], [], {"gateway"}, true, Some(name), rig)
  {
    assert [board][1..] == [];
    assert S.Once([]) == [] && Sorted([]) == [];
    assert S.Once([board]) == [board] + S.Once([]);
    assert Sorted([board]) == Insert(board, Sorted([]));
  }

  lemma WitnessIsMade(name: string, board: string, rig: Option<string>, rigs: nat)
    ensures MadeQueue(Witness(name, board, rig, rigs), Using(name))
  {
    var queue := Witness(name, board, rig, rigs);
    NamingIs(name, board, rig);
    forall t | 0 <= t < |queue| ensures IsMade(queue[t], Using(name)) && |queue[t].jobId| == t {
      if t > 0 {
        assert queue[t] == S.DemandOf(Dots(t), "inventory", S.Request(name, [], rig), Using(name));
      }
    }
  }

  /** A board is on one rig. */
  lemma OnOneRig(c: Config, running: seq<Grant>, k: nat, h: nat, id: string)
    requires UniqueIds(c.boards) && k < |InitialRigs(c, running)| && h < |InitialRigs(c, running)|
    requires id in IdSet(InitialRigs(c, running)[k].boards) && id in IdSet(InitialRigs(c, running)[h].boards)
    ensures h == k
  {
    var rs := InitialRigs(c, running);
    var a: Board :| a in rs[k].boards && a.id == id;
    var b: Board :| b in rs[h].boards && b.id == id;
    BoardsOnMember(c.boards, rs[k].name, a);
    BoardsOnMember(c.boards, rs[h].name, b);
    RigsAreWorkers(c, running);
  }

  lemma NamingAttempt(r: RigState, name: string, id: string)
    requires ValidRig(r) && Unblocked(r) && r.active == [] && IsReserved(r.boards, id)
    ensures Attempt(r, Naming(name, id, r.name)) == Waits(ShortOf(id), false)
    ensures (set x | x in Naming(name, id, r.name).boards) == {id}
  {
    NamingIs(name, id, r.name);
    var d := Naming(name, id, r.name);
    assert d.boards[0] == id;
    assert FirstTaken(d.boards, r.boards, {}) == Some(id);
    assert FirstTaken(d.boards, r.boards, HeldBoards(r.active) + r.blockedBoards) == Some(id);
  }

  /** The demand that names the reserved board waits for its rig, which stays idle and open to whole-rig demands. */
  lemma NamingWaits(c: Config, running: seq<Grant>, k: nat, name: string, id: string)
    requires UniqueIds(c.boards) && k < |InitialRigs(c, running)|
    requires InitialRigs(c, running)[k].active == [] && IsReserved(InitialRigs(c, running)[k].boards, id)
    requires RunsProfile(InitialRigs(c, running)[k], Naming(name, id, InitialRigs(c, running)[k].name))
    ensures var rs := InitialRigs(c, running); var d := Naming(name, id, rs[k].name);
      && Decide(rs, d).Left? && Candidate(rs, d, k)
      && Advance(rs, d)[k].active == [] && Advance(rs, d)[k].blockedWhole.None?
      && Advance(rs, d)[k].boards == rs[k].boards
  {
    var rs := InitialRigs(c, running);
    var d := Naming(name, id, rs[k].name);
    NamingIs(name, id, rs[k].name);
    PlanIsRun([], c, running);
    NamingAttempt(rs[k], name, id);
    assert Fits(rs, d, k);
    forall h | 0 <= h < |rs| && Candidate(rs, d, h) ensures h == k {
      assert id in (set x | x in d.boards);
      OnOneRig(c, running, k, h, id);
    }
    LeftStep(rs, d, k);
  }

  ghost function IdleRigs(rs: seq<RigState>): set<nat> {
    set h | 0 <= h < |rs| && rs[h].active == []
  }

  lemma {:induction false} FewIdle(rs: seq<RigState>)
    ensures |IdleRigs(rs)| <= |rs|
  {
    if rs != [] {
      var n := |rs| - 1;
      FewIdle(rs[..n]);
      assert IdleRigs(rs) <= IdleRigs(rs[..n]) + {n};
      Fewer(IdleRigs(rs), IdleRigs(rs[..n]) + {n});
    }
  }

  lemma Fewer(a: set<nat>, b: set<nat>)
    requires a <= b
    ensures |a| <= |b|
  {
    assert b == a + (b - a);
  }

  /** Rig k would start a discovery. */
  ghost predicate Open(rs: seq<RigState>, k: nat) {
    k < |rs| && rs[k].active == [] && rs[k].blockedWhole.None? && rs[k].boards != []
  }

  lemma DiscoveryGrant(r: RigState, n: nat)
    requires Attempt(r, Discovery(n)).Granted?
    ensures r.active == [] && !Attempt(r, Discovery(n)).grant.shared
    ensures Attempt(r, Discovery(n)).grant.resources == RESOURCES
  {
  }

  /** A discovery starts: on this rig, or on another that was idle. */
  lemma DiscoveryStarts(rs: seq<RigState>, k: nat, n: nat)
    requires Open(rs, k)
    ensures Decide(rs, Discovery(n)).Starts?
    ensures var v := Decide(rs, Discovery(n));
      && !v.grant.shared && v.grant.resources == RESOURCES
      && (v.rig != k ==> Open(Advance(rs, Discovery(n)), k))
      && v.rig in IdleRigs(rs) && IdleRigs(Advance(rs, Discovery(n))) == IdleRigs(rs) - {v.rig}
  {
    var d := Discovery(n);
    assert Choose(d, rs[k].boards, {}, {}) == Chosen([]);
    assert Fits(rs, d, k) && Attempt(rs[k], d).Granted?;
    if FirstGrant(rs, d, 0).None? { NoneGranted(rs, d, 0, k); }
    DiscoveryGrant(rs[Decide(rs, d).rig], n);
  }

  /** As many discoveries as there are idle rigs: one of them starts on rig k. */
  lemma {:induction false} OneGetsThere(run: Run, t: nat, k: nat) returns (j: nat, g: Grant)
    requires IsRun(run) && t <= |run.queue| && Open(run.states[t], k)
    requires forall u :: t <= u < |run.queue| ==> run.queue[u] == Discovery(u)
    requires |IdleRigs(run.states[t])| <= |run.queue| - t
    ensures t <= j < |run.queue| && StartsOn(run, j, k, g) && !g.shared && g.resources == RESOURCES
    decreases |run.queue| - t
  {
    assert k in IdleRigs(run.states[t]);
    assert t < |run.queue|;
    assert Step(run, t);
    DiscoveryStarts(run.states[t], k, t);
    var v := Decide(run.states[t], run.queue[t]);
    if v.rig == k {
      j, g := t, v.grant;
    } else {
      j, g := OneGetsThere(run, t + 1, k);
    }
  }

  lemma WitnessJumps(c: Config, running: seq<Grant>, k: nat, name: string, id: string)
    requires UniqueIds(c.boards) && k < |InitialRigs(c, running)|
    requires InitialRigs(c, running)[k].active == [] && IsReserved(InitialRigs(c, running)[k].boards, id)
    requires RunsProfile(InitialRigs(c, running)[k], Naming(name, id, InitialRigs(c, running)[k].name))
    ensures MayBeJumped(c, running, k)
  {
    var rs := InitialRigs(c, running);
    var queue := Witness(name, id, rs[k].name, |rs|);
    var run := PlanRun(queue, c, running);
    WitnessIsMade(name, id, rs[k].name, |rs|);
    PlanIsRun(queue, c, running);
    NamingWaits(c, running, k, name, id);
    assert Step(run, 0);
    FewIdle(run.states[1]);
    var j, g := OneGetsThere(run, 1, k);
    NamingIs(name, id, rs[k].name);
    assert "gateway" in g.resources && "gateway" in queue[0].resources;
    assert Jumps(run, 0, j, k, g);
  }

  lemma ExposedIsJumped(c: Config, running: seq<Grant>, k: nat)
    requires UniqueIds(c.boards) && k < |InitialRigs(c, running)| && Exposed(InitialRigs(c, running)[k])
    ensures MayBeJumped(c, running, k)
  {
    var r := InitialRigs(c, running)[k];
    var b: Board :| b in r.boards && b.hold == Reserved;
    var name := if r.profiles.None? then "" else var p :| p in r.profiles.value; p;
    NamingIs(name, b.id, r.name);
    WitnessJumps(c, running, k, name, b.id);
  }

  /**
   Exactly where something starts past a demand that was queued first: some queue makes it happen on a
   rig of a farm -- and then even so that it takes what that demand waits for -- if and only if nothing
   runs on the rig, one of its boards is reserved, and it runs some profile.
  */
  lemma JumpedIffReserved(c: Config, running: seq<Grant>, k: nat)
    requires UniqueIds(c.boards) && k < |InitialRigs(c, running)|
    ensures MayBePassed(c, running, k) <==> Exposed(InitialRigs(c, running)[k])
    ensures MayBeJumped(c, running, k) <==> Exposed(InitialRigs(c, running)[k])
  {
    if MayBePassed(c, running, k) {
      var queue, profiles, i: nat, j: nat, g :|
        MadeQueue(queue, profiles) && Passes(PlanRun(queue, c, running), i, j, k, g);
      PlanIsRun(queue, c, running);
      PassedIsExposed(PlanRun(queue, c, running), i, j, k, g, profiles);
    }
    if Exposed(InitialRigs(c, running)[k]) { ExposedIsJumped(c, running, k); }
    if MayBeJumped(c, running, k) {
      var queue, profiles, i: nat, j: nat, g :|
        MadeQueue(queue, profiles) && Jumps(PlanRun(queue, c, running), i, j, k, g);
      assert Passes(PlanRun(queue, c, running), i, j, k, g);
    }
  }
}

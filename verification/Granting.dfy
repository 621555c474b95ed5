/** What a grant holds, in terms of the demand it was made for: of one attempt, and of every plan. */
module Granting {
  import opened Names
  import opened Allocation
  import opened Pools
  import opened Rules
  import opened Safety
  import opened Feasibility

  // ---- boards that meet needs ----

  ghost predicate HasId(boards: set<Board>, id: string) {
    exists b :: b in boards && b.id == id
  }

  ghost predicate InSome(given: seq<set<Board>>, id: string) {
    exists k :: 0 <= k < |given| && HasId(given[k], id)
  }

  ghost predicate AreIdsOf(ids: seq<string>, given: seq<set<Board>>) {
    forall id :: id in ids <==> InSome(given, id)
  }

  /** These are the ids of boards that meet the needs, no board meeting two. */
  ghost predicate Meets(needs: seq<Need>, boards: seq<Board>, ids: seq<string>) {
    exists given :: Assigns(needs, BoardSet(boards), given) && AreIdsOf(ids, given)
  }

  lemma IdsOfMore(first: seq<Board>, ids: seq<string>, given: seq<set<Board>>)
    requires AreIdsOf(ids, given)
    ensures AreIdsOf(IdSeq(first) + ids, [BoardSet(first)] + given)
  {
    var all := [BoardSet(first)] + given;
    forall id ensures id in IdSeq(first) + ids <==> InSome(all, id) {
      IdSeqMember(first, id);
      if b: Board :| b in first && b.id == id { assert b in all[0] && HasId(all[0], id); }
      if InSome(given, id) {
        var k :| 0 <= k < |given| && HasId(given[k], id);
        assert all[k + 1] == given[k];
      }
      if InSome(all, id) {
        var k :| 0 <= k < |all| && HasId(all[k], id);
        if k > 0 { assert given[k - 1] == all[k]; }
      }
    }
  }

  /** What is picked for needs meets them. */
  lemma {:induction false} PicksMeet(needs: seq<Need>, pool: seq<Board>, busy: set<string>, ahead: set<string>)
    requires UniqueIds(pool) && PickNeeds(needs, pool, busy, ahead).Picked?
    ensures Meets(needs, pool, FlatIds(PickNeeds(needs, pool, busy, ahead).each))
  {
    if needs == [] {
      assert Assigns(needs, BoardSet(pool), []) && AreIdsOf([], []);
    } else {
      var n, wanted := needs[0], Take(needs[0], pool);
      var each := PickNeeds(needs, pool, busy, ahead).each;
      var first := if wanted == 0 then [] else First(pool, n, busy, wanted);
      var rest := if wanted == 0 then pool else Rest(pool, n, busy, wanted);
      FirstPart(n, pool, busy, wanted, first, rest);
      PicksMeet(needs[1..], rest, busy, ahead);
      var given :| Assigns(needs[1..], BoardSet(rest), given) && AreIdsOf(FlatIds(each[1..]), given);
      MeetsMore(needs, pool, first, rest, FlatIds(each[1..]), given);
      assert each[0] == first;
    }
  }

  lemma FirstPart(n: Need, pool: seq<Board>, busy: set<string>, wanted: nat, first: seq<Board>, rest: seq<Board>)
    requires UniqueIds(pool) && wanted == Take(n, pool) && (wanted == 0 || Count(pool, n, busy) >= wanted)
    requires first == if wanted == 0 then [] else First(pool, n, busy, wanted)
    requires rest == if wanted == 0 then pool else Rest(pool, n, busy, wanted)
    ensures UniqueIds(rest) && BoardSet(first) <= BoardSet(pool) && BoardSet(rest) <= BoardSet(pool)
    ensures BoardSet(first) !! BoardSet(rest)
    ensures forall b :: b in first ==> Matches(b, n)
    ensures n.optional || |BoardSet(first)| == n.count
  {
    if wanted > 0 {
      RestUnique(pool, n, busy, wanted);
      FirstLength(pool, n, busy, wanted);
      SetSize(first);
      forall b | b in first ensures b in pool && Matches(b, n) { FirstIsFree(pool, n, busy, wanted, b); }
      forall b | b in rest ensures b in pool { RestSubset(pool, n, busy, wanted, b); }
    }
  }

  lemma MeetsMore(
      needs: seq<Need>, pool: seq<Board>, first: seq<Board>, rest: seq<Board>, ids: seq<string>, given: seq<set<Board>>)
    requires needs != [] && Assigns(needs[1..], BoardSet(rest), given) && AreIdsOf(ids, given)
    requires BoardSet(first) <= BoardSet(pool) && BoardSet(rest) <= BoardSet(pool) && BoardSet(first) !! BoardSet(rest)
    requires forall b :: b in first ==> Matches(b, needs[0])
    requires needs[0].optional || |BoardSet(first)| == needs[0].count
    ensures Meets(needs, pool, IdSeq(first) + ids)
  {
    Prefix(needs, BoardSet(pool), BoardSet(first), given, BoardSet(rest));
    IdsOfMore(first, ids, given);
    assert Assigns(needs, BoardSet(pool), [BoardSet(first)] + given);
  }

  // ---- one attempt ----

  ghost predicate Connected(boards: seq<Board>, id: string) {
    exists b :: b in boards && b.id == id
  }

  /** The boards connected could meet the demand: all it names are there, or its needs fit. */
  ghost predicate CanMeet(d: Demand, boards: seq<Board>) {
    if d.boards != [] then forall id :: id in d.boards ==> Connected(boards, id) else FitsNeeds(d.needs, boards)
  }

  lemma FitsIfItCanMeet(d: Demand, boards: seq<Board>)
    ensures FitsIdle(d, boards) <==> CanMeet(d, boards)
  {
    forall id ensures id in IdSet(boards) <==> Connected(boards, id) {}
  }

  /** The ids stand in the order in which the inventory lists their boards. */
  ghost predicate AsListed(ids: seq<string>, boards: seq<Board>) {
    forall a, b :: 0 <= a < b < |ids| ==> ListedBefore(boards, ids[a], ids[b])
  }

  ghost predicate ListedBefore(boards: seq<Board>, x: string, y: string) {
    exists i, j :: 0 <= i < j < |boards| && boards[i].id == x && boards[j].id == y
  }

  lemma {:induction false} BankAsListed(boards: seq<Board>)
    ensures AsListed(BankIds(boards), boards)
  {
    if boards != [] {
      var ids, rest := BankIds(boards), BankIds(boards[1..]);
      BankAsListed(boards[1..]);
      forall a, b | 0 <= a < b < |ids| ensures ListedBefore(boards, ids[a], ids[b]) {
        var n := |ids| - |rest|;
        if a < n {
          BankMember(boards[1..], ids[b]);
          assert ids[b] == rest[b - 1];
          var y: Board :| y in boards[1..] && y.id == ids[b];
          var j :| 0 <= j < |boards[1..]| && boards[1..][j] == y;
          assert boards[0].id == ids[a] && boards[j + 1].id == ids[b];
        } else {
          assert ListedBefore(boards[1..], rest[a - n], rest[b - n]);
          var i, j :| 0 <= i < j < |boards[1..]| && boards[1..][i].id == ids[a] && boards[1..][j].id == ids[b];
          assert boards[i + 1].id == ids[a] && boards[j + 1].id == ids[b];
        }
      }
    }
  }

  /** The boards a demand is to have of a rig with these. */
  ghost predicate RightBoards(ids: seq<string>, d: Demand, boards: seq<Board>) {
    Distinct(ids) &&
    if d.wholeRig then
      && AsListed(ids, boards)
      && forall id :: id in ids <==> d.holdsBoards && exists b :: b in boards && b.id == id && b.hold == Unheld
    else if !CanMeet(d, boards) then ids == []
    else if d.boards != [] then Increasing(ids) && forall id :: id in ids <==> id in d.boards
    else Meets(d.needs, boards, ids)
  }

  /**
   Grant g is what demand d asks of a rig with these boards: run beside others it holds the resources d
   declares, and only if d is concurrent and the rig can meet it; alone, it holds all the resources.
  */
  ghost predicate GrantFits(g: Grant, d: Demand, boards: seq<Board>) {
    && g.jobId == d.jobId
    && RightBoards(g.boards, d, boards)
    && (if g.shared
        then g.resources == d.resources && !g.wholeRig && d.concurrent && !d.wholeRig && CanMeet(d, boards)
        else g.resources == RESOURCES && g.wholeRig == d.wholeRig)
  }

  lemma ChosenAreRight(d: Demand, boards: seq<Board>, busy: set<string>, ahead: set<string>)
    requires UniqueIds(boards) && !d.wholeRig && FitsIdle(d, boards) && Choose(d, boards, busy, ahead).Chosen?
    ensures RightBoards(Choose(d, boards, busy, ahead).ids, d, boards)
  {
    ChoiceIsSound(d, boards, busy, ahead);
    FitsIfItCanMeet(d, boards);
    if d.boards == [] {
      PicksMeet(d.needs, boards, busy, ahead);
    } else {
      NamedDistinct(d.boards, boards);
      SortedIncreasing(NamedIds(d.boards, boards));
    }
  }

  lemma BankIsRight(d: Demand, boards: seq<Board>)
    requires UniqueIds(boards) && d.wholeRig
    ensures d.holdsBoards ==> RightBoards(BankIds(boards), d, boards)
    ensures !d.holdsBoards ==> RightBoards([], d, boards)
  {
    BankDistinct(boards);
    BankAsListed(boards);
    forall id ensures id in BankIds(boards) <==> exists b :: b in boards && b.id == id && b.hold == Unheld {
      BankMember(boards, id);
    }
  }

  /** Whatever a rig grants is what the demand asks of it. */
  lemma AttemptFits(r: RigState, d: Demand)
    requires ValidRig(r) && ValidDemand(d) && Attempt(r, d).Granted?
    ensures GrantFits(Attempt(r, d).grant, d, r.boards)
    ensures Attempt(r, d).grant.shared ==> r.limit > 1
  {
    FitsIfItCanMeet(d, r.boards);
    if d.wholeRig {
      BankIsRight(d, r.boards);
    } else if FitsIdle(d, r.boards) {
      if Attempt(r, d).grant.shared {
        ChosenAreRight(d, r.boards, HeldBoards(r.active) + r.blockedBoards, r.blockedTargets);
      } else {
        ChosenAreRight(d, r.boards, {}, {});
      }
    }
  }

  // ---- a plan ----

  /** The demand may go to the worker: it names no other rig, and the worker runs its profile. */
  ghost predicate MayGo(d: Demand, w: Option<string>, c: Config) {
    && (d.rig.Some? ==> w == d.rig)
    && (w in c.profiles && d.profile.Some? ==> d.profile.value in c.profiles[w])
  }

  /** The worker may run more than one at once. */
  ghost predicate MayShareOn(c: Config, w: Option<string>) {
    exists n :: Allows(c, w, n) && n > 1
  }

  lemma LimitLetsShare(c: Config, w: Option<string>)
    requires LimitOf(c.limits, c.limit, w) > 1
    ensures MayShareOn(c, w)
  {
    LimitIsAllowed(c.limits, c.limit, w);
    assert Allows(c, w, LimitOf(c.limits, c.limit, w));
  }

  /** Grant g was made for d from configuration c. */
  ghost predicate MadeFor(g: Grant, d: Demand, c: Config) {
    && GrantFits(g, d, BoardsOn(c.boards, g.worker)) && MayGo(d, g.worker, c)
    && (g.shared ==> MayShareOn(c, g.worker))
  }

  /** Every grant of a plan was made for its own job's demand. */
  lemma PlanGrantsWhatIsAsked(queue: seq<Demand>, c: Config, running: seq<Grant>, paused: bool, g: Grant)
    requires UniqueIds(c.boards) && forall d :: d in queue ==> ValidDemand(d)
    requires g in PlanOf(queue, c, running, paused).start
    ensures exists d :: d in queue && MadeFor(g, d, c)
    ensures OneEach(queue) ==> forall d :: d in queue && d.jobId == g.jobId ==> MadeFor(g, d, c)
  {
    var run := PlanRun(queue, c, running);
    PlanIsRun(queue, c, running);
    PlanStarts(queue, c, running);
    var t, k := StartsComeFrom(run, |queue|, g);
    StartIsMadeFor(run, t, k, g, c, running);
    assert queue[t] in queue && MadeFor(g, queue[t], c);
    if OneEach(queue) {
      forall d | d in queue && d.jobId == g.jobId ensures d == queue[t] {
        var i :| 0 <= i < |queue| && queue[i] == d;
      }
    }
  }

  lemma StartIsMadeFor(run: Run, t: nat, k: nat, g: Grant, c: Config, running: seq<Grant>)
    requires UniqueIds(c.boards) && IsRun(run) && run.states[0] == InitialRigs(c, running)
    requires t < |run.queue| && ValidDemand(run.queue[t]) && k < |run.states[0]| && StartsOn(run, t, k, g)
    ensures MadeFor(g, run.queue[t], c)
  {
    InitialRigIsValid(c, running, k);
    RigsGrow(run, 0, t, k);
    AttemptFits(run.states[t][k], run.queue[t]);
    GoesWhereItMay(run, t, k, c, running);
    if g.shared { LimitLetsShare(c, g.worker); }
  }

  lemma GoesWhereItMay(run: Run, t: nat, k: nat, c: Config, running: seq<Grant>)
    requires IsRun(run) && run.states[0] == InitialRigs(c, running)
    requires t < |run.queue| && k < |run.states[0]| && Candidate(run.states[t], run.queue[t], k)
    ensures MayGo(run.queue[t], run.states[0][k].name, c)
  {
    RigsGrow(run, 0, t, k);
  }

  /**
   What a shared run uses nobody beside it uses: of all that runs on its worker or starts with it, nothing
   holds a resource that its own demand declares.
  */
  lemma SharedUseIsExclusive(
      queue: seq<Demand>, c: Config, running: seq<Grant>, paused: bool, cap: Option<string> -> nat, g: Grant, x: Grant)
    requires UniqueIds(c.boards) && OneEach(queue) && forall d :: d in queue ==> ValidDemand(d)
    requires Safe(running, cap) && WithinCap(c, cap)
    requires g in PlanOf(queue, c, running, paused).start && g.shared
    requires x in running + PlanOf(queue, c, running, paused).start && x.worker == g.worker && x != g
    ensures x.shared && forall d :: d in queue && d.jobId == g.jobId ==> x.resources !! d.resources
  {
    var all := running + PlanOf(queue, c, running, paused).start;
    PlanKeepsSafe(queue, c, running, paused, cap);
    PlanGrantsWhatIsAsked(queue, c, running, paused, g);
    BesideOnWorker(all, g.worker, g, x);
  }

  lemma BesideOnWorker(grants: seq<Grant>, w: Option<string>, a: Grant, b: Grant)
    requires Apart(RunningOn(grants, w)) && a in grants && b in grants && a.worker == w && b.worker == w && a != b
    ensures a.shared && b.shared && a.resources !! b.resources && forall id :: id in a.boards ==> id !in b.boards
  {
    var on := RunningOn(grants, w);
    RunningOnMember(grants, w, a);
    RunningOnMember(grants, w, b);
    var i :| 0 <= i < |on| && on[i] == a;
    var j :| 0 <= j < |on| && on[j] == b;
    if i < j { assert Beside(on[i], on[j]); } else { assert Beside(on[j], on[i]); }
  }
}

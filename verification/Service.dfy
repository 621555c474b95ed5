/** The service's own state around the allocator: the grants it keeps, and one pass of its dispatcher. */
module Service {
  import opened Names
  import opened Allocation
  import opened Rules
  import opened Safety
  import opened Scheduler
  import Q = JobQueue
  import D = Dispatch

  // ---- from a job to a demand ----

  /** A validation profile, as far as the allocator cares. */
  datatype Profile = Profile(
    name: string, concurrent: bool, exclusive: bool, needs: seq<Need>, resources: set<string>)

  datatype Request = Request(profile: string, boards: seq<string>, rig: Option<string>)

  const SUITE := "suite"

  function Bare(id: string, holdsBoards: bool): Demand {
    Demand(id, true, false, [], [], {}, holdsBoards, None, None)
  }

  /** A discovery takes the rig; a run of a profile takes the boards it names, or what the profile needs. */
  function DemandOf(id: string, kind: string, request: Request, profiles: map<string, Profile>): Demand {
    if kind != SUITE then Bare(id, false)
    else if request.profile !in profiles then Bare(id, true)
    else
      var spec := profiles[request.profile];
      if request.boards != [] then
        var boards := Sorted(Once(request.boards));
        Demand(id, false, spec.concurrent, boards, [], spec.resources, true, Some(spec.name), request.rig)
      else if spec.exclusive then
        Demand(id, true, false, [], [], spec.resources, true, Some(spec.name), request.rig)
      else
        Demand(id, false, spec.concurrent, [], spec.needs, spec.resources, true, Some(spec.name), request.rig)
  }

  /** Every name once. */
  function Once(names: seq<string>): seq<string> {
    if names == [] then []
    else if names[0] in names[1..] then Once(names[1..])
    else [names[0]] + Once(names[1..])
  }

  lemma {:induction false} OnceIs(names: seq<string>)
    ensures Distinct(Once(names)) && forall n :: n in Once(names) <==> n in names
  {
    if names != [] {
      OnceIs(names[1..]);
      assert names == [names[0]] + names[1..];
    }
  }

  /** Every demand the service makes is one the allocator's rules are proved for; named boards come each once. */
  lemma DemandIsValid(id: string, kind: string, request: Request, profiles: map<string, Profile>)
    ensures ValidDemand(DemandOf(id, kind, request, profiles))
    ensures DemandOf(id, kind, request, profiles).jobId == id
    ensures kind == SUITE && request.profile in profiles && request.boards != [] ==>
      && DemandOf(id, kind, request, profiles).boards != []
      && Increasing(DemandOf(id, kind, request, profiles).boards)
      && (forall b :: b in DemandOf(id, kind, request, profiles).boards <==> b in request.boards)
  {
    OnceIs(request.boards);
    forall b: string { SortedMembers(Once(request.boards), b); }
    SortedIncreasing(Once(request.boards));
    if request.boards != [] { assert request.boards[0] in Sorted(Once(request.boards)); }
  }

  // ---- the queue as the dispatcher reads it ----

  /** What was submitted as a job: it never changes. */
  datatype Submission = Submission(kind: string, request: Request)

  /** The queued jobs' demands, in the order the table serves them. */
  function Demands(
    rows: seq<Q.Row>, submitted: string -> Submission, profiles: map<string, Profile>): (queue: seq<Demand>)
    ensures |queue| == |Q.QueueOf(rows)|
  {
    var ids := Q.QueueOf(rows);
    seq(|ids|,
      i requires 0 <= i < |ids| => DemandOf(ids[i], submitted(ids[i]).kind, submitted(ids[i]).request, profiles))
  }

  /** Each queued job is in what the dispatcher reads, once, as a demand the allocator's rules are proved for. */
  lemma DemandsAreSound(rows: seq<Q.Row>, submitted: string -> Submission, profiles: map<string, Profile>)
    requires Q.GoodRows(rows)
    ensures OneEach(Demands(rows, submitted, profiles))
    ensures forall d :: d in Demands(rows, submitted, profiles) ==> ValidDemand(d) && Q.Has(rows, d.jobId, Q.Queued)
    ensures forall id :: Q.Has(rows, id, Q.Queued) ==>
      exists d :: d in Demands(rows, submitted, profiles) && d.jobId == id
  {
    var ids, queue := Q.QueueOf(rows), Demands(rows, submitted, profiles);
    forall i | 0 <= i < |ids|
      ensures queue[i].jobId == ids[i] && ValidDemand(queue[i]) && Q.Has(rows, ids[i], Q.Queued)
    {
      DemandIsValid(ids[i], submitted(ids[i]).kind, submitted(ids[i]).request, profiles);
      Q.QueueMember(rows, ids[i]);
    }
    Q.QueuedOnce(rows);
    forall id | Q.Has(rows, id, Q.Queued) ensures exists d :: d in queue && d.jobId == id {
      Q.QueueMember(rows, id);
      var i :| 0 <= i < |ids| && ids[i] == id;
      assert queue[i] in queue;
    }
  }

  // ---- one pass of the dispatcher ----

  /** Those grants whose job is queued still. */
  function Claimable(rows: seq<Q.Row>, start: seq<Grant>): seq<Grant> {
    if start == [] then []
    else (if Q.Has(rows, start[0].jobId, Q.Queued) then [start[0]] else []) + Claimable(rows, start[1..])
  }

  /** Those grants whose job is not among the cancelled. */
  function Spared(start: seq<Grant>, cancelled: seq<string>): seq<Grant> {
    if start == [] then []
    else (if start[0].jobId in cancelled then [] else [start[0]]) + Spared(start[1..], cancelled)
  }

  lemma {:induction false} ClaimableAreSpared(rows: seq<Q.Row>, start: seq<Grant>, cancelled: seq<string>)
    requires forall g :: g in start ==> (Q.Has(rows, g.jobId, Q.Queued) <==> g.jobId !in cancelled)
    ensures Claimable(rows, start) == Spared(start, cancelled)
  {
    if start != [] {
      assert start[0] in start;
      ClaimableAreSpared(rows, start[1..], cancelled);
    }
  }

  ghost predicate NoneQueued(rows: seq<Q.Row>, grants: seq<Grant>) {
    forall g :: g in grants ==> !Q.Has(rows, g.jobId, Q.Queued)
  }

  ghost predicate AllQueued(rows: seq<Q.Row>, grants: seq<Grant>) {
    forall g :: g in grants ==> Q.Has(rows, g.jobId, Q.Queued)
  }

  /** The same jobs are queued as before, less those named. */
  ghost predicate QueuedLess(before: seq<Q.Row>, rows: seq<Q.Row>, gone: set<string>) {
    forall id :: Q.Has(rows, id, Q.Queued) <==> Q.Has(before, id, Q.Queued) && id !in gone
  }

  lemma ChangeTakesOne(rows: seq<Q.Row>, id: string, to: Q.Status)
    requires to != Q.Queued
    ensures QueuedLess(rows, Q.Change(rows, id, Q.Queued, to), {id})
  {
    forall x: Q.Row | true {
      Q.ChangedRow(rows, id, Q.Queued, to, x);
    }
  }

  lemma {:induction false} OthersClaimable(before: seq<Q.Row>, rows: seq<Q.Row>, claimed: string, start: seq<Grant>)
    requires QueuedLess(before, rows, {claimed})
    requires forall g :: g in start ==> g.jobId != claimed
    ensures Claimable(rows, start) == Claimable(before, start)
  {
    if start != [] {
      assert start[0] in start;
      OthersClaimable(before, rows, claimed, start[1..]);
    }
  }

  /**
   The claims half made: of `start`, found with `rows0` and `before`, the first i jobs have been claimed
   or passed over.
  */
  ghost predicate Midway(rows0: seq<Q.Row>, before: seq<Grant>, start: seq<Grant>, i: nat,
                         rows: seq<Q.Row>, grants: seq<Grant>, started: seq<string>, cap: Option<string> -> nat)
  {
    && i <= |start|
    && Safe(grants + start[i..], cap) && UniqueJobs(grants + start[i..])
    && grants + Claimable(rows, start[i..]) == before + Claimable(rows0, start)
    && |grants| == |before| + |started|
    && (forall k :: 0 <= k < |started| ==> started[k] == grants[|before| + k].jobId)
    && QueuedLess(rows0, rows, Ids(start[..i]))
  }

  lemma RestAreOthers(grants: seq<Grant>, g: Grant, rest: seq<Grant>)
    requires UniqueJobs(grants + [g] + rest)
    ensures forall x :: x in rest ==> x.jobId != g.jobId
    ensures forall x :: x in grants ==> x.jobId != g.jobId
  {
    var all, n := grants + [g] + rest, |grants|;
    assert all[n] == g;
    forall k | 0 <= k < |rest| ensures rest[k].jobId != g.jobId {
      assert all[n + 1 + k] == rest[k];
    }
    forall k | 0 <= k < n ensures grants[k].jobId != g.jobId {
      assert all[k] == grants[k];
    }
  }

  lemma MidwayOn(rows0: seq<Q.Row>, before: seq<Grant>, start: seq<Grant>, i: nat, cap: Option<string> -> nat,
                 rows: seq<Q.Row>, grants: seq<Grant>, started: seq<string>, rows': seq<Q.Row>)
    requires i < |start| && Midway(rows0, before, start, i, rows, grants, started, cap)
    requires QueuedLess(rows, rows', {start[i].jobId})
    ensures Q.Has(rows, start[i].jobId, Q.Queued) ==>
      Midway(rows0, before, start, i + 1, rows', grants + [start[i]], started + [start[i].jobId], cap)
    ensures !Q.Has(rows, start[i].jobId, Q.Queued) ==> Midway(rows0, before, start, i + 1, rows', grants, started, cap)
  {
    var g, rest := start[i], start[i + 1..];
    assert start[i..] == [g] + rest && start[..i + 1] == start[..i] + [g];
    assert grants + [g] + rest == grants + start[i..];
    RestAreOthers(grants, g, rest);
    OthersClaimable(rows, rows', g.jobId, rest);
    D.SafeWithout(grants, [g], rest, cap);
    D.UniqueWithout(grants, [g], rest);
    assert Ids(start[..i + 1]) == Ids(start[..i]) + {g.jobId};
    assert grants + [g] + Claimable(rows', rest) == grants + ([g] + Claimable(rows', rest));
  }

  /**
   The grants of these jobs, less the cancelled, joined those there were, in order, and were started;
   they and the cancelled left the queue.
  */
  ghost predicate CarriedOut(
    start: seq<Grant>, cancelled: seq<string>, before: seq<Q.Row>, rows: seq<Q.Row>,
    held: seq<Grant>, grants: seq<Grant>, started: seq<string>)
  {
    && grants == held + Spared(start, cancelled)
    && |started| == |Spared(start, cancelled)|
    && (forall i :: 0 <= i < |started| ==> started[i] == Spared(start, cancelled)[i].jobId)
    && QueuedLess(before, rows, Ids(start) + set id | id in cancelled)
  }

  class FarmService {
    const store: Q.JobStore
    const submitted: string -> Submission
    const profiles: map<string, Profile>
    var grants: seq<Grant>
    var waiting: map<string, Reason>

    ghost predicate Valid(cap: Option<string> -> nat)
      reads this, store
    {
      store.Valid() && Safe(grants, cap) && UniqueJobs(grants) && NoneQueued(store.rows, grants)
    }

    constructor (store: Q.JobStore, submitted: string -> Submission, profiles: map<string, Profile>)
      ensures this.store == store && this.submitted == submitted && this.profiles == profiles
      ensures grants == [] && waiting == map[]
    {
      this.store, this.submitted, this.profiles := store, submitted, profiles;
      grants, waiting := [], map[];
    }

    /** What the dispatcher decides for the queue as it stands. */
    ghost function Decision(c: Config, paused: bool): Plan
      reads this, store
    {
      PlanOf(Demands(store.rows, submitted, profiles), c, grants, paused)
    }

    /**
     One pass of the dispatcher. The plan is made for the queue as it was read; a cancellation that
     lands before the claim decides its job. So exactly the jobs planned and not cancelled are claimed
     and get their grants, in the plan's order, and leave the queue with the cancelled ones.
    */
    method Dispatch(c: Config, paused: bool, cancelled: seq<string>, ghost cap: Option<string> -> nat)
        returns (started: seq<string>, ghost plan: Plan)
      requires Valid(cap) && UniqueIds(c.boards)
      requires WithinCap(c, cap)
      modifies this, store
      ensures Valid(cap)
      ensures plan == old(Decision(c, paused)) && waiting == plan.waiting
      ensures CarriedOut(plan.start, cancelled, old(store.rows), store.rows, old(grants), grants, started)
    {
      var decided := ReadAndPlan(c, paused, cap);
      plan := decided;
      started := CarryOut(decided.start, cancelled, cap);
    }

    /** These grants' jobs are queued, and may run beside what runs. */
    ghost predicate Ready(start: seq<Grant>, cap: Option<string> -> nat)
      reads this, store
    {
      && store.Valid() && NoneQueued(store.rows, grants) && AllQueued(store.rows, start)
      && Safe(grants + start, cap) && UniqueJobs(grants + start)
    }

    /** The plan for the queue as it is read. */
    method ReadAndPlan(c: Config, paused: bool, ghost cap: Option<string> -> nat) returns (plan: Plan)
      requires Valid(cap) && UniqueIds(c.boards)
      requires WithinCap(c, cap)
      modifies `waiting
      ensures plan == old(Decision(c, paused)) && waiting == plan.waiting
      ensures Ready(plan.start, cap)
    {
      PassIsSound(store.rows, submitted, profiles, c, grants, paused, cap);
      plan := MakePlan(Demands(store.rows, submitted, profiles), c, grants, paused);
      waiting := plan.waiting;
    }

    /** Start what was planned, the cancellations landing first. */
    method CarryOut(start: seq<Grant>, cancelled: seq<string>, ghost cap: Option<string> -> nat)
        returns (started: seq<string>)
      requires Ready(start, cap)
      modifies `grants, store
      ensures Valid(cap)
      ensures CarriedOut(start, cancelled, old(store.rows), store.rows, old(grants), grants, started)
    {
      ghost var rows, before := store.rows, grants;
      CancelAll(cancelled);
      ghost var landed := store.rows;
      ClaimableAreSpared(landed, start, cancelled);
      started := ClaimAll(start, cap);
      QueuedStill(rows, landed, store.rows, before, start, cancelled);
    }

    /** The cancellations that land meanwhile. */
    method CancelAll(ids: seq<string>)
      requires store.Valid()
      modifies store
      ensures store.Valid() && QueuedLess(old(store.rows), store.rows, set id | id in ids)
    {
      for i := 0 to |ids|
        invariant store.Valid() && QueuedLess(old(store.rows), store.rows, set id | id in ids[..i])
      {
        assert ids[..i + 1] == ids[..i] + [ids[i]];
        ChangeTakesOne(store.rows, ids[i], Q.Cancelled);
        var won := store.CancelIfQueued(ids[i]);
      }
      assert ids[..|ids|] == ids;
    }

    /** Claim each job in turn, passing over those no longer queued. */
    method ClaimAll(start: seq<Grant>, ghost cap: Option<string> -> nat) returns (started: seq<string>)
      requires store.Valid()
      requires Safe(grants + start, cap) && UniqueJobs(grants + start)
      modifies `grants, store
      ensures store.Valid() && Safe(grants, cap) && UniqueJobs(grants)
      ensures grants == old(grants) + Claimable(old(store.rows), start)
      ensures |started| == |grants| - |old(grants)|
      ensures forall i :: 0 <= i < |started| ==> started[i] == grants[|old(grants)| + i].jobId
      ensures QueuedLess(old(store.rows), store.rows, Ids(start))
    {
      started := [];
      ghost var rows, before := store.rows, grants;
      assert start[0..] == start;
      for i := 0 to |start|
        invariant store.Valid() && Midway(rows, before, start, i, store.rows, grants, started, cap)
      {
        MidwayIsOnce(rows, before, start, i, store.rows, grants, started, cap);
        ghost var at, held := store.rows, grants;
        var claimed := ClaimOne(start[i]);
        MidwayOn(rows, before, start, i, cap, at, held, started, store.rows);
        if claimed { started := started + [start[i].jobId]; }
      }
      assert grants + start[|start|..] == grants && start[..|start|] == start;
    }

    /** Claim one job and, if it was queued still, record its grant. */
    method ClaimOne(g: Grant) returns (claimed: bool)
      requires store.Valid() && forall x :: x in grants ==> x.jobId != g.jobId
      modifies `grants, store
      ensures store.Valid()
      ensures claimed == Q.Has(old(store.rows), g.jobId, Q.Queued)
      ensures grants == if claimed then old(grants) + [g] else old(grants)
      ensures QueuedLess(old(store.rows), store.rows, {g.jobId})
    {
      ChangeTakesOne(store.rows, g.jobId, Q.Running);
      claimed := store.Claim(g.jobId);
      if claimed {
        D.PutAppends(grants, g);
        grants := D.Put(grants, g);
      }
    }

    /** Rescope the job's grant if it runs alone; every other grant stays as it is. */
    method HoldBoards(id: string, boards: seq<string>, ghost cap: Option<string> -> nat)
      requires Valid(cap)
      modifies `grants
      ensures Valid(cap) && |grants| == |old(grants)|
      ensures forall i :: 0 <= i < |grants| ==>
                var was := old(grants)[i];
                grants[i] == if was.jobId == id && !was.shared && !was.wholeRig then was.(boards := boards) else was
    {
      RescopeKeeps(grants, id, boards, cap);
      RescopedAreQueued(store.rows, grants, id, boards);
      grants := D.HoldBoards(grants, id, boards);
    }

    method Release(id: string, ghost cap: Option<string> -> nat)
      requires Valid(cap)
      modifies `grants
      ensures Valid(cap)
      ensures forall g :: g in grants <==> g in old(grants) && g.jobId != id
    {
      assert [] + grants + [] == grants;
      D.WithoutKeeps([], grants, id, [], cap);
      D.WithoutMember(grants, id);
      grants := D.Without(grants, id);
      assert [] + grants + [] == grants;
    }
  }

  lemma RescopeKeeps(grants: seq<Grant>, id: string, boards: seq<string>, cap: Option<string> -> nat)
    requires Safe(grants, cap) && UniqueJobs(grants)
    ensures Safe(D.HoldBoards(grants, id, boards), cap) && UniqueJobs(D.HoldBoards(grants, id, boards))
  {
    assert grants + [] == grants;
    assert D.HoldBoards(grants, id, boards) + [] == D.HoldBoards(grants, id, boards);
    D.SettleKeepsSafe(grants, id, boards, [], cap);
    D.SettledJobs(grants, id, boards, []);
  }

  lemma RescopedAreQueued(rows: seq<Q.Row>, grants: seq<Grant>, id: string, boards: seq<string>)
    requires NoneQueued(rows, grants)
    ensures |D.HoldBoards(grants, id, boards)| == |grants|
    ensures forall i :: 0 <= i < |grants| ==> D.HoldBoards(grants, id, boards)[i] == D.Rescoped(grants[i], id, boards)
    ensures NoneQueued(rows, D.HoldBoards(grants, id, boards))
  {
    D.SettledAt(grants, id, boards);
    forall g | g in D.HoldBoards(grants, id, boards) ensures !Q.Has(rows, g.jobId, Q.Queued) {
      var i :| 0 <= i < |grants| && D.HoldBoards(grants, id, boards)[i] == g;
      assert grants[i] in grants;
    }
  }

  lemma MidwayIsOnce(rows0: seq<Q.Row>, before: seq<Grant>, start: seq<Grant>, i: nat,
                     rows: seq<Q.Row>, grants: seq<Grant>, started: seq<string>, cap: Option<string> -> nat)
    requires i < |start| && Midway(rows0, before, start, i, rows, grants, started, cap)
    ensures forall x :: x in grants ==> x.jobId != start[i].jobId
  {
    assert grants + [start[i]] + start[i + 1..] == grants + start[i..];
    RestAreOthers(grants, start[i], start[i + 1..]);
  }

  /** What the plan starts may run beside what runs, and was queued when the queue was read. */
  lemma PassIsSound(rows: seq<Q.Row>, submitted: string -> Submission, profiles: map<string, Profile>,
                    c: Config, grants: seq<Grant>, paused: bool, cap: Option<string> -> nat)
    requires Q.GoodRows(rows) && Safe(grants, cap) && UniqueJobs(grants) && NoneQueued(rows, grants)
    requires UniqueIds(c.boards) && WithinCap(c, cap)
    ensures Safe(grants + PlanOf(Demands(rows, submitted, profiles), c, grants, paused).start, cap)
    ensures UniqueJobs(grants + PlanOf(Demands(rows, submitted, profiles), c, grants, paused).start)
    ensures AllQueued(rows, PlanOf(Demands(rows, submitted, profiles), c, grants, paused).start)
  {
    var queue := Demands(rows, submitted, profiles);
    DemandsAreSound(rows, submitted, profiles);
    PlanKeepsSafe(queue, c, grants, paused, cap);
    NewJobsOnly(queue, c, grants, paused);
    PlanStartsQueuedOnce(queue, c, grants, paused);
  }

  /** After the claims no grant's job is queued, and what left the queue is what was planned or cancelled. */
  lemma QueuedStill(rows: seq<Q.Row>, landed: seq<Q.Row>, last: seq<Q.Row>, grants: seq<Grant>, start: seq<Grant>,
                    cancelled: seq<string>)
    requires NoneQueued(rows, grants)
    requires QueuedLess(rows, landed, set id | id in cancelled) && QueuedLess(landed, last, Ids(start))
    ensures QueuedLess(rows, last, Ids(start) + set id | id in cancelled)
    ensures NoneQueued(last, grants + Spared(start, cancelled))
  {
    SparedAreOf(start, cancelled);
    forall g | g in grants + Spared(start, cancelled) ensures !Q.Has(last, g.jobId, Q.Queued) {
      if g in grants { assert !Q.Has(rows, g.jobId, Q.Queued); } else { assert g.jobId in Ids(start); }
    }
  }

  lemma {:induction false} SparedAreOf(start: seq<Grant>, cancelled: seq<string>)
    ensures forall g :: g in Spared(start, cancelled) <==> g in start && g.jobId !in cancelled
  {
    if start != [] {
      SparedAreOf(start[1..], cancelled);
      assert forall g :: g in start <==> g == start[0] || g in start[1..];
    }
  }

  lemma NewJobsOnly(queue: seq<Demand>, c: Config, running: seq<Grant>, paused: bool)
    requires UniqueIds(c.boards) && OneEach(queue) && UniqueJobs(running)
    requires forall d :: d in queue ==> d.jobId !in Ids(running)
    ensures UniqueJobs(running + PlanOf(queue, c, running, paused).start)
  {
    var start := PlanOf(queue, c, running, paused).start;
    PlanStartsQueuedOnce(queue, c, running, paused);
    forall i, j | 0 <= i < |running| && 0 <= j < |start| ensures running[i].jobId != start[j].jobId {
      assert start[j] in start && running[i].jobId in Ids(running);
    }
    D.UniqueTogether(running, start);
  }
}

/**
 The dispatcher at work beside everything else: the queue read, a plan made, grants claimed and
 recorded one by one, while jobs are submitted, finish, are released, sent back and cancelled.
*/
module Dispatch {
  import opened Names
  import opened Allocation
  import opened Rules
  import opened Safety
  import Q = JobQueue

  // ---- the farm ----

  datatype Dispatcher =
    | Idle
    | HasQueue(queue: seq<Demand>)
    | Claiming(todo: seq<Grant>)
    | Recording(grant: Grant, todo: seq<Grant>)

  /** How a call to cancel a job ends: cancelled before it started, asked to stop, or refused. */
  datatype End = Won | Asked | Refused | Unknown

  datatype At = Reading | SawRunning | SawQueued | Ended(end: End)

  /** A call to cancel a job, where it has got to, and how often it has read the job's row. */
  datatype Call = Call(job: string, at: At, looks: nat)

  /** `started` are the jobs whose row carries a start time; `requests` those asked to stop. */
  datatype Farm = Farm(
    rows: map<string, Q.Status>,
    started: set<string>,
    grants: seq<Grant>,
    requests: set<string>,
    dispatcher: Dispatcher,
    calls: map<nat, Call>)

  /** A portal may send a job back to the queue; `cap` bounds what every plan allows a worker to run. */
  datatype Setup = Setup(portal: bool, cap: Option<string> -> nat)

  predicate IsQueued(s: Farm, id: string) {
    id in s.rows && s.rows[id] == Q.Queued
  }

  function Planned(s: Farm): seq<Grant> {
    match s.dispatcher
    case Claiming(todo) => todo
    case Recording(g, todo) => [g] + todo
    case _ => []
  }

  /** What runs, and what the dispatcher has decided to start besides. */
  function Held(s: Farm): seq<Grant> {
    s.grants + Planned(s)
  }

  // ---- the grants, kept by job ----

  /** `grants[g.jobId] = g`. */
  function Put(grants: seq<Grant>, g: Grant): seq<Grant> {
    if grants == [] then [g]
    else if grants[0].jobId == g.jobId then [g] + grants[1..]
    else [grants[0]] + Put(grants[1..], g)
  }

  /** `grants.pop(id, None)`. */
  function Without(grants: seq<Grant>, id: string): seq<Grant> {
    if grants == [] then []
    else (if grants[0].jobId == id then [] else [grants[0]]) + Without(grants[1..], id)
  }

  /** The job's own grant with other boards, if it is neither shared nor for the whole rig. */
  function Rescoped(g: Grant, id: string, boards: seq<string>): Grant {
    if g.jobId == id && !g.shared && !g.wholeRig then g.(boards := boards) else g
  }

  function HoldBoards(grants: seq<Grant>, id: string, boards: seq<string>): seq<Grant> {
    if grants == [] then [] else [Rescoped(grants[0], id, boards)] + HoldBoards(grants[1..], id, boards)
  }

  // ---- what happens ----

  datatype Event =
    | Submit(id: string)
    | ReadQueue(queue: seq<Demand>)
    | Decision(config: Config, paused: bool)
    | ClaimNext
    | Record
    | EndDispatch
    | Settle(id: string, boards: seq<string>)
    | Finish(id: string, how: Q.Status)
    | Release(id: string)
    | Forget(id: string)
    | Requeue(id: string)
    | CallCancel(n: nat, id: string)
    | ReadRow(n: nat)
    | Ask(n: nat)
    | TryCancel(n: nat)

  ghost predicate Enabled(s: Farm, e: Event, setup: Setup) {
    match e
    case Submit(id) => id !in s.rows
    case ReadQueue(queue) =>
      s.dispatcher.Idle? && OneEach(queue) && forall d :: d in queue ==> ValidDemand(d) && IsQueued(s, d.jobId)
    case Decision(c, _) =>
      s.dispatcher.HasQueue? && UniqueIds(c.boards) && WithinCap(c, setup.cap)
    case ClaimNext => s.dispatcher.Claiming? && s.dispatcher.todo != []
    case Record => s.dispatcher.Recording?
    case EndDispatch => s.dispatcher.Claiming? && s.dispatcher.todo == []
    case Finish(id, how) => id in s.started && how in {Q.Passed, Q.Failed, Q.Cancelled}
    case Requeue(id) => setup.portal && id !in Ids(s.grants) && !IsRecording(s, id)
    case CallCancel(n, _) => n !in s.calls
    case ReadRow(n) => n in s.calls && s.calls[n].at.Reading?
    case Ask(n) => n in s.calls && s.calls[n].at.SawRunning?
    case TryCancel(n) => n in s.calls && s.calls[n].at.SawQueued?
    case _ => true
  }

  predicate IsRecording(s: Farm, id: string) {
    s.dispatcher.Recording? && s.dispatcher.grant.jobId == id
  }

  /** The claim is one conditional statement: it starts the job only if it is queued still. */
  function Claim(s: Farm): Farm
    requires s.dispatcher.Claiming? && s.dispatcher.todo != []
  {
    var g, todo := s.dispatcher.todo[0], s.dispatcher.todo[1..];
    if IsQueued(s, g.jobId) then
      s.(rows := s.rows[g.jobId := Q.Running], started := s.started + {g.jobId}, dispatcher := Recording(g, todo))
    else
      s.(dispatcher := Claiming(todo))
  }

  /** What a cancel does about the row it reads. */
  function Seen(s: Farm, job: string): At {
    if job !in s.rows then Ended(Unknown)
    else match s.rows[job]
      case Running => SawRunning
      case Queued => SawQueued
      case _ => Ended(Refused)
  }

  /** And so is the cancellation of a queued job; one that comes too late reads the row again. */
  function Try(s: Farm, n: nat): Farm
    requires n in s.calls
  {
    var c := s.calls[n];
    if IsQueued(s, c.job) then
      s.(rows := s.rows[c.job := Q.Cancelled], calls := s.calls[n := c.(at := Ended(Won))])
    else
      s.(calls := s.calls[n := c.(at := Reading)])
  }

  ghost function After(s: Farm, e: Event, setup: Setup): Farm
    requires Enabled(s, e, setup)
  {
    match e
    case Submit(id) => s.(rows := s.rows[id := Q.Queued])
    case ReadQueue(queue) => s.(dispatcher := HasQueue(queue))
    case Decision(c, paused) => s.(dispatcher := Claiming(PlanOf(s.dispatcher.queue, c, s.grants, paused).start))
    case ClaimNext => Claim(s)
    case Record => s.(grants := Put(s.grants, s.dispatcher.grant), dispatcher := Claiming(s.dispatcher.todo))
    case EndDispatch => s.(dispatcher := Idle)
    case Settle(id, boards) => s.(grants := HoldBoards(s.grants, id, boards))
    case Finish(id, how) => s.(rows := s.rows[id := how])
    case Release(id) => s.(grants := Without(s.grants, id))
    case Forget(id) => s.(requests := s.requests - {id})
    case Requeue(id) =>
      if id in s.rows && s.rows[id] == Q.Running
      then s.(rows := s.rows[id := Q.Queued], started := s.started - {id})
      else s
    case CallCancel(n, id) => s.(calls := s.calls[n := Call(id, Reading, 0)])
    case ReadRow(n) =>
      s.(calls := s.calls[n := Call(s.calls[n].job, Seen(s, s.calls[n].job), s.calls[n].looks + 1)])
    case Ask(n) => s.(requests := s.requests + {s.calls[n].job}, calls := s.calls[n := s.calls[n].(at := Ended(Asked))])
    case TryCancel(n) => Try(s, n)
  }

  datatype History = History(states: seq<Farm>, events: seq<Event>)

  ghost predicate Happens(h: History, t: nat, setup: Setup)
    requires |h.states| == |h.events| + 1 && t < |h.events|
  {
    Enabled(h.states[t], h.events[t], setup) && h.states[t + 1] == After(h.states[t], h.events[t], setup)
  }

  /**
   A service that has just started, whatever its table holds: it runs nothing yet, or what the rows of
   running jobs say they still hold.
  */
  ghost predicate Fresh(s: Farm, setup: Setup) {
    && s.dispatcher == Idle && s.calls == map[]
    && Safe(s.grants, setup.cap) && UniqueJobs(s.grants)
    && (forall g :: g in s.grants ==> g.jobId in s.started)
    && forall id :: id in s.started ==> id in s.rows && !IsQueued(s, id)
  }

  ghost predicate IsHistory(h: History, setup: Setup) {
    && |h.states| == |h.events| + 1
    && Fresh(h.states[0], setup)
    && forall t {:trigger Happens(h, t, setup)} :: 0 <= t < |h.events| ==> Happens(h, t, setup)
  }

  // ---- grants that go, move and change leave a farm safe ----

  lemma ApartWithout(a: seq<Grant>, g: seq<Grant>, b: seq<Grant>)
    requires Apart(a + g + b)
    ensures Apart(a + b)
  {
    var all, left := a + g + b, a + b;
    forall i, j | 0 <= i < j < |left| ensures Beside(left[i], left[j]) {
      var i', j' := if i < |a| then i else i + |g|, if j < |a| then j else j + |g|;
      assert all[i'] == left[i] && all[j'] == left[j];
      assert Beside(all[i'], all[j']);
    }
  }

  lemma SafeWithout(a: seq<Grant>, g: seq<Grant>, b: seq<Grant>, cap: Option<string> -> nat)
    requires Safe(a + g + b, cap)
    ensures Safe(a + b, cap)
  {
    forall w ensures Apart(RunningOn(a + b, w)) && |RunningOn(a + b, w)| <= cap(w) {
      RunningOnSplits(a + g, b, w);
      RunningOnSplits(a, g, w);
      RunningOnSplits(a, b, w);
      assert Apart(RunningOn(a + g + b, w));
      ApartWithout(RunningOn(a, w), RunningOn(g, w), RunningOn(b, w));
    }
  }

  lemma {:induction false} WithoutKeeps(kept: seq<Grant>, grants: seq<Grant>, id: string, rest: seq<Grant>,
      cap: Option<string> -> nat)
    requires Safe(kept + grants + rest, cap) && UniqueJobs(kept + grants + rest)
    ensures Safe(kept + Without(grants, id) + rest, cap) && UniqueJobs(kept + Without(grants, id) + rest)
    ensures forall x :: x in Without(grants, id) ==> x in grants
    decreases grants
  {
    if grants != [] {
      var g, tail := [grants[0]], grants[1..];
      assert kept + grants + rest == kept + g + (tail + rest) == (kept + g) + tail + rest;
      if grants[0].jobId == id {
        SafeWithout(kept, g, tail + rest, cap);
        assert kept + (tail + rest) == kept + tail + rest;
        UniqueWithout(kept, g, tail + rest);
        WithoutKeeps(kept, tail, id, rest, cap);
        assert [] + Without(tail, id) == Without(tail, id);
      } else {
        WithoutKeeps(kept + g, tail, id, rest, cap);
        assert kept + (g + Without(tail, id)) + rest == (kept + g) + Without(tail, id) + rest;
      }
    }
  }

  lemma UniqueWithout(a: seq<Grant>, g: seq<Grant>, b: seq<Grant>)
    requires UniqueJobs(a + g + b)
    ensures UniqueJobs(a + b)
  {
    var all, left := a + g + b, a + b;
    forall i, j | 0 <= i < j < |left| ensures left[i].jobId != left[j].jobId {
      var i', j' := if i < |a| then i else i + |g|, if j < |a| then j else j + |g|;
      assert all[i'] == left[i] && all[j'] == left[j];
    }
  }

  lemma {:induction false} WithoutMember(grants: seq<Grant>, id: string)
    ensures forall g :: g in Without(grants, id) <==> g in grants && g.jobId != id
  {
    if grants != [] { WithoutMember(grants[1..], id); }
  }

  lemma {:induction false} PutAppends(grants: seq<Grant>, g: Grant)
    requires g.jobId !in Ids(grants)
    ensures Put(grants, g) == grants + [g]
  {
    if grants != [] {
      assert grants[0].jobId in Ids(grants);
      assert Ids(grants[1..]) <= Ids(grants);
      PutAppends(grants[1..], g);
    }
  }

  lemma {:induction false} SettledAt(grants: seq<Grant>, id: string, boards: seq<string>)
    ensures |HoldBoards(grants, id, boards)| == |grants|
    ensures forall i :: 0 <= i < |grants| ==> HoldBoards(grants, id, boards)[i] == Rescoped(grants[i], id, boards)
  {
    if grants != [] { SettledAt(grants[1..], id, boards); }
  }

  lemma {:induction false} SettledOn(grants: seq<Grant>, id: string, boards: seq<string>, w: Option<string>)
    ensures RunningOn(HoldBoards(grants, id, boards), w) == HoldBoards(RunningOn(grants, w), id, boards)
  {
    if grants != [] {
      var g, rest := grants[0], HoldBoards(grants[1..], id, boards);
      SettledOn(grants[1..], id, boards, w);
      assert HoldBoards(grants, id, boards)[0] == Rescoped(g, id, boards) &&
        HoldBoards(grants, id, boards)[1..] == rest;
      if g.worker != w { assert RunningOn(grants, w) == RunningOn(grants[1..], w); }
    }
  }

  /** Only a run that is alone changes boards, so nobody is there to collide with. */
  lemma SettledApart(active: seq<Grant>, id: string, boards: seq<string>, more: seq<Grant>)
    requires Apart(active + more)
    ensures Apart(HoldBoards(active, id, boards) + more)
  {
    var all, now := active + more, HoldBoards(active, id, boards) + more;
    SettledAt(active, id, boards);
    forall i, j | 0 <= i < j < |now| ensures Beside(now[i], now[j]) {
      assert Beside(all[i], all[j]);
    }
  }

  lemma SettleKeepsSafe(grants: seq<Grant>, id: string, boards: seq<string>, more: seq<Grant>,
      cap: Option<string> -> nat)
    requires Safe(grants + more, cap)
    ensures Safe(HoldBoards(grants, id, boards) + more, cap)
  {
    var now := HoldBoards(grants, id, boards);
    forall w ensures Apart(RunningOn(now + more, w)) && |RunningOn(now + more, w)| <= cap(w) {
      RunningOnSplits(grants, more, w);
      RunningOnSplits(now, more, w);
      SettledOn(grants, id, boards, w);
      SettledAt(RunningOn(grants, w), id, boards);
      assert Apart(RunningOn(grants + more, w));
      SettledApart(RunningOn(grants, w), id, boards, RunningOn(more, w));
    }
  }

  // ---- what every step keeps ----

  /** Nothing decided collides with anything running or decided, and no job is there twice. */
  ghost predicate Collisionless(s: Farm, setup: Setup) {
    Safe(Held(s), setup.cap) && UniqueJobs(Held(s))
  }

  /** Whatever has a grant, or is about to, has been claimed. */
  ghost predicate OnlyClaimed(s: Farm) {
    && (forall g :: g in s.grants ==> g.jobId in s.started)
    && (s.dispatcher.Recording? ==> s.dispatcher.grant.jobId in s.started)
  }

  ghost predicate StartedLeft(s: Farm) {
    forall id :: id in s.started ==> id in s.rows && !IsQueued(s, id)
  }

  ghost predicate QueueIsFresh(s: Farm) {
    s.dispatcher.HasQueue? ==>
      && OneEach(s.dispatcher.queue)
      && forall d :: d in s.dispatcher.queue ==> ValidDemand(d) && d.jobId !in Ids(s.grants)
  }

  ghost predicate WonStays(s: Farm) {
    forall n :: n in s.calls && s.calls[n].at == Ended(Won) ==> WonFor(s, s.calls[n].job)
  }

  ghost predicate WonFor(s: Farm, job: string) {
    job in s.rows && s.rows[job] == Q.Cancelled && job !in s.started
  }

  /** Where nothing is sent back, a cancel reads at most twice, and the second time the job has left the queue. */
  ghost predicate CallFits(s: Farm, c: Call) {
    match c.at
    case Reading => c.looks == 0 || (c.looks == 1 && c.job in s.rows && !IsQueued(s, c.job))
    case SawRunning => 1 <= c.looks <= 2
    case SawQueued => c.looks == 1 && c.job in s.rows
    case Ended(end) => c.looks == 1 || (c.looks == 2 && (end == Asked || end == Refused))
  }

  ghost predicate CallsFit(s: Farm) {
    forall n :: n in s.calls ==> CallFits(s, s.calls[n])
  }

  ghost predicate Invariant(s: Farm, setup: Setup) {
    && Collisionless(s, setup) && OnlyClaimed(s) && StartedLeft(s) && QueueIsFresh(s) && WonStays(s)
    && (!setup.portal ==> CallsFit(s))
  }

  lemma DecisionIsCollisionless(s: Farm, c: Config, paused: bool, setup: Setup)
    requires Invariant(s, setup) && Enabled(s, Decision(c, paused), setup)
    ensures Collisionless(After(s, Decision(c, paused), setup), setup)
  {
    var queue := s.dispatcher.queue;
    var start := PlanOf(queue, c, s.grants, paused).start;
    assert Held(s) == s.grants;
    PlanKeepsSafe(queue, c, s.grants, paused, setup.cap);
    PlanStartsQueuedOnce(queue, c, s.grants, paused);
    forall i, j | 0 <= i < |s.grants| && 0 <= j < |start| ensures s.grants[i].jobId != start[j].jobId {
      assert start[j] in start && s.grants[i].jobId in Ids(s.grants);
    }
    UniqueTogether(s.grants, start);
  }

  lemma UniqueTogether(a: seq<Grant>, b: seq<Grant>)
    requires UniqueJobs(a) && UniqueJobs(b)
    requires forall i, j :: 0 <= i < |a| && 0 <= j < |b| ==> a[i].jobId != b[j].jobId
    ensures UniqueJobs(a + b)
  {}

  lemma ClaimIsCollisionless(s: Farm, setup: Setup)
    requires Invariant(s, setup) && Enabled(s, ClaimNext, setup)
    ensures Collisionless(Claim(s), setup)
  {
    var g, todo := [s.dispatcher.todo[0]], s.dispatcher.todo[1..];
    assert Held(s) == s.grants + g + todo == s.grants + (g + todo);
    SafeWithout(s.grants, g, todo, setup.cap);
    UniqueWithout(s.grants, g, todo);
  }

  lemma NextIsNew(grants: seq<Grant>, g: Grant, todo: seq<Grant>)
    requires UniqueJobs(grants + ([g] + todo))
    ensures g.jobId !in Ids(grants)
  {
    var all := grants + ([g] + todo);
    forall i | 0 <= i < |grants| ensures grants[i].jobId != g.jobId {
      assert all[i] == grants[i] && all[|grants|] == g;
    }
  }

  /** What is recorded was held already. */
  lemma PutKeepsHeld(grants: seq<Grant>, g: Grant, todo: seq<Grant>)
    requires UniqueJobs(grants + ([g] + todo))
    ensures Put(grants, g) == grants + [g]
    ensures Put(grants, g) + todo == grants + ([g] + todo)
  {
    NextIsNew(grants, g, todo);
    PutAppends(grants, g);
    assert grants + [g] + todo == grants + ([g] + todo);
  }

  lemma RecordIsCollisionless(s: Farm, setup: Setup)
    requires Invariant(s, setup) && Enabled(s, Record, setup)
    ensures Put(s.grants, s.dispatcher.grant) == s.grants + [s.dispatcher.grant]
    ensures Collisionless(After(s, Record, setup), setup)
  {
    PutKeepsHeld(s.grants, s.dispatcher.grant, s.dispatcher.todo);
    assert Held(After(s, Record, setup)) == Held(s);
  }

  lemma ReleaseIsCollisionless(s: Farm, id: string, setup: Setup)
    requires Invariant(s, setup)
    ensures Collisionless(After(s, Release(id), setup), setup)
    ensures forall x :: x in Without(s.grants, id) ==> x in s.grants
  {
    assert [] + s.grants + Planned(s) == Held(s);
    WithoutKeeps([], s.grants, id, Planned(s), setup.cap);
    assert [] + Without(s.grants, id) + Planned(s) == Held(After(s, Release(id), setup));
  }

  lemma SameJobs(a: seq<Grant>, b: seq<Grant>)
    requires UniqueJobs(a) && |a| == |b| && forall i :: 0 <= i < |a| ==> a[i].jobId == b[i].jobId
    ensures UniqueJobs(b)
  {}

  /** Grants that settle stay their jobs', each where it was. */
  lemma SettledJobs(grants: seq<Grant>, id: string, boards: seq<string>, more: seq<Grant>)
    requires UniqueJobs(grants + more)
    ensures UniqueJobs(HoldBoards(grants, id, boards) + more)
    ensures Ids(HoldBoards(grants, id, boards)) == Ids(grants)
  {
    var now := HoldBoards(grants, id, boards);
    SettledAt(grants, id, boards);
    SameJobs(grants + more, now + more);
    forall j | j in Ids(grants) ensures j in Ids(now) {
      var i :| 0 <= i < |grants| && grants[i].jobId == j;
      assert now[i] in now && now[i].jobId == j;
    }
    forall j | j in Ids(now) ensures j in Ids(grants) {
      var i :| 0 <= i < |now| && now[i].jobId == j;
      assert grants[i] in grants;
    }
  }

  lemma SettleIsCollisionless(s: Farm, id: string, boards: seq<string>, setup: Setup)
    requires Invariant(s, setup)
    ensures Collisionless(After(s, Settle(id, boards), setup), setup)
    ensures Ids(HoldBoards(s.grants, id, boards)) == Ids(s.grants)
  {
    SettleKeepsSafe(s.grants, id, boards, Planned(s), setup.cap);
    SettledJobs(s.grants, id, boards, Planned(s));
  }

  lemma StepIsCollisionless(s: Farm, e: Event, setup: Setup)
    requires Invariant(s, setup) && Enabled(s, e, setup)
    ensures Collisionless(After(s, e, setup), setup)
  {
    match e
    case Decision(c, paused) => DecisionIsCollisionless(s, c, paused, setup);
    case ClaimNext => ClaimIsCollisionless(s, setup);
    case Record => RecordIsCollisionless(s, setup);
    case Release(id) => ReleaseIsCollisionless(s, id, setup);
    case Settle(id, boards) => SettleIsCollisionless(s, id, boards, setup);
    case _ => assert Held(After(s, e, setup)) == Held(s);
  }

  lemma StepOnlyClaimed(s: Farm, e: Event, setup: Setup)
    requires Invariant(s, setup) && Enabled(s, e, setup)
    ensures OnlyClaimed(After(s, e, setup)) && StartedLeft(After(s, e, setup))
  {
    match e
    case Record => RecordIsCollisionless(s, setup);
    case Release(id) => ReleaseIsCollisionless(s, id, setup);
    case Settle(id, boards) =>
      SettleIsCollisionless(s, id, boards, setup);
      assert forall g :: g in HoldBoards(s.grants, id, boards) ==> g.jobId in Ids(HoldBoards(s.grants, id, boards));
    case Requeue(id) => assert forall g :: g in s.grants ==> g.jobId in Ids(s.grants);
    case Finish(id, how) => assert id in s.started;
    case _ =>
  }

  lemma StepKeepsQueue(s: Farm, e: Event, setup: Setup)
    requires Invariant(s, setup) && Enabled(s, e, setup)
    ensures QueueIsFresh(After(s, e, setup))
  {
    match e
    case ReadQueue(queue) =>
      forall d | d in queue ensures d.jobId !in Ids(s.grants) {
        assert IsQueued(s, d.jobId) && d.jobId !in s.started;
      }
    case Release(id) => ReleaseIsCollisionless(s, id, setup);
    case Settle(id, boards) =>
      SettleIsCollisionless(s, id, boards, setup);
    case _ =>
  }

  lemma StepKeepsWon(s: Farm, e: Event, setup: Setup)
    requires Invariant(s, setup) && Enabled(s, e, setup)
    ensures WonStays(After(s, e, setup))
  {
    var s' := After(s, e, setup);
    forall job | WonFor(s, job) ensures WonFor(s', job) {
      if e.Finish? { assert e.id in s.started; }
    }
    if e.TryCancel? && IsQueued(s, s.calls[e.n].job) {
      assert WonFor(s', s.calls[e.n].job);
    }
  }

  /** Where nothing is sent back, a job that left the queue never queues again. */
  lemma StaysUnqueued(s: Farm, e: Event, setup: Setup, id: string)
    requires Enabled(s, e, setup) && !setup.portal && id in s.rows
    ensures id in After(s, e, setup).rows
    ensures IsQueued(After(s, e, setup), id) ==> IsQueued(s, id)
  {
  }

  lemma CallStaysFit(s: Farm, e: Event, setup: Setup, n: nat)
    requires Enabled(s, e, setup) && !setup.portal && n in s.calls && CallFits(s, s.calls[n])
    ensures n in After(s, e, setup).calls && CallFits(After(s, e, setup), After(s, e, setup).calls[n])
  {
    if s.calls[n].job in s.rows { StaysUnqueued(s, e, setup, s.calls[n].job); }
  }

  lemma StepKeepsCalls(s: Farm, e: Event, setup: Setup)
    requires Invariant(s, setup) && Enabled(s, e, setup) && !setup.portal
    ensures CallsFit(After(s, e, setup))
  {
    var s' := After(s, e, setup);
    forall n | n in s'.calls ensures CallFits(s', s'.calls[n]) {
      if n in s.calls { CallStaysFit(s, e, setup, n); }
    }
  }

  lemma {:induction false} InvariantHolds(h: History, t: nat, setup: Setup)
    requires IsHistory(h, setup) && t < |h.states|
    ensures Invariant(h.states[t], setup)
  {
    if t == 0 {
      assert Held(h.states[0]) == h.states[0].grants;
    } else {
      InvariantHolds(h, t - 1, setup);
      assert Happens(h, t - 1, setup);
      var s, e := h.states[t - 1], h.events[t - 1];
      StepIsCollisionless(s, e, setup);
      StepOnlyClaimed(s, e, setup);
      StepKeepsQueue(s, e, setup);
      StepKeepsWon(s, e, setup);
      if !setup.portal { StepKeepsCalls(s, e, setup); }
    }
  }

  // ---- over whole histories ----

  /**
   Whatever happens, in any order -- submissions, plans made from any inventory, claims that fail,
   jobs that end, are released, sent back, cancelled or settle on other boards -- no worker ever
   runs more than its cap, a run that is alone has nothing beside it, no board or resource is held
   twice, and no job runs twice.
  */
  lemma FarmStaysSafe(h: History, t: nat, setup: Setup)
    requires IsHistory(h, setup) && t < |h.states|
    ensures Safe(h.states[t].grants, setup.cap) && UniqueJobs(h.states[t].grants)
  {
    InvariantHolds(h, t, setup);
    var grants, planned := h.states[t].grants, Planned(h.states[t]);
    assert grants + planned + [] == Held(h.states[t]) && grants + [] == grants;
    SafeWithout(grants, planned, [], setup.cap);
    UniqueWithout(grants, planned, []);
  }

  lemma {:induction false} WonForGood(h: History, a: nat, b: nat, n: nat, setup: Setup)
    requires IsHistory(h, setup) && a <= b < |h.states|
    requires n in h.states[a].calls && h.states[a].calls[n].at == Ended(Won)
    ensures n in h.states[b].calls && h.states[b].calls[n] == h.states[a].calls[n]
    decreases b
  {
    if a < b {
      WonForGood(h, a, b - 1, n, setup);
      assert Happens(h, b - 1, setup);
    }
  }

  lemma {:induction false} StartedForGood(h: History, a: nat, b: nat, setup: Setup)
    requires IsHistory(h, setup) && a <= b < |h.states| && !setup.portal
    ensures h.states[a].started <= h.states[b].started
    decreases b
  {
    if a < b {
      StartedForGood(h, a, b - 1, setup);
      assert Happens(h, b - 1, setup);
    }
  }

  /** The t-th event claims the job. */
  ghost predicate Claims(h: History, t: nat, id: string)
    requires |h.states| == |h.events| + 1
  {
    && t < |h.events| && h.events[t].ClaimNext?
    && h.states[t].dispatcher.Claiming? && h.states[t].dispatcher.todo != []
    && h.states[t].dispatcher.todo[0].jobId == id && IsQueued(h.states[t], id)
  }

  /** Where jobs are not sent back, a job is claimed at most once in the whole history. */
  lemma ClaimedOnce(h: History, t: nat, u: nat, id: string, setup: Setup)
    requires IsHistory(h, setup) && !setup.portal
    requires Claims(h, t, id) && Claims(h, u, id)
    ensures t == u
  {
    if t < u { StaysClaimed(h, t, u, id, setup); }
    if u < t { StaysClaimed(h, u, t, id, setup); }
  }

  lemma StaysClaimed(h: History, t: nat, u: nat, id: string, setup: Setup)
    requires IsHistory(h, setup) && !setup.portal && Claims(h, t, id) && t < u < |h.states|
    ensures !IsQueued(h.states[u], id)
  {
    assert Happens(h, t, setup);
    StartedForGood(h, t + 1, u, setup);
    InvariantHolds(h, u, setup);
  }

  /**
   A cancel and the dispatcher never both win a job: one that was cancelled while it was queued
   stays cancelled, and it is never claimed and never has a grant -- not later and, where jobs are
   not sent back to the queue, not earlier either.
  */
  lemma CancelOrClaim(h: History, a: nat, b: nat, n: nat, setup: Setup)
    requires IsHistory(h, setup) && a < |h.states| && b < |h.states| && (a <= b || !setup.portal)
    requires n in h.states[a].calls && h.states[a].calls[n].at == Ended(Won)
    ensures h.states[a].calls[n].job !in h.states[b].started
    ensures h.states[a].calls[n].job !in Ids(h.states[b].grants)
    ensures a <= b ==> WonFor(h.states[b], h.states[a].calls[n].job)
  {
    InvariantHolds(h, a, setup);
    InvariantHolds(h, b, setup);
    if a <= b {
      WonForGood(h, a, b, n, setup);
      assert WonFor(h.states[b], h.states[b].calls[n].job);
    } else {
      StartedForGood(h, b, a, setup);
      assert WonFor(h.states[a], h.states[a].calls[n].job);
    }
  }

  /**
   Where jobs are not sent back, a cancel reads the row at most twice. One that found the job
   queued and lost it to the dispatcher ends having asked the run to stop, or finding it finished.
  */
  lemma CancelEnds(h: History, t: nat, n: nat, setup: Setup)
    requires IsHistory(h, setup) && t < |h.states| && !setup.portal && n in h.states[t].calls
    ensures h.states[t].calls[n].looks <= 2
    ensures h.states[t].calls[n].looks == 2 ==> h.states[t].calls[n].at in {SawRunning, Ended(Asked), Ended(Refused)}
    ensures h.states[t].calls[n].looks == 2 && h.states[t].calls[n].at == SawRunning ==>
      Enabled(h.states[t], Ask(n), setup) &&
      h.states[t].calls[n].job in After(h.states[t], Ask(n), setup).requests
  {
    InvariantHolds(h, t, setup);
    assert CallFits(h.states[t], h.states[t].calls[n]);
  }
}

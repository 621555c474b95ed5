/**
 The allocator's decision as functions over values: every demand granted boards of a rig, or left with a reason.
 The methods that make it, loop by loop, are in Scheduler.dfy and are proved equal to these.
*/
module Allocation {
  import opened Names

  /** Why a board is out of the pool: an operator's bench work, or the canary's verdict. */
  datatype Hold = Unheld | Reserved | Quarantined

  datatype Board = Board(id: string, target: string, tags: set<string>, hold: Hold, worker: Option<string>)

  datatype Need = Need(target: string, count: nat, tags: set<string>, optional: bool)

  datatype Demand = Demand(
    jobId: string,
    wholeRig: bool,
    concurrent: bool,
    boards: seq<string>,
    needs: seq<Need>,
    resources: set<string>,
    holdsBoards: bool,
    profile: Option<string>,
    rig: Option<string>)

  datatype Grant = Grant(
    jobId: string,
    boards: seq<string>,
    resources: set<string>,
    shared: bool,
    wholeRig: bool,
    worker: Option<string>)

  const RESOURCES: set<string> := {"gateway", "mqtt"}

  function IdSet(boards: seq<Board>): set<string> {
    set b | b in boards :: b.id
  }

  function IdSeq(boards: seq<Board>): seq<string> {
    if boards == [] then [] else [boards[0].id] + IdSeq(boards[1..])
  }

  ghost predicate UniqueIds(boards: seq<Board>) {
    forall i, j :: 0 <= i < j < |boards| ==> boards[i].id != boards[j].id
  }

  // ---- one need against a pool of boards ----

  predicate Matches(b: Board, n: Need) {
    b.hold == Unheld && b.target == n.target && n.tags <= b.tags
  }

  predicate Free(b: Board, n: Need, busy: set<string>) {
    Matches(b, n) && b.id !in busy
  }

  /** How many boards of the pool match the need and are not busy. */
  function Count(pool: seq<Board>, n: Need, busy: set<string>): nat {
    if pool == [] then 0 else (if Free(pool[0], n, busy) then 1 else 0) + Count(pool[1..], n, busy)
  }

  /** The first `c` of them, in the order the pool lists them ... */
  function First(pool: seq<Board>, n: Need, busy: set<string>, c: nat): seq<Board> {
    if pool == [] || c == 0 then []
    else if Free(pool[0], n, busy) then [pool[0]] + First(pool[1..], n, busy, c - 1)
    else First(pool[1..], n, busy, c)
  }

  /** ... and the pool without them. */
  function Rest(pool: seq<Board>, n: Need, busy: set<string>, c: nat): seq<Board> {
    if pool == [] || c == 0 then pool
    else if Free(pool[0], n, busy) then Rest(pool[1..], n, busy, c - 1)
    else [pool[0]] + Rest(pool[1..], n, busy, c)
  }

  function Min(a: nat, b: nat): nat {
    if a < b then a else b
  }

  /** The number of boards a need claims from this pool: its count, cut to what matches where it is optional. */
  function Take(n: Need, pool: seq<Board>): nat {
    if n.optional then Min(n.count, Count(pool, n, {})) else n.count
  }

  // ---- a whole demand against a rig's boards ----

  predicate FitsNeeds(needs: seq<Need>, pool: seq<Board>) {
    if needs == [] then true
    else
      && Take(needs[0], pool) <= Count(pool, needs[0], {})
      && FitsNeeds(needs[1..], Rest(pool, needs[0], {}, needs[0].count))
  }

  /** True when the greedy choice over all of a rig's boards, none of them busy, finds enough. */
  predicate FitsIdle(d: Demand, boards: seq<Board>) {
    if d.boards != [] then (set id | id in d.boards) <= IdSet(boards)
    else FitsNeeds(d.needs, boards)
  }

  /** What each need is given, need by need, or the family that is short. */
  datatype Picks = Picked(each: seq<seq<Board>>) | Lacks(family: string)

  function Prepend(first: seq<Board>, rest: Picks): Picks {
    match rest
    case Picked(each) => Picked([first] + each)
    case Lacks(_) => rest
  }

  /** `pool` is what no earlier need has taken; `busy` what running and earlier-queued jobs hold. */
  function PickNeeds(needs: seq<Need>, pool: seq<Board>, busy: set<string>, ahead: set<string>): Picks {
    if needs == [] then Picked([])
    else
      var n := needs[0];
      var wanted := Take(n, pool);
      if wanted == 0 then Prepend([], PickNeeds(needs[1..], pool, busy, ahead))
      else if n.target in ahead || Count(pool, n, busy) < wanted then Lacks(n.target)
      else Prepend(First(pool, n, busy, wanted), PickNeeds(needs[1..], Rest(pool, n, busy, wanted), busy, ahead))
  }

  datatype Choice = Chosen(ids: seq<string>) | Short(what: string)

  function FlatIds(each: seq<seq<Board>>): seq<string> {
    if each == [] then [] else IdSeq(each[0]) + FlatIds(each[1..])
  }

  predicate IsReserved(boards: seq<Board>, id: string) {
    exists b :: b in boards && b.id == id && b.hold == Reserved
  }

  /** The first named board that cannot be had. */
  function FirstTaken(named: seq<string>, boards: seq<Board>, busy: set<string>): Option<string> {
    if named == [] then None
    else if named[0] in busy || IsReserved(boards, named[0]) then Some(named[0])
    else FirstTaken(named[1..], boards, busy)
  }

  /** The first board named whose family an earlier demand waits for. */
  function FirstAhead(named: seq<string>, boards: seq<Board>, ahead: set<string>): Option<string> {
    if boards == [] then None
    else if boards[0].id in named && boards[0].target in ahead then Some(boards[0].id)
    else FirstAhead(named, boards[1..], ahead)
  }

  function NamedIds(named: seq<string>, boards: seq<Board>): seq<string> {
    if boards == [] then []
    else (if boards[0].id in named then [boards[0].id] else []) + NamedIds(named, boards[1..])
  }

  function Choose(d: Demand, boards: seq<Board>, busy: set<string>, ahead: set<string>): Choice {
    if d.boards != [] then
      var taken := FirstTaken(d.boards, boards, busy);
      if taken.Some? then Short(taken.value)
      else
        var behind := FirstAhead(d.boards, boards, ahead);
        if behind.Some? then Short(behind.value)
        else Chosen(Sorted(NamedIds(d.boards, boards)))
    else
      match PickNeeds(d.needs, boards, busy, ahead)
      case Lacks(family) => Short(family)
      case Picked(each) => Chosen(FlatIds(each))
  }

  // ---- one rig ----

  /** A rig as a demand finds it: what runs there, and what the demands ahead still wait for there. */
  datatype RigState = RigState(
    name: Option<string>,
    boards: seq<Board>,
    active: seq<Grant>,
    limit: nat,
    profiles: Option<set<string>>,
    aloneInFarm: bool,
    blockedWhole: Option<string>,
    blockedTargets: set<string>,
    blockedBoards: set<string>,
    blockedResources: set<string>)

  datatype Reason =
    | Paused
    | NotConnected
    | NotRunThere
    | NoWorkerRunsIt
    | BehindWhole(ahead: string)
    | TakenAlone(holder: string)
    | NotIdle
    | NotIdleToRediscover
    | NoSlot
    | ResourceBusy
    | ResourceAhead
    | ShortOf(what: string)

  /** What one rig answers one demand; `whole` blocks every later shared start on that rig. */
  datatype Outcome = Granted(grant: Grant) | Waits(why: Reason, whole: bool)

  predicate RunsProfile(r: RigState, d: Demand) {
    r.profiles.None? || d.profile.None? || d.profile.value in r.profiles.value
  }

  predicate Eligible(r: RigState, d: Demand) {
    if !RunsProfile(r, d) then false
    else if d.boards != [] then (set id | id in d.boards) <= IdSet(r.boards)
    else if d.wholeRig then r.boards != [] || r.aloneInFarm
    else FitsNeeds(d.needs, r.boards)
  }

  function FirstSolo(active: seq<Grant>): Option<Grant> {
    if active == [] then None
    else if !active[0].shared then Some(active[0])
    else FirstSolo(active[1..])
  }

  function HeldBoards(active: seq<Grant>): set<string> {
    set g, id | g in active && id in g.boards :: id
  }

  function HeldResources(active: seq<Grant>): set<string> {
    set g, r | g in active && r in g.resources :: r
  }

  /** The bank: every board not held out of the pool, in inventory order. */
  function BankIds(boards: seq<Board>): seq<string> {
    if boards == [] then []
    else (if boards[0].hold == Unheld then [boards[0].id] else []) + BankIds(boards[1..])
  }

  predicate Alone(r: RigState, d: Demand) {
    d.wholeRig || !d.concurrent || r.limit == 1
  }

  predicate Feasible(r: RigState, d: Demand) {
    d.wholeRig || FitsIdle(d, r.boards)
  }

  /** A demand that runs alone, or that the rig could not meet even idle. */
  function AttemptAlone(r: RigState, d: Demand): Outcome {
    if r.active != [] then Waits(if Feasible(r, d) then NotIdle else NotIdleToRediscover, true)
    else
      var chosen := if Feasible(r, d) then Choose(d, r.boards, {}, {}) else Chosen([]);
      if chosen.Short? then Waits(ShortOf(chosen.what), false)
      else
        var boards := if d.wholeRig && d.holdsBoards then BankIds(r.boards) else chosen.ids;
        Granted(Grant(d.jobId, boards, RESOURCES, false, d.wholeRig, r.name))
  }

  function AttemptShared(r: RigState, d: Demand): Outcome {
    if |r.active| >= r.limit then Waits(NoSlot, false)
    else if d.resources * HeldResources(r.active) != {} then Waits(ResourceBusy, false)
    else if d.resources * r.blockedResources != {} then Waits(ResourceAhead, false)
    else
      match Choose(d, r.boards, HeldBoards(r.active) + r.blockedBoards, r.blockedTargets)
      case Short(what) => Waits(ShortOf(what), false)
      case Chosen(ids) => Granted(Grant(d.jobId, ids, d.resources, true, false, r.name))
  }

  function Attempt(r: RigState, d: Demand): Outcome {
    if r.blockedWhole.Some? then Waits(BehindWhole(r.blockedWhole.value), Alone(r, d))
    else
      var solo := FirstSolo(r.active);
      if solo.Some? then Waits(TakenAlone(solo.value.jobId), Alone(r, d))
      else if Alone(r, d) || !Feasible(r, d) then AttemptAlone(r, d)
      else AttemptShared(r, d)
  }

  /** The families the demand waits for on these boards: not the ones the rig does not have. */
  function WantedFamilies(needs: seq<Need>, boards: seq<Board>): set<string> {
    set n | n in needs && Take(n, boards) > 0 :: n.target
  }

  function Block(r: RigState, d: Demand, whole: bool): RigState {
    if whole then r.(blockedWhole := if r.blockedWhole.Some? then r.blockedWhole else Some(d.jobId))
    else r.(
      blockedTargets := r.blockedTargets + WantedFamilies(d.needs, r.boards),
      blockedBoards := r.blockedBoards + (set id | id in d.boards),
      blockedResources := r.blockedResources + d.resources)
  }

  // ---- the farm's rigs ----

  datatype Limit = Limit(name: Option<string>, runs: int)

  /** What a plan is made from besides the queue and what runs. */
  datatype Config = Config(
    boards: seq<Board>,
    limit: int,
    limits: seq<Limit>,
    profiles: map<Option<string>, set<string>>)

  function Adjoin(names: seq<Option<string>>, more: seq<Option<string>>): seq<Option<string>>
    decreases more
  {
    if more == [] then names
    else Adjoin(if more[0] in names then names else names + [more[0]], more[1..])
  }

  function Mentioned(c: Config, running: seq<Grant>): seq<Option<string>> {
    seq(|c.boards|, i requires 0 <= i < |c.boards| => c.boards[i].worker)
    + seq(|running|, i requires 0 <= i < |running| => running[i].worker)
    + seq(|c.limits|, i requires 0 <= i < |c.limits| => c.limits[i].name)
  }

  function RigNames(c: Config, running: seq<Grant>): seq<Option<string>> {
    var names := Adjoin([], Mentioned(c, running));
    if names == [] then [None] else names
  }

  function BoardsOn(boards: seq<Board>, name: Option<string>): seq<Board> {
    if boards == [] then []
    else (if boards[0].worker == name then [boards[0]] else []) + BoardsOn(boards[1..], name)
  }

  function RunningOn(grants: seq<Grant>, name: Option<string>): seq<Grant> {
    if grants == [] then []
    else (if grants[0].worker == name then [grants[0]] else []) + RunningOn(grants[1..], name)
  }

  function LimitOf(limits: seq<Limit>, limit: int, name: Option<string>): nat
    ensures LimitOf(limits, limit, name) >= 1
  {
    if limits == [] then (if limit < 1 then 1 else limit)
    else if limits[0].name == name then (if limits[0].runs < 1 then 1 else limits[0].runs)
    else LimitOf(limits[1..], limit, name)
  }

  function InitialRig(c: Config, running: seq<Grant>, name: Option<string>, alone: bool): RigState {
    RigState(
      name, BoardsOn(c.boards, name), RunningOn(running, name), LimitOf(c.limits, c.limit, name),
      if name in c.profiles then Some(c.profiles[name]) else None, alone,
      None, {}, {}, {})
  }

  function InitialRigs(c: Config, running: seq<Grant>): (rs: seq<RigState>)
    ensures |rs| == |RigNames(c, running)|
    ensures forall k :: 0 <= k < |rs| ==>
      rs[k] == InitialRig(c, running, RigNames(c, running)[k], |RigNames(c, running)| == 1)
  {
    var names := RigNames(c, running);
    seq(|names|, k requires 0 <= k < |names| => InitialRig(c, running, names[k], |names| == 1))
  }

  // ---- one queued demand against every rig ----

  /** A demand with a rig name is offered to the rig of that name only. */
  predicate OfferedTo(r: RigState, d: Demand) {
    d.rig.None? || r.name == d.rig
  }

  predicate Fits(rs: seq<RigState>, d: Demand, k: nat)
    requires k < |rs|
  {
    OfferedTo(rs[k], d) && Eligible(rs[k], d)
  }

  predicate Runs(rs: seq<RigState>, d: Demand, k: nat)
    requires k < |rs|
  {
    OfferedTo(rs[k], d) && RunsProfile(rs[k], d)
  }

  /** The rigs a demand tries: every rig it fits or, when it fits none, the first that runs it. */
  predicate Candidate(rs: seq<RigState>, d: Demand, k: nat)
    requires k < |rs|
  {
    || Fits(rs, d, k)
    || (&& (forall h | 0 <= h < |rs| :: !Fits(rs, d, h))
        && Runs(rs, d, k)
        && (forall h | 0 <= h < k :: !Runs(rs, d, h)))
  }

  /** The first candidate, from position `from` on, that grants the demand. */
  function FirstGrant(rs: seq<RigState>, d: Demand, from: nat): (found: Option<nat>)
    requires from <= |rs|
    ensures found.Some? ==>
      from <= found.value < |rs| && Candidate(rs, d, found.value) && Attempt(rs[found.value], d).Granted?
    decreases |rs| - from
  {
    if from == |rs| then None
    else if Candidate(rs, d, from) && Attempt(rs[from], d).Granted? then Some(from)
    else FirstGrant(rs, d, from + 1)
  }

  function FirstCandidate(rs: seq<RigState>, d: Demand, from: nat): (found: Option<nat>)
    requires from <= |rs|
    ensures found.Some? ==> from <= found.value < |rs| && Candidate(rs, d, found.value)
    decreases |rs| - from
  {
    if from == |rs| then None
    else if Candidate(rs, d, from) then Some(from)
    else FirstCandidate(rs, d, from + 1)
  }

  /** What became of one queued demand: started on a rig, or left waiting on its candidates. */
  datatype Verdict = Starts(rig: nat, grant: Grant) | Left(why: Reason)

  function Decide(rs: seq<RigState>, d: Demand): (v: Verdict)
    ensures v.Starts? ==> v.rig < |rs| && Candidate(rs, d, v.rig) && Attempt(rs[v.rig], d) == Granted(v.grant)
  {
    var found := FirstGrant(rs, d, 0);
    if found.Some? then Starts(found.value, Attempt(rs[found.value], d).grant)
    else
      var first := FirstCandidate(rs, d, 0);
      if first.Some? then
        var outcome := Attempt(rs[first.value], d);
        Left(if outcome.Waits? then outcome.why else Paused)
      else if d.rig.None? then Left(NoWorkerRunsIt)
      else if forall h | 0 <= h < |rs| :: !OfferedTo(rs[h], d) then Left(NotConnected)
      else Left(NotRunThere)
  }

  /** A demand left waiting keeps what it waits for, on each of its candidates. */
  function Advance(rs: seq<RigState>, d: Demand): (rs': seq<RigState>)
    ensures |rs'| == |rs|
    ensures forall k :: 0 <= k < |rs| ==> rs'[k] == AdvanceRig(rs, d, k)
  {
    seq(|rs|, k requires 0 <= k < |rs| => AdvanceRig(rs, d, k))
  }

  function AdvanceRig(rs: seq<RigState>, d: Demand, k: nat): RigState
    requires k < |rs|
  {
    var v := Decide(rs, d);
    if v.Starts? then
      if v.rig == k then rs[k].(active := rs[k].active + [v.grant]) else rs[k]
    else if Candidate(rs, d, k) && Attempt(rs[k], d).Waits? then Block(rs[k], d, Attempt(rs[k], d).whole)
    else rs[k]
  }

  // ---- the queue ----

  /** The rigs as the i-th demand finds them. */
  function RigsAt(rs: seq<RigState>, queue: seq<Demand>, i: nat): (rs': seq<RigState>)
    requires i <= |queue|
    ensures |rs'| == |rs|
  {
    if i == 0 then rs else Advance(RigsAt(rs, queue, i - 1), queue[i - 1])
  }

  function VerdictAt(rs: seq<RigState>, queue: seq<Demand>, i: nat): Verdict
    requires i < |queue|
  {
    Decide(RigsAt(rs, queue, i), queue[i])
  }

  function Started(v: Verdict): seq<Grant> {
    if v.Starts? then [v.grant] else []
  }

  /** One verdict for each demand, in queue order. */
  function Verdicts(rs: seq<RigState>, queue: seq<Demand>): (vs: seq<Verdict>)
    ensures |vs| == |queue|
    ensures forall i {:trigger vs[i]} :: 0 <= i < |queue| ==> vs[i] == VerdictAt(rs, queue, i)
  {
    seq(|queue|, i requires 0 <= i < |queue| => VerdictAt(rs, queue, i))
  }

  /** The grants made, in queue order. */
  function StartsIn(vs: seq<Verdict>): seq<Grant> {
    if vs == [] then [] else StartsIn(vs[..|vs| - 1]) + Started(vs[|vs| - 1])
  }

  /** Why each demand that did not start waits. */
  function WaitingIn(vs: seq<Verdict>, queue: seq<Demand>): map<string, Reason>
    requires |vs| <= |queue|
  {
    if vs == [] then map[]
    else
      var n := |vs| - 1;
      var before := WaitingIn(vs[..n], queue);
      if vs[n].Starts? then before else before[queue[n].jobId := vs[n].why]
  }

  datatype Plan = Plan(start: seq<Grant>, waiting: map<string, Reason>)

  function PausedWaiting(queue: seq<Demand>): map<string, Reason> {
    map d | d in queue :: d.jobId := Paused
  }

  function PlanOf(queue: seq<Demand>, c: Config, running: seq<Grant>, paused: bool): Plan {
    if paused then Plan([], PausedWaiting(queue))
    else
      var vs := Verdicts(InitialRigs(c, running), queue);
      Plan(StartsIn(vs), WaitingIn(vs, queue))
  }
}

/** What becomes of a job's row over a history, and that what a plan starts is claimed in order, none left out. */
module Lifecycle {
  import opened Names
  import opened Allocation
  import opened Safety
  import opened Dispatch
  import Q = JobQueue

  /** The job's row, where there is one. */
  function RowOf(s: Farm, id: string): Option<Q.Status> {
    if id in s.rows then Some(s.rows[id]) else None
  }

  /** The t-th event tries to claim this job. */
  ghost predicate TriesToClaim(h: History, t: nat, id: string)
    requires |h.states| == |h.events| + 1 && t < |h.events|
  {
    && h.events[t].ClaimNext? && h.states[t].dispatcher.Claiming? && h.states[t].dispatcher.todo != []
    && h.states[t].dispatcher.todo[0].jobId == id
  }

  ghost predicate TriesToCancel(h: History, t: nat, id: string)
    requires |h.states| == |h.events| + 1 && t < |h.events|
  {
    && h.events[t].TryCancel? && h.events[t].n in h.states[t].calls && h.states[t].calls[h.events[t].n].job == id
  }

  /** The row a job has after the t-th event, from the row it had: a submission queues it, a claim or a
      cancellation takes it only from the queue, its end is recorded, and it goes back only while running. */
  ghost function Expected(h: History, t: nat, id: string): Option<Q.Status>
    requires |h.states| == |h.events| + 1 && t < |h.events|
  {
    var was, e := RowOf(h.states[t], id), h.events[t];
    if e == Submit(id) then Some(Q.Queued)
    else if TriesToClaim(h, t, id) && was == Some(Q.Queued) then Some(Q.Running)
    else if TriesToCancel(h, t, id) && was == Some(Q.Queued) then Some(Q.Cancelled)
    else if e.Finish? && e.id == id then Some(e.how)
    else if e == Requeue(id) && was == Some(Q.Running) then Some(Q.Queued)
    else was
  }

  lemma RowsGoAsExpected(h: History, t: nat, id: string, setup: Setup)
    requires IsHistory(h, setup) && t < |h.events|
    ensures RowOf(h.states[t + 1], id) == Expected(h, t, id)
    ensures h.events[t] == Submit(id) ==> RowOf(h.states[t], id) == None
  {
    assert Happens(h, t, setup);
  }

  // ---- what becomes of a job's grant ----

  function GrantOf(grants: seq<Grant>, id: string): Option<Grant> {
    if grants == [] then None
    else if grants[0].jobId == id then Some(grants[0])
    else GrantOf(grants[1..], id)
  }

  lemma {:induction false} PutGives(grants: seq<Grant>, g: Grant, id: string)
    ensures GrantOf(Put(grants, g), id) == if id == g.jobId then Some(g) else GrantOf(grants, id)
  {
    if grants != [] { PutGives(grants[1..], g, id); }
  }

  lemma {:induction false} WithoutGives(grants: seq<Grant>, gone: string, id: string)
    ensures GrantOf(Without(grants, gone), id) == if id == gone then None else GrantOf(grants, id)
  {
    if grants != [] {
      WithoutGives(grants[1..], gone, id);
      assert [] + Without(grants[1..], gone) == Without(grants[1..], gone);
    }
  }

  /** The job's own grant on other boards, if it is alone on boards of its own; every other grant as it was. */
  function Settled(was: Option<Grant>, boards: seq<string>): Option<Grant> {
    match was
    case Some(g) => if g.shared || g.wholeRig then was else Some(g.(boards := boards))
    case None => None
  }

  lemma {:induction false} HoldGives(grants: seq<Grant>, settled: string, boards: seq<string>, id: string)
    ensures GrantOf(HoldBoards(grants, settled, boards), id) ==
            if id == settled then Settled(GrantOf(grants, id), boards) else GrantOf(grants, id)
  {
    if grants != [] { HoldGives(grants[1..], settled, boards, id); }
  }

  /** The grant a job holds after the t-th event, from the one it held: recorded once claimed, settled, released. */
  ghost function ExpectedGrant(h: History, t: nat, id: string): Option<Grant>
    requires |h.states| == |h.events| + 1 && t < |h.events|
  {
    var s, was := h.states[t], GrantOf(h.states[t].grants, id);
    match h.events[t]
    case Record => if IsRecording(s, id) then Some(s.dispatcher.grant) else was
    case Release(gone) => if gone == id then None else was
    case Settle(settled, boards) => if settled == id then Settled(was, boards) else was
    case _ => was
  }

  lemma GrantsGoAsExpected(h: History, t: nat, id: string, setup: Setup)
    requires IsHistory(h, setup) && t < |h.events|
    ensures GrantOf(h.states[t + 1].grants, id) == ExpectedGrant(h, t, id)
  {
    assert Happens(h, t, setup);
    var grants := h.states[t].grants;
    match h.events[t]
    case Record => PutGives(grants, h.states[t].dispatcher.grant, id);
    case Release(gone) => WithoutGives(grants, gone, id);
    case Settle(settled, boards) => HoldGives(grants, settled, boards, id);
    case _ =>
  }

  // ---- the claims of one plan ----

  /** The grants tried from the a-th event up to the b-th, in order. */
  ghost function Tried(h: History, a: nat, b: nat): seq<Grant>
    requires |h.states| == |h.events| + 1 && a <= b <= |h.events|
    decreases b
  {
    if a == b then []
    else
      Tried(h, a, b - 1) +
      if h.events[b - 1].ClaimNext? && h.states[b - 1].dispatcher.Claiming? && h.states[b - 1].dispatcher.todo != []
      then [h.states[b - 1].dispatcher.todo[0]] else []
  }

  /** What is still to be tried. */
  function ToTry(s: Farm): seq<Grant> {
    match s.dispatcher
    case Claiming(todo) => todo
    case Recording(_, todo) => todo
    case _ => []
  }

  /** No plan is made and no pass ends from the a-th event up to the b-th. */
  ghost predicate SamePass(h: History, a: nat, b: nat)
    requires |h.states| == |h.events| + 1 && a <= b <= |h.events|
  {
    forall t :: a <= t < b ==> !h.events[t].Decision? && !h.events[t].ReadQueue? && !h.events[t].EndDispatch?
  }

  lemma TriedMore(h: History, u: nat, t: nat, setup: Setup)
    requires IsHistory(h, setup) && u < t <= |h.events| && SamePass(h, u + 1, t) && u + 1 < t
    ensures Tried(h, u + 1, t - 1) + ToTry(h.states[t - 1]) == Tried(h, u + 1, t) + ToTry(h.states[t])
  {
    assert Happens(h, t - 1, setup);
    var s, e := h.states[t - 1], h.events[t - 1];
    if e.ClaimNext? {
      assert ToTry(s) == [s.dispatcher.todo[0]] + ToTry(h.states[t]);
    } else {
      assert Tried(h, u + 1, t) == Tried(h, u + 1, t - 1);
    }
  }

  lemma PlanIsToTry(h: History, u: nat, setup: Setup)
    requires IsHistory(h, setup) && u < |h.events| && h.events[u].Decision? && h.states[u].dispatcher.HasQueue?
    ensures ToTry(h.states[u + 1]) ==
            PlanOf(h.states[u].dispatcher.queue, h.events[u].config, h.states[u].grants, h.events[u].paused).start
  {
    assert Happens(h, u, setup);
  }

  lemma {:induction false} TriedSince(h: History, u: nat, t: nat, setup: Setup)
    requires IsHistory(h, setup) && u < t <= |h.events| && SamePass(h, u + 1, t)
    ensures ToTry(h.states[u + 1]) == Tried(h, u + 1, t) + ToTry(h.states[t])
    decreases t
  {
    if t == u + 1 {
      assert Tried(h, u + 1, t) == [] && [] + ToTry(h.states[t]) == ToTry(h.states[t]);
    } else {
      TriedSince(h, u, t - 1, setup);
      TriedMore(h, u, t, setup);
    }
  }

  /** What a plan starts is tried one by one, in its order: what has been and what is still to be is all of it. */
  lemma StartsAreTriedInOrder(h: History, u: nat, t: nat, setup: Setup)
    requires IsHistory(h, setup) && u < t <= |h.events| && h.events[u].Decision? && h.states[u].dispatcher.HasQueue?
    requires SamePass(h, u + 1, t)
    ensures PlanOf(h.states[u].dispatcher.queue, h.events[u].config, h.states[u].grants, h.events[u].paused).start ==
            Tried(h, u + 1, t) + ToTry(h.states[t])
  {
    PlanIsToTry(h, u, setup);
    TriedSince(h, u, t, setup);
  }

  /** A pass that ends has tried all that its plan starts. */
  lemma PassTriesAll(h: History, u: nat, t: nat, setup: Setup)
    requires IsHistory(h, setup) && u < t < |h.events| && h.events[u].Decision? && h.states[u].dispatcher.HasQueue?
    requires SamePass(h, u + 1, t) && h.events[t] == EndDispatch
    ensures PlanOf(h.states[u].dispatcher.queue, h.events[u].config, h.states[u].grants, h.events[u].paused).start ==
            Tried(h, u + 1, t)
  {
    StartsAreTriedInOrder(h, u, t, setup);
    assert Happens(h, t, setup);
    assert Tried(h, u + 1, t) + [] == Tried(h, u + 1, t);
  }

  // ---- nothing gets stuck ----

  ghost predicate Extends(longer: History, h: History) {
    h.states <= longer.states && h.events <= longer.events
  }

  function Last(h: History): Farm
    requires h.states != []
  {
    h.states[|h.states| - 1]
  }

  lemma Extend(h: History, e: Event, setup: Setup) returns (longer: History)
    requires IsHistory(h, setup) && Enabled(Last(h), e, setup)
    ensures IsHistory(longer, setup) && Extends(longer, h) && Last(longer) == After(Last(h), e, setup)
  {
    longer := History(h.states + [After(Last(h), e, setup)], h.events + [e]);
    forall t | 0 <= t < |longer.events| ensures Happens(longer, t, setup) {
      if t < |h.events| { assert Happens(h, t, setup); }
    }
  }

  /** What the dispatcher has left of its pass. */
  function StepsLeft(s: Farm): nat {
    match s.dispatcher
    case Claiming(todo) => 2 * |todo| + 1
    case Recording(_, todo) => 2 * |todo| + 2
    case _ => 0
  }

  lemma {:induction false} PlannedPassCanEnd(h: History, setup: Setup) returns (longer: History)
    requires IsHistory(h, setup) && !Last(h).dispatcher.HasQueue?
    ensures IsHistory(longer, setup) && Extends(longer, h) && Last(longer).dispatcher == Idle
    decreases StepsLeft(Last(h))
  {
    var s := Last(h);
    if s.dispatcher == Idle {
      longer := h;
    } else {
      var e := if s.dispatcher.Recording? then Record else if s.dispatcher.todo == [] then EndDispatch else ClaimNext;
      longer := Extend(h, e, setup);
      longer := PlannedPassCanEnd(longer, setup);
    }
  }

  /** Wherever a history stands, the dispatcher's pass can be brought to its end, whatever configuration it finds. */
  lemma PassCanEnd(h: History, c: Config, paused: bool, setup: Setup) returns (longer: History)
    requires IsHistory(h, setup) && UniqueIds(c.boards) && WithinCap(c, setup.cap)
    ensures IsHistory(longer, setup) && Extends(longer, h) && Last(longer).dispatcher == Idle
  {
    longer := h;
    if Last(h).dispatcher.HasQueue? {
      longer := Extend(h, Decision(c, paused), setup);
    }
    longer := PlannedPassCanEnd(longer, setup);
  }

  lemma SeenCanEnd(h: History, n: nat, setup: Setup) returns (longer: History)
    requires IsHistory(h, setup) && n in Last(h).calls && !Last(h).calls[n].at.Reading?
    requires Last(h).calls[n].at.SawQueued? ==> IsQueued(Last(h), Last(h).calls[n].job)
    ensures IsHistory(longer, setup) && Extends(longer, h)
    ensures n in Last(longer).calls && Last(longer).calls[n].at.Ended?
  {
    longer := h;
    if Last(h).calls[n].at.SawQueued? { longer := Extend(h, TryCancel(n), setup); }
    if Last(h).calls[n].at.SawRunning? { longer := Extend(h, Ask(n), setup); }
  }

  lemma ReadingCanEnd(h: History, n: nat, setup: Setup) returns (longer: History)
    requires IsHistory(h, setup) && n in Last(h).calls && Last(h).calls[n].at.Reading?
    ensures IsHistory(longer, setup) && Extends(longer, h)
    ensures n in Last(longer).calls && Last(longer).calls[n].at.Ended?
  {
    longer := Extend(h, ReadRow(n), setup);
    longer := SeenCanEnd(longer, n, setup);
  }

  /** Wherever a history stands, every call to cancel can be brought to its end. */
  lemma CallCanEnd(h: History, n: nat, setup: Setup) returns (longer: History)
    requires IsHistory(h, setup) && n in Last(h).calls
    ensures IsHistory(longer, setup) && Extends(longer, h)
    ensures n in Last(longer).calls && Last(longer).calls[n].at.Ended?
  {
    if Last(h).calls[n].at.Reading? {
      longer := ReadingCanEnd(h, n, setup);
    } else if Last(h).calls[n].at.SawQueued? && !IsQueued(Last(h), Last(h).calls[n].job) {
      longer := Extend(h, TryCancel(n), setup);
      longer := ReadingCanEnd(longer, n, setup);
    } else {
      longer := SeenCanEnd(h, n, setup);
    }
  }
}

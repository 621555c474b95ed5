/**
 The artifact lock: taken by a prune before it chooses, handed to whoever deletes, and given back by
 one of the two; taken by everything else that pins, reuses or deletes a bundle.
*/
module ArtifactLock {
  import opened Names

  datatype Bundle = Bundle(pinned: bool, held: bool)

  datatype Owner = Request(n: nat) | Other

  /** Where a request to prune is; Inline waits for a deletion it runs itself. */
  datatype Phase = Waiting | GaveUp | Choosing | Ready | Handed | Inline | Leaving | Returned

  datatype Worker = Idle | Deleting(todo: seq<string>) | Ended

  /** `releases` counts how often this prune has released the lock. */
  datatype Prune = Prune(phase: Phase, worker: Worker, handedOver: bool, chosen: seq<string>, releases: nat)

  datatype Store = Store(bundles: map<string, Bundle>, lock: Option<Owner>, prunes: map<nat, Prune>)

  const NEW := Prune(Waiting, Idle, false, [], 0)

  predicate MayGo(bundles: map<string, Bundle>, id: string) {
    id in bundles && !bundles[id].pinned && !bundles[id].held
  }

  ghost predicate AllMayGo(bundles: map<string, Bundle>, ids: seq<string>) {
    Distinct(ids) && forall id :: id in ids ==> MayGo(bundles, id)
  }

  // ---- what happens ----

  datatype Event =
    | Arrive(n: nat)
    | GiveUp(n: nat)
    | Claim(n: nat)
    | Choose(n: nat, ids: seq<string>)
    | Bail(n: nat)
    | HandOver(n: nat)
    | StartThread(n: nat)
    | StartInline(n: nat)
    | DeleteOne(n: nat, ok: bool)
    | EndWorker(n: nat)
    | Resume(n: nat)
    | Leave(n: nat)
    | OtherClaim
    | OtherRelease
    | Pin(id: string)
    | Unpin(id: string)
    | Reuse(id: string)
    | Remove(id: string)
    | JobEnds(id: string)
    | Publish(id: string)

  predicate In(s: Store, n: nat, phase: Phase) {
    n in s.prunes && s.prunes[n].phase == phase
  }

  /** A deletion may end at any point: everything done, or an exception that got out. */
  ghost predicate Enabled(s: Store, e: Event) {
    match e
    case Arrive(n) => n !in s.prunes
    case GiveUp(n) => In(s, n, Waiting)
    case Claim(n) => In(s, n, Waiting) && s.lock == None
    case Choose(n, ids) => In(s, n, Choosing) && AllMayGo(s.bundles, ids)
    case Bail(n) => In(s, n, Choosing) || In(s, n, Ready)
    case HandOver(n) => In(s, n, Ready)
    case StartThread(n) => In(s, n, Handed)
    case StartInline(n) => In(s, n, Handed)
    case DeleteOne(n, _) => n in s.prunes && s.prunes[n].worker.Deleting? && s.prunes[n].worker.todo != []
    case EndWorker(n) => n in s.prunes && s.prunes[n].worker.Deleting?
    case Resume(n) => In(s, n, Inline) && s.prunes[n].worker.Ended?
    case Leave(n) => In(s, n, Leaving)
    case OtherClaim => s.lock == None
    case OtherRelease => s.lock == Some(Other)
    case Pin(id) => s.lock == Some(Other) && id in s.bundles
    case Unpin(id) => s.lock == Some(Other) && id in s.bundles
    case Reuse(id) => s.lock == Some(Other) && id in s.bundles
    case Remove(id) => s.lock == Some(Other) && MayGo(s.bundles, id)
    case JobEnds(id) => id in s.bundles
    case Publish(id) => id !in s.bundles
  }

  /** `lock.release()` frees the lock, whoever holds it. */
  function Release(s: Store, n: nat, p: Prune): Store {
    s.(lock := None, prunes := s.prunes[n := p.(releases := p.releases + 1)])
  }

  function Becomes(s: Store, n: nat, p: Prune): Store {
    s.(prunes := s.prunes[n := p])
  }

  ghost function After(s: Store, e: Event): Store
    requires Enabled(s, e)
  {
    match e
    case Arrive(n) => Becomes(s, n, NEW)
    case GiveUp(n) => Becomes(s, n, s.prunes[n].(phase := GaveUp))
    case Claim(n) => Becomes(s, n, s.prunes[n].(phase := Choosing)).(lock := Some(Request(n)))
    case Choose(n, ids) => Becomes(s, n, s.prunes[n].(phase := Ready, chosen := ids))
    case Bail(n) => Becomes(s, n, s.prunes[n].(phase := Leaving))
    case HandOver(n) => Becomes(s, n, s.prunes[n].(phase := Handed, handedOver := true))
    case StartThread(n) => Becomes(s, n, s.prunes[n].(phase := Leaving, worker := Deleting(s.prunes[n].chosen)))
    case StartInline(n) => Becomes(s, n, s.prunes[n].(phase := Inline, worker := Deleting(s.prunes[n].chosen)))
    case DeleteOne(n, ok) =>
      var todo := s.prunes[n].worker.todo;
      var left := Becomes(s, n, s.prunes[n].(worker := Deleting(todo[1..])));
      if ok then left.(bundles := s.bundles - {todo[0]}) else left
    case EndWorker(n) => Release(s, n, s.prunes[n].(worker := Ended))
    case Resume(n) => Becomes(s, n, s.prunes[n].(phase := Leaving))
    case Leave(n) =>
      var p := s.prunes[n].(phase := Returned);
      if p.handedOver then Becomes(s, n, p) else Release(s, n, p)
    case OtherClaim => s.(lock := Some(Other))
    case OtherRelease => s.(lock := None)
    case Pin(id) => s.(bundles := s.bundles[id := s.bundles[id].(pinned := true)])
    case Unpin(id) => s.(bundles := s.bundles[id := s.bundles[id].(pinned := false)])
    case Reuse(id) => s.(bundles := s.bundles[id := s.bundles[id].(held := true)])
    case Remove(id) => s.(bundles := s.bundles - {id})
    case JobEnds(id) => s.(bundles := s.bundles[id := s.bundles[id].(held := false)])
    case Publish(id) => s.(bundles := s.bundles[id := Bundle(false, true)])
  }

  ghost predicate Leads(from: Store, events: seq<Event>, to: Store)
    decreases events
  {
    if events == [] then from == to
    else Enabled(from, events[0]) && Leads(After(from, events[0]), events[1..], to)
  }

  // ---- who holds the lock ----

  /** This prune is answerable for the lock. */
  predicate Holds(p: Prune) {
    || p.phase in {Choosing, Ready, Handed}
    || p.worker.Deleting?
    || (p.phase == Leaving && !p.handedOver)
  }

  /** The request has been answered and nothing deletes for it any more. */
  predicate Done(p: Prune) {
    p.phase == Returned && !p.worker.Deleting?
  }

  predicate InStep(p: Prune) {
    match p.phase
    case Waiting | GaveUp | Choosing | Ready => !p.handedOver && p.worker.Idle?
    case Handed => p.handedOver && p.worker.Idle?
    case Inline => p.handedOver && !p.worker.Idle?
    case Leaving | Returned => p.handedOver <==> !p.worker.Idle?
  }

  ghost predicate PruneFits(s: Store, n: nat)
    requires n in s.prunes
  {
    var p := s.prunes[n];
    && InStep(p)
    && (Holds(p) <==> s.lock == Some(Request(n)))
    && p.releases == (if p.phase in {Waiting, GaveUp} || Holds(p) then 0 else 1)
    && (p.phase in {Ready, Handed} ==> AllMayGo(s.bundles, p.chosen))
    && (p.worker.Deleting? ==> AllMayGo(s.bundles, p.worker.todo))
  }

  ghost predicate Fits(s: Store) {
    && (forall n :: n in s.prunes ==> PruneFits(s, n))
    && (s.lock.Some? && s.lock.value.Request? ==> s.lock.value.n in s.prunes)
  }

  /** Bundles that may go still may unless somebody holding the lock says otherwise. */
  lemma StillMayGo(s: Store, e: Event)
    requires Enabled(s, e) && s.lock != Some(Other) && !e.DeleteOne?
    ensures forall id :: MayGo(s.bundles, id) ==> MayGo(After(s, e).bundles, id)
  {
  }

  lemma DeletingLeavesRest(s: Store, e: Event)
    requires e.DeleteOne? && Enabled(s, e) && AllMayGo(s.bundles, s.prunes[e.n].worker.todo)
    ensures AllMayGo(After(s, e).bundles, s.prunes[e.n].worker.todo[1..])
  {
    var todo := s.prunes[e.n].worker.todo;
    assert forall id :: id in todo[1..] ==> id in todo && id != todo[0];
  }

  /** One prune, over one step of its own. */
  lemma OwnStepFits(s: Store, e: Event, n: nat)
    requires Fits(s) && Enabled(s, e) && n in After(s, e).prunes
    requires n !in s.prunes || After(s, e).prunes[n] != s.prunes[n]
    ensures PruneFits(After(s, e), n)
  {
    if n in s.prunes {
      assert PruneFits(s, n);
      if e.DeleteOne? { DeletingLeavesRest(s, e); }
    }
  }

  /** And over a step of somebody else's. */
  lemma OtherStepFits(s: Store, e: Event, n: nat)
    requires Fits(s) && Enabled(s, e) && n in s.prunes && n in After(s, e).prunes
    requires After(s, e).prunes[n] == s.prunes[n]
    ensures PruneFits(After(s, e), n)
  {
    assert PruneFits(s, n);
    if s.lock != Some(Other) && !e.DeleteOne? { StillMayGo(s, e); }
    match e
    case DeleteOne(m, _) => assert PruneFits(s, m);
    case EndWorker(m) => assert PruneFits(s, m);
    case Leave(m) => assert PruneFits(s, m);
    case _ =>
  }

  lemma StepFits(s: Store, e: Event)
    requires Fits(s) && Enabled(s, e)
    ensures Fits(After(s, e))
  {
    var after := After(s, e);
    forall n | n in after.prunes ensures PruneFits(after, n) {
      if n in s.prunes && after.prunes[n] == s.prunes[n] { OtherStepFits(s, e, n); } else { OwnStepFits(s, e, n); }
    }
  }

  lemma {:induction false} AlwaysFits(from: Store, events: seq<Event>, to: Store)
    requires Fits(from) && Leads(from, events, to)
    ensures Fits(to)
    decreases events
  {
    if events != [] {
      StepFits(from, events[0]);
      AlwaysFits(After(from, events[0]), events[1..], to);
    }
  }

  // ---- what that means ----

  /**
   No bundle is deleted that anybody pinned or took to reuse: from the choosing to the last delete
   nobody else has the lock, so what was free when it was chosen is free when it is deleted.
  */
  lemma DeletesOnlyWhatMayGo(bundles: map<string, Bundle>, events: seq<Event>, s: Store, n: nat, ok: bool)
    requires Leads(Store(bundles, None, map[]), events, s) && Enabled(s, DeleteOne(n, ok))
    ensures MayGo(s.bundles, s.prunes[n].worker.todo[0])
  {
    AlwaysFits(Store(bundles, None, map[]), events, s);
    assert PruneFits(s, n);
  }

  /** Whoever answers for the lock has it, and nobody else does. */
  lemma HolderHasLock(s: Store, n: nat)
    requires Fits(s) && n in s.prunes && Holds(s.prunes[n])
    ensures s.lock == Some(Request(n)) && forall m :: m in s.prunes && m != n ==> !Holds(s.prunes[m])
  {
    assert PruneFits(s, n);
    forall m | m in s.prunes && m != n ensures !Holds(s.prunes[m]) {
      assert PruneFits(s, m);
    }
  }

  lemma LockedOut(s: Store, n: nat, id: string)
    requires s.lock == Some(Request(n))
    ensures !Enabled(s, Pin(id)) && !Enabled(s, Reuse(id)) && !Enabled(s, Remove(id))
    ensures forall m :: !Enabled(s, Claim(m))
  {
  }

  /** While a prune answers for the lock no pin and no reuse can land, whatever the bundle. */
  lemma NothingLandsBetween(bundles: map<string, Bundle>, events: seq<Event>, s: Store, n: nat, id: string)
    requires Leads(Store(bundles, None, map[]), events, s) && n in s.prunes && Holds(s.prunes[n])
    ensures !Enabled(s, Pin(id)) && !Enabled(s, Reuse(id)) && !Enabled(s, Remove(id))
    ensures forall m :: m in s.prunes && m != n ==> !Holds(s.prunes[m]) && !Enabled(s, Claim(m))
  {
    AlwaysFits(Store(bundles, None, map[]), events, s);
    HolderHasLock(s, n);
    LockedOut(s, n, id);
  }

  /**
   The lock is released exactly once on every path -- a refusal, a preview, an error before the
   hand-over, a thread, a thread that could not be started, a caller that waits, an exception while
   deleting -- never while it is still needed, and never on somebody else's behalf.
  */
  lemma ReleasedOnce(bundles: map<string, Bundle>, events: seq<Event>, s: Store, n: nat)
    requires Leads(Store(bundles, None, map[]), events, s) && n in s.prunes
    ensures s.prunes[n].releases <= 1
    ensures Done(s.prunes[n]) ==> s.prunes[n].releases == 1
    ensures s.prunes[n].phase == GaveUp ==> s.prunes[n].releases == 0
    ensures Holds(s.prunes[n]) ==> s.lock == Some(Request(n))
    ensures Enabled(s, EndWorker(n)) ==> s.lock == Some(Request(n))
    ensures Enabled(s, Leave(n)) && !s.prunes[n].handedOver ==> s.lock == Some(Request(n))
  {
    AlwaysFits(Store(bundles, None, map[]), events, s);
    assert PruneFits(s, n);
  }

  // ---- what becomes of a bundle ----

  /** Nothing pinned and nothing held is deleted; who pinned or holds it must say so first. */
  lemma StepKeeps(s: Store, e: Event, id: string)
    requires Fits(s) && Enabled(s, e) && id in s.bundles
    ensures s.bundles[id].pinned && e != Unpin(id) ==>
      id in After(s, e).bundles && After(s, e).bundles[id].pinned
    ensures s.bundles[id].held && e != JobEnds(id) ==>
      id in After(s, e).bundles && After(s, e).bundles[id].held
  {
    if e.DeleteOne? {
      assert PruneFits(s, e.n);
      assert s.prunes[e.n].worker.todo[0] in s.prunes[e.n].worker.todo;
    }
  }

  lemma {:induction false} StaysPinned(s: Store, events: seq<Event>, to: Store, id: string)
    requires Fits(s) && Leads(s, events, to) && Unpin(id) !in events && id in s.bundles && s.bundles[id].pinned
    ensures id in to.bundles && to.bundles[id].pinned
    decreases events
  {
    if events != [] {
      assert events == [events[0]] + events[1..];
      StepFits(s, events[0]);
      StepKeeps(s, events[0], id);
      StaysPinned(After(s, events[0]), events[1..], to, id);
    }
  }

  lemma {:induction false} StaysHeld(s: Store, events: seq<Event>, to: Store, id: string)
    requires Fits(s) && Leads(s, events, to) && JobEnds(id) !in events && id in s.bundles && s.bundles[id].held
    ensures id in to.bundles && to.bundles[id].held
    decreases events
  {
    if events != [] {
      assert events == [events[0]] + events[1..];
      StepFits(s, events[0]);
      StepKeeps(s, events[0], id);
      StaysHeld(After(s, events[0]), events[1..], to, id);
    }
  }

  lemma {:induction false} StaysGone(s: Store, events: seq<Event>, to: Store, id: string)
    requires Leads(s, events, to) && id !in s.bundles && Publish(id) !in events
    ensures id !in to.bundles
    decreases events
  {
    if events != [] {
      assert events == [events[0]] + events[1..];
      StaysGone(After(s, events[0]), events[1..], to, id);
    }
  }

  ghost predicate Deletes(s: Store, e: Event, id: string)
    requires Enabled(s, e)
  {
    e == Remove(id) || (e.DeleteOne? && e.ok && s.prunes[e.n].worker.todo[0] == id)
  }

  lemma StepDoes(s: Store, e: Event, id: string)
    requires Enabled(s, e)
    ensures e == Pin(id) ==> id in After(s, e).bundles && After(s, e).bundles[id].pinned
    ensures e == Reuse(id) || e == Publish(id) ==> id in After(s, e).bundles && After(s, e).bundles[id].held
    ensures Deletes(s, e, id) ==> id !in After(s, e).bundles
  {
  }

  /** What an event makes of a bundle lasts until one of those that undo it. */
  lemma WhatIsDoneLasts(
      bundles: map<string, Bundle>, before: seq<Event>, s: Store, e: Event, later: seq<Event>, to: Store, id: string)
    requires Leads(Store(bundles, None, map[]), before, s) && Enabled(s, e) && Leads(After(s, e), later, to)
    ensures e == Pin(id) && Unpin(id) !in later ==> id in to.bundles && to.bundles[id].pinned
    ensures (e == Reuse(id) || e == Publish(id)) && JobEnds(id) !in later ==> id in to.bundles && to.bundles[id].held
    ensures Deletes(s, e, id) && Publish(id) !in later ==> id !in to.bundles
  {
    AlwaysFits(Store(bundles, None, map[]), before, s);
    StepFits(s, e);
    StepDoes(s, e, id);
    if e == Pin(id) && Unpin(id) !in later { StaysPinned(After(s, e), later, to, id); }
    if (e == Reuse(id) || e == Publish(id)) && JobEnds(id) !in later { StaysHeld(After(s, e), later, to, id); }
    if Deletes(s, e, id) && Publish(id) !in later { StaysGone(After(s, e), later, to, id); }
  }

  // ---- a prune works through what it chose ----

  /** How often prune n has called for a bundle to be deleted. */
  function Calls(events: seq<Event>, n: nat): nat {
    if events == [] then 0
    else (if events[0].DeleteOne? && events[0].n == n then 1 else 0) + Calls(events[1..], n)
  }

  /** Of what prune n chose, it has called for so many, and the rest is still to do. */
  ghost predicate AsFarAs(s: Store, n: nat, called: nat) {
    if n !in s.prunes || s.prunes[n].worker.Idle? then called == 0
    else
      var p := s.prunes[n];
      called <= |p.chosen| && (p.worker.Deleting? ==> p.worker.todo == p.chosen[called..])
  }

  lemma StepGoesOn(s: Store, e: Event, n: nat, called: nat)
    requires Fits(s) && Enabled(s, e) && AsFarAs(s, n, called)
    ensures AsFarAs(After(s, e), n, called + if e.DeleteOne? && e.n == n then 1 else 0)
  {
    if n in s.prunes { assert PruneFits(s, n); }
  }

  lemma {:induction false} AlwaysGoesOn(from: Store, events: seq<Event>, to: Store, n: nat, called: nat)
    requires Fits(from) && AsFarAs(from, n, called) && Leads(from, events, to)
    ensures AsFarAs(to, n, called + Calls(events, n))
    decreases events
  {
    if events != [] {
      var e := events[0];
      StepFits(from, e);
      StepGoesOn(from, e, n, called);
      AlwaysGoesOn(After(from, e), events[1..], to, n, called + if e.DeleteOne? && e.n == n then 1 else 0);
    }
  }

  lemma {:induction false} StaysChosen(s: Store, events: seq<Event>, to: Store, n: nat)
    requires Leads(s, events, to) && n in s.prunes && s.prunes[n].phase !in {Waiting, Choosing}
    ensures n in to.prunes && to.prunes[n].chosen == s.prunes[n].chosen
    decreases events
  {
    if events != [] { StaysChosen(After(s, events[0]), events[1..], to, n); }
  }

  /**
   What a prune chose it calls for one by one, in that order and none twice: while it deletes, what is left is
   what it chose without the first so many, as many as it has called for.
  */
  lemma DeletesInOrder(
      bundles: map<string, Bundle>, before: seq<Event>, s: Store, n: nat, ids: seq<string>, later: seq<Event>,
      to: Store)
    requires Leads(Store(bundles, None, map[]), before, s) && Enabled(s, Choose(n, ids))
    requires Leads(After(s, Choose(n, ids)), later, to)
    ensures n in to.prunes && Calls(later, n) <= |ids|
    ensures to.prunes[n].worker.Deleting? ==> to.prunes[n].worker.todo == ids[Calls(later, n)..]
  {
    AlwaysFits(Store(bundles, None, map[]), before, s);
    assert PruneFits(s, n);
    StepFits(s, Choose(n, ids));
    AlwaysGoesOn(After(s, Choose(n, ids)), later, to, n, 0);
    StaysChosen(After(s, Choose(n, ids)), later, to, n);
  }

  // ---- and every prune can be brought to its end ----

  /** What a request and its deletion have left to do, at most. */
  function StepsLeft(p: Prune): nat {
    (match p.phase
     case Handed => 7 + |p.chosen|
     case Choosing | Ready => 3
     case Waiting | Inline => 2
     case Leaving => 1
     case GaveUp | Returned => 0)
    + match p.worker
      case Deleting(todo) => |todo| + 1
      case _ => 0
  }

  function NextOf(n: nat, p: Prune): Event {
    match p.phase
    case Waiting => GiveUp(n)
    case Choosing | Ready => Bail(n)
    case Handed => StartThread(n)
    case _ =>
      if p.worker.Deleting? then if p.worker.todo == [] then EndWorker(n) else DeleteOne(n, true)
      else if p.phase == Inline then Resume(n) else Leave(n)
  }

  lemma NextIsCloser(s: Store, n: nat)
    requires Fits(s) && n in s.prunes && !Done(s.prunes[n]) && s.prunes[n].phase != GaveUp
    ensures var e := NextOf(n, s.prunes[n]);
      && Enabled(s, e) && Fits(After(s, e)) && n in After(s, e).prunes
      && StepsLeft(After(s, e).prunes[n]) < StepsLeft(s.prunes[n])
  {
    assert PruneFits(s, n);
    StepFits(s, NextOf(n, s.prunes[n]));
  }

  /** Wherever a course of events stands, a prune can give up or be done, its deletion with it, on its own. */
  lemma {:induction false} CanEnd(s: Store, n: nat) returns (events: seq<Event>, to: Store)
    requires Fits(s) && n in s.prunes
    ensures Leads(s, events, to) && n in to.prunes && (Done(to.prunes[n]) || to.prunes[n].phase == GaveUp)
    decreases StepsLeft(s.prunes[n])
  {
    if Done(s.prunes[n]) || s.prunes[n].phase == GaveUp {
      events, to := [], s;
    } else {
      var e := NextOf(n, s.prunes[n]);
      NextIsCloser(s, n);
      events, to := CanEnd(After(s, e), n);
      assert ([e] + events)[1..] == events;
      events := [e] + events;
    }
  }

  lemma PruneCanEnd(bundles: map<string, Bundle>, before: seq<Event>, s: Store, n: nat)
    requires Leads(Store(bundles, None, map[]), before, s) && n in s.prunes
    ensures exists later, to :: Leads(s, later, to) && n in to.prunes
              && (Done(to.prunes[n]) || to.prunes[n].phase == GaveUp)
  {
    AlwaysFits(Store(bundles, None, map[]), before, s);
    var later, to := CanEnd(s, n);
  }
}

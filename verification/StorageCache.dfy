/**
 The storage figures: walked by one thread at a time, marked fresh only when nothing on disk went
 while they were being walked.
*/
module StorageCache {
  import opened Names

  const CACHE_SECONDS: int := 300

  /** What a walk found: which walk, by the moment it began, and whether it got through. */
  datatype Figures = Figures(began: nat, complete: bool)

  datatype Cache = Cache(generation: nat, freshSince: Option<int>, measuring: bool, figures: Option<Figures>)

  const EMPTY := Cache(0, None, false, None)

  // ---- the sections under the lock ----

  function Changed(c: Cache): Cache {
    c.(generation := c.generation + 1, freshSince := None)
  }

  predicate Stale(c: Cache, anew: bool, now: int) {
    anew || c.freshSince.None? || now - c.freshSince.value > CACHE_SECONDS
  }

  /** Whether a look at the figures starts a walk. */
  predicate Starts(c: Cache, anew: bool, now: int) {
    Stale(c, anew, now) && !c.measuring
  }

  function Looked(c: Cache, anew: bool, now: int): Cache {
    if Starts(c, anew, now) then c.(measuring := true) else c
  }

  /** A walk stores what it found -- all of it or what it had when it failed. */
  function Stored(c: Cache, generation: nat, found: Figures, now: int): Cache {
    Cache(c.generation, if c.generation == generation then Some(now) else None, false, Some(found))
  }

  class Storage {
    var generation: nat
    var freshSince: Option<int>
    var measuring: bool
    var figures: Option<Figures>

    ghost function Now(): Cache
      reads this
    {
      Cache(generation, freshSince, measuring, figures)
    }

    constructor ()
      ensures Now() == EMPTY
    {
      generation, freshSince, measuring, figures := 0, None, false, None;
    }

    /** Mark a change to the store: the figures count as stale, and a walk already under way as outdated. */
    method StorageChanged()
      modifies this
      ensures Now() == Changed(old(Now()))
    {
      generation := generation + 1;
      freshSince := None;
    }

    /** Say whether a walk is to start: one was asked for or the figures are stale, and none is under way. */
    method MeasureIfStale(anew: bool, now: int) returns (start: bool)
      modifies this
      ensures start == Starts(old(Now()), anew, now)
      ensures Now() == Looked(old(Now()), anew, now)
    {
      var stale := anew || freshSince == None || now - freshSince.value > CACHE_SECONDS;
      start := stale && !measuring;
      if start { measuring := true; }
    }

    method EndWalk(seen: nat, found: Figures, now: int)
      modifies this
      ensures Now() == Stored(old(Now()), seen, found, now)
    {
      figures := Some(found);
      freshSince := if generation == seen then Some(now) else None;
      measuring := false;
    }
  }

  // ---- threads ----

  /** A walk that was started, and one that has read the generation. */
  datatype Walk = Started | Walking(seen: nat, began: nat)

  /** The cache, the walks in flight, the moment, and the moment something was last deleted. */
  datatype World = World(cache: Cache, walks: seq<Walk>, moment: nat, changed: nat)

  datatype Event =
    | Change
    | Look(anew: bool, now: int)
    | LookFails(anew: bool, now: int)
    | Begin(i: nat)
    | End(i: nat, complete: bool, now: int)

  ghost predicate Enabled(w: World, e: Event) {
    match e
    case LookFails(anew, now) => Starts(w.cache, anew, now)
    case Begin(i) => i < |w.walks| && w.walks[i].Started?
    case End(i, _, _) => i < |w.walks| && w.walks[i].Walking?
    case _ => true
  }

  /** `LookFails` is a look whose thread could not be started. */
  ghost function After(w: World, e: Event): World
    requires Enabled(w, e)
  {
    var m := w.moment + 1;
    match e
    case Change => World(Changed(w.cache), w.walks, m, m)
    case Look(anew, now) =>
      var walks := if Starts(w.cache, anew, now) then w.walks + [Started] else w.walks;
      World(Looked(w.cache, anew, now), walks, m, w.changed)
    case LookFails(anew, now) => World(Looked(w.cache, anew, now), w.walks, m, w.changed)
    case Begin(i) => World(w.cache, w.walks[i := Walking(w.cache.generation, m)], m, w.changed)
    case End(i, complete, now) =>
      World(Stored(w.cache, w.walks[i].seen, Figures(w.walks[i].began, complete), now),
            w.walks[..i] + w.walks[i + 1..], m, w.changed)
  }

  /** What a course of events leads to. */
  ghost predicate Leads(from: World, events: seq<Event>, to: World)
    decreases events
  {
    if events == [] then from == to
    else Enabled(from, events[0]) && Leads(After(from, events[0]), events[1..], to)
  }

  const START := World(EMPTY, [], 0, 0)

  ghost predicate IsFresh(w: World) {
    w.cache.freshSince.Some?
  }

  /** A walk that has read the generation finds it unchanged exactly while nothing was deleted since it began. */
  ghost predicate WalkFits(w: World, walk: Walk) {
    walk.Walking? ==>
      && walk.seen <= w.cache.generation && walk.began <= w.moment
      && (walk.seen == w.cache.generation <==> walk.began > w.changed)
  }

  ghost predicate Fits(w: World) {
    && w.changed <= w.moment
    && |w.walks| <= (if w.cache.measuring then 1 else 0)
    && (forall walk :: walk in w.walks ==> WalkFits(w, walk))
    && (w.cache.figures.Some? ==> w.cache.figures.value.began <= w.moment)
    && (IsFresh(w) <==> w.cache.figures.Some? && w.cache.figures.value.began > w.changed)
  }

  lemma StepFits(w: World, e: Event)
    requires Fits(w) && Enabled(w, e)
    ensures Fits(After(w, e))
  {
    var after := After(w, e);
    forall walk | walk in after.walks ensures WalkFits(after, walk) {
      if walk in w.walks { assert WalkFits(w, walk); }
    }
    if e.End? { assert w.walks[e.i] in w.walks && WalkFits(w, w.walks[e.i]); }
  }

  lemma {:induction false} AlwaysFits(from: World, events: seq<Event>, to: World)
    requires Fits(from) && Leads(from, events, to)
    ensures Fits(to)
    decreases events
  {
    if events != [] {
      StepFits(from, events[0]);
      AlwaysFits(After(from, events[0]), events[1..], to);
    }
  }

  /**
   However looks, walks and deletions interleave, there are never two walks in flight, and figures
   are marked fresh exactly when the walk they come from began after the latest deletion.
  */
  lemma FreshMeansFresh(events: seq<Event>, w: World)
    requires Leads(START, events, w)
    ensures |w.walks| <= 1
    ensures IsFresh(w) <==> w.cache.figures.Some? && w.cache.figures.value.began > w.changed
  {
    AlwaysFits(START, events, w);
  }

  /** Whether the walk whose figures are shown got through. */
  ghost function GotThrough(w: World): Option<bool> {
    if w.cache.figures.Some? then Some(w.cache.figures.value.complete) else None
  }

  // ---- the same, said of the events alone ----

  /** No walk begins or ends from position a up to b. */
  ghost predicate Quiet(events: seq<Event>, a: nat, b: nat) {
    b <= |events| && forall k :: a <= k < b ==> !events[k].Begin? && !events[k].End?
  }

  /** The latest walk to end began at i and ended at j. */
  ghost predicate LatestWalk(events: seq<Event>, i: nat, j: nat) {
    && i < j < |events| && events[i].Begin? && events[j].End? && Quiet(events, i + 1, j)
    && forall k :: j < k < |events| ==> !events[k].End?
  }

  ghost predicate NothingDeletedSince(events: seq<Event>, i: nat) {
    forall k :: i < k < |events| ==> !events[k].Change?
  }

  ghost predicate ChangedAt(events: seq<Event>, changed: nat) {
    && changed <= |events| && (changed > 0 ==> events[changed - 1].Change?)
    && forall k :: changed <= k < |events| ==> !events[k].Change?
  }

  ghost predicate InFlight(events: seq<Event>, walk: Walk) {
    walk.Walking? ==>
      0 < walk.began <= |events| && events[walk.began - 1].Begin? && Quiet(events, walk.began, |events|)
  }

  ghost predicate FiguresFrom(events: seq<Event>, figures: Option<Figures>) {
    match figures
    case None => forall k :: 0 <= k < |events| ==> !events[k].End?
    case Some(f) =>
      f.began > 0 && exists j: nat :: LatestWalk(events, f.began - 1, j) && events[j].complete == f.complete
  }

  /** The world is what the events so far have made of it. */
  ghost predicate Tells(events: seq<Event>, w: World) {
    && |events| == w.moment && ChangedAt(events, w.changed)
    && (forall walk :: walk in w.walks ==> InFlight(events, walk))
    && FiguresFrom(events, w.cache.figures)
    && MarkedAt(events, w.cache)
  }

  /** Fresh figures are marked with the time at which their walk ended. */
  ghost predicate MarkedAt(events: seq<Event>, c: Cache) {
    c.freshSince.Some? ==> forall i: nat, j: nat :: LatestWalk(events, i, j) ==> events[j].now == c.freshSince.value
  }

  lemma MarkStays(events: seq<Event>, e: Event, c: Cache)
    requires MarkedAt(events, c) && !e.End?
    ensures MarkedAt(events + [e], c)
  {
    forall i: nat, j: nat | LatestWalk(events + [e], i, j) ensures LatestWalk(events, i, j) {
      assert forall k :: 0 <= k < |events| ==> (events + [e])[k] == events[k];
    }
  }

  lemma FiguresStay(events: seq<Event>, e: Event, figures: Option<Figures>)
    requires FiguresFrom(events, figures) && !e.End?
    ensures FiguresFrom(events + [e], figures)
  {
    if figures.Some? {
      var j: nat :| LatestWalk(events, figures.value.began - 1, j) && events[j].complete == figures.value.complete;
      assert LatestWalk(events + [e], figures.value.began - 1, j);
    }
  }

  lemma FiguresCome(events: seq<Event>, e: Event, walk: Walk)
    requires walk.Walking? && InFlight(events, walk) && e.End?
    ensures FiguresFrom(events + [e], Some(Figures(walk.began, e.complete)))
  {
    assert LatestWalk(events + [e], walk.began - 1, |events|);
  }

  lemma StepTells(events: seq<Event>, w: World, e: Event)
    requires Fits(w) && Tells(events, w) && Enabled(w, e)
    ensures Tells(events + [e], After(w, e))
  {
    var after := After(w, e);
    if e.End? {
      assert InFlight(events, w.walks[e.i]) by { assert w.walks[e.i] in w.walks; }
      FiguresCome(events, e, w.walks[e.i]);
      assert after.walks == [];
    } else {
      FiguresStay(events, e, w.cache.figures);
      MarkStays(events, e, w.cache);
      forall walk | walk in after.walks ensures InFlight(events + [e], walk) {
        if walk in w.walks { assert InFlight(events, walk); }
      }
    }
  }

  lemma {:induction false} AlwaysTells(done: seq<Event>, from: World, events: seq<Event>, to: World)
    requires Fits(from) && Tells(done, from) && Leads(from, events, to)
    ensures Fits(to) && Tells(done + events, to)
    decreases events
  {
    if events == [] {
      assert done + events == done;
    } else {
      StepFits(from, events[0]);
      StepTells(done, from, events[0]);
      AlwaysTells(done + [events[0]], After(from, events[0]), events[1..], to);
      assert done + [events[0]] + events[1..] == done + events;
    }
  }

  /** The figures shown are those of the latest walk to end, as it found them, fresh or not. */
  lemma FiguresAreLatest(events: seq<Event>, w: World)
    requires Leads(START, events, w)
    ensures FiguresFrom(events, w.cache.figures)
  {
    AlwaysTells([], START, events, w);
    assert [] + events == events;
  }

  /** Nothing was deleted since the latest walk to end began ... */
  ghost predicate WalkedSince(events: seq<Event>) {
    exists i: nat, j: nat :: LatestWalk(events, i, j) && NothingDeletedSince(events, i)
  }

  /** ... and it got through. */
  ghost predicate WalkedThroughSince(events: seq<Event>) {
    exists i: nat, j: nat :: LatestWalk(events, i, j) && NothingDeletedSince(events, i) && events[j].complete
  }

  /**
   Figures are marked fresh exactly when nothing was deleted since the latest walk to end began; they
   are fresh and whole exactly when, besides, that walk got through.
  */
  lemma FreshAndWholeIff(events: seq<Event>, w: World)
    requires Leads(START, events, w)
    ensures IsFresh(w) <==> WalkedSince(events)
    ensures IsFresh(w) && GotThrough(w) == Some(true) <==> WalkedThroughSince(events)
  {
    AlwaysTells([], START, events, w);
    assert [] + events == events;
    if w.cache.figures.Some? { WalkedSinceIs(events, w.changed, w.cache.figures.value); }
  }

  lemma WalkedSinceIs(events: seq<Event>, changed: nat, f: Figures)
    requires ChangedAt(events, changed) && FiguresFrom(events, Some(f))
    ensures f.began > changed <==> WalkedSince(events)
    ensures f.began > changed && f.complete <==> WalkedThroughSince(events)
  {
    var j: nat :| LatestWalk(events, f.began - 1, j) && events[j].complete == f.complete;
    UnchangedSince(events, changed, f.began, j);
    forall i': nat, j': nat | LatestWalk(events, i', j') ensures i' == f.began - 1 && j' == j {
      OneLatestWalk(events, f.began - 1, j, i', j');
    }
  }

  lemma UnchangedSince(events: seq<Event>, changed: nat, began: nat, j: nat)
    requires ChangedAt(events, changed) && began > 0 && LatestWalk(events, began - 1, j)
    ensures began > changed <==> NothingDeletedSince(events, began - 1)
  {
    if changed > began { assert events[changed - 1].Change?; }
  }

  lemma OneLatestWalk(events: seq<Event>, i: nat, j: nat, i': nat, j': nat)
    requires LatestWalk(events, i, j) && LatestWalk(events, i', j')
    ensures i == i' && j == j'
  {
    assert !(j < j') && !(j' < j);
  }

  /** A walk ended in the last 300 seconds, the latest to end, and nothing was deleted since it began. */
  ghost predicate MeasuredLately(events: seq<Event>, now: int) {
    exists i: nat, j: nat ::
      LatestWalk(events, i, j) && NothingDeletedSince(events, i) && now - events[j].now <= 300
  }

  lemma MeasuredLatelyIs(events: seq<Event>, c: Cache, now: int)
    requires MarkedAt(events, c) && (c.freshSince.Some? <==> WalkedSince(events))
    ensures c.freshSince.Some? && now - c.freshSince.value <= CACHE_SECONDS <==> MeasuredLately(events, now)
  {
    if c.freshSince.Some? {
      var i: nat, j: nat :| LatestWalk(events, i, j) && NothingDeletedSince(events, i);
      assert events[j].now == c.freshSince.value;
    }
  }

  lemma LookStarts(w: World, anew: bool, now: int)
    ensures |After(w, Look(anew, now)).walks| > |w.walks| <==> Starts(w.cache, anew, now)
  {
  }

  /**
   Read off the events alone, exactly when a look starts a walk: no walk is under way, and either figures
   were asked for anew or no walk that nothing was deleted since ended lately enough.
  */
  lemma LookStartsIff(events: seq<Event>, w: World, anew: bool, now: int)
    requires Leads(START, events, w)
    ensures |After(w, Look(anew, now)).walks| > |w.walks| <==>
            !w.cache.measuring && (anew || !MeasuredLately(events, now))
  {
    AlwaysTells([], START, events, w);
    assert [] + events == events;
    FreshAndWholeIff(events, w);
    MeasuredLatelyIs(events, w.cache, now);
    LookStarts(w, anew, now);
  }

  /** A walk that fails part way stores what it had, and marks that fresh. */
  lemma PartialFiguresCanBeFresh()
    ensures exists events, w :: Leads(START, events, w) && IsFresh(w) && GotThrough(w) == Some(false)
  {
    var look, begin, end := Look(false, 0), Begin(0), End(0, false, 0);
    var w1 := After(START, look);
    var w2 := After(w1, begin);
    var w3 := After(w2, end);
    assert Leads(w3, [], w3);
    assert [end][1..] == [];
    assert Leads(w2, [end], w3);
    assert [begin, end][1..] == [end];
    assert Leads(w1, [begin, end], w3);
    assert [look, begin, end][1..] == [begin, end];
    assert Leads(START, [look, begin, end], w3);
  }

  /** Nobody is walking, and nobody will be asked to. */
  ghost predicate Stuck(w: World) {
    w.cache.measuring && w.walks == []
  }

  lemma {:induction false} StuckForGood(w: World, events: seq<Event>, to: World)
    requires Stuck(w) && Leads(w, events, to)
    ensures Stuck(to) && to.cache.figures == w.cache.figures
    decreases events
  {
    if events != [] { StuckForGood(After(w, events[0]), events[1..], to); }
  }

  ghost predicate NoFailure(events: seq<Event>) {
    forall e :: e in events ==> !e.LookFails?
  }

  lemma {:induction false} NeverStuck(from: World, events: seq<Event>, to: World)
    requires !Stuck(from) && Fits(from) && Leads(from, events, to) && NoFailure(events)
    ensures !Stuck(to)
    decreases events
  {
    if events != [] {
      assert !events[0].LookFails?;
      StepFits(from, events[0]);
      NeverStuck(After(from, events[0]), events[1..], to);
    }
  }

  /**
   The figures go on being measured exactly as long as no thread has failed to start. Until then a
   look at stale figures always finds a walk in flight or starts one; from then on no walk ever
   starts again and the figures never change.
  */
  lemma MeasuredUntilAThreadFails(events: seq<Event>, w: World, anew: bool, now: int)
    requires Leads(START, events, w) && Stale(w.cache, anew, now)
    ensures NoFailure(events) ==> |After(w, Look(anew, now)).walks| == 1
    ensures !NoFailure(events) ==> Stuck(w) && Stuck(After(w, Look(anew, now)))
  {
    AlwaysFits(START, events, w);
    if NoFailure(events) {
      NeverStuck(START, events, w);
    } else {
      FailureSticks(START, events, w);
    }
  }

  lemma {:induction false} FailureSticks(from: World, events: seq<Event>, to: World)
    requires Fits(from) && Leads(from, events, to) && !NoFailure(events)
    ensures Stuck(to)
    decreases events
  {
    var next := After(from, events[0]);
    if events[0].LookFails? {
      StuckForGood(next, events[1..], to);
    } else {
      StepFits(from, events[0]);
      assert forall e :: e in events[1..] ==> e in events;
      var e :| e in events && e.LookFails?;
      assert e in events[1..];
      FailureSticks(next, events[1..], to);
    }
  }

  lemma OneMore(w: World, e: Event, events: seq<Event>, to: World) returns (more: seq<Event>)
    requires Enabled(w, e) && Leads(After(w, e), events, to)
    ensures Leads(w, more, to)
  {
    more := [e] + events;
    assert more[1..] == events;
  }

  /** From a store where nobody walks, a walk can start, get through and leave figures that are fresh and whole. */
  lemma WalkMakesFresh(w: World, now: int) returns (events: seq<Event>, to: World)
    requires Fits(w) && !w.cache.measuring
    ensures Leads(w, events, to) && IsFresh(to) && GotThrough(to) == Some(true)
  {
    var looked := After(w, Look(true, now));
    StepFits(w, Look(true, now));
    var begun := After(looked, Begin(0));
    to := After(begun, End(0, true, now));
    assert Leads(to, [], to);
    events := OneMore(begun, End(0, true, now), [], to);
    events := OneMore(looked, Begin(0), events, to);
    events := OneMore(w, Look(true, now), events, to);
  }

  lemma WalkCanEnd(w: World, now: int) returns (events: seq<Event>, to: World)
    requires Fits(w) && !Stuck(w)
    ensures Leads(w, events, to) && IsFresh(to) && GotThrough(to) == Some(true)
  {
    if w.walks == [] {
      events, to := WalkMakesFresh(w, now);
    } else {
      var begun := if w.walks[0].Started? then After(w, Begin(0)) else w;
      if w.walks[0].Started? { StepFits(w, Begin(0)); }
      StepFits(begun, End(0, true, now));
      events, to := WalkMakesFresh(After(begun, End(0, true, now)), now);
      events := OneMore(begun, End(0, true, now), events, to);
      if w.walks[0].Started? { events := OneMore(w, Begin(0), events, to); }
    }
  }

  lemma {:induction false} StuckStaysStale(w: World, events: seq<Event>, to: World)
    requires Stuck(w) && !IsFresh(w) && Leads(w, events, to)
    ensures !IsFresh(to)
    decreases events
  {
    if events != [] { StuckStaysStale(After(w, events[0]), events[1..], to); }
  }

  ghost predicate MakesFresh(w: World, later: seq<Event>, to: World) {
    Leads(w, later, to) && IsFresh(to) && GotThrough(to) == Some(true)
  }

  /** Figures that are not fresh can come to be fresh and whole exactly as long as no thread has failed to start. */
  lemma CanBecomeFreshIff(events: seq<Event>, w: World)
    requires Leads(START, events, w) && !IsFresh(w)
    ensures NoFailure(events) <==> exists later, to :: MakesFresh(w, later, to)
  {
    AlwaysFits(START, events, w);
    if NoFailure(events) {
      NeverStuck(START, events, w);
      var later, to := WalkCanEnd(w, 0);
      assert MakesFresh(w, later, to);
    } else {
      FailureSticks(START, events, w);
      forall later, to | Leads(w, later, to) ensures !IsFresh(to) { StuckStaysStale(w, later, to); }
    }
  }
}

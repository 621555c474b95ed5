/** Over whole histories: which demand every run was started for, and that runs side by side share nothing. */
module Origins {
  import opened Names
  import opened Allocation
  import opened Rules
  import opened Safety
  import opened Granting
  import opened Waiting
  import opened Dispatch
  import opened Fairness

  /** A plan made at the u-th event started this run, for demand d of the queue it was made for. */
  ghost predicate StartedFor(h: History, u: nat, g: Grant, d: Demand)
    requires |h.states| == |h.events| + 1
  {
    && PlansAt(h, u) && d in h.states[u].dispatcher.queue
    && exists x :: x in StartOf(RoundAt(h, u)) && Became(x, g) && MadeFor(x, d, h.events[u].config)
  }

  ghost predicate Restored(h: History, g: Grant)
    requires h.states != []
  {
    From(h.states[0].grants, g)
  }

  /** The run was there when the service started, or some earlier plan started it. */
  ghost predicate HasOrigin(h: History, t: nat, g: Grant)
    requires |h.states| == |h.events| + 1
  {
    Restored(h, g) || exists u: nat, d :: u < t && StartedFor(h, u, g, d)
  }

  lemma OriginGoesOn(h: History, t: nat, y: Grant, g: Grant)
    requires |h.states| == |h.events| + 1 && HasOrigin(h, t, y) && Became(y, g)
    ensures HasOrigin(h, t + 1, g)
  {
    if Restored(h, y) {
      var x :| x in h.states[0].grants && Became(x, y);
      assert Became(x, g);
    } else {
      var u: nat, d :| u < t && StartedFor(h, u, y, d);
      var x :| x in StartOf(RoundAt(h, u)) && Became(x, y) && MadeFor(x, d, h.events[u].config);
      assert Became(x, g);
      assert StartedFor(h, u, g, d);
    }
  }

  lemma StartHasOrigin(h: History, t: nat, g: Grant, setup: Setup)
    requires IsHistory(h, setup) && PlansAt(h, t) && g in StartOf(RoundAt(h, t))
    ensures HasOrigin(h, t + 1, g)
  {
    var r := RoundAt(h, t);
    RoundIsGood(h, t, setup);
    PlanGrantsWhatIsAsked(r.queue, r.config, r.running, false, g);
    var d :| d in r.queue && MadeFor(g, d, r.config);
    assert Became(g, g);
    assert StartedFor(h, t, g, d);
  }

  lemma HeldComesFromHeld(s: Farm, e: Event, setup: Setup, g: Grant)
    requires Enabled(s, e, setup) && !Plans(e) && g in Held(After(s, e, setup))
    ensures From(Held(s), g)
  {
    forall x | x in Held(s) ensures From(Held(s), x) { assert Became(x, x); }
    StepFrom(s, e, setup, Held(s));
  }

  lemma HeldBefore(h: History, t: nat, g: Grant, setup: Setup) returns (y: Grant)
    requires IsHistory(h, setup) && t < |h.events| && g in Held(h.states[t + 1])
    requires Plans(h.events[t]) ==> PlansAt(h, t) && g !in StartOf(RoundAt(h, t))
    ensures y in Held(h.states[t]) && Became(y, g)
  {
    assert Happens(h, t, setup);
    if Plans(h.events[t]) {
      y := g;
    } else {
      HeldComesFromHeld(h.states[t], h.events[t], setup, g);
      y :| y in Held(h.states[t]) && Became(y, g);
    }
  }

  ghost predicate AllHaveOrigins(h: History, t: nat)
    requires |h.states| == |h.events| + 1 && t < |h.states|
  {
    forall g :: g in Held(h.states[t]) ==> HasOrigin(h, t, g)
  }

  lemma OriginStep(h: History, t: nat, g: Grant, setup: Setup)
    requires IsHistory(h, setup) && t < |h.events| && AllHaveOrigins(h, t) && g in Held(h.states[t + 1])
    ensures HasOrigin(h, t + 1, g)
  {
    assert Happens(h, t, setup);
    if Plans(h.events[t]) && g in StartOf(RoundAt(h, t)) {
      StartHasOrigin(h, t, g, setup);
    } else {
      var y := HeldBefore(h, t, g, setup);
      OriginGoesOn(h, t, y, g);
    }
  }

  lemma OriginsAtStart(h: History, setup: Setup)
    requires IsHistory(h, setup)
    ensures AllHaveOrigins(h, 0)
  {
    forall g | g in Held(h.states[0]) ensures HasOrigin(h, 0, g) {
      assert Held(h.states[0]) == h.states[0].grants && Became(g, g);
    }
  }

  lemma OriginsGoOn(h: History, t: nat, setup: Setup)
    requires IsHistory(h, setup) && t < |h.events| && AllHaveOrigins(h, t)
    ensures AllHaveOrigins(h, t + 1)
  {
    var next := t + 1;
    forall g | g in Held(h.states[next]) ensures HasOrigin(h, next, g) { OriginStep(h, t, g, setup); }
  }

  /** Whatever runs, or is about to, was there at the start or was started by a plan for a demand of its queue. */
  lemma {:induction false} EveryRunHasOrigin(h: History, t: nat, setup: Setup)
    requires IsHistory(h, setup) && t < |h.states|
    ensures AllHaveOrigins(h, t)
  {
    if t == 0 {
      OriginsAtStart(h, setup);
    } else {
      EveryRunHasOrigin(h, t - 1, setup);
      OriginsGoOn(h, t - 1, setup);
    }
  }

  /**
   Jobs that run side by side on a worker come from demands that share nothing: started by whichever
   plans, both runs are shared, each was granted the resources its demand declares, and no resource is
   declared by both.
  */
  lemma SideBySideShareNothing(
      h: History, t: nat, a: Grant, u: nat, d: Demand, b: Grant, v: nat, e: Demand, setup: Setup)
    requires IsHistory(h, setup) && t < |h.states|
    requires a in h.states[t].grants && b in h.states[t].grants && a != b && a.worker == b.worker
    requires StartedFor(h, u, a, d) && StartedFor(h, v, b, e)
    ensures a.shared && b.shared && d.concurrent && e.concurrent
    ensures a.resources == d.resources && b.resources == e.resources && d.resources !! e.resources
    ensures forall id :: id in a.boards ==> id !in b.boards
  {
    FarmStaysSafe(h, t, setup);
    assert Apart(RunningOn(h.states[t].grants, a.worker));
    BesideOnWorker(h.states[t].grants, a.worker, a, b);
    SharedWasMadeSo(h, u, a, d);
    SharedWasMadeSo(h, v, b, e);
  }

  lemma SharedWasMadeSo(h: History, u: nat, g: Grant, d: Demand)
    requires |h.states| == |h.events| + 1 && StartedFor(h, u, g, d) && g.shared
    ensures MadeFor(g, d, h.events[u].config) && g.resources == d.resources && d.concurrent
  {
  }
}

/** From what was submitted to what runs: every run the dispatcher starts is as its request and its profile ask. */
module Asking {
  import opened Names
  import opened Allocation
  import opened Rules
  import opened Safety
  import opened Granting
  import opened Service
  import Q = JobQueue

  /** These are the ids of all the worker's boards that nothing holds out of the pool. */
  ghost predicate WholeBank(ids: seq<string>, c: Config, w: Option<string>) {
    forall id :: id in ids <==> InBank(c, w, id)
  }

  ghost predicate InBank(c: Config, w: Option<string>, id: string) {
    exists b :: b in c.boards && b.worker == w && b.id == id && b.hold == Unheld
  }

  ghost predicate IsOn(c: Config, w: Option<string>, id: string) {
    exists b :: b in c.boards && b.worker == w && b.id == id
  }

  /** Alone, with the whole rig. */
  ghost predicate TakesRig(g: Grant) {
    !g.shared && g.wholeRig && g.resources == RESOURCES
  }

  /** A run "of these boards": exactly those, or, if the worker lacks one, none, to look for it alone. */
  ghost predicate OfBoards(g: Grant, named: seq<string>, c: Config) {
    if forall id :: id in named ==> IsOn(c, g.worker, id)
    then forall id :: id in g.boards <==> id in named
    else g.boards == [] && !g.shared
  }

  /** A run by family: distinct boards of the worker that meet every required need, or, if it cannot, none, alone. */
  ghost predicate ByFamily(g: Grant, needs: seq<Need>, c: Config) {
    var boards := BoardsOn(c.boards, g.worker);
    if FitsNeeds(needs, boards) then Meets(needs, boards, g.boards) else g.boards == [] && !g.shared
  }

  /** A run of a profile: on the rig asked for, one that runs it; beside others only where both let it. */
  ghost predicate OfProfile(g: Grant, spec: Profile, request: Request, c: Config) {
    && (request.rig.Some? ==> g.worker == request.rig)
    && (g.worker in c.profiles ==> spec.name in c.profiles[g.worker])
    && (if g.shared then spec.concurrent && MayShareOn(c, g.worker) && g.resources == spec.resources
        else g.resources == RESOURCES)
    && (if request.boards != [] then OfBoards(g, request.boards, c) && !g.wholeRig
        else if spec.exclusive then TakesRig(g) && WholeBank(g.boards, c, g.worker)
        else ByFamily(g, spec.needs, c) && !g.wholeRig)
  }

  /** What the job's submission asks for is what it is given. */
  ghost predicate AsAsked(g: Grant, job: Submission, profiles: map<string, Profile>, c: Config) {
    && Distinct(g.boards)
    && (if job.kind != SUITE then TakesRig(g) && g.boards == []
        else if job.request.profile !in profiles then TakesRig(g) && WholeBank(g.boards, c, g.worker)
        else OfProfile(g, profiles[job.request.profile], job.request, c))
  }

  lemma BankIsWhole(g: Grant, d: Demand, c: Config)
    requires MadeFor(g, d, c) && d.wholeRig
    ensures d.holdsBoards ==> WholeBank(g.boards, c, g.worker)
    ensures !d.holdsBoards ==> g.boards == []
  {
    forall id
      ensures InBank(c, g.worker, id) <==>
              exists b :: b in BoardsOn(c.boards, g.worker) && b.id == id && b.hold == Unheld
    {
      forall b: Board { BoardsOnMember(c.boards, g.worker, b); }
    }
    if g.boards != [] { assert g.boards[0] in g.boards; }
  }

  lemma NamedAreThose(g: Grant, d: Demand, named: seq<string>, c: Config)
    requires MadeFor(g, d, c) && !d.wholeRig && d.boards != [] && forall id :: id in d.boards <==> id in named
    ensures OfBoards(g, named, c)
  {
    forall id ensures Connected(BoardsOn(c.boards, g.worker), id) <==> IsOn(c, g.worker, id) {
      forall b: Board { BoardsOnMember(c.boards, g.worker, b); }
    }
  }

  lemma MadeAsAsked(g: Grant, id: string, job: Submission, profiles: map<string, Profile>, c: Config)
    requires MadeFor(g, DemandOf(id, job.kind, job.request, profiles), c)
    ensures AsAsked(g, job, profiles, c)
  {
    var d := DemandOf(id, job.kind, job.request, profiles);
    DemandIsValid(id, job.kind, job.request, profiles);
    if d.wholeRig {
      BankIsWhole(g, d, c);
    } else if d.boards != [] {
      NamedAreThose(g, d, job.request.boards, c);
    }
  }

  /** The demand read from the queue for a job is the one its submission makes. */
  lemma DemandReadIs(rows: seq<Q.Row>, submitted: string -> Submission, profiles: map<string, Profile>, d: Demand)
    requires d in Demands(rows, submitted, profiles)
    ensures d == DemandOf(d.jobId, submitted(d.jobId).kind, submitted(d.jobId).request, profiles)
  {
    var queue, ids := Demands(rows, submitted, profiles), Q.QueueOf(rows);
    var i :| 0 <= i < |queue| && queue[i] == d;
    DemandIsValid(ids[i], submitted(ids[i]).kind, submitted(ids[i]).request, profiles);
  }

  /**
   Whatever a pass of the dispatcher decides to start is as its job asks. A run of an exclusive profile
   has the whole of its worker; a run by family has distinct boards of its worker that meet every required
   need of its profile; one that named boards has those; one that named a rig is on it; and only a run
   of a concurrent profile runs beside others, holding the resources that profile declares.
  */
  lemma StartsAreAsAsked(
      rows: seq<Q.Row>, submitted: string -> Submission, profiles: map<string, Profile>, c: Config,
      running: seq<Grant>, paused: bool, g: Grant)
    requires Q.GoodRows(rows) && UniqueIds(c.boards)
    requires g in PlanOf(Demands(rows, submitted, profiles), c, running, paused).start
    ensures Q.Has(rows, g.jobId, Q.Queued) && AsAsked(g, submitted(g.jobId), profiles, c)
  {
    var queue := Demands(rows, submitted, profiles);
    DemandsAreSound(rows, submitted, profiles);
    PlanGrantsWhatIsAsked(queue, c, running, paused, g);
    var d :| d in queue && MadeFor(g, d, c);
    DemandReadIs(rows, submitted, profiles, d);
    MadeAsAsked(g, d.jobId, submitted(d.jobId), profiles, c);
  }
}

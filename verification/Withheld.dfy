/**
 What a plan withholds, exactly: on a rig it withholds what the demands waiting for it ask, and no more.
 From that, exactly when a shared run starts past waiting ones, and that every reason given to wait is true.
*/
module Withheld {
  import opened Names
  import opened Allocation
  import opened Pools
  import opened Rules
  import opened Safety
  import opened Feasibility
  import opened Picking
  import opened Granting

  // ---- what a demand asks of a rig ----

  /** The demand asks for boards of this family, and the rig has such: any, or for an optional need one that matches. */
  ghost predicate Wants(d: Demand, boards: seq<Board>, family: string) {
    exists n ::
      && n in d.needs && n.target == family && n.count > 0
      && (n.optional ==> exists b :: b in boards && b.hold == Unheld && b.target == family && n.tags <= b.tags)
  }

  lemma {:induction false} SomeMatch(pool: seq<Board>, n: Need)
    ensures Count(pool, n, {}) > 0 <==> exists b :: b in pool && Matches(b, n)
  {
    if pool != [] {
      SomeMatch(pool[1..], n);
      assert pool == [pool[0]] + pool[1..];
    }
  }

  lemma WantsIs(d: Demand, boards: seq<Board>, family: string)
    ensures family in WantedFamilies(d.needs, boards) <==> Wants(d, boards, family)
  {
    forall n | n in d.needs
      ensures Take(n, boards) > 0 <==> n.count > 0 && (n.optional ==> exists b :: b in boards && Matches(b, n))
    {
      SomeMatch(boards, n);
    }
  }

  // ---- what is withheld is what somebody waits for ----

  /** The i-th demand waits for rig k, and not for the whole of it. */
  ghost predicate WaitsInPart(run: Run, i: nat, k: nat)
    requires Sized(run) && k < |run.states[0]|
  {
    i < |run.queue| && LeftOn(run, i, k) && !ForWhole(run, i, k)
  }

  ghost predicate WaitsForWhole(run: Run, i: nat, k: nat)
    requires Sized(run) && k < |run.states[0]|
  {
    i < |run.queue| && LeftOn(run, i, k) && ForWhole(run, i, k)
  }

  /** Demand i waits for rig k in part and wants this family, names this board, uses this resource. */
  ghost predicate WantsAt(run: Run, i: nat, k: nat, family: string)
    requires Sized(run) && k < |run.states[0]|
  {
    WaitsInPart(run, i, k) && Wants(run.queue[i], run.states[0][k].boards, family)
  }

  ghost predicate NamesAt(run: Run, i: nat, k: nat, id: string)
    requires Sized(run) && k < |run.states[0]|
  {
    WaitsInPart(run, i, k) && id in run.queue[i].boards
  }

  ghost predicate UsesAt(run: Run, i: nat, k: nat, resource: string)
    requires Sized(run) && k < |run.states[0]|
  {
    WaitsInPart(run, i, k) && resource in run.queue[i].resources
  }

  /** One of the first j demands does. */
  ghost predicate FamilyWanted(run: Run, j: nat, k: nat, family: string)
    requires Sized(run) && k < |run.states[0]|
  {
    exists i: nat {:trigger WantsAt(run, i, k, family)} :: i < j && WantsAt(run, i, k, family)
  }

  ghost predicate BoardNamed(run: Run, j: nat, k: nat, id: string)
    requires Sized(run) && k < |run.states[0]|
  {
    exists i: nat {:trigger NamesAt(run, i, k, id)} :: i < j && NamesAt(run, i, k, id)
  }

  ghost predicate ResourceWanted(run: Run, j: nat, k: nat, resource: string)
    requires Sized(run) && k < |run.states[0]|
  {
    exists i: nat {:trigger UsesAt(run, i, k, resource)} :: i < j && UsesAt(run, i, k, resource)
  }

  ghost predicate WholeWanted(run: Run, j: nat, k: nat)
    requires Sized(run) && k < |run.states[0]|
  {
    exists i: nat {:trigger WaitsForWhole(run, i, k)} :: i < j && WaitsForWhole(run, i, k)
  }

  /** The i-th is the first waiting for all of rig k, and its job is `id`. */
  ghost predicate FirstForWhole(run: Run, i: nat, k: nat, id: string)
    requires Sized(run) && k < |run.states[0]|
  {
    WaitsForWhole(run, i, k) && run.queue[i].jobId == id && !WholeWanted(run, i, k)
  }

  ghost predicate HeldBackBy(run: Run, j: nat, k: nat, id: string)
    requires Sized(run) && k < |run.states[0]|
  {
    exists i: nat {:trigger FirstForWhole(run, i, k, id)} :: i < j && FirstForWhole(run, i, k, id)
  }

  /** What rig k withholds after j demands is what those waiting for it ask. */
  ghost predicate WithholdsExactly(run: Run, j: nat, k: nat)
    requires Sized(run) && j <= |run.queue| && k < |run.states[0]|
  {
    var r := run.states[j][k];
    && (forall f :: f in r.blockedTargets <==> FamilyWanted(run, j, k, f))
    && (forall id :: id in r.blockedBoards <==> BoardNamed(run, j, k, id))
    && (forall x :: x in r.blockedResources <==> ResourceWanted(run, j, k, x))
    && (r.blockedWhole.Some? <==> WholeWanted(run, j, k))
    && (r.blockedWhole.Some? ==> HeldBackBy(run, j, k, r.blockedWhole.value))
  }

  lemma OneMoreWaits(run: Run, j: nat, k: nat)
    requires IsRun(run) && j < |run.queue| && k < |run.states[0]|
    ensures run.states[j + 1][k].boards == run.states[0][k].boards
    ensures var r, next := run.states[j][k], run.states[j + 1][k]; var d := run.queue[j];
      if WaitsInPart(run, j, k) then
        && next.blockedTargets == r.blockedTargets + WantedFamilies(d.needs, run.states[0][k].boards)
        && next.blockedBoards == r.blockedBoards + (set id | id in d.boards)
        && next.blockedResources == r.blockedResources + d.resources
        && next.blockedWhole == r.blockedWhole
      else
        && next.blockedTargets == r.blockedTargets && next.blockedBoards == r.blockedBoards
        && next.blockedResources == r.blockedResources
        && next.blockedWhole ==
           if WaitsForWhole(run, j, k) && r.blockedWhole.None? then Some(d.jobId) else r.blockedWhole
  {
    assert Step(run, j);
    RigsGrow(run, 0, j, k);
    RigsGrow(run, 0, j + 1, k);
    if LeftOn(run, j, k) { LeftStep(run.states[j], run.queue[j], k); }
  }

  /** One demand on: what it adds to what is withheld. */
  lemma AddsWhatItAsks(run: Run, j: nat, k: nat, x: string)
    requires IsRun(run) && j < |run.queue| && k < |run.states[0]|
    ensures var r, next := run.states[j][k], run.states[j + 1][k];
      && (x in next.blockedTargets <==> x in r.blockedTargets || WantsAt(run, j, k, x))
      && (x in next.blockedBoards <==> x in r.blockedBoards || NamesAt(run, j, k, x))
      && (x in next.blockedResources <==> x in r.blockedResources || UsesAt(run, j, k, x))
  {
    OneMoreWaits(run, j, k);
    WantsIs(run.queue[j], run.states[0][k].boards, x);
  }

  lemma OneMoreAsks(run: Run, j: nat, k: nat, x: string)
    requires Sized(run) && k < |run.states[0]|
    ensures FamilyWanted(run, j + 1, k, x) <==> FamilyWanted(run, j, k, x) || WantsAt(run, j, k, x)
    ensures BoardNamed(run, j + 1, k, x) <==> BoardNamed(run, j, k, x) || NamesAt(run, j, k, x)
    ensures ResourceWanted(run, j + 1, k, x) <==> ResourceWanted(run, j, k, x) || UsesAt(run, j, k, x)
    ensures WholeWanted(run, j + 1, k) <==> WholeWanted(run, j, k) || WaitsForWhole(run, j, k)
  {
  }

  lemma PartsMore(run: Run, j: nat, k: nat, x: string)
    requires IsRun(run) && j < |run.queue| && k < |run.states[0]| && WithholdsExactly(run, j, k)
    ensures var r := run.states[j + 1][k];
      && (x in r.blockedTargets <==> FamilyWanted(run, j + 1, k, x))
      && (x in r.blockedBoards <==> BoardNamed(run, j + 1, k, x))
      && (x in r.blockedResources <==> ResourceWanted(run, j + 1, k, x))
  {
    AddsWhatItAsks(run, j, k, x);
    OneMoreAsks(run, j, k, x);
  }

  lemma WholeMore(run: Run, j: nat, k: nat)
    requires IsRun(run) && j < |run.queue| && k < |run.states[0]|
    requires run.states[j][k].blockedWhole.Some? <==> WholeWanted(run, j, k)
    ensures run.states[j + 1][k].blockedWhole.Some? <==> WholeWanted(run, j + 1, k)
    ensures run.states[j][k].blockedWhole.Some? ==> run.states[j + 1][k].blockedWhole == run.states[j][k].blockedWhole
    ensures run.states[j][k].blockedWhole.None? && run.states[j + 1][k].blockedWhole.Some? ==>
      FirstForWhole(run, j, k, run.states[j + 1][k].blockedWhole.value)
  {
    OneMoreWaits(run, j, k);
    OneMoreAsks(run, j, k, "");
  }

  lemma HeldBackMore(run: Run, j: nat, k: nat, id: string)
    requires Sized(run) && k < |run.states[0]|
    ensures HeldBackBy(run, j + 1, k, id) <==> HeldBackBy(run, j, k, id) || FirstForWhole(run, j, k, id)
  {
  }

  /**
   A rig that began with nothing withheld withholds, at each point of a plan, exactly the families,
   boards and resources that demands left waiting for it ask, and is held back whole exactly if one of
   them waits for all of it -- in the name of the first that does.
  */
  lemma {:induction false} WithheldIsWaitedFor(run: Run, j: nat, k: nat)
    requires IsRun(run) && j <= |run.queue| && k < |run.states[0]| && Unblocked(run.states[0][k])
    ensures WithholdsExactly(run, j, k)
  {
    if j > 0 {
      WithheldIsWaitedFor(run, j - 1, k);
      var r, next := run.states[j - 1][k], run.states[j][k];
      forall x
        ensures x in next.blockedTargets <==> FamilyWanted(run, j, k, x)
        ensures x in next.blockedBoards <==> BoardNamed(run, j, k, x)
        ensures x in next.blockedResources <==> ResourceWanted(run, j, k, x)
      {
        PartsMore(run, j - 1, k, x);
      }
      WholeMore(run, j - 1, k);
      if next.blockedWhole.Some? { HeldBackMore(run, j - 1, k, next.blockedWhole.value); }
    }
  }

  // ---- exactly when a shared run starts ----

  /** No run on the rig has the board, and no demand ahead waiting for the rig in part names it. */
  ghost predicate NobodyHas(run: Run, j: nat, k: nat, id: string)
    requires Sized(run) && j <= |run.queue| && k < |run.states[0]|
  {
    (forall g :: g in run.states[j][k].active ==> id !in g.boards) && !BoardNamed(run, j, k, id)
  }

  /** The board can be had by name: it is not reserved, nobody has it, and no demand ahead wants its family. */
  ghost predicate CanBeNamed(run: Run, j: nat, k: nat, id: string)
    requires Sized(run) && j <= |run.queue| && k < |run.states[0]|
  {
    var boards := run.states[0][k].boards;
    && NobodyHas(run, j, k, id)
    && forall b :: b in boards && b.id == id ==> b.hold != Reserved && !FamilyWanted(run, j, k, b.target)
  }

  ghost predicate AreTaken(run: Run, j: nat, k: nat, busy: set<string>, ahead: set<string>)
    requires Sized(run) && j <= |run.queue| && k < |run.states[0]|
  {
    && (forall id :: id in busy <==> !NobodyHas(run, j, k, id))
    && forall f :: f in ahead <==> FamilyWanted(run, j, k, f)
  }

  /** The boards the j-th demand asks for are there to be had. */
  ghost predicate BoardsOpen(run: Run, j: nat, k: nat)
    requires Sized(run) && j < |run.queue| && k < |run.states[0]|
  {
    var d, boards := run.queue[j], run.states[0][k].boards;
    if d.boards != [] then forall id :: id in d.boards ==> CanBeNamed(run, j, k, id)
    else
      forall busy, ahead, family ::
        AreTaken(run, j, k, busy, ahead) ==> !FallsShort(d.needs, boards, busy, ahead, family)
  }

  /** Nobody ahead of the j-th demand waits for all of rig k, all that runs is shared, and there is a slot. */
  ghost predicate RoomToShare(run: Run, j: nat, k: nat)
    requires Sized(run) && j < |run.queue| && k < |run.states[0]|
  {
    var r := run.states[j][k];
    !WholeWanted(run, j, k) && (forall g :: g in r.active ==> g.shared) && |r.active| < r.limit
  }

  /** The j-th demand's resources are used by nobody there and wanted by nobody ahead waiting there. */
  ghost predicate ResourcesOpen(run: Run, j: nat, k: nat)
    requires Sized(run) && j < |run.queue| && k < |run.states[0]|
  {
    && (forall g :: g in run.states[j][k].active ==> g.resources !! run.queue[j].resources)
    && forall x :: x in run.queue[j].resources ==> !ResourceWanted(run, j, k, x)
  }

  ghost predicate SharesThere(run: Run, j: nat, k: nat)
    requires Sized(run) && j < |run.queue| && k < |run.states[0]|
  {
    var d, r := run.queue[j], run.states[0][k];
    d.concurrent && !d.wholeRig && r.limit != 1 && CanMeet(d, r.boards)
  }

  lemma NoSoloIff(active: seq<Grant>)
    ensures FirstSolo(active).None? <==> forall g :: g in active ==> g.shared
  {
    if FirstSolo(active).None? { NoSolo(active); } else { SoloIs(active); }
  }

  lemma {:induction false} SoloIs(active: seq<Grant>)
    requires FirstSolo(active).Some?
    ensures FirstSolo(active).value in active && !FirstSolo(active).value.shared
  {
    if active[0].shared { SoloIs(active[1..]); }
  }

  lemma TakenAreBusy(run: Run, j: nat, k: nat)
    requires IsRun(run) && j <= |run.queue| && k < |run.states[0]| && WithholdsExactly(run, j, k)
    ensures AreTaken(run, j, k, HeldBoards(run.states[j][k].active) + run.states[j][k].blockedBoards,
                     run.states[j][k].blockedTargets)
  {
    var r := run.states[j][k];
    forall id ensures id in HeldBoards(r.active) + r.blockedBoards <==> !NobodyHas(run, j, k, id) {
      assert id in HeldBoards(r.active) <==> exists g :: g in r.active && id in g.boards;
    }
  }

  lemma OneWayTaken(
      run: Run, j: nat, k: nat, busy: set<string>, ahead: set<string>, busy': set<string>, ahead': set<string>)
    requires Sized(run) && j <= |run.queue| && k < |run.states[0]|
    requires AreTaken(run, j, k, busy, ahead) && AreTaken(run, j, k, busy', ahead')
    ensures busy == busy' && ahead == ahead'
  {
    forall id ensures id in busy <==> id in busy' {}
    forall f ensures f in ahead <==> f in ahead' {}
  }

  /** The choice finds boards exactly when those asked for are there to be had. */
  lemma ChosenIff(run: Run, j: nat, k: nat)
    requires IsRun(run) && j < |run.queue| && k < |run.states[0]|
    requires ValidRig(run.states[0][k]) && WithholdsExactly(run, j, k)
    ensures var r := run.states[j][k];
      Choose(run.queue[j], r.boards, HeldBoards(r.active) + r.blockedBoards, r.blockedTargets).Chosen? <==>
      BoardsOpen(run, j, k)
  {
    var d, r := run.queue[j], run.states[j][k];
    var busy, ahead := HeldBoards(r.active) + r.blockedBoards, r.blockedTargets;
    RigsGrow(run, 0, j, k);
    TakenAreBusy(run, j, k);
    if d.boards != [] {
      NamedIff(run, j, k, busy, ahead);
    } else {
      PickedIff(d.needs, r.boards, busy, ahead);
      forall busy', ahead' | AreTaken(run, j, k, busy', ahead') ensures busy' == busy && ahead' == ahead {
        OneWayTaken(run, j, k, busy, ahead, busy', ahead');
      }
    }
  }

  lemma NamedIff(run: Run, j: nat, k: nat, busy: set<string>, ahead: set<string>)
    requires IsRun(run) && j < |run.queue| && k < |run.states[0]| && run.queue[j].boards != []
    requires AreTaken(run, j, k, busy, ahead)
    ensures Choose(run.queue[j], run.states[0][k].boards, busy, ahead).Chosen? <==> BoardsOpen(run, j, k)
  {
    var d, boards := run.queue[j], run.states[0][k].boards;
    NoneTaken(d.boards, boards, busy);
    NoneAhead(d.boards, boards, ahead);
    if BoardsOpen(run, j, k) {
      forall id | id in d.boards ensures id !in busy && !IsReserved(boards, id) {
        assert CanBeNamed(run, j, k, id);
      }
      forall b | b in boards && b.id in d.boards ensures b.target !in ahead {
        assert CanBeNamed(run, j, k, b.id);
      }
    } else if Choose(d, boards, busy, ahead).Chosen? {
      forall id | id in d.boards ensures CanBeNamed(run, j, k, id) {
        assert !IsReserved(boards, id);
      }
    }
  }

  /**
   Exactly when a run starts beside others on a rig that began with nothing withheld, whoever waits ahead:
   it is one to share and the rig can meet it; nobody ahead waits for all of the rig, all that runs there
   is shared, and a slot is free; its resources are neither used there nor wanted by those waiting there;
   and the boards it asks for are neither held there nor asked for by those waiting there.
  */
  lemma SharedStartsIff(run: Run, j: nat, k: nat)
    requires IsRun(run) && j < |run.queue| && k < |run.states[0]| && ValidDemand(run.queue[j])
    requires ValidRig(run.states[0][k]) && Unblocked(run.states[0][k])
    ensures var outcome := Attempt(run.states[j][k], run.queue[j]);
      outcome.Granted? && outcome.grant.shared <==>
      SharesThere(run, j, k) && RoomToShare(run, j, k) && ResourcesOpen(run, j, k) && BoardsOpen(run, j, k)
  {
    var d, r := run.queue[j], run.states[j][k];
    RigsGrow(run, 0, j, k);
    WithheldIsWaitedFor(run, j, k);
    FitsIfItCanMeet(d, r.boards);
    NoSoloIff(r.active);
    ChosenIff(run, j, k);
    ResourcesIff(run, j, k);
  }

  lemma ResourcesIff(run: Run, j: nat, k: nat)
    requires IsRun(run) && j < |run.queue| && k < |run.states[0]| && WithholdsExactly(run, j, k)
    ensures var d, r := run.queue[j], run.states[j][k];
      d.resources * HeldResources(r.active) == {} && d.resources * r.blockedResources == {} <==>
      ResourcesOpen(run, j, k)
  {
    var d, r := run.queue[j], run.states[j][k];
    if d.resources * HeldResources(r.active) == {} && d.resources * r.blockedResources == {} {
      forall g | g in r.active ensures g.resources !! d.resources {
        forall x | x in g.resources ensures x !in d.resources {
          assert x in HeldResources(r.active) && (x in d.resources ==> x in d.resources * HeldResources(r.active));
        }
      }
      forall x | x in d.resources ensures !ResourceWanted(run, j, k, x) {
        assert x in r.blockedResources ==> x in d.resources * r.blockedResources;
      }
    }
  }

  // ---- exactly when a run starts alone, and what its rig is then held back for ----

  /** The rig gives the j-th demand itself or nothing: it runs alone, or the boards cannot meet it. */
  ghost predicate TakesAlone(run: Run, j: nat, k: nat)
    requires Sized(run) && j < |run.queue| && k < |run.states[0]|
  {
    RunsAlone(run, j, k) || !(run.queue[j].wholeRig || CanMeet(run.queue[j], run.states[0][k].boards))
  }

  ghost predicate RunsAlone(run: Run, j: nat, k: nat)
    requires Sized(run) && j < |run.queue| && k < |run.states[0]|
  {
    run.queue[j].wholeRig || !run.queue[j].concurrent || run.states[0][k].limit == 1
  }

  /** All the demand names is connected, and something of it is reserved. */
  ghost predicate NamesWhatIsReserved(d: Demand, boards: seq<Board>) {
    CanMeet(d, boards) && exists b :: b in boards && b.id in d.boards && b.hold == Reserved
  }

  /**
   Exactly when a run starts with the rig to itself: the rig gives it that or nothing; nobody ahead waits
   for all of the rig and nothing runs there; and it is not for a reserved board it names that it waits.
  */
  lemma StartsAloneIff(run: Run, j: nat, k: nat)
    requires IsRun(run) && j < |run.queue| && k < |run.states[0]| && ValidDemand(run.queue[j])
    requires ValidRig(run.states[0][k]) && Unblocked(run.states[0][k])
    ensures var outcome := Attempt(run.states[j][k], run.queue[j]);
      outcome.Granted? && !outcome.grant.shared <==>
      && TakesAlone(run, j, k) && !WholeWanted(run, j, k) && run.states[j][k].active == []
      && !NamesWhatIsReserved(run.queue[j], run.states[0][k].boards)
  {
    var d, r := run.queue[j], run.states[j][k];
    RigsGrow(run, 0, j, k);
    WithheldIsWaitedFor(run, j, k);
    FitsIfItCanMeet(d, r.boards);
    AloneStartsIff(r, d);
    ReservedIff(d, r.boards);
  }

  lemma ReservedIff(d: Demand, boards: seq<Board>)
    ensures NamesReserved(d, boards) <==> exists b :: b in boards && b.id in d.boards && b.hold == Reserved
  {
    if id :| id in d.boards && IsReserved(boards, id) {
      var b: Board :| b in boards && b.id == id && b.hold == Reserved;
    }
    if b: Board :| b in boards && b.id in d.boards && b.hold == Reserved {
      assert IsReserved(boards, b.id);
    }
  }

  /** Something keeps every run off the rig, whatever it asks. */
  ghost predicate Closed(run: Run, j: nat, k: nat)
    requires Sized(run) && j < |run.queue| && k < |run.states[0]|
  {
    WholeWanted(run, j, k) || exists g :: g in run.states[j][k].active && !g.shared
  }

  /**
   Exactly when a demand left waiting waits for all of a rig: on a rig that is closed, if it runs alone
   there; on any other, if it takes the rig alone and something runs.
  */
  lemma WaitsForWholeIff(run: Run, j: nat, k: nat)
    requires IsRun(run) && j < |run.queue| && k < |run.states[0]| && ValidDemand(run.queue[j])
    requires ValidRig(run.states[0][k]) && Unblocked(run.states[0][k]) && LeftOn(run, j, k)
    ensures WaitsForWhole(run, j, k) <==>
      if Closed(run, j, k) then RunsAlone(run, j, k) else TakesAlone(run, j, k) && run.states[j][k].active != []
  {
    var d, r := run.queue[j], run.states[j][k];
    RigsGrow(run, 0, j, k);
    WithheldIsWaitedFor(run, j, k);
    FitsIfItCanMeet(d, r.boards);
    NoSoloIff(r.active);
    LeftStep(run.states[j], d, k);
  }

  // ---- every reason is true ----

  /** What the reason says of the rig it comes from holds of it, as the j-th demand finds it. */
  ghost predicate IsTrue(why: Reason, run: Run, j: nat, k: nat)
    requires Sized(run) && j < |run.queue| && k < |run.states[0]|
  {
    var d, r := run.queue[j], run.states[j][k];
    match why
    case BehindWhole(ahead) => HeldBackBy(run, j, k, ahead)
    case TakenAlone(holder) => exists g :: g in r.active && !g.shared && g.jobId == holder
    case NotIdle => r.active != [] && RunsAlone(run, j, k)
    case NotIdleToRediscover => r.active != [] && !d.wholeRig && !CanMeet(d, r.boards)
    case NoSlot => |r.active| >= r.limit
    case ResourceBusy => exists x :: x in d.resources && UsedBy(x, r.active)
    case ResourceAhead => exists x :: x in d.resources && ResourceWanted(run, j, k, x)
    case ShortOf(what) => if d.boards != [] then NamedInVain(run, j, k, what) else NeededInVain(run, j, k, what)
    case _ => false
  }

  ghost predicate UsedBy(x: string, active: seq<Grant>) {
    exists g :: g in active && x in g.resources
  }

  ghost predicate NamedInVain(run: Run, j: nat, k: nat, id: string)
    requires Sized(run) && j < |run.queue| && k < |run.states[0]|
  {
    id in run.queue[j].boards && !CanBeNamed(run, j, k, id)
  }

  ghost predicate NeededInVain(run: Run, j: nat, k: nat, family: string)
    requires Sized(run) && j < |run.queue| && k < |run.states[0]|
  {
    exists busy, ahead ::
      AreTaken(run, j, k, busy, ahead) && FallsShort(run.queue[j].needs, run.states[0][k].boards, busy, ahead, family)
  }

  lemma {:induction false} TakenIs(named: seq<string>, boards: seq<Board>, busy: set<string>)
    requires FirstTaken(named, boards, busy).Some?
    ensures var id := FirstTaken(named, boards, busy).value; id in named && (id in busy || IsReserved(boards, id))
  {
    if !(named[0] in busy || IsReserved(boards, named[0])) { TakenIs(named[1..], boards, busy); }
  }

  lemma {:induction false} AheadIs(named: seq<string>, boards: seq<Board>, ahead: set<string>)
    requires FirstAhead(named, boards, ahead).Some?
    ensures exists b: Board ::
              b in boards && b.id == FirstAhead(named, boards, ahead).value && b.id in named && b.target in ahead
  {
    if !(boards[0].id in named && boards[0].target in ahead) { AheadIs(named, boards[1..], ahead); }
  }

  lemma ShortIsTrue(run: Run, j: nat, k: nat, busy: set<string>, ahead: set<string>)
    requires IsRun(run) && j < |run.queue| && k < |run.states[0]| && ValidRig(run.states[0][k])
    requires AreTaken(run, j, k, busy, ahead)
    requires Choose(run.queue[j], run.states[0][k].boards, busy, ahead).Short?
    ensures IsTrue(ShortOf(Choose(run.queue[j], run.states[0][k].boards, busy, ahead).what), run, j, k)
  {
    var d, boards := run.queue[j], run.states[0][k].boards;
    if d.boards == [] {
      LacksIs(d.needs, boards, busy, ahead);
    } else if FirstTaken(d.boards, boards, busy).Some? {
      TakenIs(d.boards, boards, busy);
    } else {
      AheadIs(d.boards, boards, ahead);
    }
  }

  /** Nothing busy and nothing ahead: only a reserved board is missing. */
  lemma ReservedIsTrue(run: Run, j: nat, k: nat)
    requires IsRun(run) && j < |run.queue| && k < |run.states[0]|
    requires FitsIdle(run.queue[j], run.states[0][k].boards)
    requires Choose(run.queue[j], run.states[0][k].boards, {}, {}).Short?
    ensures IsTrue(ShortOf(Choose(run.queue[j], run.states[0][k].boards, {}, {}).what), run, j, k)
  {
    var d, boards := run.queue[j], run.states[0][k].boards;
    FitsIffPicked(d.needs, boards);
    NoneAhead(d.boards, boards, {});
    TakenIs(d.boards, boards, {});
  }

  /** Every reason a rig gives a demand to wait is true. */
  lemma ReasonIsTrue(run: Run, j: nat, k: nat)
    requires IsRun(run) && j < |run.queue| && k < |run.states[0]| && ValidDemand(run.queue[j])
    requires ValidRig(run.states[0][k]) && Unblocked(run.states[0][k])
    requires Attempt(run.states[j][k], run.queue[j]).Waits?
    ensures IsTrue(Attempt(run.states[j][k], run.queue[j]).why, run, j, k)
  {
    var d, r := run.queue[j], run.states[j][k];
    RigsGrow(run, 0, j, k);
    WithheldIsWaitedFor(run, j, k);
    FitsIfItCanMeet(d, r.boards);
    if r.blockedWhole.None? {
      if FirstSolo(r.active).Some? {
        SoloIs(r.active);
      } else if Alone(r, d) || !Feasible(r, d) {
        if r.active == [] { ReservedIsTrue(run, j, k); }
      } else {
        SharedReasonIsTrue(run, j, k);
      }
    }
  }

  lemma SharedReasonIsTrue(run: Run, j: nat, k: nat)
    requires IsRun(run) && j < |run.queue| && k < |run.states[0]|
    requires ValidRig(run.states[0][k]) && WithholdsExactly(run, j, k)
    requires AttemptShared(run.states[j][k], run.queue[j]).Waits?
    ensures IsTrue(AttemptShared(run.states[j][k], run.queue[j]).why, run, j, k)
  {
    var d, r := run.queue[j], run.states[j][k];
    var busy := HeldBoards(r.active) + r.blockedBoards;
    RigsGrow(run, 0, j, k);
    TakenAreBusy(run, j, k);
    if |r.active| >= r.limit {
    } else if x :| x in d.resources * HeldResources(r.active) {
      assert UsedBy(x, r.active);
    } else if x :| x in d.resources * r.blockedResources {
      assert ResourceWanted(run, j, k, x);
    } else {
      ShortIsTrue(run, j, k, busy, r.blockedTargets);
    }
  }
}

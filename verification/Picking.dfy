/** Exactly when needs are met from boards of which some are busy and some families are waited for. */
module Picking {
  import opened Names
  import opened Allocation
  import opened Pools
  import opened Feasibility
  import opened Granting

  // ---- boards by need, when some are taken ----

  function Unbusy(pool: seq<Board>, busy: set<string>): seq<Board> {
    if pool == [] then [] else (if pool[0].id in busy then [] else [pool[0]]) + Unbusy(pool[1..], busy)
  }

  lemma {:induction false} UnbusyIs(pool: seq<Board>, busy: set<string>)
    ensures forall b :: b in Unbusy(pool, busy) <==> b in pool && b.id !in busy
    ensures UniqueIds(pool) ==> UniqueIds(Unbusy(pool, busy))
  {
    if pool != [] {
      UnbusyIs(pool[1..], busy);
      assert pool == [pool[0]] + pool[1..];
    }
  }

  lemma {:induction false} BusyIsAbsent(pool: seq<Board>, n: Need, busy: set<string>, c: nat)
    ensures Count(pool, n, busy) == Count(Unbusy(pool, busy), n, {})
    ensures Unbusy(Rest(pool, n, busy, c), busy) == Rest(Unbusy(pool, busy), n, {}, c)
  {
    if pool != [] {
      BusyIsAbsent(pool[1..], n, busy, if c > 0 && Free(pool[0], n, busy) then c - 1 else c);
      var left := Unbusy(pool[1..], busy);
      assert [] + left == left;
      if pool[0].id !in busy { assert ([pool[0]] + left)[1..] == left; }
    }
  }

  /** Required needs are picked exactly when the boards not busy fit them and no family they want is waited for. */
  lemma {:induction false} RequiredPicks(needs: seq<Need>, pool: seq<Board>, busy: set<string>, ahead: set<string>)
    requires forall n :: n in needs ==> !n.optional
    ensures PickNeeds(needs, pool, busy, ahead).Picked? <==>
            FitsNeeds(needs, Unbusy(pool, busy)) && forall n :: n in needs && n.count > 0 ==> n.target !in ahead
  {
    if needs != [] {
      var n := needs[0];
      assert needs == [n] + needs[1..];
      BusyIsAbsent(pool, n, busy, n.count);
      RequiredPicks(needs[1..], Rest(pool, n, busy, n.count), busy, ahead);
    }
  }

  /** The boards free for a need in a pool. */
  ghost function FreeFor(n: Need, pool: seq<Board>, busy: set<string>): set<Board> {
    set b | b in pool && Free(b, n, busy)
  }

  lemma {:induction false} CountIsSize(pool: seq<Board>, n: Need, busy: set<string>)
    requires UniqueIds(pool)
    ensures |FreeFor(n, pool, busy)| == Count(pool, n, busy)
  {
    if pool != [] {
      CountIsSize(pool[1..], n, busy);
      assert pool[0] !in pool[1..];
      assert FreeFor(n, pool, busy) ==
             (if Free(pool[0], n, busy) then {pool[0]} else {}) + FreeFor(n, pool[1..], busy);
    }
  }

  /** What a need asks of a pool: its count or, where it is optional, at most the boards connected, busy or not. */
  ghost function Asks(n: Need, pool: seq<Board>): nat {
    if n.optional then Min(n.count, |FreeFor(n, pool, {})|) else n.count
  }

  /** What makes one need short in a pool: its family is waited for, or fewer boards are free than it asks. */
  ghost predicate IsShort(n: Need, pool: seq<Board>, busy: set<string>, ahead: set<string>, family: string) {
    n.target == family && Asks(n, pool) > 0 && (family in ahead || |FreeFor(n, pool, busy)| < Asks(n, pool))
  }

  lemma ShortHere(n: Need, pool: seq<Board>, busy: set<string>, ahead: set<string>)
    requires UniqueIds(pool)
    ensures IsShort(n, pool, busy, ahead, n.target) <==>
            Take(n, pool) > 0 && (n.target in ahead || Count(pool, n, busy) < Take(n, pool))
  {
    CountIsSize(pool, n, busy);
    CountIsSize(pool, n, {});
  }

  /** The needs before the i-th are served, from what is free, and these are the boards they leave. */
  ghost predicate LeavesAt(
    needs: seq<Need>, pool: seq<Board>, busy: set<string>, ahead: set<string>, i: nat, left: seq<Board>)
  {
    && i < |needs| && UniqueIds(left)
    && PickNeeds(needs[..i], pool, busy, ahead).Picked?
    && forall b :: b in left <==> b in pool && b.id !in FlatIds(PickNeeds(needs[..i], pool, busy, ahead).each)
  }

  lemma LeavesFirst(needs: seq<Need>, pool: seq<Board>, busy: set<string>, ahead: set<string>)
    requires UniqueIds(pool) && needs != []
    ensures LeavesAt(needs, pool, busy, ahead, 0, pool)
  {
    assert needs[..0] == [];
  }

  /** What the needs behind the first leave of what it leaves. */
  lemma LeavesNext(
      needs: seq<Need>, pool: seq<Board>, busy: set<string>, ahead: set<string>, rest: seq<Board>, i: nat,
      left: seq<Board>)
    requires UniqueIds(pool) && needs != [] && PickNeeds(needs[..1], pool, busy, ahead).Picked?
    requires rest == if Take(needs[0], pool) == 0 then pool else Rest(pool, needs[0], busy, Take(needs[0], pool))
    requires LeavesAt(needs[1..], rest, busy, ahead, i, left)
    ensures LeavesAt(needs, pool, busy, ahead, i + 1, left)
  {
    var n, wanted := needs[0], Take(needs[0], pool);
    var first := if wanted == 0 then [] else First(pool, n, busy, wanted);
    assert needs[..i + 1][0] == n && needs[..i + 1][1..] == needs[1..][..i];
    var each := PickNeeds(needs[1..][..i], rest, busy, ahead).each;
    assert PickNeeds(needs[..i + 1], pool, busy, ahead) == Picked([first] + each);
    assert FlatIds([first] + each) == IdSeq(first) + FlatIds(each);
    forall b ensures b in rest <==> b in pool && b.id !in IdSeq(first) {
      IdSeqMember(first, b.id);
      RestIsRest(pool, n, busy, wanted, first, rest, b);
    }
  }

  lemma RestIsRest(
      pool: seq<Board>, n: Need, busy: set<string>, wanted: nat, first: seq<Board>, rest: seq<Board>, b: Board)
    requires UniqueIds(pool)
    requires first == if wanted == 0 then [] else First(pool, n, busy, wanted)
    requires rest == if wanted == 0 then pool else Rest(pool, n, busy, wanted)
    ensures b in rest <==> b in pool && forall x :: x in first ==> x.id != b.id
  {
    if wanted > 0 {
      SplitsPool(pool, n, busy, wanted);
      RestUnique(pool, n, busy, wanted);
      assert b in pool <==> b in multiset(pool);
      assert b in multiset(pool) <==> b in multiset(first) || b in multiset(rest);
      forall x | x in first ensures x in pool { FirstIsFree(pool, n, busy, wanted, x); }
    }
  }

  /** At some need, those before it served, the boards left fall short for this family. */
  ghost predicate FallsShort(
    needs: seq<Need>, pool: seq<Board>, busy: set<string>, ahead: set<string>, family: string)
  {
    exists i: nat, left :: LeavesAt(needs, pool, busy, ahead, i, left) && IsShort(needs[i], left, busy, ahead, family)
  }

  lemma ShortLater(
      needs: seq<Need>, pool: seq<Board>, busy: set<string>, ahead: set<string>, rest: seq<Board>, family: string)
    requires UniqueIds(pool) && needs != [] && PickNeeds(needs[..1], pool, busy, ahead).Picked?
    requires rest == if Take(needs[0], pool) == 0 then pool else Rest(pool, needs[0], busy, Take(needs[0], pool))
    requires FallsShort(needs[1..], rest, busy, ahead, family)
    ensures FallsShort(needs, pool, busy, ahead, family)
  {
    var i: nat, left :| LeavesAt(needs[1..], rest, busy, ahead, i, left)
      && IsShort(needs[1..][i], left, busy, ahead, family);
    LeavesNext(needs, pool, busy, ahead, rest, i, left);
    assert needs[i + 1] == needs[1..][i];
  }

  /**
   Needs are turned down for a family only if, at some need, the ones before it served from what was
   free, the family is waited for, or fewer of its boards are free than the need takes.
  */
  lemma {:induction false} LacksIs(needs: seq<Need>, pool: seq<Board>, busy: set<string>, ahead: set<string>)
    requires UniqueIds(pool) && PickNeeds(needs, pool, busy, ahead).Lacks?
    ensures FallsShort(needs, pool, busy, ahead, PickNeeds(needs, pool, busy, ahead).family)
  {
    var n, wanted := needs[0], Take(needs[0], pool);
    ShortHere(n, pool, busy, ahead);
    if wanted > 0 && (n.target in ahead || Count(pool, n, busy) < wanted) {
      LeavesFirst(needs, pool, busy, ahead);
      assert IsShort(needs[0], pool, busy, ahead, n.target);
    } else {
      var rest := if wanted == 0 then pool else Rest(pool, n, busy, wanted);
      FirstPart(n, pool, busy, wanted, if wanted == 0 then [] else First(pool, n, busy, wanted), rest);
      LacksIs(needs[1..], rest, busy, ahead);
      assert needs[..1] == [n] && needs[..1][1..] == [];
      ShortLater(needs, pool, busy, ahead, rest, PickNeeds(needs, pool, busy, ahead).family);
    }
  }

  lemma SameShort(n: Need, a: seq<Board>, b: seq<Board>, busy: set<string>, ahead: set<string>, family: string)
    requires BoardSet(a) == BoardSet(b)
    ensures IsShort(n, a, busy, ahead, family) <==> IsShort(n, b, busy, ahead, family)
  {
    forall x ensures x in a <==> x in b {
      assert x in BoardSet(a) <==> x in BoardSet(b);
    }
    assert FreeFor(n, a, busy) == FreeFor(n, b, busy) && FreeFor(n, a, {}) == FreeFor(n, b, {});
  }

  lemma {:induction false} ShortIsLacking(
      needs: seq<Need>, pool: seq<Board>, busy: set<string>, ahead: set<string>, i: nat, left: seq<Board>,
      family: string)
    requires UniqueIds(pool) && LeavesAt(needs, pool, busy, ahead, i, left)
    requires IsShort(needs[i], left, busy, ahead, family)
    ensures PickNeeds(needs, pool, busy, ahead) == Lacks(family)
    decreases i
  {
    if i == 0 {
      assert needs[..0] == [];
      assert BoardSet(left) == BoardSet(pool);
      SameShort(needs[0], left, pool, busy, ahead, family);
      ShortHere(needs[0], pool, busy, ahead);
    } else {
      var n, wanted := needs[0], Take(needs[0], pool);
      var rest := if wanted == 0 then pool else Rest(pool, n, busy, wanted);
      LeavesBehind(needs, pool, busy, ahead, rest, i, left);
      FirstPart(n, pool, busy, wanted, if wanted == 0 then [] else First(pool, n, busy, wanted), rest);
      ShortIsLacking(needs[1..], rest, busy, ahead, i - 1, left, family);
    }
  }

  lemma LeavesBehind(
      needs: seq<Need>, pool: seq<Board>, busy: set<string>, ahead: set<string>, rest: seq<Board>, i: nat,
      left: seq<Board>)
    requires UniqueIds(pool) && i > 0 && LeavesAt(needs, pool, busy, ahead, i, left)
    requires rest == if Take(needs[0], pool) == 0 then pool else Rest(pool, needs[0], busy, Take(needs[0], pool))
    ensures LeavesAt(needs[1..], rest, busy, ahead, i - 1, left)
    ensures Take(needs[0], pool) == 0 ||
            (needs[0].target !in ahead && Count(pool, needs[0], busy) >= Take(needs[0], pool))
  {
    var n, wanted := needs[0], Take(needs[0], pool);
    var first := if wanted == 0 then [] else First(pool, n, busy, wanted);
    assert needs[..i][0] == n && needs[..i][1..] == needs[1..][..i - 1];
    var each := PickNeeds(needs[1..][..i - 1], rest, busy, ahead).each;
    assert PickNeeds(needs[..i], pool, busy, ahead) == Picked([first] + each);
    assert FlatIds([first] + each) == IdSeq(first) + FlatIds(each);
    forall b ensures b in rest <==> b in pool && b.id !in IdSeq(first) {
      IdSeqMember(first, b.id);
      RestIsRest(pool, n, busy, wanted, first, rest, b);
    }
  }

  /** So needs are met from what is free unless, and only unless, some family falls short. */
  lemma PickedIff(needs: seq<Need>, pool: seq<Board>, busy: set<string>, ahead: set<string>)
    requires UniqueIds(pool)
    ensures PickNeeds(needs, pool, busy, ahead).Picked? <==>
            forall family :: !FallsShort(needs, pool, busy, ahead, family)
  {
    if PickNeeds(needs, pool, busy, ahead).Lacks? { LacksIs(needs, pool, busy, ahead); }
    if family :| FallsShort(needs, pool, busy, ahead, family) {
      var i: nat, left :| LeavesAt(needs, pool, busy, ahead, i, left) && IsShort(needs[i], left, busy, ahead, family);
      ShortIsLacking(needs, pool, busy, ahead, i, left, family);
    }
  }

  // ---- which boards are picked ----

  ghost predicate StandsBefore(pool: seq<Board>, a: Board, b: Board) {
    exists i, j :: 0 <= i < j < |pool| && pool[i] == a && pool[j] == b
  }

  lemma BeforeInTail(pool: seq<Board>, a: Board, b: Board)
    requires UniqueIds(pool) && StandsBefore(pool, a, b) && a != pool[0]
    ensures StandsBefore(pool[1..], a, b) && b != pool[0]
  {
    var i, j :| 0 <= i < j < |pool| && pool[i] == a && pool[j] == b;
    assert pool[1..][i - 1] == a && pool[1..][j - 1] == b;
  }

  /** Of the boards a need could have, it is given the first as the pool lists them; the others keep their order. */
  lemma {:induction false} EarliestFirst(pool: seq<Board>, n: Need, busy: set<string>, c: nat, a: Board, b: Board)
    requires UniqueIds(pool) && StandsBefore(pool, a, b)
    ensures Free(a, n, busy) && b in First(pool, n, busy, c) ==> a in First(pool, n, busy, c)
    ensures a in Rest(pool, n, busy, c) && b in Rest(pool, n, busy, c) ==> StandsBefore(Rest(pool, n, busy, c), a, b)
  {
    if c > 0 {
      var left, rest := if Free(pool[0], n, busy) then c - 1 else c, Rest(pool, n, busy, c);
      if a != pool[0] {
        BeforeInTail(pool, a, b);
        EarliestFirst(pool[1..], n, busy, left, a, b);
        if !Free(pool[0], n, busy) && StandsBefore(rest[1..], a, b) { BeforeInMore(rest, a, b); }
      } else if a in rest && b in rest {
        StandsFirst(pool, n, busy, c, b);
      }
    }
  }

  lemma BeforeInMore(pool: seq<Board>, a: Board, b: Board)
    requires pool != [] && StandsBefore(pool[1..], a, b)
    ensures StandsBefore(pool, a, b)
  {
    var i, j :| 0 <= i < j < |pool[1..]| && pool[1..][i] == a && pool[1..][j] == b;
    assert pool[i + 1] == a && pool[j + 1] == b;
  }

  lemma StandsFirst(pool: seq<Board>, n: Need, busy: set<string>, c: nat, b: Board)
    requires UniqueIds(pool) && pool != [] && c > 0 && b != pool[0]
    requires pool[0] in Rest(pool, n, busy, c) && b in Rest(pool, n, busy, c)
    ensures StandsBefore(Rest(pool, n, busy, c), pool[0], b)
  {
    var rest := Rest(pool, n, busy, c);
    if Free(pool[0], n, busy) {
      RestSubset(pool[1..], n, busy, c - 1, pool[0]);
      assert false;
    } else {
      var j :| 0 <= j < |rest| && rest[j] == b;
      assert rest[0] == pool[0];
    }
  }

  /** What the k-th need is given when needs are picked for. */
  ghost function GivenTo(
    needs: seq<Need>, pool: seq<Board>, busy: set<string>, ahead: set<string>, k: nat): seq<Board>
  {
    match PickNeeds(needs, pool, busy, ahead)
    case Picked(each) => if k < |each| then each[k] else []
    case Lacks(_) => []
  }

  /** The first need takes its boards, and the needs behind it are picked for from the others. */
  lemma GivenSplits(needs: seq<Need>, pool: seq<Board>, busy: set<string>, ahead: set<string>)
      returns (rest: seq<Board>)
    requires UniqueIds(pool) && needs != [] && PickNeeds(needs, pool, busy, ahead).Picked?
    ensures PickNeeds(needs[1..], rest, busy, ahead).Picked? && UniqueIds(rest)
    ensures forall k: nat :: GivenTo(needs, pool, busy, ahead, k + 1) == GivenTo(needs[1..], rest, busy, ahead, k)
    ensures forall b :: b in rest <==> b in pool && b !in GivenTo(needs, pool, busy, ahead, 0)
    ensures forall a, b :: a in rest && b in rest && StandsBefore(pool, a, b) ==> StandsBefore(rest, a, b)
    ensures forall b :: b in GivenTo(needs, pool, busy, ahead, 0) ==> b in pool
    ensures forall a, b ::
              StandsBefore(pool, a, b) && Free(a, needs[0], busy) && b in GivenTo(needs, pool, busy, ahead, 0) ==>
              a in GivenTo(needs, pool, busy, ahead, 0)
  {
    var n, wanted := needs[0], Take(needs[0], pool);
    var first := if wanted == 0 then [] else First(pool, n, busy, wanted);
    rest := if wanted == 0 then pool else Rest(pool, n, busy, wanted);
    assert GivenTo(needs, pool, busy, ahead, 0) == first;
    if wanted > 0 {
      RestUnique(pool, n, busy, wanted);
      forall a, b | StandsBefore(pool, a, b)
        ensures Free(a, n, busy) && b in first ==> a in first
        ensures a in rest && b in rest ==> StandsBefore(rest, a, b)
      {
        EarliestFirst(pool, n, busy, wanted, a, b);
      }
      forall b | b in first ensures b in pool { FirstIsFree(pool, n, busy, wanted, b); }
    }
    forall b ensures b in rest <==> b in pool && b !in first {
      RestIsRest(pool, n, busy, wanted, first, rest, b);
      SameWithin(pool, first, b);
    }
  }

  lemma SameWithin(pool: seq<Board>, first: seq<Board>, b: Board)
    requires UniqueIds(pool) && forall x :: x in first ==> x in pool
    ensures b in pool ==> (b in first <==> exists x :: x in first && x.id == b.id)
  {
  }

  /**
   First come, first served, need by need: a board is given to a need only if the need also has every board
   listed before it that it could have and that no earlier need was given.
  */
  lemma {:induction false} TakesEarliest(
      needs: seq<Need>, pool: seq<Board>, busy: set<string>, ahead: set<string>, i: nat, a: Board, b: Board)
    requires UniqueIds(pool) && PickNeeds(needs, pool, busy, ahead).Picked? && i < |needs|
    requires StandsBefore(pool, a, b) && Free(a, needs[i], busy)
    requires forall h: nat :: h < i ==> a !in GivenTo(needs, pool, busy, ahead, h)
    requires b in GivenTo(needs, pool, busy, ahead, i)
    ensures a in GivenTo(needs, pool, busy, ahead, i)
  {
    var rest := GivenSplits(needs, pool, busy, ahead);
    if i > 0 {
      GivenIsThere(needs[1..], rest, busy, ahead, i - 1, b);
      forall h: nat | h < i - 1 ensures a !in GivenTo(needs[1..], rest, busy, ahead, h) {
        assert a !in GivenTo(needs, pool, busy, ahead, h + 1);
      }
      assert needs[1..][i - 1] == needs[i];
      TakesEarliest(needs[1..], rest, busy, ahead, i - 1, a, b);
    }
  }

  lemma {:induction false} GivenIsThere(
      needs: seq<Need>, pool: seq<Board>, busy: set<string>, ahead: set<string>, i: nat, b: Board)
    requires UniqueIds(pool) && PickNeeds(needs, pool, busy, ahead).Picked?
    requires b in GivenTo(needs, pool, busy, ahead, i)
    ensures b in pool
  {
    if needs != [] {
      var rest := GivenSplits(needs, pool, busy, ahead);
      if i > 0 { GivenIsThere(needs[1..], rest, busy, ahead, i - 1, b); }
    }
  }
}

/** What the greedy choice of boards does to a pool, and what it may hand out. */
module Pools {
  import opened Names
  import opened Allocation

  lemma {:induction false} FirstLength(pool: seq<Board>, n: Need, busy: set<string>, c: nat)
    ensures |First(pool, n, busy, c)| == Min(c, Count(pool, n, busy))
  {
    if pool != [] && c != 0 {
      FirstLength(pool[1..], n, busy, if Free(pool[0], n, busy) then c - 1 else c);
    }
  }

  lemma {:induction false} FirstIsFree(pool: seq<Board>, n: Need, busy: set<string>, c: nat, b: Board)
    requires b in First(pool, n, busy, c)
    ensures b in pool && Free(b, n, busy)
  {
    if Free(pool[0], n, busy) {
      if b != pool[0] { FirstIsFree(pool[1..], n, busy, c - 1, b); }
    } else {
      FirstIsFree(pool[1..], n, busy, c, b);
    }
  }

  /** Nothing is lost and nothing invented: the pool is split in two. */
  lemma {:induction false} SplitsPool(pool: seq<Board>, n: Need, busy: set<string>, c: nat)
    ensures multiset(First(pool, n, busy, c)) + multiset(Rest(pool, n, busy, c)) == multiset(pool)
  {
    if pool != [] && c != 0 {
      assert pool == [pool[0]] + pool[1..];
      SplitsPool(pool[1..], n, busy, if Free(pool[0], n, busy) then c - 1 else c);
    }
  }

  lemma RestSubset(pool: seq<Board>, n: Need, busy: set<string>, c: nat, b: Board)
    requires b in Rest(pool, n, busy, c)
    ensures b in pool
  {
    SplitsPool(pool, n, busy, c);
    assert b in multiset(Rest(pool, n, busy, c));
    assert b in multiset(pool);
  }

  lemma {:induction false} RestUnique(pool: seq<Board>, n: Need, busy: set<string>, c: nat)
    requires UniqueIds(pool)
    ensures UniqueIds(Rest(pool, n, busy, c))
    ensures UniqueIds(First(pool, n, busy, c))
    ensures forall a, b :: a in First(pool, n, busy, c) && b in Rest(pool, n, busy, c) ==> a.id != b.id
  {
    if pool != [] && c != 0 {
      var c' := if Free(pool[0], n, busy) then c - 1 else c;
      RestUnique(pool[1..], n, busy, c');
      forall b | b in Rest(pool[1..], n, busy, c') ensures b.id != pool[0].id {
        RestSubset(pool[1..], n, busy, c', b);
      }
      forall b | b in First(pool[1..], n, busy, c') ensures b.id != pool[0].id {
        FirstIsFree(pool[1..], n, busy, c', b);
      }
    }
  }

  // ---- what the greedy choice leaves of another need ----

  /** Need n is met only by boards that meet m too. */
  predicate Within(n: Need, m: Need) {
    n.target == m.target && m.tags <= n.tags
  }

  lemma {:induction false} CountAfter(pool: seq<Board>, n: Need, c: nat, m: Need)
    ensures Count(Rest(pool, n, {}, c), m, {}) <= Count(pool, m, {})
    ensures Within(n, m) ==> Count(Rest(pool, n, {}, c), m, {}) == Count(pool, m, {}) - Min(c, Count(pool, n, {}))
    ensures n.target != m.target ==> Count(Rest(pool, n, {}, c), m, {}) == Count(pool, m, {})
  {
    if pool != [] && c != 0 {
      CountAfter(pool[1..], n, if Free(pool[0], n, {}) then c - 1 else c, m);
    }
  }

  lemma {:induction false} IdSeqMember(boards: seq<Board>, id: string)
    ensures id in IdSeq(boards) <==> exists b: Board :: b in boards && b.id == id
  {
    if boards != [] { IdSeqMember(boards[1..], id); }
  }

  lemma {:induction false} IdSeqAt(boards: seq<Board>)
    ensures |IdSeq(boards)| == |boards|
    ensures forall i :: 0 <= i < |boards| ==> IdSeq(boards)[i] == boards[i].id
  {
    if boards != [] { IdSeqAt(boards[1..]); }
  }

  lemma SameBoard(boards: seq<Board>, a: Board, b: Board)
    requires UniqueIds(boards) && a in boards && b in boards && a.id == b.id
    ensures a == b
  {
  }

  /** What may be handed out for a list of needs: free, unheld boards of families nobody ahead waits for. */
  ghost predicate Pickable(b: Board, pool: seq<Board>, busy: set<string>, ahead: set<string>) {
    b in pool && b.hold == Unheld && b.id !in busy && b.target !in ahead
  }

  lemma {:induction false} PicksArePickable(
      needs: seq<Need>, pool: seq<Board>, busy: set<string>, ahead: set<string>, id: string)
    requires PickNeeds(needs, pool, busy, ahead).Picked?
    requires id in FlatIds(PickNeeds(needs, pool, busy, ahead).each)
    ensures exists b: Board :: Pickable(b, pool, busy, ahead) && b.id == id
  {
    var n := needs[0];
    var wanted := Take(n, pool);
    var each := PickNeeds(needs, pool, busy, ahead).each;
    if wanted == 0 {
      PicksArePickable(needs[1..], pool, busy, ahead, id);
    } else if id in IdSeq(each[0]) {
      IdSeqMember(each[0], id);
      var b: Board :| b in each[0] && b.id == id;
      FirstIsFree(pool, n, busy, wanted, b);
      assert Pickable(b, pool, busy, ahead);
    } else {
      PicksArePickable(needs[1..], Rest(pool, n, busy, wanted), busy, ahead, id);
      var b: Board :| Pickable(b, Rest(pool, n, busy, wanted), busy, ahead) && b.id == id;
      RestSubset(pool, n, busy, wanted, b);
      assert Pickable(b, pool, busy, ahead);
    }
  }

  /** No board is given to two needs. */
  lemma {:induction false} PicksDistinct(needs: seq<Need>, pool: seq<Board>, busy: set<string>, ahead: set<string>)
    requires UniqueIds(pool)
    requires PickNeeds(needs, pool, busy, ahead).Picked?
    ensures Distinct(FlatIds(PickNeeds(needs, pool, busy, ahead).each))
  {
    if needs != [] {
      var n := needs[0];
      var wanted := Take(n, pool);
      var each := PickNeeds(needs, pool, busy, ahead).each;
      if wanted == 0 {
        PicksDistinct(needs[1..], pool, busy, ahead);
      } else {
        var rest := Rest(pool, n, busy, wanted);
        RestUnique(pool, n, busy, wanted);
        PicksDistinct(needs[1..], rest, busy, ahead);
        IdSeqAt(each[0]);
        forall id | id in FlatIds(each[1..]) ensures id !in IdSeq(each[0]) {
          PicksArePickable(needs[1..], rest, busy, ahead, id);
          var b: Board :| Pickable(b, rest, busy, ahead) && b.id == id;
          IdSeqMember(each[0], id);
        }
        DistinctAppend(IdSeq(each[0]), FlatIds(each[1..]));
      }
    }
  }

  // ---- boards asked for by name ----

  lemma {:induction false} NamedMember(named: seq<string>, boards: seq<Board>, id: string)
    ensures id in NamedIds(named, boards) <==> id in named && exists b: Board :: b in boards && b.id == id
  {
    if boards != [] { NamedMember(named, boards[1..], id); }
  }

  lemma {:induction false} NamedDistinct(named: seq<string>, boards: seq<Board>)
    requires UniqueIds(boards)
    ensures Distinct(NamedIds(named, boards))
  {
    if boards != [] {
      NamedDistinct(named, boards[1..]);
      forall id | id in NamedIds(named, boards[1..]) ensures id != boards[0].id {
        NamedMember(named, boards[1..], id);
      }
      DistinctAppend(if boards[0].id in named then [boards[0].id] else [], NamedIds(named, boards[1..]));
    }
  }

  lemma {:induction false} NoneTaken(named: seq<string>, boards: seq<Board>, busy: set<string>)
    ensures FirstTaken(named, boards, busy).None? <==>
            forall id :: id in named ==> id !in busy && !IsReserved(boards, id)
  {
    if named != [] {
      NoneTaken(named[1..], boards, busy);
      assert named[0] in named && forall id :: id in named[1..] ==> id in named;
    }
  }

  lemma {:induction false} NoneAhead(named: seq<string>, boards: seq<Board>, ahead: set<string>)
    ensures FirstAhead(named, boards, ahead).None? <==>
            forall b :: b in boards && b.id in named ==> b.target !in ahead
  {
    if boards != [] { NoneAhead(named, boards[1..], ahead); }
  }

  // ---- a whole choice ----

  /**
   What a choice hands out, whatever the demand: distinct boards of this rig, none busy, none of a
   family an earlier demand waits for, none reserved, and a quarantined one only when named.
  */
  lemma ChoiceIsSound(d: Demand, boards: seq<Board>, busy: set<string>, ahead: set<string>)
    requires UniqueIds(boards)
    requires Choose(d, boards, busy, ahead).Chosen?
    ensures Distinct(Choose(d, boards, busy, ahead).ids)
    ensures forall id :: id in Choose(d, boards, busy, ahead).ids ==>
      && id !in busy
      && exists b: Board :: b in boards && b.id == id && b.target !in ahead
           && b.hold != Reserved && (b.hold == Quarantined ==> id in d.boards)
    ensures d.boards != [] ==> forall id ::
      id in Choose(d, boards, busy, ahead).ids <==> id in d.boards && id in IdSet(boards)
  {
    var ids := Choose(d, boards, busy, ahead).ids;
    if d.boards != [] {
      NoneTaken(d.boards, boards, busy);
      NoneAhead(d.boards, boards, ahead);
      NamedDistinct(d.boards, boards);
      SortedIncreasing(NamedIds(d.boards, boards));
      IncreasingDistinct(ids);
      forall id ensures id in ids <==> id in d.boards && id in IdSet(boards) {
        SortedMembers(NamedIds(d.boards, boards), id);
        NamedMember(d.boards, boards, id);
      }
      forall id | id in ids
        ensures exists b: Board :: b in boards && b.id == id && b.target !in ahead
                  && b.hold != Reserved && (b.hold == Quarantined ==> id in d.boards)
      {
        var b: Board :| b in boards && b.id == id;
        assert !IsReserved(boards, id);
      }
    } else {
      PicksDistinct(d.needs, boards, busy, ahead);
      forall id | id in ids
        ensures id !in busy
        ensures exists b: Board :: b in boards && b.id == id && b.target !in ahead
                  && b.hold != Reserved && (b.hold == Quarantined ==> id in d.boards)
      {
        PicksArePickable(d.needs, boards, busy, ahead, id);
        var b: Board :| Pickable(b, boards, busy, ahead) && b.id == id;
      }
    }
  }
}

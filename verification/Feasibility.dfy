/**
 The idle check is greedy. What it accepts can be met, and it accepts all that can be met, on every
 inventory, exactly when the needs are listed in a good order.
*/
module Feasibility {
  import opened Names
  import opened Allocation
  import opened Pools

  /**
   Boards for each need, no board for two: every required need has its count, and each board is in the pool of
   boards that may be used, of the family asked for, with the tags asked for.
  */
  ghost predicate Assigns(needs: seq<Need>, pool: set<Board>, given: seq<set<Board>>) {
    && |given| == |needs|
    && (forall k :: 0 <= k < |needs| ==>
          && given[k] <= pool
          && (forall b :: b in given[k] ==> b.hold == Unheld && b.target == needs[k].target && needs[k].tags <= b.tags)
          && (needs[k].optional || |given[k]| == needs[k].count))
    && forall i, j :: 0 <= i < j < |needs| ==> given[i] !! given[j]
  }

  ghost predicate Satisfiable(needs: seq<Need>, pool: set<Board>) {
    exists given :: Assigns(needs, pool, given)
  }

  ghost function BoardSet(boards: seq<Board>): set<Board> {
    set b | b in boards
  }

  /** Required before optional within a family, and the narrowest tags first. */
  predicate WellOrdered(needs: seq<Need>) {
    forall i, j :: 0 <= i < j < |needs| && needs[i].target == needs[j].target && !needs[j].optional ==>
      !needs[i].optional && needs[j].tags <= needs[i].tags
  }

  lemma {:induction false} SetSize(boards: seq<Board>)
    requires UniqueIds(boards)
    ensures |BoardSet(boards)| == |boards|
  {
    if boards != [] {
      SetSize(boards[1..]);
      assert BoardSet(boards) == {boards[0]} + BoardSet(boards[1..]);
    }
  }

  // ---- it never claims too much ----

  lemma Prefix(needs: seq<Need>, pool: set<Board>, first: set<Board>, rest: seq<set<Board>>, left: set<Board>)
    requires needs != [] && Assigns(needs[1..], left, rest)
    requires first <= pool && left <= pool && first !! left
    requires forall b :: b in first ==> Matches(b, needs[0])
    requires needs[0].optional || |first| == needs[0].count
    ensures Assigns(needs, pool, [first] + rest)
  {
    var given := [first] + rest;
    forall k | 0 <= k < |needs|
      ensures given[k] <= pool && (forall b :: b in given[k] ==> Matches(b, needs[k]))
      ensures needs[k].optional || |given[k]| == needs[k].count
    {
      if k > 0 { assert given[k] == rest[k - 1] && needs[k] == needs[1..][k - 1]; }
    }
    forall i, j | 0 <= i < j < |needs| ensures given[i] !! given[j] {
      assert given[j] == rest[j - 1] <= left;
      if i > 0 { assert given[i] == rest[i - 1]; }
    }
  }

  /** What it says fits, fits: the boards it would take are an assignment. */
  lemma {:induction false} FitsIsSatisfiable(needs: seq<Need>, pool: seq<Board>)
    requires UniqueIds(pool) && FitsNeeds(needs, pool)
    ensures Satisfiable(needs, BoardSet(pool))
  {
    if needs == [] {
      assert Assigns(needs, BoardSet(pool), []);
    } else {
      var n := needs[0];
      var first, rest := First(pool, n, {}, n.count), Rest(pool, n, {}, n.count);
      RestUnique(pool, n, {}, n.count);
      FitsIsSatisfiable(needs[1..], rest);
      var given :| Assigns(needs[1..], BoardSet(rest), given);
      FirstLength(pool, n, {}, n.count);
      SetSize(first);
      forall b | b in first ensures b in pool && Matches(b, n) { FirstIsFree(pool, n, {}, n.count, b); }
      forall b | b in rest ensures b in pool { RestSubset(pool, n, {}, n.count, b); }
      Prefix(needs, BoardSet(pool), BoardSet(first), given, BoardSet(rest));
    }
  }

  // ---- Hall's condition ----

  /** How many boards the required needs ask for that only boards meeting m can meet. */
  function Due(needs: seq<Need>, m: Need): nat {
    if needs == [] then 0
    else (if !needs[0].optional && Within(needs[0], m) then needs[0].count else 0) + Due(needs[1..], m)
  }

  ghost predicate Hall(needs: seq<Need>, pool: seq<Board>) {
    forall k :: 0 <= k < |needs| && !needs[k].optional ==> Due(needs, needs[k]) <= Count(pool, needs[k], {})
  }

  lemma {:induction false} MatchingSize(pool: seq<Board>, m: Need)
    ensures |set b | b in pool && Matches(b, m)| <= Count(pool, m, {})
  {
    if pool != [] {
      MatchingSize(pool[1..], m);
      var rest := set b | b in pool[1..] && Matches(b, m);
      var all := set b | b in pool && Matches(b, m);
      if Matches(pool[0], m) { assert all == rest + {pool[0]}; } else { assert all == rest; }
    }
  }

  /** The boards given to those needs are that many, and all meet m. */
  lemma {:induction false} GivenForDue(needs: seq<Need>, pool: set<Board>, given: seq<set<Board>>, m: Need)
      returns (used: set<Board>)
    requires Assigns(needs, pool, given)
    ensures used <= pool && |used| == Due(needs, m)
    ensures forall b :: b in used ==> Matches(b, m) && exists k :: 0 <= k < |given| && b in given[k]
  {
    if needs == [] {
      used := {};
    } else {
      assert forall k :: 0 <= k < |needs[1..]| ==> needs[1..][k] == needs[k + 1] && given[1..][k] == given[k + 1];
      assert Assigns(needs[1..], pool, given[1..]);
      used := GivenForDue(needs[1..], pool, given[1..], m);
      forall b | b in used ensures b !in given[0] && exists k :: 0 <= k < |given| && b in given[k] {
        var k :| 0 <= k < |given[1..]| && b in given[1..][k];
        assert given[k + 1] == given[1..][k];
      }
      if !needs[0].optional && Within(needs[0], m) {
        forall b | b in given[0] ensures Matches(b, m) { assert Matches(b, needs[0]); }
        assert given[0] !! used;
        used := given[0] + used;
      }
    }
  }

  /** No assignment without Hall's condition, for any kind of board m. */
  lemma SatisfiableMeetsDue(needs: seq<Need>, pool: seq<Board>, m: Need)
    requires Satisfiable(needs, BoardSet(pool))
    ensures Due(needs, m) <= Count(pool, m, {})
  {
    var given :| Assigns(needs, BoardSet(pool), given);
    var used := GivenForDue(needs, BoardSet(pool), given, m);
    MatchingSize(pool, m);
    Fewer(used, set b | b in pool && Matches(b, m));
  }

  lemma {:induction false} Fewer<T>(a: set<T>, b: set<T>)
    requires a <= b
    ensures |a| <= |b|
  {
    if a != {} {
      var x :| x in a;
      Fewer(a - {x}, b - {x});
    }
  }

  /** With the needs well ordered, Hall's condition is all the greedy choice asks. */
  lemma {:induction false} HallFits(needs: seq<Need>, pool: seq<Board>)
    requires WellOrdered(needs) && Hall(needs, pool)
    ensures FitsNeeds(needs, pool)
  {
    if needs != [] {
      var n, rest := needs[0], Rest(pool, needs[0], {}, needs[0].count);
      assert !n.optional ==> n.count <= Due(needs, n) <= Count(pool, n, {});
      forall k | 0 <= k < |needs[1..]| && !needs[1..][k].optional
        ensures Due(needs[1..], needs[1..][k]) <= Count(rest, needs[1..][k], {})
      {
        var m := needs[1..][k];
        assert m == needs[k + 1];
        CountAfter(pool, n, n.count, m);
      }
      HallFits(needs[1..], rest);
    }
  }

  /** Exact when well ordered: it fits if and only if some assignment meets every required need. */
  lemma GreedyIsExact(needs: seq<Need>, pool: seq<Board>)
    requires UniqueIds(pool) && WellOrdered(needs)
    ensures FitsNeeds(needs, pool) <==> Satisfiable(needs, BoardSet(pool))
  {
    if FitsNeeds(needs, pool) {
      FitsIsSatisfiable(needs, pool);
    }
    if Satisfiable(needs, BoardSet(pool)) {
      forall k | 0 <= k < |needs| && !needs[k].optional ensures Due(needs, needs[k]) <= Count(pool, needs[k], {}) {
        SatisfiableMeetsDue(needs, pool, needs[k]);
      }
      HallFits(needs, pool);
    }
  }

  // ---- and only when well ordered: an inventory that misleads it otherwise ----

  /** The needs that must be met out of boards meeting m. */
  predicate Bound(n: Need, m: Need) {
    !n.optional && Within(n, m)
  }

  function AllTags(needs: seq<Need>): set<string> {
    set n, t | n in needs && t in n.tags :: t
  }

  function Numeral(i: nat): string {
    seq(i, _ => 'b')
  }

  function Copies(b: Board, count: nat, from: nat): seq<Board> {
    seq(count, i requires 0 <= i < count => b.(id := Numeral(from + i)))
  }

  /** One board with every tag for each board due to m ... */
  function Coveted(needs: seq<Need>, m: Need): seq<Board> {
    Copies(Board("", m.target, AllTags(needs), Unheld, None), Due(needs, m), 0)
  }

  /** ... and after them, for each other required need, boards of just its own tags. */
  function Plain(needs: seq<Need>, m: Need, from: nat): seq<Board> {
    if needs == [] then []
    else
      var n := needs[0];
      if n.optional || Bound(n, m) then Plain(needs[1..], m, from)
      else Copies(Board("", n.target, n.tags, Unheld, None), n.count, from) + Plain(needs[1..], m, from + n.count)
  }

  function Misleading(needs: seq<Need>, m: Need): seq<Board> {
    Coveted(needs, m) + Plain(needs, m, Due(needs, m))
  }

  lemma CopiesAre(b: Board, count: nat, from: nat)
    ensures |Copies(b, count, from)| == count && UniqueIds(Copies(b, count, from))
    ensures forall c :: c in Copies(b, count, from) ==>
      c == b.(id := c.id) && from <= |c.id| < from + count
  {
    forall i | 0 <= i < count ensures |Copies(b, count, from)[i].id| == from + i {
      assert |Numeral(from + i)| == from + i;
    }
  }

  lemma {:induction false} PlainBoards(needs: seq<Need>, m: Need, from: nat)
    ensures forall b :: b in Plain(needs, m, from) ==> !Matches(b, m) && from <= |b.id|
    ensures UniqueIds(Plain(needs, m, from))
  {
    if needs != [] {
      var n := needs[0];
      if n.optional || Bound(n, m) {
        PlainBoards(needs[1..], m, from);
      } else {
        PlainBoards(needs[1..], m, from + n.count);
        CopiesAre(Board("", n.target, n.tags, Unheld, None), n.count, from);
      }
    }
  }

  lemma MisleadingUnique(needs: seq<Need>, m: Need)
    ensures UniqueIds(Misleading(needs, m))
  {
    PlainBoards(needs, m, Due(needs, m));
    CopiesAre(Board("", m.target, AllTags(needs), Unheld, None), Due(needs, m), 0);
  }

  lemma Shares(needs: seq<Need>, pool: seq<Board>, first: seq<Board>, left: seq<Board>)
    requires needs != [] && Satisfiable(needs[1..], BoardSet(left))
    requires forall b :: b in first ==> b in pool && Matches(b, needs[0]) && b !in left
    requires forall b :: b in left ==> b in pool
    requires needs[0].optional || (UniqueIds(first) && |first| == needs[0].count)
    ensures Satisfiable(needs, BoardSet(pool))
  {
    var given :| Assigns(needs[1..], BoardSet(left), given);
    if !needs[0].optional { SetSize(first); }
    Prefix(needs, BoardSet(pool), BoardSet(first), given, BoardSet(left));
  }

  ghost predicate Shareable(needs: seq<Need>, m: Need, coveted: seq<Board>, from: nat) {
    && |coveted| == Due(needs, m) && UniqueIds(coveted)
    && (forall b :: b in coveted ==> |b.id| < from)
    && forall b, n :: b in coveted && n in needs && Bound(n, m) ==> Matches(b, n)
  }

  /** Taking the coveted boards for the needs bound to m, and its own boards for every other. */
  lemma {:induction false} SharesOut(needs: seq<Need>, m: Need, coveted: seq<Board>, from: nat)
    requires Shareable(needs, m, coveted, from)
    ensures Satisfiable(needs, BoardSet(coveted + Plain(needs, m, from)))
    decreases needs, 1
  {
    var pool := coveted + Plain(needs, m, from);
    if needs == [] {
      assert Assigns(needs, BoardSet(pool), []);
    } else if needs[0].optional {
      assert Shareable(needs[1..], m, coveted, from);
      SharesOut(needs[1..], m, coveted, from);
      Shares(needs, pool, [], pool);
    } else if Bound(needs[0], m) {
      SharesCoveted(needs, m, coveted, from);
    } else {
      SharesPlain(needs, m, coveted, from);
    }
  }

  lemma {:induction false} SharesCoveted(needs: seq<Need>, m: Need, coveted: seq<Board>, from: nat)
    requires needs != [] && !needs[0].optional && Bound(needs[0], m) && Shareable(needs, m, coveted, from)
    ensures Satisfiable(needs, BoardSet(coveted + Plain(needs, m, from)))
    decreases needs, 0
  {
    var n := needs[0];
    var first, rest := coveted[..n.count], coveted[n.count..];
    assert coveted == first + rest && n in needs;
    assert Shareable(needs[1..], m, rest, from);
    SharesOut(needs[1..], m, rest, from);
    PlainBoards(needs[1..], m, from);
    Shares(needs, coveted + Plain(needs, m, from), first, rest + Plain(needs[1..], m, from));
  }

  lemma {:induction false} SharesPlain(needs: seq<Need>, m: Need, coveted: seq<Board>, from: nat)
    requires needs != [] && !needs[0].optional && !Bound(needs[0], m) && Shareable(needs, m, coveted, from)
    ensures Satisfiable(needs, BoardSet(coveted + Plain(needs, m, from)))
    decreases needs, 0
  {
    var n := needs[0];
    var first := Copies(Board("", n.target, n.tags, Unheld, None), n.count, from);
    CopiesAre(Board("", n.target, n.tags, Unheld, None), n.count, from);
    assert Shareable(needs[1..], m, coveted, from + n.count);
    SharesOut(needs[1..], m, coveted, from + n.count);
    PlainBoards(needs[1..], m, from + n.count);
    Shares(needs, coveted + Plain(needs, m, from), first, coveted + Plain(needs[1..], m, from + n.count));
  }

  lemma MisleadingSatisfiable(needs: seq<Need>, m: Need)
    ensures Satisfiable(needs, BoardSet(Misleading(needs, m)))
  {
    CopiesAre(Board("", m.target, AllTags(needs), Unheld, None), Due(needs, m), 0);
    SharesOut(needs, m, Coveted(needs, m), Due(needs, m));
  }

  /** Too few boards meeting m for what is due: it cannot fit. */
  lemma {:induction false} Starves(needs: seq<Need>, pool: seq<Board>, m: Need)
    requires Count(pool, m, {}) < Due(needs, m)
    ensures !FitsNeeds(needs, pool)
  {
    CountAfter(pool, needs[0], needs[0].count, m);
    if FitsNeeds(needs, pool) {
      Starves(needs[1..], Rest(pool, needs[0], {}, needs[0].count), m);
    }
  }

  lemma {:induction false} TakesFromFront(coveted: seq<Board>, plain: seq<Board>, n: Need, c: nat)
    requires forall b :: b in coveted ==> Matches(b, n)
    ensures Rest(coveted + plain, n, {}, c) == coveted[Min(c, |coveted|)..] + Rest(plain, n, {}, c - Min(c, |coveted|))
    ensures Count(coveted + plain, n, {}) == |coveted| + Count(plain, n, {})
  {
    var pool := coveted + plain;
    if coveted == [] {
      assert pool == plain;
    } else {
      assert pool[0] == coveted[0] && pool[1..] == coveted[1..] + plain;
      TakesFromFront(coveted[1..], plain, n, if c == 0 then 0 else c - 1);
    }
  }

  lemma {:induction false} SkipsFront(coveted: seq<Board>, plain: seq<Board>, n: Need, c: nat)
    requires forall b :: b in coveted ==> !Matches(b, n)
    ensures Rest(coveted + plain, n, {}, c) == coveted + Rest(plain, n, {}, c)
  {
    var pool := coveted + plain;
    if coveted == [] {
      assert pool == plain;
    } else {
      assert pool[0] == coveted[0] && pool[1..] == coveted[1..] + plain;
      SkipsFront(coveted[1..], plain, n, c);
    }
  }

  lemma {:induction false} NoneCounted(pool: seq<Board>, m: Need)
    requires forall b :: b in pool ==> !Matches(b, m)
    ensures Count(pool, m, {}) == 0
  {
    if pool != [] { NoneCounted(pool[1..], m); }
  }

  /** A need that does not need the coveted boards comes to them first: the i-th is the culprit. */
  lemma {:induction false} Misled(needs: seq<Need>, coveted: seq<Board>, plain: seq<Board>, m: Need, i: nat)
    requires forall n :: n in needs ==> n.count >= 1
    requires forall b, n :: b in coveted && n in needs ==> (Matches(b, n) <==> n.target == m.target)
    requires forall b :: b in coveted ==> Matches(b, m)
    requires forall b :: b in plain ==> !Matches(b, m)
    requires i < |needs| && needs[i].target == m.target && !Bound(needs[i], m) && Due(needs[i..], m) > 0
    requires |coveted| <= Due(needs, m)
    ensures !FitsNeeds(needs, coveted + plain)
    decreases needs, 1
  {
    var n := needs[0];
    var pool := coveted + plain;
    TakesFromFront(coveted, plain, m, 0);
    NoneCounted(plain, m);
    if |coveted| < Due(needs, m) {
      Starves(needs, pool, m);
    } else if FitsNeeds(needs, pool) {
      forall b | b in Rest(plain, n, {}, n.count) ensures b in plain { RestSubset(plain, n, {}, n.count, b); }
      if n.target != m.target {
        SkipsFront(coveted, plain, n, n.count);
        assert needs[1..][i - 1..] == needs[i..];
        Misled(needs[1..], coveted, Rest(plain, n, {}, n.count), m, i - 1);
      } else {
        MisledStep(needs, coveted, plain, m, i);
      }
    }
  }

  lemma {:induction false} MisledStep(needs: seq<Need>, coveted: seq<Board>, plain: seq<Board>, m: Need, i: nat)
    requires forall n :: n in needs ==> n.count >= 1
    requires forall b, n :: b in coveted && n in needs ==> (Matches(b, n) <==> n.target == m.target)
    requires forall b :: b in coveted ==> Matches(b, m)
    requires forall b :: b in plain ==> !Matches(b, m)
    requires i < |needs| && needs[i].target == m.target && !Bound(needs[i], m) && Due(needs[i..], m) > 0
    requires |coveted| == Due(needs, m) && needs[0].target == m.target
    ensures !FitsNeeds(needs, coveted + plain)
    decreases needs, 0
  {
    var n := needs[0];
    var taken := Min(n.count, |coveted|);
    TakesFromFront(coveted, plain, n, n.count);
    var left := Rest(plain, n, {}, n.count - taken);
    forall b | b in left ensures b in plain { RestSubset(plain, n, {}, n.count - taken, b); }
    if FitsNeeds(needs, coveted + plain) {
      if Bound(n, m) {
        forall b | b in plain ensures !Matches(b, n) { }
        NoneCounted(plain, n);
        assert needs[1..][i - 1..] == needs[i..];
        Misled(needs[1..], coveted[taken..], left, m, i - 1);
      } else {
        DueLater(needs, m, i);
        TakesFromFront(coveted[taken..], left, m, 0);
        NoneCounted(left, m);
        Starves(needs[1..], coveted[taken..] + left, m);
      }
    }
  }

  lemma {:induction false} DueLater(needs: seq<Need>, m: Need, i: nat)
    requires i <= |needs|
    ensures Due(needs[i..], m) <= Due(needs, m)
  {
    if i > 0 {
      assert needs[i..] == needs[1..][i - 1..];
      DueLater(needs[1..], m, i - 1);
    }
  }

  lemma {:induction false} DueOwn(needs: seq<Need>, j: nat)
    requires j < |needs| && !needs[j].optional
    ensures Due(needs, needs[j]) >= needs[j].count
  {
    if j > 0 { DueOwn(needs[1..], j - 1); }
  }

  /** Listed out of order, the needs misread this inventory: it satisfies them, and is said not to. */
  lemma MisreadsMisleading(needs: seq<Need>, i: nat, j: nat)
    requires forall n :: n in needs ==> n.count >= 1
    requires i < j < |needs| && needs[i].target == needs[j].target && !needs[j].optional
    requires needs[i].optional || !(needs[j].tags <= needs[i].tags)
    ensures UniqueIds(Misleading(needs, needs[j]))
    ensures Satisfiable(needs, BoardSet(Misleading(needs, needs[j])))
    ensures !FitsNeeds(needs, Misleading(needs, needs[j]))
  {
    var m := needs[j];
    var coveted, plain := Coveted(needs, m), Plain(needs, m, Due(needs, m));
    MisleadingUnique(needs, m);
    MisleadingSatisfiable(needs, m);
    PlainBoards(needs, m, Due(needs, m));
    CopiesAre(Board("", m.target, AllTags(needs), Unheld, None), Due(needs, m), 0);
    assert needs[i..][j - i] == m;
    DueOwn(needs[i..], j - i);
    forall b, n | b in coveted && n in needs ensures Matches(b, n) <==> n.target == m.target {
      assert n.tags <= AllTags(needs);
    }
    Misled(needs, coveted, plain, m, i);
  }

  /**
   The exact condition: reading needs greedily is right about every inventory if and only if they
   list, within each family, the required before the optional and the narrowest tags first.
  */
  lemma GreedyIsExactIff(needs: seq<Need>)
    requires forall n :: n in needs ==> n.count >= 1
    ensures WellOrdered(needs) <==>
            forall pool | UniqueIds(pool) :: FitsNeeds(needs, pool) <==> Satisfiable(needs, BoardSet(pool))
  {
    if WellOrdered(needs) {
      forall pool | UniqueIds(pool) ensures FitsNeeds(needs, pool) <==> Satisfiable(needs, BoardSet(pool)) {
        GreedyIsExact(needs, pool);
      }
    } else {
      var i, j :| 0 <= i < j < |needs| && needs[i].target == needs[j].target && !needs[j].optional
        && (needs[i].optional || !(needs[j].tags <= needs[i].tags));
      MisreadsMisleading(needs, i, j);
    }
  }
}

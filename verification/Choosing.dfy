/** Choosing boards as it is done: lists of boards taken from, need by need, each loop proved against Allocation. */
module Choosing {
  import opened Names
  import opened Allocation
  import opened Pools
  import opened Coverage

  // ---- lists ----

  /** `list.remove`: without the first entry equal to x. */
  function Without(s: seq<Board>, x: Board): seq<Board> {
    if s == [] then []
    else if s[0] == x then s[1..]
    else [s[0]] + Without(s[1..], x)
  }

  method RemoveFirst(s: seq<Board>, x: Board) returns (left: seq<Board>)
    ensures left == Without(s, x)
  {
    var i := 0;
    while i < |s| && s[i] != x
      invariant 0 <= i <= |s|
      invariant s[..i] + Without(s[i..], x) == Without(s, x)
    {
      assert s[i..][1..] == s[i + 1..];
      i := i + 1;
    }
    left := if i < |s| then s[..i] + s[i + 1..] else s;
    assert i < |s| ==> s[i..][1..] == s[i + 1..];
  }

  /** Every board of the pool that is free for the need. */
  function AllFree(pool: seq<Board>, n: Need, busy: set<string>): seq<Board> {
    if pool == [] then []
    else (if Free(pool[0], n, busy) then [pool[0]] else []) + AllFree(pool[1..], n, busy)
  }

  method Matching(pool: seq<Board>, n: Need, busy: set<string>) returns (found: seq<Board>)
    ensures found == AllFree(pool, n, busy)
  {
    found := [];
    for i := 0 to |pool|
      invariant found + AllFree(pool[i..], n, busy) == AllFree(pool, n, busy)
    {
      assert pool[i..][1..] == pool[i + 1..];
      if Free(pool[i], n, busy) { found := found + [pool[i]]; }
    }
  }

  lemma {:induction false} AllFreeCount(pool: seq<Board>, n: Need, busy: set<string>, c: nat)
    ensures |AllFree(pool, n, busy)| == Count(pool, n, busy)
    ensures c <= Count(pool, n, busy) ==> First(pool, n, busy, c) == AllFree(pool, n, busy)[..c]
  {
    if pool != [] {
      AllFreeCount(pool[1..], n, busy, if c > 0 && Free(pool[0], n, busy) then c - 1 else c);
    }
  }

  /** Taking the next free board leaves what taking one more leaves. */
  lemma {:induction false} TakesNext(pool: seq<Board>, n: Need, busy: set<string>, c: nat)
    requires c < Count(pool, n, busy)
    ensures c < |AllFree(pool, n, busy)|
    ensures Without(Rest(pool, n, busy, c), AllFree(pool, n, busy)[c]) == Rest(pool, n, busy, c + 1)
  {
    AllFreeCount(pool, n, busy, c);
    if Free(pool[0], n, busy) {
      if c > 0 { TakesNext(pool[1..], n, busy, c - 1); }
    } else {
      TakesNext(pool[1..], n, busy, c);
      AllFreeAre(pool[1..], n, busy, c);
    }
  }

  lemma {:induction false} AllFreeAre(pool: seq<Board>, n: Need, busy: set<string>, c: nat)
    requires c < |AllFree(pool, n, busy)|
    ensures Free(AllFree(pool, n, busy)[c], n, busy)
  {
    if Free(pool[0], n, busy) {
      if c > 0 { AllFreeAre(pool[1..], n, busy, c - 1); }
    } else {
      AllFreeAre(pool[1..], n, busy, c);
    }
  }

  /** Take out of the pool, one after another, the first boards matching the need, up to its count. */
  method Serve(pool: seq<Board>, n: Need, matching: seq<Board>) returns (got: nat, left: seq<Board>)
    requires matching == AllFree(pool, n, {})
    ensures got == Min(Count(pool, n, {}), n.count)
    ensures left == Rest(pool, n, {}, n.count)
  {
    AllFreeCount(pool, n, {}, 0);
    RestCapped(pool, n, n.count);
    got := Min(|matching|, n.count);
    left := TakeOut(pool, n, matching, got);
  }

  method TakeOut(pool: seq<Board>, n: Need, matching: seq<Board>, c: nat) returns (left: seq<Board>)
    requires matching == AllFree(pool, n, {}) && c <= |matching|
    ensures left == Rest(pool, n, {}, c)
  {
    left := pool;
    RestOfNone(pool, n);
    for m := 0 to c
      invariant left == Rest(pool, n, {}, m)
    {
      AllFreeCount(pool, n, {}, m);
      TakesNext(pool, n, {}, m);
      left := RemoveFirst(left, matching[m]);
    }
  }

  lemma RestOfNone(pool: seq<Board>, n: Need)
    ensures Rest(pool, n, {}, 0) == pool
  {
  }

  method CanFitIdle(d: Demand, boards: seq<Board>) returns (fits: bool)
    ensures fits == FitsIdle(d, boards)
  {
    if d.boards != [] {
      return (set id | id in d.boards) <= IdSet(boards);
    }
    var pool := boards;
    for i := 0 to |d.needs|
      invariant FitsNeeds(d.needs, boards) == FitsNeeds(d.needs[i..], pool)
    {
      var n := d.needs[i];
      assert d.needs[i..][0] == n && d.needs[i..][1..] == d.needs[i + 1..];
      var matching := Matching(pool, n, {});
      AllFreeCount(pool, n, {}, 0);
      if |matching| < Take(n, pool) {
        return false;
      }
      var got;
      got, pool := Serve(pool, n, matching);
    }
    return true;
  }

  lemma {:induction false} RestCapped(pool: seq<Board>, n: Need, c: nat)
    ensures Rest(pool, n, {}, c) == Rest(pool, n, {}, Min(c, Count(pool, n, {})))
  {
    if pool != [] && c != 0 {
      var free := Free(pool[0], n, {});
      RestCapped(pool[1..], n, if free then c - 1 else c);
      if Min(c, Count(pool, n, {})) == 0 { NothingToTake(pool, n, c); }
    }
  }

  lemma {:induction false} NothingToTake(pool: seq<Board>, n: Need, c: nat)
    requires Count(pool, n, {}) == 0
    ensures Rest(pool, n, {}, c) == pool
  {
    if pool != [] && c != 0 { NothingToTake(pool[1..], n, c); }
  }

  method CoverageMissing(needs: seq<Need>, boards: seq<Board>) returns (short: seq<Entry>)
    ensures short == CoverageOf(needs, boards)
  {
    var pool := Released(boards);
    short := [];
    for i := 0 to |needs|
      invariant short + Uncovered(needs[i..], pool) == Uncovered(needs, Released(boards))
    {
      assert needs[i..][0] == needs[i] && needs[i..][1..] == needs[i + 1..];
      var matching := Matching(pool, needs[i], {});
      var got;
      got, pool := Serve(pool, needs[i], matching);
      var entry := Lacking(needs[i], got);
      assert short + (entry + Uncovered(needs[i + 1..], pool)) == short + entry + Uncovered(needs[i + 1..], pool);
      short := short + entry;
    }
  }

  // ---- choosing boards ----

  /** The boards not among those chosen so far. */
  function Unclaimed(boards: seq<Board>, chosen: seq<string>): seq<Board> {
    if boards == [] then []
    else (if boards[0].id in chosen then [] else [boards[0]]) + Unclaimed(boards[1..], chosen)
  }

  lemma {:induction false} ClaimNothing(boards: seq<Board>)
    ensures Unclaimed(boards, []) == boards
  {
    if boards != [] { ClaimNothing(boards[1..]); }
  }

  lemma {:induction false} UnclaimedMember(boards: seq<Board>, chosen: seq<string>, b: Board)
    ensures b in Unclaimed(boards, chosen) <==> b in boards && b.id !in chosen
  {
    if boards != [] { UnclaimedMember(boards[1..], chosen, b); }
  }

  lemma {:induction false} UnclaimedUnique(boards: seq<Board>, chosen: seq<string>)
    requires UniqueIds(boards)
    ensures UniqueIds(Unclaimed(boards, chosen))
  {
    if boards != [] {
      UnclaimedUnique(boards[1..], chosen);
      forall b | b in Unclaimed(boards[1..], chosen) ensures b.id != boards[0].id {
        UnclaimedMember(boards[1..], chosen, b);
      }
    }
  }

  lemma {:induction false} ClaimMore(boards: seq<Board>, chosen: seq<string>, more: seq<string>)
    ensures Unclaimed(boards, chosen + more) == Unclaimed(Unclaimed(boards, chosen), more)
  {
    if boards != [] {
      var b, rest := boards[0], Unclaimed(boards[1..], chosen);
      ClaimMore(boards[1..], chosen, more);
      assert b.id in chosen + more <==> b.id in chosen || b.id in more;
      if b.id in chosen {
        assert Unclaimed(boards, chosen) == rest;
        assert Unclaimed(boards, chosen + more) == Unclaimed(boards[1..], chosen + more);
      } else {
        assert Unclaimed(boards, chosen) == [b] + rest && ([b] + rest)[1..] == rest;
        assert Unclaimed([b] + rest, more) == (if b.id in more then [] else [b]) + Unclaimed(rest, more);
      }
    }
  }

  /** Removing by id the first c boards free for a need gives Rest. */
  lemma {:induction false} ClaimFirst(pool: seq<Board>, n: Need, busy: set<string>, c: nat)
    requires UniqueIds(pool)
    ensures Unclaimed(pool, IdSeq(First(pool, n, busy, c))) == Rest(pool, n, busy, c)
  {
    if pool == [] || c == 0 {
      ClaimNothing(pool);
    } else {
      var free := Free(pool[0], n, busy);
      var rest, c' := pool[1..], if free then c - 1 else c;
      ClaimFirst(rest, n, busy, c');
      var ids := IdSeq(First(rest, n, busy, c'));
      forall id | id in ids ensures id != pool[0].id {
        IdSeqMember(First(rest, n, busy, c'), id);
        var b: Board :| b in First(rest, n, busy, c') && b.id == id;
        FirstIsFree(rest, n, busy, c', b);
      }
      if free { UnclaimedOther(rest, pool[0].id, ids); }
    }
  }

  lemma {:induction false} UnclaimedOther(boards: seq<Board>, id: string, ids: seq<string>)
    requires forall b :: b in boards ==> b.id != id
    ensures Unclaimed(boards, [id] + ids) == Unclaimed(boards, ids)
  {
    if boards != [] { UnclaimedOther(boards[1..], id, ids); }
  }

  method FindTaken(named: seq<string>, boards: seq<Board>, busy: set<string>) returns (found: Option<string>)
    ensures found == FirstTaken(named, boards, busy)
  {
    for i := 0 to |named|
      invariant FirstTaken(named, boards, busy) == FirstTaken(named[i..], boards, busy)
    {
      assert named[i..][1..] == named[i + 1..];
      if named[i] in busy || IsReserved(boards, named[i]) {
        return Some(named[i]);
      }
    }
    return None;
  }

  method FindAhead(named: seq<string>, boards: seq<Board>, ahead: set<string>) returns (found: Option<string>)
    ensures found == FirstAhead(named, boards, ahead)
  {
    for i := 0 to |boards|
      invariant FirstAhead(named, boards, ahead) == FirstAhead(named, boards[i..], ahead)
    {
      assert boards[i..][1..] == boards[i + 1..];
      if boards[i].id in named && boards[i].target in ahead {
        return Some(boards[i].id);
      }
    }
    return None;
  }

  method CollectNamed(named: seq<string>, boards: seq<Board>) returns (taken: seq<string>)
    ensures taken == NamedIds(named, boards)
  {
    taken := [];
    for i := 0 to |boards|
      invariant taken + NamedIds(named, boards[i..]) == NamedIds(named, boards)
    {
      assert boards[i..][1..] == boards[i + 1..];
      if boards[i].id in named { taken := taken + [boards[i].id]; }
    }
  }

  method ChooseNamed(d: Demand, boards: seq<Board>, busy: set<string>, ahead: set<string>) returns (choice: Choice)
    requires d.boards != []
    ensures choice == Choose(d, boards, busy, ahead)
  {
    var unavailable := FindTaken(d.boards, boards, busy);
    if unavailable.Some? {
      return Short(unavailable.value);
    }
    var taken := CollectNamed(d.boards, boards);
    var behind := FindAhead(d.boards, boards, ahead);
    if behind.Some? {
      return Short(behind.value);
    }
    return Chosen(Sorted(taken));
  }

  /** Picking the needs left completes what is chosen so far. */
  ghost predicate Completes(all: Picks, chosen: seq<string>, left: Picks) {
    match left
    case Lacks(_) => all == left
    case Picked(each) => all.Picked? && FlatIds(all.each) == chosen + FlatIds(each)
  }

  lemma CompletesNext(all: Picks, chosen: seq<string>, needs: seq<Need>, pool: seq<Board>, busy: set<string>,
      ahead: set<string>)
    requires needs != [] && Completes(all, chosen, PickNeeds(needs, pool, busy, ahead))
    ensures var n, wanted := needs[0], Take(needs[0], pool);
      if wanted == 0 then Completes(all, chosen, PickNeeds(needs[1..], pool, busy, ahead))
      else if n.target in ahead || Count(pool, n, busy) < wanted then all == Lacks(n.target)
      else Completes(all, chosen + IdSeq(First(pool, n, busy, wanted)),
                     PickNeeds(needs[1..], Rest(pool, n, busy, wanted), busy, ahead))
  {
    var n, wanted := needs[0], Take(needs[0], pool);
    if wanted == 0 {
      PrependCompletes(all, chosen, [], PickNeeds(needs[1..], pool, busy, ahead));
    } else if !(n.target in ahead || Count(pool, n, busy) < wanted) {
      PrependCompletes(all, chosen, First(pool, n, busy, wanted),
                       PickNeeds(needs[1..], Rest(pool, n, busy, wanted), busy, ahead));
    }
  }

  lemma PrependCompletes(all: Picks, chosen: seq<string>, first: seq<Board>, left: Picks)
    requires Completes(all, chosen, Prepend(first, left))
    ensures Completes(all, chosen + IdSeq(first), left)
    ensures first == [] ==> Completes(all, chosen, left)
  {
    if left.Picked? {
      assert ([first] + left.each)[1..] == left.each;
      assert FlatIds([first] + left.each) == IdSeq(first) + FlatIds(left.each);
      assert chosen + (IdSeq(first) + FlatIds(left.each)) == chosen + IdSeq(first) + FlatIds(left.each);
      assert chosen + [] == chosen;
    }
  }

  /** The ids of the first boards free for a need leave, of what is unclaimed, the rest. */
  lemma ClaimsNext(boards: seq<Board>, chosen: seq<string>, n: Need, busy: set<string>, wanted: nat)
    requires UniqueIds(boards)
    ensures var pool := Unclaimed(boards, chosen);
      Unclaimed(boards, chosen + IdSeq(First(pool, n, busy, wanted))) == Rest(pool, n, busy, wanted)
  {
    var pool := Unclaimed(boards, chosen);
    UnclaimedUnique(boards, chosen);
    ClaimFirst(pool, n, busy, wanted);
    ClaimMore(boards, chosen, IdSeq(First(pool, n, busy, wanted)));
  }

  method ChooseByNeed(d: Demand, boards: seq<Board>, busy: set<string>, ahead: set<string>) returns (choice: Choice)
    requires d.boards == [] && UniqueIds(boards)
    ensures choice == Choose(d, boards, busy, ahead)
  {
    ghost var all := PickNeeds(d.needs, boards, busy, ahead);
    var chosen: seq<string> := [];
    ClaimNothing(boards);
    for i := 0 to |d.needs|
      invariant Completes(all, chosen, PickNeeds(d.needs[i..], Unclaimed(boards, chosen), busy, ahead))
    {
      var n := d.needs[i];
      assert d.needs[i..][0] == n && d.needs[i..][1..] == d.needs[i + 1..];
      var pool := Unclaimed(boards, chosen);
      var wanted := Take(n, pool);
      CompletesNext(all, chosen, d.needs[i..], pool, busy, ahead);
      if wanted > 0 {
        if n.target in ahead {
          return Short(n.target);
        }
        var free := Matching(pool, n, busy);
        AllFreeCount(pool, n, busy, wanted);
        if |free| < wanted {
          return Short(n.target);
        }
        ClaimsNext(boards, chosen, n, busy, wanted);
        chosen := chosen + IdSeq(free[..wanted]);
      }
    }
    return Chosen(chosen);
  }

  method ChooseBoards(d: Demand, boards: seq<Board>, busy: set<string>, ahead: set<string>) returns (choice: Choice)
    requires UniqueIds(boards)
    ensures choice == Choose(d, boards, busy, ahead)
  {
    if d.boards != [] {
      choice := ChooseNamed(d, boards, busy, ahead);
    } else {
      choice := ChooseByNeed(d, boards, busy, ahead);
    }
  }
}

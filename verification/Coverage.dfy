/** What a run went without: computed from the boards it got, and honest about what it was given. */
module Coverage {
  import opened Allocation
  import opened Pools
  import opened Feasibility

  datatype Entry = Entry(target: string, wanted: nat, got: nat, tags: set<string>, optional: bool)

  /** The same boards with every hold lifted. */
  function Released(boards: seq<Board>): seq<Board> {
    seq(|boards|, i requires 0 <= i < |boards| => boards[i].(hold := Unheld))
  }

  function Lacking(n: Need, got: nat): seq<Entry> {
    if got < n.count then [Entry(n.target, n.count, got, n.tags, n.optional)] else []
  }

  function Uncovered(needs: seq<Need>, pool: seq<Board>): seq<Entry> {
    if needs == [] then []
    else
      var n := needs[0];
      Lacking(n, Min(Count(pool, n, {}), n.count)) + Uncovered(needs[1..], Rest(pool, n, {}, n.count))
  }

  /** One entry per need short of boards here, in the order of `needs`, holds ignored. */
  function CoverageOf(needs: seq<Need>, boards: seq<Board>): seq<Entry> {
    Uncovered(needs, Released(boards))
  }

  // ---- what was given, need by need ----

  /** The needs given fewer boards than they count, with how many they were given. */
  function WentWithout(needs: seq<Need>, each: seq<seq<Board>>): seq<Entry>
    requires |each| == |needs|
  {
    if needs == [] then [] else Lacking(needs[0], |each[0]|) + WentWithout(needs[1..], each[1..])
  }

  /** What the k-th need asks of the boards the needs before it have left. */
  function Asked(needs: seq<Need>, pool: seq<Board>, busy: set<string>, k: nat): nat
    requires k < |needs|
  {
    var wanted := Take(needs[0], pool);
    if k == 0 then wanted else Asked(needs[1..], Rest(pool, needs[0], busy, wanted), busy, k - 1)
  }

  lemma PickHead(needs: seq<Need>, pool: seq<Board>, busy: set<string>, ahead: set<string>)
    requires needs != [] && PickNeeds(needs, pool, busy, ahead).Picked?
    ensures var each := PickNeeds(needs, pool, busy, ahead).each;
      var wanted := Take(needs[0], pool);
      && wanted <= Count(pool, needs[0], busy)
      && each != [] && each[0] == First(pool, needs[0], busy, wanted) && |each[0]| == wanted
      && PickNeeds(needs[1..], Rest(pool, needs[0], busy, wanted), busy, ahead) == Picked(each[1..])
  {
    FirstLength(pool, needs[0], busy, Take(needs[0], pool));
  }

  /** The k-th need's pick has as many boards as Take counts in the pool it finds; a required need's, its count. */
  lemma {:induction false} GivenAsAsked(needs: seq<Need>, pool: seq<Board>, busy: set<string>, ahead: set<string>,
      k: nat)
    requires PickNeeds(needs, pool, busy, ahead).Picked? && k < |needs|
    ensures var each := PickNeeds(needs, pool, busy, ahead).each;
      && |each| == |needs|
      && |each[k]| == Asked(needs, pool, busy, k)
      && (|each[k]| < needs[k].count ==> needs[k].optional)
  {
    PickHead(needs, pool, busy, ahead);
    var rest := Rest(pool, needs[0], busy, Take(needs[0], pool));
    if k > 0 {
      GivenAsAsked(needs[1..], rest, busy, ahead, k - 1);
    } else if |needs| > 1 {
      GivenAsAsked(needs[1..], rest, busy, ahead, 0);
    }
  }

  // ---- the boards in inventory order ----

  function Only(pool: seq<Board>, chosen: set<Board>): seq<Board> {
    if pool == [] then [] else (if pool[0] in chosen then [pool[0]] else []) + Only(pool[1..], chosen)
  }

  lemma PassedOver(b: Board, rest: seq<Board>, chosen: set<Board>, n: Need, c: nat)
    ensures Only([b] + rest, chosen) == (if b in chosen then [b] else []) + Only(rest, chosen)
    ensures !Matches(b, n) ==> Rest([b] + rest, n, {}, c) == [b] + Rest(rest, n, {}, c)
    ensures Count([b] + rest, n, {}) == (if Matches(b, n) then 1 else 0) + Count(rest, n, {})
  {
    assert ([b] + rest)[0] == b && ([b] + rest)[1..] == rest;
  }

  lemma {:induction false} FirstKept(pool: seq<Board>, chosen: set<Board>, n: Need, busy: set<string>, w: nat, c: nat)
    requires UniqueIds(pool)
    requires forall b :: b in chosen ==> b.id !in busy
    requires forall b :: b in First(pool, n, busy, w) ==> b in chosen
    requires w <= Count(pool, n, busy)
    requires w == c || (w < c && Count(pool, n, busy) == w)
    ensures Rest(Only(pool, chosen), n, {}, c) == Only(Rest(pool, n, busy, w), chosen)
    ensures Min(Count(Only(pool, chosen), n, {}), c) == w
  {
    if pool != [] {
      var b, rest := pool[0], pool[1..];
      assert pool == [b] + rest;
      PassedOver(b, rest, chosen, n, c);
      if w > 0 && Free(b, n, busy) {
        assert b in First(pool, n, busy, w);
        FirstKept(rest, chosen, n, busy, w - 1, c - 1);
      } else if c > 0 {
        FirstKept(rest, chosen, n, busy, w, c);
        var left := Rest(rest, n, busy, w);
        assert Rest(pool, n, busy, w) == [b] + left;
        PassedOver(b, left, chosen, n, c);
        if b in chosen {
          assert !Matches(b, n);
          PassedOver(b, Only(rest, chosen), chosen, n, c);
          assert Only(pool, chosen) == [b] + Only(rest, chosen);
        } else {
          assert Only(pool, chosen) == Only(rest, chosen);
        }
      }
    }
  }

  lemma {:induction false} OnlySame(pool: seq<Board>, a: set<Board>, b: set<Board>)
    requires forall x :: x in pool ==> (x in a <==> x in b)
    ensures Only(pool, a) == Only(pool, b)
  {
    if pool != [] { OnlySame(pool[1..], a, b); }
  }

  function Flat(each: seq<seq<Board>>): seq<Board> {
    if each == [] then [] else each[0] + Flat(each[1..])
  }

  /** What later needs are given is free and comes out of what earlier needs leave. */
  lemma {:induction false} FlatIsFree(needs: seq<Need>, pool: seq<Board>, busy: set<string>, ahead: set<string>,
      b: Board)
    requires PickNeeds(needs, pool, busy, ahead).Picked?
    requires b in Flat(PickNeeds(needs, pool, busy, ahead).each)
    ensures b in pool && b.hold == Unheld && b.id !in busy
  {
    PickHead(needs, pool, busy, ahead);
    var each := PickNeeds(needs, pool, busy, ahead).each;
    var wanted := Take(needs[0], pool);
    if b in each[0] {
      FirstIsFree(pool, needs[0], busy, wanted, b);
    } else {
      var rest := Rest(pool, needs[0], busy, wanted);
      FlatIsFree(needs[1..], rest, busy, ahead, b);
      RestSubset(pool, needs[0], busy, wanted, b);
    }
  }

  lemma {:induction false} InventoryOrder(needs: seq<Need>, pool: seq<Board>, busy: set<string>, ahead: set<string>)
    requires UniqueIds(pool) && PickNeeds(needs, pool, busy, ahead).Picked?
    requires |PickNeeds(needs, pool, busy, ahead).each| == |needs|
    ensures var each := PickNeeds(needs, pool, busy, ahead).each;
      Uncovered(needs, Only(pool, BoardSet(Flat(each)))) == WentWithout(needs, each)
  {
    if needs != [] {
      var n, wanted := needs[0], Take(needs[0], pool);
      var each, rest := PickNeeds(needs, pool, busy, ahead).each, Rest(pool, n, busy, wanted);
      var chosen := BoardSet(Flat(each));
      PickHead(needs, pool, busy, ahead);
      forall b | b in chosen ensures b.id !in busy { FlatIsFree(needs, pool, busy, ahead, b); }
      BusyCountsLess(pool, n, busy);
      FirstKept(pool, chosen, n, busy, wanted, n.count);
      RestUnique(pool, n, busy, wanted);
      OnlySame(rest, chosen, BoardSet(Flat(each[1..])));
      InventoryOrder(needs[1..], rest, busy, ahead);
    }
  }

  lemma {:induction false} BusyCountsLess(pool: seq<Board>, n: Need, busy: set<string>)
    ensures Count(pool, n, busy) <= Count(pool, n, {})
  {
    if pool != [] { BusyCountsLess(pool[1..], n, busy); }
  }

  // ---- the boards in the order they were granted ----

  lemma {:induction false} AllTaken(pool: seq<Board>, n: Need, busy: set<string>, w: nat)
    requires w == Count(pool, n, {}) <= Count(pool, n, busy)
    ensures Count(Rest(pool, n, busy, w), n, {}) == 0
  {
    if pool != [] && w != 0 {
      BusyCountsLess(pool[1..], n, busy);
      AllTaken(pool[1..], n, busy, if Free(pool[0], n, busy) then w - 1 else w);
    }
  }

  lemma {:induction false} NoneOf(pool: seq<Board>, n: Need, b: Board)
    requires Count(pool, n, {}) == 0 && b in pool
    ensures !Matches(b, n)
  {
    if b != pool[0] { NoneOf(pool[1..], n, b); }
  }

  lemma GrantStep(first: seq<Board>, later: seq<Board>, n: Need)
    requires forall b :: b in first ==> Matches(b, n)
    requires |first| == n.count || (|first| < n.count && forall b :: b in later ==> !Matches(b, n))
    ensures Min(Count(first + later, n, {}), n.count) == |first|
    ensures Rest(first + later, n, {}, n.count) == later
  {
    TakesFromFront(first, later, n, n.count);
    if |first| < n.count {
      NoneCounted(later, n);
      NothingLeft(later, n, n.count - |first|);
    }
    assert first[Min(n.count, |first|)..] == [];
  }

  lemma {:induction false} NothingLeft(pool: seq<Board>, n: Need, c: nat)
    requires forall b :: b in pool ==> !Matches(b, n)
    ensures Rest(pool, n, {}, c) == pool
  {
    if pool != [] && c != 0 { NothingLeft(pool[1..], n, c); }
  }

  lemma {:induction false} GrantOrder(needs: seq<Need>, pool: seq<Board>, busy: set<string>, ahead: set<string>)
    requires UniqueIds(pool) && PickNeeds(needs, pool, busy, ahead).Picked?
    requires |PickNeeds(needs, pool, busy, ahead).each| == |needs|
    ensures var each := PickNeeds(needs, pool, busy, ahead).each;
      Uncovered(needs, Flat(each)) == WentWithout(needs, each)
  {
    if needs != [] {
      var n, wanted := needs[0], Take(needs[0], pool);
      var each, rest := PickNeeds(needs, pool, busy, ahead).each, Rest(pool, n, busy, wanted);
      PickHead(needs, pool, busy, ahead);
      forall b | b in each[0] ensures Matches(b, n) { FirstIsFree(pool, n, busy, wanted, b); }
      if wanted < n.count {
        AllTaken(pool, n, busy, wanted);
        forall b | b in Flat(each[1..]) ensures !Matches(b, n) {
          FlatIsFree(needs[1..], rest, busy, ahead, b);
          NoneOf(rest, n, b);
        }
      }
      GrantStep(each[0], Flat(each[1..]), n);
      RestUnique(pool, n, busy, wanted);
      GrantOrder(needs[1..], rest, busy, ahead);
    }
  }

  // ---- the statement ----

  lemma {:induction false} OnlyMembers(pool: seq<Board>, chosen: set<Board>, b: Board)
    requires b in Only(pool, chosen)
    ensures b in chosen
  {
    if b !in Only(pool[1..], chosen) { } else { OnlyMembers(pool[1..], chosen, b); }
  }

  lemma ReleasedIsSame(boards: seq<Board>)
    requires forall b :: b in boards ==> b.hold == Unheld
    ensures Released(boards) == boards
  {
  }

  lemma {:induction false} OnlyOptional(needs: seq<Need>, each: seq<seq<Board>>, e: Entry)
    requires |each| == |needs| && e in WentWithout(needs, each)
    requires forall k :: 0 <= k < |needs| && |each[k]| < needs[k].count ==> needs[k].optional
    ensures e.optional && e.got < e.wanted
  {
    if e !in Lacking(needs[0], |each[0]|) {
      forall k | 0 <= k < |needs[1..]| && |each[1..][k]| < needs[1..][k].count ensures needs[1..][k].optional {
        assert each[1..][k] == each[k + 1] && needs[1..][k] == needs[k + 1];
      }
      OnlyOptional(needs[1..], each[1..], e);
    }
  }

  /**
   Coverage is honest. Computed from the boards a demand's needs were granted -- in the order they
   were granted or in inventory order -- it says exactly which needs were given
   fewer boards than they count and how many each was given; and it never names a required need.
  */
  lemma CoverageIsHonest(needs: seq<Need>, boards: seq<Board>, busy: set<string>, ahead: set<string>)
    requires UniqueIds(boards) && PickNeeds(needs, boards, busy, ahead).Picked?
    ensures var each := PickNeeds(needs, boards, busy, ahead).each;
      && |each| == |needs|
      && CoverageOf(needs, Flat(each)) == WentWithout(needs, each)
      && CoverageOf(needs, Only(boards, BoardSet(Flat(each)))) == WentWithout(needs, each)
      && forall e :: e in WentWithout(needs, each) ==> e.optional && e.got < e.wanted
  {
    var each := PickNeeds(needs, boards, busy, ahead).each;
    forall k | 0 <= k < |needs| ensures |each| == |needs| && (|each[k]| < needs[k].count ==> needs[k].optional) {
      GivenAsAsked(needs, boards, busy, ahead, k);
    }
    forall b | b in Flat(each) ensures b.hold == Unheld { FlatIsFree(needs, boards, busy, ahead, b); }
    ReleasedIsSame(Flat(each));
    forall b | b in Only(boards, BoardSet(Flat(each))) ensures b in Flat(each) {
      OnlyMembers(boards, BoardSet(Flat(each)), b);
    }
    ReleasedIsSame(Only(boards, BoardSet(Flat(each))));
    GrantOrder(needs, boards, busy, ahead);
    InventoryOrder(needs, boards, busy, ahead);
    forall e | e in WentWithout(needs, each) ensures e.optional && e.got < e.wanted {
      OnlyOptional(needs, each, e);
    }
  }

  lemma {:induction false} FlatIdsAre(each: seq<seq<Board>>)
    ensures FlatIds(each) == IdSeq(Flat(each))
  {
    if each != [] {
      FlatIdsAre(each[1..]);
      IdSeqSplits(each[0], Flat(each[1..]));
    }
  }

  lemma {:induction false} IdSeqSplits(a: seq<Board>, b: seq<Board>)
    ensures IdSeq(a + b) == IdSeq(a) + IdSeq(b)
  {
    if a == [] {
      assert a + b == b;
    } else {
      assert (a + b)[0] == a[0] && (a + b)[1..] == a[1..] + b;
      IdSeqSplits(a[1..], b);
    }
  }

  /** Those are the boards the demand is granted. */
  lemma GrantedIsFlat(d: Demand, boards: seq<Board>, busy: set<string>, ahead: set<string>)
    requires d.boards == [] && Choose(d, boards, busy, ahead).Chosen?
    ensures PickNeeds(d.needs, boards, busy, ahead).Picked?
    ensures Choose(d, boards, busy, ahead).ids == IdSeq(Flat(PickNeeds(d.needs, boards, busy, ahead).each))
  {
    FlatIdsAre(PickNeeds(d.needs, boards, busy, ahead).each);
  }
}

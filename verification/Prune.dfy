/** Which firmware bundles a prune deletes, and what it answers for the ones its preview showed. */
module Prune {
  import opened Names

  /** `lastUsed` is None where the timestamp cannot be read. */
  datatype Entry = Entry(id: string, profile: Option<string>, lastUsed: Option<nat>, pinned: bool, held: bool)

  /** An entry without a readable time counts as used at time zero. */
  function When(e: Entry): nat {
    if e.lastUsed.Some? then e.lastUsed.value else 0
  }

  function ProfileOf(e: Entry): string {
    if e.profile.Some? then e.profile.value else ""
  }

  ghost predicate UniqueEntries(s: seq<Entry>) {
    forall i, j :: 0 <= i < j < |s| ==> s[i].id != s[j].id
  }

  function IdsOf(s: seq<Entry>): seq<string> {
    seq(|s|, i requires 0 <= i < |s| => s[i].id)
  }

  // ---- what a prune is meant to choose ----

  /** A bundle a prune may look at: nobody pinned it and no job holds it. */
  predicate MayGo(e: Entry) {
    !e.pinned && !e.held
  }

  /** The bundles of one profile that may go, as listed. */
  function Rivals(entries: seq<Entry>, profile: string): seq<Entry> {
    if entries == [] then []
    else
      (if MayGo(entries[0]) && ProfileOf(entries[0]) == profile then [entries[0]] else [])
      + Rivals(entries[1..], profile)
  }

  /** How many of s were used after e ... */
  function Newer(s: seq<Entry>, e: Entry): nat {
    if s == [] then 0 else (if When(s[0]) > When(e) then 1 else 0) + Newer(s[1..], e)
  }

  /** ... or as lately as e, and are listed before it. */
  function LevelBefore(s: seq<Entry>, e: Entry): nat {
    if s == [] || s[0] == e then 0 else (if When(s[0]) == When(e) then 1 else 0) + LevelBefore(s[1..], e)
  }

  function Rank(s: seq<Entry>, e: Entry): nat {
    Newer(s, e) + LevelBefore(s, e)
  }

  /**
   Beyond the newest `keep` of its profile, by last use and then as listed, and last used before the
   cutoff; a rule not given chooses everything that may go.
  */
  predicate Prunable(entries: seq<Entry>, e: Entry, cutoff: Option<int>, keep: Option<nat>) {
    && MayGo(e)
    && (keep.Some? ==> Rank(Rivals(entries, ProfileOf(e)), e) >= keep.value)
    && (cutoff.Some? ==> When(e) < cutoff.value)
  }

  // ---- the stable sorts ----

  function InsertNewest(x: Entry, s: seq<Entry>): seq<Entry> {
    if s == [] || When(s[0]) <= When(x) then [x] + s else [s[0]] + InsertNewest(x, s[1..])
  }

  /** `sort(key=when, reverse=True)`: newest first, those as new in the order they came. */
  function NewestFirst(s: seq<Entry>): seq<Entry> {
    if s == [] then [] else InsertNewest(s[0], NewestFirst(s[1..]))
  }

  function InsertOldest(x: Entry, s: seq<Entry>): seq<Entry> {
    if s == [] || When(x) <= When(s[0]) then [x] + s else [s[0]] + InsertOldest(x, s[1..])
  }

  /** `sort(key=when)`. */
  function OldestFirst(s: seq<Entry>): seq<Entry> {
    if s == [] then [] else InsertOldest(s[0], OldestFirst(s[1..]))
  }

  ghost predicate Ascending(s: seq<Entry>) {
    forall i, j :: 0 <= i < j < |s| ==> When(s[i]) <= When(s[j])
  }

  ghost predicate Descending(s: seq<Entry>) {
    forall i, j :: 0 <= i < j < |s| ==> When(s[i]) >= When(s[j])
  }

  lemma LeadUnique(x: Entry, s: seq<Entry>)
    requires UniqueEntries(s) && forall y :: y in s ==> y.id != x.id
    ensures UniqueEntries([x] + s)
  {
  }

  lemma TailUnique(x: Entry, s: seq<Entry>)
    requires s != []
    ensures UniqueEntries([x] + s) ==>
      UniqueEntries([x] + s[1..]) && s[0].id != x.id && forall y :: y in s[1..] ==> y.id != s[0].id
  {
    var all, left := [x] + s, [x] + s[1..];
    if UniqueEntries(all) {
      assert all[0] == x && all[1] == s[0];
      forall i, j | 0 <= i < j < |left| ensures left[i].id != left[j].id {
        assert left[i] == all[if i == 0 then 0 else i + 1] && left[j] == all[j + 1];
      }
      forall y | y in s[1..] ensures y.id != s[0].id {
        var i :| 0 <= i < |s[1..]| && s[1..][i] == y;
        assert all[i + 2] == y;
      }
    }
  }

  lemma {:induction false} InsertOldestIs(x: Entry, s: seq<Entry>)
    requires Ascending(s)
    ensures Ascending(InsertOldest(x, s)) && forall y :: y in InsertOldest(x, s) <==> y == x || y in s
    ensures UniqueEntries([x] + s) ==> UniqueEntries(InsertOldest(x, s))
  {
    if s != [] && !(When(x) <= When(s[0])) {
      InsertOldestIs(x, s[1..]);
      TailUnique(x, s);
      var rest := InsertOldest(x, s[1..]);
      assert s == [s[0]] + s[1..];
      forall y | y in rest ensures When(s[0]) <= When(y) {
        if y != x {
          var i :| 0 <= i < |s[1..]| && s[1..][i] == y;
          assert s[i + 1] == y;
        }
      }
      if UniqueEntries([x] + s) {
        forall y | y in rest ensures y.id != s[0].id {}
        LeadUnique(s[0], rest);
      }
    }
  }

  lemma {:induction false} OldestFirstIs(s: seq<Entry>)
    ensures Ascending(OldestFirst(s)) && forall y :: y in OldestFirst(s) <==> y in s
    ensures UniqueEntries(s) ==> UniqueEntries(OldestFirst(s))
  {
    if s != [] {
      OldestFirstIs(s[1..]);
      InsertOldestIs(s[0], OldestFirst(s[1..]));
      assert s == [s[0]] + s[1..];
      if UniqueEntries(s) {
        forall y | y in OldestFirst(s[1..]) ensures y.id != s[0].id {}
        LeadUnique(s[0], OldestFirst(s[1..]));
      }
    }
  }

  lemma {:induction false} InsertNewestIs(x: Entry, s: seq<Entry>)
    requires Descending(s)
    ensures Descending(InsertNewest(x, s)) && forall y :: y in InsertNewest(x, s) <==> y == x || y in s
    ensures UniqueEntries([x] + s) ==> UniqueEntries(InsertNewest(x, s))
  {
    if s != [] && !(When(s[0]) <= When(x)) {
      InsertNewestIs(x, s[1..]);
      TailUnique(x, s);
      var rest := InsertNewest(x, s[1..]);
      assert s == [s[0]] + s[1..];
      forall y | y in rest ensures When(s[0]) >= When(y) {
        if y != x {
          var i :| 0 <= i < |s[1..]| && s[1..][i] == y;
          assert s[i + 1] == y;
        }
      }
      if UniqueEntries([x] + s) {
        forall y | y in rest ensures y.id != s[0].id {}
        LeadUnique(s[0], rest);
      }
    }
  }

  lemma {:induction false} NewestFirstIs(s: seq<Entry>)
    ensures Descending(NewestFirst(s)) && forall y :: y in NewestFirst(s) <==> y in s
    ensures UniqueEntries(s) ==> UniqueEntries(NewestFirst(s))
  {
    if s != [] {
      NewestFirstIs(s[1..]);
      InsertNewestIs(s[0], NewestFirst(s[1..]));
      assert s == [s[0]] + s[1..];
      if UniqueEntries(s) {
        forall y | y in NewestFirst(s[1..]) ensures y.id != s[0].id {}
        LeadUnique(s[0], NewestFirst(s[1..]));
      }
    }
  }

  // ---- the place of an entry in the newest-first order is its rank ----

  function PlaceOf(s: seq<Entry>, e: Entry): nat {
    if s == [] || s[0] == e then 0 else 1 + PlaceOf(s[1..], e)
  }

  lemma {:induction false} NewerAfterInsert(x: Entry, s: seq<Entry>, e: Entry)
    ensures Newer(InsertNewest(x, s), e) == Newer(s, e) + if When(x) > When(e) then 1 else 0
  {
    if s == [] || When(s[0]) <= When(x) {
    } else {
      NewerAfterInsert(x, s[1..], e);
    }
  }

  lemma {:induction false} NewerAfterSort(s: seq<Entry>, e: Entry)
    ensures Newer(NewestFirst(s), e) == Newer(s, e)
  {
    if s != [] {
      NewerAfterSort(s[1..], e);
      NewerAfterInsert(s[0], NewestFirst(s[1..]), e);
    }
  }

  lemma {:induction false} NoneNewer(s: seq<Entry>, e: Entry)
    requires forall y :: y in s ==> When(y) <= When(e)
    ensures Newer(s, e) == 0
  {
    if s != [] {
      assert s[0] in s && forall y :: y in s[1..] ==> y in s;
      NoneNewer(s[1..], e);
    }
  }

  /** A new entry goes in after those newer than it. */
  lemma {:induction false} PlaceOfInserted(x: Entry, s: seq<Entry>)
    requires Descending(s) && x !in s
    ensures PlaceOf(InsertNewest(x, s), x) == Newer(s, x)
  {
    if s == [] {
    } else if When(s[0]) <= When(x) {
      forall y | y in s ensures When(y) <= When(x) {
        var i :| 0 <= i < |s| && s[i] == y;
        assert i > 0 ==> When(s[0]) >= When(s[i]);
      }
      NoneNewer(s, x);
    } else {
      PlaceOfInserted(x, s[1..]);
    }
  }

  /** The others move down if it is as new as they are. */
  lemma {:induction false} PlaceOfOthers(x: Entry, s: seq<Entry>, e: Entry)
    requires Descending(s) && e in s && x != e
    ensures PlaceOf(InsertNewest(x, s), e) == PlaceOf(s, e) + if When(x) >= When(e) then 1 else 0
  {
    if When(s[0]) <= When(x) {
      var i :| 0 <= i < |s| && s[i] == e;
      assert i > 0 ==> When(s[0]) >= When(s[i]);
      assert ([x] + s)[1..] == s;
    } else {
      var rest := InsertNewest(x, s[1..]);
      assert ([s[0]] + rest)[1..] == rest;
      if s[0] != e {
        assert e in s[1..];
        PlaceOfOthers(x, s[1..], e);
      }
    }
  }

  lemma {:induction false} PlaceIsRank(s: seq<Entry>, e: Entry)
    requires UniqueEntries(s) && e in s
    ensures PlaceOf(NewestFirst(s), e) == Rank(s, e)
  {
    var sorted := NewestFirst(s[1..]);
    NewestFirstIs(s[1..]);
    if s[0] == e {
      assert e !in s[1..];
      PlaceOfInserted(e, sorted);
      NewerAfterSort(s[1..], e);
    } else {
      assert e in s[1..];
      PlaceIsRank(s[1..], e);
      PlaceOfOthers(s[0], sorted, e);
    }
  }

  lemma {:induction false} InTail(s: seq<Entry>, e: Entry, k: nat)
    requires UniqueEntries(s) && e in s && k <= |s|
    ensures e in s[k..] <==> PlaceOf(s, e) >= k
  {
    if k == 0 {
      assert s[0..] == s;
    } else if s[0] == e {
      assert e !in s[1..];
      assert forall y :: y in s[k..] ==> y in s[1..];
    } else {
      assert e in s[1..];
      InTail(s[1..], e, k - 1);
      assert s[1..][k - 1..] == s[k..];
    }
  }

  /** `group[keep:]`. */
  function Beyond(s: seq<Entry>, keep: Option<nat>): seq<Entry> {
    if keep.None? then s else if keep.value <= |s| then s[keep.value..] else []
  }

  lemma {:induction false} PlaceInside(s: seq<Entry>, e: Entry)
    requires e in s
    ensures PlaceOf(s, e) < |s|
  {
    if s[0] != e { PlaceInside(s[1..], e); }
  }

  /** Of one profile's bundles, what is past the newest `keep` is what ranks beyond them. */
  lemma BeyondIsRanked(group: seq<Entry>, e: Entry, keep: Option<nat>)
    requires UniqueEntries(group)
    ensures UniqueEntries(Beyond(NewestFirst(group), keep))
    ensures e in Beyond(NewestFirst(group), keep) <==> e in group && (keep.Some? ==> Rank(group, e) >= keep.value)
  {
    var sorted := NewestFirst(group);
    NewestFirstIs(group);
    if keep.Some? && e in group {
      PlaceIsRank(group, e);
      PlaceInside(sorted, e);
      if keep.value <= |sorted| { InTail(sorted, e, keep.value); }
    } else if keep.Some? && keep.value <= |sorted| {
      assert forall y :: y in sorted[keep.value..] ==> y in sorted;
    }
  }

  // ---- the selection ----

  const DAY := 86400

  /** Before when a bundle must have been last used to be old enough, in seconds. */
  function Cutoff(olderThanDays: Option<nat>, now: nat): Option<int> {
    if olderThanDays.Some? then Some(now - olderThanDays.value * DAY) else None
  }

  datatype Selection = NoRule | Selected(chosen: seq<Entry>)

  lemma {:induction false} RivalsAre(entries: seq<Entry>, profile: string)
    requires UniqueEntries(entries)
    ensures UniqueEntries(Rivals(entries, profile))
    ensures forall e :: e in Rivals(entries, profile) <==> e in entries && MayGo(e) && ProfileOf(e) == profile
  {
    if entries != [] {
      RivalsAre(entries[1..], profile);
      assert entries == [entries[0]] + entries[1..];
      assert forall e :: e in entries[1..] ==> e.id != entries[0].id;
    }
  }

  lemma {:induction false} RivalsGrow(entries: seq<Entry>, e: Entry, profile: string)
    ensures Rivals(entries + [e], profile) ==
            Rivals(entries, profile) + if MayGo(e) && ProfileOf(e) == profile then [e] else []
  {
    if entries == [] {
      assert entries + [e] == [e];
    } else {
      assert (entries + [e])[1..] == entries[1..] + [e];
      RivalsGrow(entries[1..], e, profile);
    }
  }

  function GroupOf(groups: map<string, seq<Entry>>, p: string): seq<Entry> {
    if p in groups then groups[p] else []
  }

  ghost predicate Grouped(profiles: seq<string>, groups: map<string, seq<Entry>>, entries: seq<Entry>) {
    && (forall p :: p in profiles <==> p in groups)
    && forall p :: GroupOf(groups, p) == Rivals(entries, p)
  }

  /** The bundles that may go, by profile, profiles in the order they are first met. */
  method GroupByProfile(entries: seq<Entry>) returns (profiles: seq<string>, groups: map<string, seq<Entry>>)
    ensures Distinct(profiles) && Grouped(profiles, groups, entries)
  {
    profiles, groups := [], map[];
    for i := 0 to |entries|
      invariant Distinct(profiles) && Grouped(profiles, groups, entries[..i])
    {
      assert entries[..i + 1] == entries[..i] + [entries[i]];
      if MayGo(entries[i]) {
        GroupingGrows(profiles, groups, entries[..i], entries[i]);
        var p := ProfileOf(entries[i]);
        var group := GroupOf(groups, p);
        if p !in groups {
          DistinctAppend(profiles, [p]);
          profiles := profiles + [p];
        }
        groups := groups[p := group + [entries[i]]];
      } else {
        GroupingSkips(profiles, groups, entries[..i], entries[i]);
      }
    }
    assert entries[..|entries|] == entries;
  }

  lemma GroupingGrows(profiles: seq<string>, groups: map<string, seq<Entry>>, entries: seq<Entry>, e: Entry)
    requires Grouped(profiles, groups, entries) && MayGo(e)
    ensures Grouped(if ProfileOf(e) in groups then profiles else profiles + [ProfileOf(e)],
                    groups[ProfileOf(e) := GroupOf(groups, ProfileOf(e)) + [e]], entries + [e])
  {
    var more := groups[ProfileOf(e) := GroupOf(groups, ProfileOf(e)) + [e]];
    forall p ensures GroupOf(more, p) == Rivals(entries + [e], p) {
      RivalsGrow(entries, e, p);
      assert GroupOf(groups, p) == Rivals(entries, p);
    }
  }

  lemma GroupingSkips(profiles: seq<string>, groups: map<string, seq<Entry>>, entries: seq<Entry>, e: Entry)
    requires Grouped(profiles, groups, entries) && !MayGo(e)
    ensures Grouped(profiles, groups, entries + [e])
  {
    forall p ensures GroupOf(groups, p) == Rivals(entries + [e], p) {
      RivalsGrow(entries, e, p);
      assert GroupOf(groups, p) == Rivals(entries, p);
    }
  }

  /** Of one profile's bundles, e ranks beyond those kept and is old enough. */
  predicate Goes(group: seq<Entry>, e: Entry, cutoff: Option<int>, keep: Option<nat>) {
    e in group && (keep.Some? ==> Rank(group, e) >= keep.value) && (cutoff.Some? ==> When(e) < cutoff.value)
  }

  lemma OneMoreUnique(s: seq<Entry>, i: nat, chosen: seq<Entry>)
    requires UniqueEntries(s) && i < |s| && UniqueEntries(chosen) && forall e :: e in chosen ==> e in s[..i]
    ensures UniqueEntries(chosen + [s[i]])
  {
    forall e | e in chosen ensures e.id != s[i].id {
      var j :| 0 <= j < |s[..i]| && s[..i][j] == e;
    }
  }

  /** Those of one profile that go. */
  method ChooseFrom(group: seq<Entry>, cutoff: Option<int>, keep: Option<nat>) returns (chosen: seq<Entry>)
    requires UniqueEntries(group)
    ensures UniqueEntries(chosen)
    ensures forall e :: e in chosen <==> Goes(group, e, cutoff, keep)
  {
    var sorted := NewestFirst(group);
    var beyond := Beyond(sorted, keep);
    NewestFirstIs(group);
    assert UniqueEntries(beyond);
    chosen := [];
    for i := 0 to |beyond|
      invariant UniqueEntries(chosen)
      invariant forall e :: e in chosen <==> e in beyond[..i] && (cutoff.Some? ==> When(e) < cutoff.value)
    {
      assert beyond[..i + 1] == beyond[..i] + [beyond[i]];
      OneMoreUnique(beyond, i, chosen);
      if cutoff.None? || When(beyond[i]) < cutoff.value {
        chosen := chosen + [beyond[i]];
      }
    }
    assert beyond[..|beyond|] == beyond;
    forall e: Entry ensures e in beyond <==> e in group && (keep.Some? ==> Rank(group, e) >= keep.value) {
      BeyondIsRanked(group, e, keep);
    }
  }

  /**
   Exactly what the rules choose, oldest first; and with no rule at all, a refusal. Nothing pinned
   and nothing held is ever chosen.
  */
  method SelectPrunable(entries: seq<Entry>, olderThanDays: Option<nat>, keep: Option<nat>, now: nat)
      returns (s: Selection)
    requires UniqueEntries(entries)
    ensures s.NoRule? <==> olderThanDays.None? && keep.None?
    ensures s.Selected? ==>
      && UniqueEntries(s.chosen) && Ascending(s.chosen)
      && forall e :: e in s.chosen <==> e in entries && Prunable(entries, e, Cutoff(olderThanDays, now), keep)
  {
    if olderThanDays.None? && keep.None? {
      return NoRule;
    }
    var chosen := ChooseAll(entries, Cutoff(olderThanDays, now), keep);
    OldestFirstIs(chosen);
    return Selected(OldestFirst(chosen));
  }

  method ChooseAll(entries: seq<Entry>, cutoff: Option<int>, keep: Option<nat>) returns (chosen: seq<Entry>)
    requires UniqueEntries(entries)
    ensures UniqueEntries(chosen)
    ensures forall e :: e in chosen <==> e in entries && Prunable(entries, e, cutoff, keep)
  {
    var profiles, groups := GroupByProfile(entries);
    chosen := [];
    for i := 0 to |profiles|
      invariant UniqueEntries(chosen)
      invariant ChosenSoFar(entries, chosen, profiles[..i], cutoff, keep)
    {
      var p := profiles[i];
      assert GroupOf(groups, p) == Rivals(entries, p) && p !in profiles[..i];
      chosen := AlsoChoose(entries, GroupOf(groups, p), chosen, profiles[..i], p, cutoff, keep);
      assert profiles[..i + 1] == profiles[..i] + [p];
    }
    assert profiles[..|profiles|] == profiles;
    EveryProfile(entries, profiles, groups);
  }

  /** One more profile's. */
  method AlsoChoose(entries: seq<Entry>, group: seq<Entry>, chosen: seq<Entry>, ghost done: seq<string>, p: string,
                    cutoff: Option<int>, keep: Option<nat>) returns (next: seq<Entry>)
    requires UniqueEntries(entries) && UniqueEntries(chosen) && group == Rivals(entries, p) && p !in done
    requires ChosenSoFar(entries, chosen, done, cutoff, keep)
    ensures UniqueEntries(next) && ChosenSoFar(entries, next, done + [p], cutoff, keep)
  {
    RivalsAre(entries, p);
    var more := ChooseFrom(group, cutoff, keep);
    ChosenGrows(entries, chosen, more, done, p, cutoff, keep);
    next := chosen + more;
  }

  lemma EveryProfile(entries: seq<Entry>, profiles: seq<string>, groups: map<string, seq<Entry>>)
    requires UniqueEntries(entries) && Grouped(profiles, groups, entries)
    ensures forall e :: e in entries && MayGo(e) ==> ProfileOf(e) in profiles
  {
    forall e | e in entries && MayGo(e) ensures ProfileOf(e) in profiles {
      RivalsAre(entries, ProfileOf(e));
      assert e in Rivals(entries, ProfileOf(e)) && GroupOf(groups, ProfileOf(e)) == Rivals(entries, ProfileOf(e));
    }
  }

  ghost predicate ChosenSoFar(
    entries: seq<Entry>, chosen: seq<Entry>, done: seq<string>, cutoff: Option<int>, keep: Option<nat>)
  {
    forall e :: e in chosen <==> (e in entries && ProfileOf(e) in done && Prunable(entries, e, cutoff, keep))
  }

  lemma ChosenGrows(entries: seq<Entry>, chosen: seq<Entry>, more: seq<Entry>, done: seq<string>, p: string,
                    cutoff: Option<int>, keep: Option<nat>)
    requires UniqueEntries(entries) && UniqueEntries(chosen) && UniqueEntries(more) && p !in done
    requires ChosenSoFar(entries, chosen, done, cutoff, keep)
    requires forall e :: e in more <==> Goes(Rivals(entries, p), e, cutoff, keep)
    ensures UniqueEntries(chosen + more)
    ensures ChosenSoFar(entries, chosen + more, done + [p], cutoff, keep)
  {
    RivalsAre(entries, p);
    JoinUnique(entries, chosen, more, p);
    forall e ensures e in more <==> e in entries && ProfileOf(e) == p && Prunable(entries, e, cutoff, keep) {}
  }

  lemma JoinUnique(entries: seq<Entry>, a: seq<Entry>, b: seq<Entry>, profile: string)
    requires UniqueEntries(entries) && UniqueEntries(a) && UniqueEntries(b)
    requires forall e :: e in a ==> e in entries && ProfileOf(e) != profile
    requires forall e :: e in b ==> e in entries && ProfileOf(e) == profile
    ensures UniqueEntries(a + b)
  {
    var all := a + b;
    forall i, j | 0 <= i < j < |all| ensures all[i].id != all[j].id {
      if i < |a| <= j {
        assert a[i] in a && b[j - |a|] in b;
        SameIdSameEntry(entries, a[i], b[j - |a|]);
      }
    }
  }

  lemma SameIdSameEntry(entries: seq<Entry>, x: Entry, y: Entry)
    requires UniqueEntries(entries) && x in entries && y in entries
    ensures x.id == y.id ==> x == y
  {
    var i :| 0 <= i < |entries| && entries[i] == x;
    var j :| 0 <= j < |entries| && entries[j] == y;
  }

  // ---- the rules, in terms of the store alone ----

  ghost predicate UsedLater(x: Entry, e: Entry) {
    x.lastUsed.Some? && x.lastUsed.value > 0 && (e.lastUsed.Some? ==> x.lastUsed.value > e.lastUsed.value)
  }

  ghost predicate UsedSince(e: Entry, cutoff: int) {
    cutoff <= 0 || (e.lastUsed.Some? && e.lastUsed.value >= cutoff)
  }

  ghost predicate ListedBefore(s: seq<Entry>, x: Entry, e: Entry) {
    exists i, j :: 0 <= i < j < |s| && s[i] == x && s[j] == e
  }

  ghost predicate Nameless(x: Entry) {
    x.profile.None? || x.profile.value == ""
  }

  ghost predicate OneProfile(x: Entry, e: Entry) {
    x.profile == e.profile || (Nameless(x) && Nameless(e))
  }

  /** The bundles of e's profile that may go and were used later than e, or as late and listed before it. */
  ghost function Above(entries: seq<Entry>, e: Entry): set<Entry> {
    set x | x in entries && !x.pinned && !x.held && OneProfile(x, e)
      && (UsedLater(x, e) || (!UsedLater(e, x) && ListedBefore(entries, x, e)))
  }

  /** No entry occurs twice. */
  ghost predicate Once(s: seq<Entry>) {
    s == [] || (s[0] !in s[1..] && Once(s[1..]))
  }

  lemma {:induction false} UniqueIsOnce(s: seq<Entry>)
    requires UniqueEntries(s)
    ensures Once(s)
  {
    if s != [] { UniqueIsOnce(s[1..]); }
  }

  ghost function NewerSet(s: seq<Entry>, e: Entry): set<Entry> {
    set x | x in s && UsedLater(x, e)
  }

  /** Those used as late as e and listed before it. */
  ghost function LevelSet(s: seq<Entry>, e: Entry): set<Entry> {
    set x | x in s && When(x) == When(e) && ListedBefore(s, x, e)
  }

  lemma {:induction false} NewerIsSize(s: seq<Entry>, e: Entry)
    requires Once(s)
    ensures |NewerSet(s, e)| == Newer(s, e)
  {
    if s == [] {
      assert NewerSet(s, e) == {};
    } else {
      NewerIsSize(s[1..], e);
      assert s == [s[0]] + s[1..];
      assert NewerSet(s, e) == NewerSet(s[1..], e) + if UsedLater(s[0], e) then {s[0]} else {};
    }
  }

  lemma ListedInTail(s: seq<Entry>, x: Entry, e: Entry)
    requires e in s && s[0] != e
    ensures ListedBefore(s, x, e) <==> x == s[0] || ListedBefore(s[1..], x, e)
  {
    var k :| 0 <= k < |s| && s[k] == e;
    if ListedBefore(s, x, e) && x != s[0] {
      var i, j :| 0 <= i < j < |s| && s[i] == x && s[j] == e;
      assert s[1..][i - 1] == x && s[1..][j - 1] == e;
    }
    if ListedBefore(s[1..], x, e) {
      var i, j :| 0 <= i < j < |s[1..]| && s[1..][i] == x && s[1..][j] == e;
      assert s[i + 1] == x && s[j + 1] == e;
    }
  }

  lemma NothingBeforeFirst(s: seq<Entry>, x: Entry)
    requires s != [] && s[0] !in s[1..]
    ensures !ListedBefore(s, x, s[0])
  {
    forall j | 0 < j < |s| ensures s[j] != s[0] {
      assert s[1..][j - 1] == s[j];
    }
  }

  lemma LevelInTail(s: seq<Entry>, e: Entry)
    requires e in s && s[0] != e
    ensures LevelSet(s, e) == LevelSet(s[1..], e) + if When(s[0]) == When(e) then {s[0]} else {}
  {
    forall x ensures ListedBefore(s, x, e) <==> x == s[0] || ListedBefore(s[1..], x, e) { ListedInTail(s, x, e); }
    assert s == [s[0]] + s[1..];
  }

  lemma {:induction false} LevelIsSize(s: seq<Entry>, e: Entry)
    requires Once(s) && e in s
    ensures |LevelSet(s, e)| == LevelBefore(s, e)
  {
    if s[0] == e {
      forall x ensures !ListedBefore(s, x, e) { NothingBeforeFirst(s, x); }
      assert LevelSet(s, e) == {};
    } else {
      LevelInTail(s, e);
      LevelIsSize(s[1..], e);
      assert s[0] !in LevelSet(s[1..], e);
    }
  }

  /** Those of one profile stand among themselves as they stand in the whole list. */
  lemma {:induction false} RivalsListed(entries: seq<Entry>, p: string, x: Entry, e: Entry)
    requires Once(entries) && x in entries && e in entries
    requires MayGo(x) && ProfileOf(x) == p && MayGo(e) && ProfileOf(e) == p
    ensures x in Rivals(entries, p) && e in Rivals(entries, p)
    ensures ListedBefore(Rivals(entries, p), x, e) <==> ListedBefore(entries, x, e)
  {
    RivalsMember(entries, p);
    RivalsMember(entries[1..], p);
    var first, rest := entries[0], Rivals(entries[1..], p);
    if MayGo(first) && ProfileOf(first) == p {
      assert Rivals(entries, p)[0] == first && Rivals(entries, p)[1..] == rest;
    } else {
      assert Rivals(entries, p) == rest;
    }
    if e == first {
      NothingBeforeFirst(entries, x);
      NothingBeforeFirst(Rivals(entries, p), x);
    } else {
      ListedInTail(entries, x, e);
      if Rivals(entries, p) != rest { ListedInTail(Rivals(entries, p), x, e); }
      if x != first { RivalsListed(entries[1..], p, x, e); }
    }
  }

  lemma {:induction false} RivalsMember(entries: seq<Entry>, p: string)
    ensures forall e :: e in Rivals(entries, p) <==> e in entries && MayGo(e) && ProfileOf(e) == p
  {
    if entries != [] {
      RivalsMember(entries[1..], p);
      assert entries == [entries[0]] + entries[1..];
    }
  }

  lemma IsAbove(entries: seq<Entry>, e: Entry, x: Entry)
    requires Once(entries) && e in entries && MayGo(e)
    ensures var group := Rivals(entries, ProfileOf(e));
      x in Above(entries, e) <==> x in NewerSet(group, e) || x in LevelSet(group, e)
  {
    var group := Rivals(entries, ProfileOf(e));
    RivalsMember(entries, ProfileOf(e));
    assert OneProfile(x, e) <==> ProfileOf(x) == ProfileOf(e);
    if x in group { RivalsListed(entries, ProfileOf(e), x, e); }
  }

  lemma AboveIs(entries: seq<Entry>, e: Entry)
    requires Once(entries) && e in entries && MayGo(e)
    ensures var group := Rivals(entries, ProfileOf(e)); Above(entries, e) == NewerSet(group, e) + LevelSet(group, e)
  {
    forall x: Entry { IsAbove(entries, e, x); }
  }

  lemma RankIsSize(entries: seq<Entry>, e: Entry)
    requires UniqueEntries(entries) && e in entries && MayGo(e)
    ensures Rank(Rivals(entries, ProfileOf(e)), e) == |Above(entries, e)|
  {
    var group := Rivals(entries, ProfileOf(e));
    RivalsAre(entries, ProfileOf(e));
    UniqueIsOnce(entries);
    UniqueIsOnce(group);
    NewerIsSize(group, e);
    LevelIsSize(group, e);
    AboveIs(entries, e);
    assert NewerSet(group, e) !! LevelSet(group, e);
  }

  /**
   What a prune chooses, read off the store: nobody pinned it, no job holds it, it was not used in the last so
   many days, and `keep` bundles of its profile that may go are ahead of it.
  */
  lemma PrunableIff(entries: seq<Entry>, e: Entry, days: Option<nat>, keep: Option<nat>, now: nat)
    requires UniqueEntries(entries) && e in entries
    ensures Prunable(entries, e, Cutoff(days, now), keep) <==>
      && !e.pinned && !e.held
      && (days.Some? ==> !UsedSince(e, now - 86400 * days.value))
      && (keep.Some? ==> keep.value <= |Above(entries, e)|)
  {
    if MayGo(e) { RankIsSize(entries, e); }
  }

  ghost function MayGoOf(entries: seq<Entry>, profile: string): set<Entry> {
    set e | e in entries && MayGo(e) && ProfileOf(e) == profile
  }

  ghost function SetOf(s: seq<Entry>): set<Entry> {
    set e | e in s
  }

  lemma {:induction false} SizeOf(s: seq<Entry>)
    requires Once(s)
    ensures |SetOf(s)| == |s|
  {
    if s == [] {
      assert SetOf(s) == {};
    } else {
      SizeOf(s[1..]);
      assert s == [s[0]] + s[1..];
      assert SetOf(s) == SetOf(s[1..]) + {s[0]};
    }
  }

  lemma FrontUnlessTail(s: seq<Entry>, k: nat, e: Entry)
    requires UniqueEntries(s) && k <= |s| && e in s
    ensures e in s[..k] <==> e !in s[k..]
  {
    var i :| 0 <= i < |s| && s[i] == e;
    assert i < k ==> s[..k][i] == e;
    assert i >= k ==> s[k..][i - k] == e;
  }

  /** The first `keep` of one profile's bundles, newest first, are just those that rank among them. */
  lemma KeptAreFirst(group: seq<Entry>, keep: nat, k: nat, e: Entry)
    requires UniqueEntries(group) && k == (if keep <= |NewestFirst(group)| then keep else |NewestFirst(group)|)
    ensures e in NewestFirst(group)[..k] <==> e in group && Rank(group, e) < keep
  {
    var sorted := NewestFirst(group);
    NewestFirstIs(group);
    BeyondIsRanked(group, e, Some(keep));
    if e in sorted { FrontUnlessTail(sorted, k, e); } else { assert forall y :: y in sorted[..k] ==> y in sorted; }
  }

  ghost function KeptOf(entries: seq<Entry>, profile: string, keep: nat): set<Entry> {
    set e | e in MayGoOf(entries, profile) && !Prunable(entries, e, None, Some(keep))
  }

  /** With `keep` alone, of each profile exactly that many of those that may go stay, or all where there are fewer. */
  lemma KeepsThatMany(entries: seq<Entry>, profile: string, keep: nat)
    requires UniqueEntries(entries)
    ensures |KeptOf(entries, profile, keep)| ==
            if keep <= |MayGoOf(entries, profile)| then keep else |MayGoOf(entries, profile)|
  {
    var group := Rivals(entries, profile);
    var sorted := NewestFirst(group);
    var k := if keep <= |sorted| then keep else |sorted|;
    RivalsAre(entries, profile);
    NewestFirstIs(group);
    UniqueIsOnce(sorted);
    UniqueIsOnce(sorted[..k]);
    SizeOf(sorted);
    SizeOf(sorted[..k]);
    assert MayGoOf(entries, profile) == SetOf(sorted);
    forall e ensures e in KeptOf(entries, profile, keep) <==> e in SetOf(sorted[..k]) {
      KeptAreFirst(group, keep, k, e);
    }
    assert KeptOf(entries, profile, keep) == SetOf(sorted[..k]);
  }

  // ---- a confirmed prune ----

  const MAX_PRUNE_IDS := 1000

  /** What a prune deletes, what it spares, and what had already gone, of the ids its preview showed. */
  datatype Answer = Answer(selected: seq<Entry>, spared: set<string>, gone: set<string>)

  function OnlyShown(chosen: seq<Entry>, shown: set<string>): seq<Entry> {
    if chosen == [] then []
    else (if chosen[0].id in shown then [chosen[0]] else []) + OnlyShown(chosen[1..], shown)
  }

  function IdSetOf(entries: seq<Entry>): set<string> {
    set e | e in entries :: e.id
  }

  function Confirm(entries: seq<Entry>, chosen: seq<Entry>, ids: Option<seq<string>>): Answer {
    if ids.None? then Answer(chosen, {}, {})
    else
      var shown := set id | id in ids.value;
      Answer(OnlyShown(chosen, shown), (shown - IdSetOf(chosen)) * IdSetOf(entries), shown - IdSetOf(entries))
  }

  lemma {:induction false} OnlyShownIs(chosen: seq<Entry>, shown: set<string>)
    requires UniqueEntries(chosen)
    ensures UniqueEntries(OnlyShown(chosen, shown))
    ensures forall e :: e in OnlyShown(chosen, shown) <==> e in chosen && e.id in shown
  {
    if chosen != [] {
      OnlyShownIs(chosen[1..], shown);
      assert chosen == [chosen[0]] + chosen[1..];
      assert forall e :: e in chosen[1..] ==> e.id != chosen[0].id;
    }
  }

  /**
   A confirmation parts the ids its preview showed in three: selected for deletion, spared, gone.
   Only shown ids are selected; what is spared is in the store, and is pinned, held or outside what
   the same rules choose from the store now.
  */
  lemma ConfirmAnswersForAll(entries: seq<Entry>, chosen: seq<Entry>, ids: seq<string>, cutoff: Option<int>,
      keep: Option<nat>)
    requires UniqueEntries(entries) && UniqueEntries(chosen)
    requires forall e :: e in chosen <==> e in entries && Prunable(entries, e, cutoff, keep)
    ensures var a := Confirm(entries, chosen, Some(ids));
      && (set id | id in ids) == IdSetOf(a.selected) + a.spared + a.gone
      && IdSetOf(a.selected) !! a.spared && IdSetOf(a.selected) !! a.gone && a.spared !! a.gone
      && UniqueEntries(a.selected)
      && (forall e :: e in a.selected ==> e in entries && MayGo(e) && Prunable(entries, e, cutoff, keep))
      && (forall id ::
            id in a.spared <==>
            id in ids && exists e :: e in entries && e.id == id && !Prunable(entries, e, cutoff, keep))
      && (forall id :: id in a.gone <==> id in ids && forall e :: e in entries ==> e.id != id)
  {
    var shown := set id | id in ids;
    var a := Confirm(entries, chosen, Some(ids));
    OnlyShownIs(chosen, shown);
    assert IdSetOf(chosen) <= IdSetOf(entries);
    forall id ensures id in IdSetOf(a.selected) <==> id in shown && id in IdSetOf(chosen) {}
    forall id
      ensures id in a.spared <==>
              id in ids && exists e :: e in entries && e.id == id && !Prunable(entries, e, cutoff, keep)
    {
      SparedIs(entries, chosen, ids, id, cutoff, keep);
    }
  }

  lemma SparedIs(entries: seq<Entry>, chosen: seq<Entry>, ids: seq<string>, id: string, cutoff: Option<int>,
      keep: Option<nat>)
    requires UniqueEntries(entries)
    requires forall e :: e in chosen <==> e in entries && Prunable(entries, e, cutoff, keep)
    ensures id in Confirm(entries, chosen, Some(ids)).spared <==>
      id in ids && exists e :: e in entries && e.id == id && !Prunable(entries, e, cutoff, keep)
  {
    if id in IdSetOf(chosen) {
      var c :| c in chosen && c.id == id;
      forall e | e in entries && e.id == id ensures Prunable(entries, e, cutoff, keep) {
        SameIdSameEntry(entries, c, e);
      }
    }
  }

  /** The first MAX_PRUNE_IDS of what is chosen. */
  function Listed(chosen: seq<Entry>): seq<Entry> {
    if |chosen| <= MAX_PRUNE_IDS then chosen else chosen[..MAX_PRUNE_IDS]
  }

  lemma {:induction false} OnlyShownPrefix(chosen: seq<Entry>, k: nat, shown: set<string>)
    requires UniqueEntries(chosen) && k <= |chosen|
    requires forall i :: 0 <= i < |chosen| ==> (chosen[i].id in shown <==> i < k)
    ensures OnlyShown(chosen, shown) == chosen[..k]
  {
    if chosen != [] {
      if k == 0 {
        OnlyShownPrefix(chosen[1..], 0, shown);
      } else {
        OnlyShownPrefix(chosen[1..], k - 1, shown);
        assert chosen[..k] == [chosen[0]] + chosen[1..][..k - 1];
      }
    }
  }

  /** Confirming a preview before anything has changed deletes exactly what it listed, in the same order. */
  lemma ConfirmDeletesWhatWasShown(entries: seq<Entry>, chosen: seq<Entry>)
    requires UniqueEntries(chosen) && forall e :: e in chosen ==> e in entries
    ensures |IdsOf(Listed(chosen))| <= MAX_PRUNE_IDS
    ensures Confirm(entries, chosen, Some(IdsOf(Listed(chosen)))) == Answer(Listed(chosen), {}, {})
  {
    var ids := IdsOf(Listed(chosen));
    var shown := set id | id in ids;
    forall i | 0 <= i < |chosen| ensures chosen[i].id in shown <==> i < |Listed(chosen)| {
      ListedAreShown(chosen, i);
    }
    OnlyShownPrefix(chosen, |Listed(chosen)|, shown);
    forall id | id in shown ensures id in IdSetOf(chosen) && id in IdSetOf(entries) {
      var j :| 0 <= j < |ids| && ids[j] == id;
      assert chosen[j] in chosen && chosen[j] in entries;
    }
    assert shown - IdSetOf(chosen) == {} && shown - IdSetOf(entries) == {};
  }

  lemma ListedAreShown(chosen: seq<Entry>, i: nat)
    requires UniqueEntries(chosen) && i < |chosen|
    ensures chosen[i].id in IdsOf(Listed(chosen)) <==> i < |Listed(chosen)|
  {
    var ids := IdsOf(Listed(chosen));
    if i < |ids| {
      assert ids[i] == chosen[i].id;
    } else {
      assert forall j :: 0 <= j < |ids| ==> ids[j] == chosen[j].id;
    }
  }
}

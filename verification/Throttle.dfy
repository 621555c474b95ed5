/** A rate limit per address: the book it keeps, against a log of every accepted attempt. */
module Throttle {

  datatype Attempt = Attempt(address: string, allowed: int, at: real)

  type Book = map<string, seq<real>>

  /** The times still inside the window. */
  function Recent(times: seq<real>, now: real, window: real): seq<real> {
    if times == [] then []
    else (if now - times[0] < window then [times[0]] else []) + Recent(times[1..], now, window)
  }

  lemma RecentOneMore(recent: seq<real>, times: seq<real>, i: nat, now: real, window: real)
    requires i < |times|
    ensures recent + Recent(times[i..], now, window) ==
            (if now - times[i] < window then recent + [times[i]] else recent) + Recent(times[i + 1..], now, window)
  {
    var rest := Recent(times[i + 1..], now, window);
    assert times[i..][0] == times[i] && times[i..][1..] == times[i + 1..];
    if now - times[i] < window {
      assert recent + ([times[i]] + rest) == (recent + [times[i]]) + rest;
    } else {
      assert [] + rest == rest;
    }
  }

  function Stored(book: Book, address: string): seq<real> {
    if address in book then book[address] else []
  }

  predicate Stale(times: seq<real>, now: real, window: real) {
    times == [] || now - times[|times| - 1] >= window
  }

  /** The book without the addresses that have stopped asking. */
  function Swept(book: Book, now: real, window: real): Book {
    map address | address in book && !Stale(book[address], now, window) :: book[address]
  }

  /** `times[-allowed:]`, and nothing when nothing is allowed. */
  function Newest(times: seq<real>, allowed: int): seq<real> {
    if allowed <= 0 then [] else if |times| <= allowed then times else times[|times| - allowed..]
  }

  // ---- one attempt ----

  /** The throttle, and every attempt it has let through. */
  datatype State = State(book: Book, calls: nat, log: seq<Attempt>)

  datatype Rules = Rules(window: real, sweepEvery: nat)

  function BookAt(s: State, a: Attempt, rules: Rules): Book
    requires rules.sweepEvery > 0
  {
    if (s.calls + 1) % rules.sweepEvery == 0 then Swept(s.book, a.at, rules.window) else s.book
  }

  function RecentAt(s: State, a: Attempt, rules: Rules): seq<real>
    requires rules.sweepEvery > 0
  {
    Recent(Stored(BookAt(s, a, rules), a.address), a.at, rules.window)
  }

  predicate Refuses(s: State, a: Attempt, rules: Rules)
    requires rules.sweepEvery > 0
  {
    |RecentAt(s, a, rules)| >= a.allowed
  }

  function Step(s: State, a: Attempt, rules: Rules): State
    requires rules.sweepEvery > 0
  {
    var book, recent := BookAt(s, a, rules), RecentAt(s, a, rules);
    if Refuses(s, a, rules) then State(book[a.address := Newest(recent, a.allowed)], s.calls + 1, s.log)
    else State(book[a.address := recent + [a.at]], s.calls + 1, s.log + [a])
  }

  class AddressThrottle {
    const rules: Rules
    var book: Book
    var calls: nat
    /** What the throttle does not keep: all it has let through. */
    ghost var log: seq<Attempt>

    ghost function Now(): State
      reads this
    {
      State(book, calls, log)
    }

    constructor (rules: Rules)
      ensures this.rules == rules && Now() == State(map[], 0, [])
    {
      this.rules := rules;
      book, calls, log := map[], 0, [];
    }

    /** Refuse an attempt when the book holds `allowed` recent ones from its address; otherwise write it down. */
    method TooMany(a: Attempt) returns (refused: bool)
      requires rules.sweepEvery > 0
      modifies this
      ensures refused == Refuses(old(Now()), a, rules)
      ensures Now() == Step(old(Now()), a, rules)
    {
      ghost var before := Now();
      calls := calls + 1;
      if calls % rules.sweepEvery == 0 {
        Sweep(a.at);
      }
      var recent := StillRecent(if a.address in book then book[a.address] else [], a.at);
      assert recent == RecentAt(before, a, rules);
      if |recent| >= a.allowed {
        book := book[a.address := Newest(recent, a.allowed)];
        return true;
      }
      book := book[a.address := recent + [a.at]];
      log := log + [a];
      return false;
    }

    method StillRecent(times: seq<real>, now: real) returns (recent: seq<real>)
      ensures recent == Recent(times, now, rules.window)
    {
      recent := [];
      for i := 0 to |times|
        invariant recent + Recent(times[i..], now, rules.window) == Recent(times, now, rules.window)
      {
        RecentOneMore(recent, times, i, now, rules.window);
        if now - times[i] < rules.window {
          recent := recent + [times[i]];
        }
      }
    }

    /** Drop the stale addresses, and nothing else. */
    method Sweep(now: real)
      modifies `book
      ensures book == Swept(old(book), now, rules.window)
    {
      var left := book.Keys;
      ghost var was := book;
      while left != {}
        invariant left <= was.Keys
        invariant forall x :: x in book <==> x in was && (x in left || !Stale(was[x], now, rules.window))
        invariant forall x :: x in book ==> book[x] == was[x]
        decreases |left|
      {
        var address: string :| address in left;
        left := left - {address};
        if Stale(book[address], now, rules.window) {
          book := book - {address};
        }
      }
    }
  }

  // ---- the log it stands for ----

  /** When the attempts of one address were let through. */
  function Times(log: seq<Attempt>, address: string): seq<real> {
    if log == [] then []
    else
      var last := log[|log| - 1];
      Times(log[..|log| - 1], address) + (if last.address == address then [last.at] else [])
  }

  function After(attempts: seq<Attempt>, rules: Rules): State
    requires rules.sweepEvery > 0
  {
    if attempts == [] then State(map[], 0, [])
    else Step(After(attempts[..|attempts| - 1], rules), attempts[|attempts| - 1], rules)
  }

  ghost predicate InTime(attempts: seq<Attempt>) {
    forall i, j :: 0 <= i < j < |attempts| ==> attempts[i].at <= attempts[j].at
  }

  lemma {:induction false} RecentSplits(a: seq<real>, b: seq<real>, now: real, window: real)
    ensures Recent(a + b, now, window) == Recent(a, now, window) + Recent(b, now, window)
  {
    if a == [] {
      assert a + b == b;
    } else {
      assert (a + b)[1..] == a[1..] + b;
      RecentSplits(a[1..], b, now, window);
    }
  }

  /** What has left the window does not come back. */
  lemma {:induction false} RecentLater(times: seq<real>, now: real, later: real, window: real)
    requires now <= later
    ensures Recent(Recent(times, now, window), later, window) == Recent(times, later, window)
  {
    if times != [] {
      RecentLater(times[1..], now, later, window);
      var rest := Recent(times[1..], now, window);
      if now - times[0] < window {
        assert ([times[0]] + rest)[1..] == rest;
      } else {
        assert [] + rest == rest;
      }
    }
  }

  lemma {:induction false} RecentMembers(times: seq<real>, now: real, window: real)
    ensures |Recent(times, now, window)| <= |times|
    ensures forall t :: t in Recent(times, now, window) <==> t in times && now - t < window
  {
    if times != [] {
      RecentMembers(times[1..], now, window);
      assert times == [times[0]] + times[1..];
    }
  }

  lemma {:induction false} NoneRecent(times: seq<real>, now: real, window: real)
    requires forall t :: t in times ==> now - t >= window
    ensures Recent(times, now, window) == []
  {
    if times != [] {
      assert times[0] in times && forall t :: t in times[1..] ==> t in times;
      NoneRecent(times[1..], now, window);
    }
  }

  /** The newest time of a list is its last. */
  ghost predicate Latest(times: seq<real>) {
    forall t :: t in times ==> t <= times[|times| - 1]
  }

  /** A sweep loses nothing that could still count. */
  lemma SweepLosesNothing(book: Book, address: string, now: real, window: real)
    requires Latest(Stored(book, address))
    ensures Recent(Stored(Swept(book, now, window), address), now, window) == Recent(Stored(book, address), now, window)
  {
    if address in book && Stale(book[address], now, window) {
      NoneRecent(book[address], now, window);
    }
  }

  // ---- what is remembered is what was let through ----

  /** What the book holds of an address: in time, and at most `most` times. */
  ghost predicate Kept(times: seq<real>, now: real) {
    Latest(times) && forall t :: t in times ==> t <= now
  }

  ghost predicate BookFits(s: State, now: real) {
    forall address {:trigger Stored(s.book, address)} :: Kept(Stored(s.book, address), now)
  }

  /** Of what still counts, the book remembers all. */
  ghost predicate RemembersAll(s: State, now: real, window: real) {
    forall address {:trigger Stored(s.book, address)} ::
      Recent(Stored(s.book, address), now, window) == Recent(Times(s.log, address), now, window)
  }

  ghost predicate Bounded(s: State, allowance: string -> nat) {
    forall address {:trigger Stored(s.book, address)} :: |Stored(s.book, address)| <= allowance(address)
  }

  /** How many an allowance lets through: one below zero, none. */
  function Cap(allowed: int): nat {
    if allowed > 0 then allowed else 0
  }

  /** What counts of an address when it asks. */
  lemma CountsAt(s: State, a: Attempt, before: real, rules: Rules)
    requires rules.sweepEvery > 0 && before <= a.at
    requires BookFits(s, before)
    ensures RecentAt(s, a, rules) == Recent(Recent(Stored(s.book, a.address), before, rules.window), a.at, rules.window)
    ensures Kept(RecentAt(s, a, rules), a.at)
  {
    var times := Stored(s.book, a.address);
    assert Kept(times, before);
    SweepLosesNothing(s.book, a.address, a.at, rules.window);
    RecentLater(times, before, a.at, rules.window);
    RecentMembers(times, a.at, rules.window);
    LatestRecent(times, a.at, rules.window);
  }

  /** What counts of an address when it asks, swept or not. */
  lemma CountsNow(s: State, a: Attempt, rules: Rules)
    requires rules.sweepEvery > 0 && BookFits(s, a.at)
    ensures RecentAt(s, a, rules) == Recent(Stored(s.book, a.address), a.at, rules.window)
    ensures forall t :: t in RecentAt(s, a, rules) ==> a.at - t < rules.window
  {
    CountsAt(s, a, a.at, rules);
    RecentLater(Stored(s.book, a.address), a.at, a.at, rules.window);
    RecentMembers(Stored(s.book, a.address), a.at, rules.window);
  }

  lemma LatestRecent(times: seq<real>, now: real, window: real)
    requires Latest(times)
    ensures Latest(Recent(times, now, window))
  {
    var recent := Recent(times, now, window);
    RecentMembers(times, now, window);
    if recent != [] {
      var n := |times| - 1;
      assert recent[0] in recent;
      assert recent[0] in times && now - recent[0] < window;
      RecentSplits(times[..n], [times[n]], now, window);
      assert times == times[..n] + [times[n]];
      assert recent[|recent| - 1] == times[n];
    }
  }

  lemma NewestKept(times: seq<real>, allowed: int, now: real)
    requires Kept(times, now)
    ensures Kept(Newest(times, allowed), now)
  {
    var newest := Newest(times, allowed);
    forall t | t in newest ensures t in times {}
  }

  /** After the step every address is stored as it was, swept away, or is the one that asked. */
  lemma StoredAfter(s: State, a: Attempt, rules: Rules, address: string)
    requires rules.sweepEvery > 0
    ensures address != a.address ==>
      Stored(Step(s, a, rules).book, address) == Stored(BookAt(s, a, rules), address) &&
      Times(Step(s, a, rules).log, address) == Times(s.log, address)
    ensures address == a.address ==>
      Stored(Step(s, a, rules).book, address) ==
        (if Refuses(s, a, rules) then Newest(RecentAt(s, a, rules), a.allowed) else RecentAt(s, a, rules) + [a.at]) &&
      Times(Step(s, a, rules).log, address) ==
        Times(s.log, address) + (if Refuses(s, a, rules) then [] else [a.at])
  {
    assert (s.log + [a])[..|s.log|] == s.log;
    assert Times(s.log, address) + [] == Times(s.log, address);
  }

  // ---- whatever the clock says ----

  /** Whenever one looks, no more of the times counts than of the others. */
  ghost predicate NoMore(times: seq<real>, others: seq<real>, window: real) {
    forall now {:trigger Recent(times, now, window)} :: |Recent(times, now, window)| <= |Recent(others, now, window)|
  }

  lemma {:induction false} FewerOfRecent(times: seq<real>, before: real, now: real, window: real)
    ensures |Recent(Recent(times, before, window), now, window)| <= |Recent(times, now, window)|
  {
    if times != [] {
      FewerOfRecent(times[1..], before, now, window);
      var rest := Recent(times[1..], before, window);
      if before - times[0] < window {
        assert ([times[0]] + rest)[1..] == rest;
      } else {
        assert [] + rest == rest;
      }
    }
  }

  lemma NewestNoMore(times: seq<real>, allowed: int, window: real)
    ensures NoMore(Newest(times, allowed), times, window)
  {
    var newest := Newest(times, allowed);
    forall now ensures |Recent(newest, now, window)| <= |Recent(times, now, window)| {
      if newest != [] {
        RecentSplits(times[..|times| - |newest|], newest, now, window);
        assert times == times[..|times| - |newest|] + newest;
      }
    }
  }

  lemma AskNoMore(s: State, a: Attempt, rules: Rules)
    requires rules.sweepEvery > 0 && NoMore(Stored(s.book, a.address), Times(s.log, a.address), rules.window)
    ensures NoMore(RecentAt(s, a, rules), Times(s.log, a.address), rules.window)
    ensures NoMore(Newest(RecentAt(s, a, rules), a.allowed), Times(s.log, a.address), rules.window)
    ensures NoMore(RecentAt(s, a, rules) + [a.at], Times(s.log, a.address) + [a.at], rules.window)
  {
    var w, stored, times := rules.window, Stored(BookAt(s, a, rules), a.address), Times(s.log, a.address);
    var recent := RecentAt(s, a, rules);
    NewestNoMore(recent, a.allowed, w);
    forall now
      ensures |Recent(recent, now, w)| <= |Recent(times, now, w)|
      ensures |Recent(Newest(recent, a.allowed), now, w)| <= |Recent(times, now, w)|
      ensures |Recent(recent + [a.at], now, w)| <= |Recent(times + [a.at], now, w)|
    {
      assert |Recent(Stored(s.book, a.address), now, w)| <= |Recent(times, now, w)|;
      FewerOfRecent(stored, a.at, now, w);
      RecentSplits(recent, [a.at], now, w);
      RecentSplits(times, [a.at], now, w);
    }
  }

  lemma StepNoMore(s: State, a: Attempt, rules: Rules, address: string)
    requires rules.sweepEvery > 0 && NoMore(Stored(s.book, address), Times(s.log, address), rules.window)
    ensures NoMore(Stored(Step(s, a, rules).book, address), Times(Step(s, a, rules).log, address), rules.window)
  {
    StoredAfter(s, a, rules, address);
    if address == a.address {
      AskNoMore(s, a, rules);
      assert Times(s.log, address) + [] == Times(s.log, address);
    } else if address in s.book && address !in BookAt(s, a, rules) {
      assert Stored(BookAt(s, a, rules), address) == [];
    }
  }

  lemma {:induction false} NeverMore(attempts: seq<Attempt>, rules: Rules, address: string)
    requires rules.sweepEvery > 0
    ensures var s := After(attempts, rules); NoMore(Stored(s.book, address), Times(s.log, address), rules.window)
  {
    if attempts != [] {
      NeverMore(attempts[..|attempts| - 1], rules, address);
      StepNoMore(After(attempts[..|attempts| - 1], rules), attempts[|attempts| - 1], rules, address);
    }
  }

  /**
   Nobody is refused early: after any attempts, by any addresses, with any allowances, in whatever
   order their times come and with any sweeps between them, an attempt is refused only if as many of
   the address's attempts as it may make were let through within the last window.
  */
  lemma NeverRefusesEarly(attempts: seq<Attempt>, a: Attempt, rules: Rules)
    requires rules.sweepEvery > 0
    requires Refuses(After(attempts, rules), a, rules)
    ensures |Recent(Times(After(attempts, rules).log, a.address), a.at, rules.window)| >= a.allowed
  {
    NeverMore(attempts, rules, a.address);
    var s, w := After(attempts, rules), rules.window;
    assert |Recent(Stored(s.book, a.address), a.at, w)| <= |Recent(Times(s.log, a.address), a.at, w)|;
  }

  /** And no list grows beyond the largest allowance its address is asked with, in whatever order the times come. */
  lemma {:induction false} ListsStayShort(attempts: seq<Attempt>, rules: Rules, allowance: string -> nat)
    requires rules.sweepEvery > 0 && forall a :: a in attempts ==> Cap(a.allowed) <= allowance(a.address)
    ensures Bounded(After(attempts, rules), allowance)
  {
    if attempts != [] {
      var n := |attempts| - 1;
      var s, a := After(attempts[..n], rules), attempts[n];
      ListsStayShort(attempts[..n], rules, allowance);
      forall address ensures |Stored(Step(s, a, rules).book, address)| <= allowance(address) {
        StoredAfter(s, a, rules, address);
        assert |Stored(s.book, address)| <= allowance(address);
      }
    }
  }

  // ---- while times come in order ----

  lemma StepFits(s: State, a: Attempt, before: real, rules: Rules)
    requires rules.sweepEvery > 0 && before <= a.at && BookFits(s, before)
    ensures BookFits(Step(s, a, rules), a.at)
  {
    var next := Step(s, a, rules);
    forall address ensures Kept(Stored(next.book, address), a.at) {
      StoredAfter(s, a, rules, address);
      assert Kept(Stored(s.book, address), before);
      if address == a.address {
        CountsAt(s, a, before, rules);
        NewestKept(RecentAt(s, a, rules), a.allowed, a.at);
      }
    }
  }

  /** For one address whose allowance stays the same: the book keeps all that counts, and no more than the allowance. */
  lemma StepKeepsAll(s: State, a: Attempt, before: real, rules: Rules, address: string, most: nat)
    requires rules.sweepEvery > 0 && before <= a.at && (address == a.address ==> Cap(a.allowed) == most)
    requires BookFits(s, before) && |Stored(s.book, address)| <= most
    requires Recent(Stored(s.book, address), before, rules.window) ==
      Recent(Times(s.log, address), before, rules.window)
    ensures |Stored(Step(s, a, rules).book, address)| <= most
    ensures Recent(Stored(Step(s, a, rules).book, address), a.at, rules.window) ==
            Recent(Times(Step(s, a, rules).log, address), a.at, rules.window)
  {
    var w, stored, times := rules.window, Stored(s.book, address), Times(s.log, address);
    assert Kept(stored, before);
    RecentLater(stored, before, a.at, w);
    RecentLater(times, before, a.at, w);
    StoredAfter(s, a, rules, address);
    if address != a.address {
      SweepLosesNothing(s.book, address, a.at, w);
    } else {
      CountsAt(s, a, before, rules);
      AskKeepsAll(RecentAt(s, a, rules), times, stored, a, w);
    }
  }

  /** The address that asks: what it had counting, and the attempt if it was let through. */
  lemma AskKeepsAll(recent: seq<real>, times: seq<real>, stored: seq<real>, a: Attempt, w: real)
    requires recent == Recent(stored, a.at, w) == Recent(times, a.at, w) && |stored| <= Cap(a.allowed)
    ensures |recent| >= a.allowed ==>
      Newest(recent, a.allowed) == recent && Recent(recent, a.at, w) == Recent(times + [], a.at, w)
    ensures |recent| < a.allowed ==>
      |recent + [a.at]| <= Cap(a.allowed) && Recent(recent + [a.at], a.at, w) == Recent(times + [a.at], a.at, w)
    ensures |recent| <= Cap(a.allowed)
  {
    RecentMembers(stored, a.at, w);
    RecentLater(stored, a.at, a.at, w);
    RecentSplits(recent, [a.at], a.at, w);
    RecentSplits(times, [a.at], a.at, w);
    assert times + [] == times;
  }

  lemma StepRemembersAll(s: State, a: Attempt, before: real, rules: Rules, allowance: string -> nat)
    requires rules.sweepEvery > 0 && before <= a.at && Cap(a.allowed) == allowance(a.address)
    requires BookFits(s, before) && RemembersAll(s, before, rules.window) && Bounded(s, allowance)
    ensures RemembersAll(Step(s, a, rules), a.at, rules.window) && Bounded(Step(s, a, rules), allowance)
  {
    var next, w := Step(s, a, rules), rules.window;
    forall address
      ensures Recent(Stored(next.book, address), a.at, w) == Recent(Times(next.log, address), a.at, w)
      ensures |Stored(next.book, address)| <= allowance(address)
    {
      assert |Stored(s.book, address)| <= allowance(address);
      assert Recent(Stored(s.book, address), before, w) == Recent(Times(s.log, address), before, w);
      StepKeepsAll(s, a, before, rules, address, allowance(address));
    }
  }

  lemma {:induction false} AlwaysFits(attempts: seq<Attempt>, now: real, rules: Rules)
    requires rules.sweepEvery > 0 && InTime(attempts) && forall a :: a in attempts ==> a.at <= now
    ensures BookFits(After(attempts, rules), now)
  {
    if attempts != [] {
      var a := attempts[|attempts| - 1];
      AlwaysFits(attempts[..|attempts| - 1], a.at, rules);
      StepFits(After(attempts[..|attempts| - 1], rules), a, a.at, rules);
      Onwards(After(attempts, rules), a.at, now, rules.window);
    }
  }

  lemma Onwards(s: State, now: real, later: real, window: real)
    requires now <= later && BookFits(s, now)
    ensures BookFits(s, later)
    ensures RemembersAll(s, now, window) ==> RemembersAll(s, later, window)
  {
    forall address ensures Kept(Stored(s.book, address), later) {
      assert Kept(Stored(s.book, address), now);
    }
    forall address
      ensures Recent(Stored(s.book, address), later, window) ==
              Recent(Recent(Stored(s.book, address), now, window), later, window)
      ensures Recent(Times(s.log, address), later, window) ==
              Recent(Recent(Times(s.log, address), now, window), later, window)
    {
      RecentLater(Stored(s.book, address), now, later, window);
      RecentLater(Times(s.log, address), now, later, window);
    }
  }

  lemma Earlier(attempts: seq<Attempt>, a: Attempt)
    requires InTime(attempts + [a])
    ensures InTime(attempts) && forall x :: x in attempts ==> x.at <= a.at
  {
    var all := attempts + [a];
    forall i, j | 0 <= i < j < |attempts| ensures attempts[i].at <= attempts[j].at {
      assert all[i].at <= all[j].at;
    }
    forall x | x in attempts ensures x.at <= a.at {
      var i :| 0 <= i < |attempts| && attempts[i] == x;
      assert all[i].at <= all[|attempts|].at;
    }
  }

  lemma {:induction false} AlwaysRemembersAll(attempts: seq<Attempt>, now: real, rules: Rules, allowance: string -> nat)
    requires rules.sweepEvery > 0 && InTime(attempts) && forall a :: a in attempts ==> a.at <= now
    requires forall a :: a in attempts ==> Cap(a.allowed) == allowance(a.address)
    ensures RemembersAll(After(attempts, rules), now, rules.window) && Bounded(After(attempts, rules), allowance)
  {
    if attempts != [] {
      var n := |attempts| - 1;
      var a := attempts[n];
      AlwaysFits(attempts[..n], a.at, rules);
      AlwaysRemembersAll(attempts[..n], a.at, rules, allowance);
      StepRemembersAll(After(attempts[..n], rules), a, a.at, rules, allowance);
      StepFits(After(attempts[..n], rules), a, a.at, rules);
      Onwards(After(attempts, rules), a.at, now, rules.window);
    }
  }

  /**
   The bounded book is as good as an unbounded log. Where an address's allowance stays the same, it
   is refused exactly when that many of its attempts were let through within the last window --
   whatever calls and sweeps came between -- and no list is ever longer than the allowance.
  */
  lemma RefusesExactly(attempts: seq<Attempt>, a: Attempt, rules: Rules, allowance: string -> nat)
    requires rules.sweepEvery > 0 && InTime(attempts + [a])
    requires forall x :: x in attempts + [a] ==> Cap(x.allowed) == allowance(x.address)
    ensures Refuses(After(attempts, rules), a, rules) <==>
            |Recent(Times(After(attempts, rules).log, a.address), a.at, rules.window)| >= a.allowed
    ensures Bounded(After(attempts, rules), allowance)
  {
    var s := After(attempts, rules);
    Earlier(attempts, a);
    assert a in attempts + [a] && forall x :: x in attempts ==> x in attempts + [a];
    AlwaysFits(attempts, a.at, rules);
    AlwaysRemembersAll(attempts, a.at, rules, allowance);
    CountsNow(s, a, rules);
    assert Recent(Stored(s.book, a.address), a.at, rules.window) == Recent(Times(s.log, a.address), a.at, rules.window);
  }

  lemma {:induction false} CallsAreCounted(attempts: seq<Attempt>, rules: Rules)
    requires rules.sweepEvery > 0
    ensures After(attempts, rules).calls == |attempts|
  {
    if attempts != [] { CallsAreCounted(attempts[..|attempts| - 1], rules); }
  }

  lemma StaleIfNoneRecent(times: seq<real>, now: real, window: real)
    requires Latest(times)
    ensures Stale(times, now, window) <==> Recent(times, now, window) == []
  {
    RecentMembers(times, now, window);
    if times == [] {
    } else if now - times[|times| - 1] >= window {
      NoneRecent(times, now, window);
    } else {
      assert times[|times| - 1] in Recent(times, now, window);
    }
  }

  lemma StepForgets(s: State, a: Attempt, rules: Rules, address: string)
    requires rules.sweepEvery > 0 && (s.calls + 1) % rules.sweepEvery == 0 && address != a.address
    requires BookFits(s, a.at) && RemembersAll(s, a.at, rules.window)
    ensures address in Step(s, a, rules).book <==> Recent(Times(s.log, address), a.at, rules.window) != []
    ensures Times(Step(s, a, rules).log, address) == Times(s.log, address)
  {
    StoredAfter(s, a, rules, address);
    assert Kept(Stored(s.book, address), a.at);
    StaleIfNoneRecent(Stored(s.book, address), a.at, rules.window);
    assert Recent(Stored(s.book, address), a.at, rules.window) == Recent(Times(s.log, address), a.at, rules.window);
  }

  /**
   Addresses are not kept for good. Every `sweepEvery` attempts the book forgets, of all but the address that
   asks, just those of which nothing was let through within the last window.
  */
  lemma SweepForgetsTheRest(attempts: seq<Attempt>, a: Attempt, rules: Rules, allowance: string -> nat, address: string)
    requires rules.sweepEvery > 0 && InTime(attempts + [a])
    requires forall x :: x in attempts + [a] ==> Cap(x.allowed) == allowance(x.address)
    requires (|attempts| + 1) % rules.sweepEvery == 0 && address != a.address
    ensures address in After(attempts + [a], rules).book <==>
            Recent(Times(After(attempts + [a], rules).log, address), a.at, rules.window) != []
  {
    Earlier(attempts, a);
    assert a in attempts + [a] && forall x :: x in attempts ==> x in attempts + [a];
    AlwaysFits(attempts, a.at, rules);
    AlwaysRemembersAll(attempts, a.at, rules, allowance);
    CallsAreCounted(attempts, rules);
    AfterOneMore(attempts, a, rules);
    StepForgets(After(attempts, rules), a, rules, address);
  }

  // ---- exactly when the book is as good ----

  /** Where each address is asked with these allowances, on every course of attempts the book says what the log says. */
  ghost predicate Agrees(allowances: string -> set<int>, rules: Rules)
    requires rules.sweepEvery > 0
  {
    forall attempts, a {:trigger Exact(attempts, a, rules)} ::
      MayAsk(allowances, attempts + [a]) ==> Exact(attempts, a, rules)
  }

  ghost predicate MayAsk(allowances: string -> set<int>, attempts: seq<Attempt>) {
    InTime(attempts) && forall x :: x in attempts ==> x.allowed in allowances(x.address)
  }

  ghost predicate Exact(attempts: seq<Attempt>, a: Attempt, rules: Rules)
    requires rules.sweepEvery > 0
  {
    Refuses(After(attempts, rules), a, rules) <==>
    |Recent(Times(After(attempts, rules).log, a.address), a.at, rules.window)| >= a.allowed
  }

  /** Of one address's allowances, the larger of any two lets nothing through. */
  ghost predicate Steady(allowances: set<int>) {
    forall m, k :: m in allowances && k in allowances && m < k ==> k <= 0
  }

  /** Attempts at the very start, all let through while there are no more of them than allowed. */
  lemma {:induction false} StartLetsThrough(a: Attempt, rules: Rules, n: nat)
    requires rules.sweepEvery > 0 && rules.window > 0.0 && n <= a.allowed
    ensures After(seq(n, i => a), rules).log == seq(n, i => a)
    ensures Stored(After(seq(n, i => a), rules).book, a.address) == seq(n, i => a.at)
  {
    if n > 0 {
      var before := seq(n - 1, i => a);
      assert seq(n, i => a) == before + [a] && seq(n, i => a.at) == seq(n - 1, i => a.at) + [a.at];
      StartLetsThrough(a, rules, n - 1);
      AfterOneMore(before, a, rules);
      StoredAtOnce(After(before, rules), a, rules, n - 1);
    }
  }

  /** What was stored at this very moment all counts, swept or not. */
  lemma StoredAtOnce(s: State, a: Attempt, rules: Rules, n: nat)
    requires rules.sweepEvery > 0 && rules.window > 0.0
    requires Stored(s.book, a.address) == seq(n, i => a.at)
    ensures RecentAt(s, a, rules) == seq(n, i => a.at)
    ensures Stored(Step(s, a, rules).book, a.address) ==
      if Refuses(s, a, rules) then Newest(seq(n, i => a.at), a.allowed) else seq(n, i => a.at) + [a.at]
  {
    SweepLosesNothing(s.book, a.address, a.at, rules.window);
    AllRecent(seq(n, i => a.at), a.at, rules.window);
    StoredAfter(s, a, rules, a.address);
  }

  lemma {:induction false} AllRecent(times: seq<real>, now: real, window: real)
    requires forall t :: t in times ==> now - t < window
    ensures Recent(times, now, window) == times
  {
    if times != [] {
      assert times[0] in times && forall t :: t in times[1..] ==> t in times;
      AllRecent(times[1..], now, window);
    }
  }

  lemma AfterOneMore(attempts: seq<Attempt>, a: Attempt, rules: Rules)
    requires rules.sweepEvery > 0
    ensures After(attempts + [a], rules) == Step(After(attempts, rules), a, rules)
  {
    assert (attempts + [a])[..|attempts|] == attempts;
  }

  lemma {:induction false} TimesOfOne(a: Attempt, n: nat)
    ensures Times(seq(n, i => a), a.address) == seq(n, i => a.at)
  {
    if n > 0 {
      assert seq(n, i => a)[..n - 1] == seq(n - 1, i => a);
      TimesOfOne(a, n - 1);
    }
  }

  /** Refused against a smaller allowance, an address is forgiven a larger. */
  lemma SmallerForgets(address: string, m: int, k: int, rules: Rules)
    requires rules.sweepEvery > 0 && rules.window > 0.0 && m < k && k > 0
    ensures !Exact(seq(k, i => Attempt(address, k, 0.0)) + [Attempt(address, m, 0.0)], Attempt(address, k, 0.0), rules)
  {
    var more, less := Attempt(address, k, 0.0), Attempt(address, m, 0.0);
    var all := seq(k, i => more);
    StartLetsThrough(more, rules, k);
    AfterOneMore(all, less, rules);
    SmallerCuts(After(all, rules), address, m, k, rules);
    StoredAtOnce(After(all + [less], rules), more, rules, Cap(m));
    AllCount(all, more, rules);
  }

  lemma SmallerCuts(s: State, address: string, m: int, k: nat, rules: Rules)
    requires rules.sweepEvery > 0 && rules.window > 0.0 && m < k && Stored(s.book, address) == seq(k, i => 0.0)
    ensures Step(s, Attempt(address, m, 0.0), rules).log == s.log
    ensures Stored(Step(s, Attempt(address, m, 0.0), rules).book, address) == seq(Cap(m), i => 0.0)
  {
    StoredAtOnce(s, Attempt(address, m, 0.0), rules, k);
  }

  lemma AllCount(all: seq<Attempt>, a: Attempt, rules: Rules)
    requires rules.window > 0.0 && all == seq(|all|, i => a)
    ensures |Recent(Times(all, a.address), a.at, rules.window)| == |all|
  {
    TimesOfOne(a, |all|);
    AllRecent(seq(|all|, i => a.at), a.at, rules.window);
  }

  /** With allowances that never let different numbers through, each address has one cap. */
  lemma SteadyIsExact(attempts: seq<Attempt>, a: Attempt, allowances: string -> set<int>, rules: Rules)
    requires rules.sweepEvery > 0 && MayAsk(allowances, attempts + [a])
    requires forall address :: Steady(allowances(address))
    ensures Exact(attempts, a, rules)
  {
    var allowance := (address: string) => if exists k :: k in allowances(address) && k > 0
      then Cap(var k :| k in allowances(address) && k > 0; k) else 0;
    forall x | x in attempts + [a] ensures Cap(x.allowed) == allowance(x.address) {}
    RefusesExactly(attempts, a, rules, allowance);
  }

  /** A window that nothing fits in forgets everything at once, in book and log alike. */
  lemma NoWindowIsExact(attempts: seq<Attempt>, a: Attempt, rules: Rules)
    requires rules.sweepEvery > 0 && InTime(attempts + [a]) && rules.window <= 0.0
    ensures Exact(attempts, a, rules)
  {
    var s := After(attempts, rules);
    Earlier(attempts, a);
    AlwaysFits(attempts, a.at, rules);
    CountsAt(s, a, a.at, rules);
    RecentLater(Stored(s.book, a.address), a.at, a.at, rules.window);
    assert Kept(Stored(s.book, a.address), a.at);
    NoneRecent(Stored(s.book, a.address), a.at, rules.window);
    LogInTime(attempts, a.at, rules);
    TimesInTime(s.log, a.address, a.at);
    NoneRecent(Times(s.log, a.address), a.at, rules.window);
  }

  lemma {:induction false} LogInTime(attempts: seq<Attempt>, now: real, rules: Rules)
    requires rules.sweepEvery > 0 && forall x :: x in attempts ==> x.at <= now
    ensures forall x :: x in After(attempts, rules).log ==> x.at <= now
  {
    if attempts != [] {
      var before, last := attempts[..|attempts| - 1], attempts[|attempts| - 1];
      assert attempts == before + [last];
      LogInTime(before, now, rules);
      AfterOneMore(before, last, rules);
      StepLogs(After(before, rules), last, rules);
    }
  }

  lemma StepLogs(s: State, a: Attempt, rules: Rules)
    requires rules.sweepEvery > 0
    ensures Step(s, a, rules).log == s.log || Step(s, a, rules).log == s.log + [a]
  {
  }

  lemma {:induction false} TimesInTime(log: seq<Attempt>, address: string, now: real)
    requires forall x :: x in log ==> x.at <= now
    ensures forall t :: t in Times(log, address) ==> t <= now
  {
    if log != [] {
      assert log == log[..|log| - 1] + [log[|log| - 1]];
      TimesInTime(log[..|log| - 1], address, now);
    }
  }

  function Course(address: string, k: nat, window: real): seq<Attempt>
    requires k >= 2
  {
    seq(k - 1, i => Attempt(address, k, 0.0)) + [Attempt(address, k, window)]
  }

  /** Times out of order: what a later clock has dropped no longer counts against an earlier one. */
  lemma OutOfOrderForgets(address: string, k: nat, rules: Rules)
    requires rules.sweepEvery > 0 && rules.window > 0.0 && k >= 2
    ensures !Exact(Course(address, k, rules.window), Attempt(address, k, rules.window / 2.0), rules)
  {
    var first, late := Attempt(address, k, 0.0), Attempt(address, k, rules.window);
    var firsts := seq(k - 1, i => first);
    StartLetsThrough(first, rules, k - 1);
    AfterOneMore(firsts, late, rules);
    LateDrops(After(firsts, rules), late, rules, 0.0, k - 1);
    OnlyLateCounts(After(Course(address, k, rules.window), rules), Attempt(address, k, rules.window / 2.0), rules);
    CourseCounts(address, k, rules.window);
  }

  lemma OnlyLateCounts(s: State, early: Attempt, rules: Rules)
    requires rules.sweepEvery > 0 && early.at < 2.0 * rules.window && Stored(s.book, early.address) == [rules.window]
    ensures RecentAt(s, early, rules) == [rules.window]
  {
    SweepLosesNothing(s.book, early.address, early.at, rules.window);
    AllRecent([rules.window], early.at, rules.window);
  }

  lemma CourseCounts(address: string, k: nat, window: real)
    requires k >= 2 && window > 0.0
    ensures |Recent(Times(Course(address, k, window), address), window / 2.0, window)| == k
  {
    var firsts := seq(k - 1, i => Attempt(address, k, 0.0));
    var times := seq(k - 1, i => 0.0) + [window];
    TimesOfOne(Attempt(address, k, 0.0), k - 1);
    assert Course(address, k, window)[..k - 1] == firsts;
    assert Times(Course(address, k, window), address) == times;
    AllRecent(times, window / 2.0, window);
  }

  lemma LateDrops(s: State, late: Attempt, rules: Rules, at: real, n: nat)
    requires rules.sweepEvery > 0 && late.allowed > 0 && late.at - at >= rules.window
    requires Stored(s.book, late.address) == seq(n, i => at)
    ensures Step(s, late, rules).log == s.log + [late]
    ensures Stored(Step(s, late, rules).book, late.address) == [late.at]
  {
    SweepLosesNothing(s.book, late.address, late.at, rules.window);
    NoneRecent(seq(n, i => at), late.at, rules.window);
    assert RecentAt(s, late, rules) == [];
  }

  /**
   Exactly when the bounded book is as good as the log, whatever the attempts: for every address, the
   allowances it may be asked with never let different numbers through -- or nothing counts at all.
  */
  lemma AgreesIffSteady(allowances: string -> set<int>, rules: Rules)
    requires rules.sweepEvery > 0
    ensures Agrees(allowances, rules) <==> rules.window <= 0.0 || forall address :: Steady(allowances(address))
  {
    if Agrees(allowances, rules) && rules.window > 0.0 {
      forall address ensures Steady(allowances(address)) { AgreesIsSteady(allowances, rules, address); }
    }
    if rules.window <= 0.0 || forall address :: Steady(allowances(address)) {
      forall attempts, a | MayAsk(allowances, attempts + [a]) ensures Exact(attempts, a, rules) {
        if rules.window <= 0.0 {
          NoWindowIsExact(attempts, a, rules);
        } else {
          SteadyIsExact(attempts, a, allowances, rules);
        }
      }
    }
  }

  lemma AgreesIsSteady(allowances: string -> set<int>, rules: Rules, address: string)
    requires rules.sweepEvery > 0 && rules.window > 0.0 && Agrees(allowances, rules)
    ensures Steady(allowances(address))
  {
    forall m, k | m in allowances(address) && k in allowances(address) && m < k ensures k <= 0 {
      if k > 0 {
        var attempts := seq(k, i => Attempt(address, k, 0.0)) + [Attempt(address, m, 0.0)];
        assert MayAsk(allowances, attempts + [Attempt(address, k, 0.0)]);
        SmallerForgets(address, m, k, rules);
      }
    }
  }

  // ---- one course at a time ----

  ghost predicate Ascending(times: seq<real>) {
    forall i, j :: 0 <= i < j < |times| ==> times[i] <= times[j]
  }

  /** What the book has of an address is the newest of what counts: all of it, or at least `most`. */
  ghost predicate NewestOf(kept: seq<real>, all: seq<real>, most: int) {
    |kept| <= |all| && kept == all[|all| - |kept|..] && (kept == all || |kept| >= most)
  }

  lemma NewerAreRecent(older: seq<real>, kept: seq<real>, t: real, later: real, window: real)
    requires Ascending(older + kept) && t in older && later - t < window
    ensures Recent(kept, later, window) == kept
  {
    var all := older + kept;
    var i :| 0 <= i < |older| && older[i] == t;
    forall x | x in kept ensures later - x < window {
      var j :| 0 <= j < |kept| && kept[j] == x;
      assert all[i] == t && all[|older| + j] == x;
    }
    AllRecent(kept, later, window);
  }

  lemma NewestLater(kept: seq<real>, all: seq<real>, most: int, later: real, window: real)
    requires NewestOf(kept, all, most) && Ascending(all)
    ensures NewestOf(Recent(kept, later, window), Recent(all, later, window), most)
  {
    var older := all[..|all| - |kept|];
    assert all == older + kept;
    RecentSplits(older, kept, later, window);
    RecentMembers(older, later, window);
    var gone := Recent(older, later, window);
    if gone == [] {
      assert [] + Recent(kept, later, window) == Recent(kept, later, window);
    } else {
      assert gone[0] in gone;
      NewerAreRecent(older, kept, gone[0], later, window);
      assert (gone + kept)[|gone|..] == kept;
    }
  }

  lemma NewestRefused(kept: seq<real>, all: seq<real>, most: int, a: Attempt, window: real)
    requires NewestOf(kept, all, most) && |kept| >= a.allowed >= most && forall t :: t in kept ==> a.at - t < window
    ensures NewestOf(Recent(Newest(kept, a.allowed), a.at, window), all, most)
  {
    var newest := Newest(kept, a.allowed);
    forall t | t in newest ensures t in kept {}
    AllRecent(newest, a.at, window);
    NewestOfNewest(kept, all, newest, most);
  }

  lemma NewestOfNewest(kept: seq<real>, all: seq<real>, newest: seq<real>, most: int)
    requires NewestOf(kept, all, most) && |newest| <= |kept| && newest == kept[|kept| - |newest|..]
    requires newest == kept || |newest| >= most
    ensures NewestOf(newest, all, most)
  {
  }

  lemma NewestAccepted(kept: seq<real>, all: seq<real>, most: int, last: seq<real>)
    requires NewestOf(kept, all, most)
    ensures NewestOf(kept + last, all + last, most)
  {
  }

  lemma {:induction false} TimesAscend(log: seq<Attempt>, address: string)
    requires InTime(log)
    ensures Ascending(Times(log, address))
  {
    if log != [] {
      var before, last := log[..|log| - 1], log[|log| - 1];
      assert log == before + [last];
      Earlier(before, last);
      TimesAscend(before, address);
      TimesInTime(before, address, last.at);
      var times := Times(before, address);
      forall i | 0 <= i < |times| ensures times[i] <= last.at { assert times[i] in times; }
    }
  }

  lemma {:induction false} RecentAscends(times: seq<real>, now: real, window: real)
    requires Ascending(times)
    ensures Ascending(Recent(times, now, window))
  {
    if times != [] {
      RecentAscends(times[1..], now, window);
      RecentMembers(times[1..], now, window);
      var rest := Recent(times[1..], now, window);
      forall i | 0 <= i < |rest| ensures times[0] <= rest[i] {
        assert rest[i] in rest;
        var j :| 0 <= j < |times[1..]| && times[1..][j] == rest[i];
        assert times[j + 1] == rest[i];
      }
    }
  }

  lemma {:induction false} LogAscends(attempts: seq<Attempt>, rules: Rules)
    requires rules.sweepEvery > 0 && InTime(attempts)
    ensures InTime(After(attempts, rules).log)
  {
    if attempts != [] {
      var before, last := attempts[..|attempts| - 1], attempts[|attempts| - 1];
      assert attempts == before + [last];
      Earlier(before, last);
      LogAscends(before, rules);
      LogInTime(before, last.at, rules);
      AfterOneMore(before, last, rules);
      StepLogs(After(before, rules), last, rules);
      var log := After(before, rules).log;
      forall i | 0 <= i < |log| ensures log[i].at <= last.at { assert log[i] in log; }
    }
  }

  ghost predicate KeepsNewest(s: State, address: string, now: real, most: int, window: real) {
    NewestOf(Recent(Stored(s.book, address), now, window), Recent(Times(s.log, address), now, window), most)
  }

  lemma KeptOnwards(s: State, address: string, now: real, later: real, most: int, window: real)
    requires now <= later && InTime(s.log) && KeepsNewest(s, address, now, most, window)
    ensures KeepsNewest(s, address, later, most, window)
  {
    TimesAscend(s.log, address);
    RecentAscends(Times(s.log, address), now, window);
    NewestLater(Recent(Stored(s.book, address), now, window), Recent(Times(s.log, address), now, window), most,
                later, window);
    RecentLater(Stored(s.book, address), now, later, window);
    RecentLater(Times(s.log, address), now, later, window);
  }

  lemma AskKeepsNewest(kept: seq<real>, times: seq<real>, most: int, a: Attempt, w: real)
    requires NewestOf(kept, Recent(times, a.at, w), most) && a.allowed >= most
    requires forall t :: t in kept ==> a.at - t < w
    ensures |kept| >= a.allowed ==> NewestOf(Recent(Newest(kept, a.allowed), a.at, w), Recent(times, a.at, w), most)
    ensures NewestOf(Recent(kept + [a.at], a.at, w), Recent(times + [a.at], a.at, w), most)
  {
    if |kept| >= a.allowed { NewestRefused(kept, Recent(times, a.at, w), most, a, w); }
    AllRecent(kept, a.at, w);
    RecentSplits(kept, [a.at], a.at, w);
    RecentSplits(times, [a.at], a.at, w);
    NewestAccepted(kept, Recent(times, a.at, w), most, Recent([a.at], a.at, w));
  }

  /** For every other address the same counts as before. */
  lemma OtherCounts(s: State, a: Attempt, rules: Rules, address: string)
    requires rules.sweepEvery > 0 && Kept(Stored(s.book, address), a.at) && a.address != address
    ensures Recent(Stored(Step(s, a, rules).book, address), a.at, rules.window) ==
            Recent(Stored(s.book, address), a.at, rules.window)
    ensures Times(Step(s, a, rules).log, address) == Times(s.log, address)
  {
    StoredAfter(s, a, rules, address);
    SweepLosesNothing(s.book, address, a.at, rules.window);
  }

  lemma OwnKeepsNewest(s: State, a: Attempt, rules: Rules, most: int)
    requires rules.sweepEvery > 0 && BookFits(s, a.at) && KeepsNewest(s, a.address, a.at, most, rules.window)
    requires a.allowed >= most
    ensures KeepsNewest(Step(s, a, rules), a.address, a.at, most, rules.window)
  {
    StoredAfter(s, a, rules, a.address);
    CountsNow(s, a, rules);
    AskKeepsNewest(RecentAt(s, a, rules), Times(s.log, a.address), most, a, rules.window);
    assert Times(s.log, a.address) + [] == Times(s.log, a.address);
  }

  lemma {:induction false} AlwaysKeepsNewest(
      attempts: seq<Attempt>, now: real, rules: Rules, address: string, most: int)
    requires rules.sweepEvery > 0 && InTime(attempts) && forall a :: a in attempts ==> a.at <= now
    requires forall a :: a in attempts && a.address == address ==> a.allowed >= most
    ensures KeepsNewest(After(attempts, rules), address, now, most, rules.window)
  {
    if attempts != [] {
      var before, a := attempts[..|attempts| - 1], attempts[|attempts| - 1];
      assert attempts == before + [a];
      Earlier(before, a);
      AlwaysFits(before, a.at, rules);
      AlwaysKeepsNewest(before, a.at, rules, address, most);
      if a.address == address {
        OwnKeepsNewest(After(before, rules), a, rules, most);
      } else {
        assert Kept(Stored(After(before, rules).book, address), a.at);
        OtherCounts(After(before, rules), a, rules, address);
      }
      AfterOneMore(before, a, rules);
      LogAscends(attempts, rules);
      KeptOnwards(After(attempts, rules), address, a.at, now, most, rules.window);
    }
  }

  /**
   Course by course: asked with an allowance no larger than any it was asked with before, an address is refused
   exactly when that many of its attempts were let through within the last window. What the book gives up on a
   refusal are the oldest times, so what is left is enough for every smaller allowance, whenever it is asked.
  */
  lemma LowerIsExact(attempts: seq<Attempt>, a: Attempt, rules: Rules)
    requires rules.sweepEvery > 0 && InTime(attempts + [a])
    requires forall x :: x in attempts && x.address == a.address ==> x.allowed >= a.allowed
    ensures Exact(attempts, a, rules)
  {
    var s := After(attempts, rules);
    Earlier(attempts, a);
    AlwaysFits(attempts, a.at, rules);
    AlwaysKeepsNewest(attempts, a.at, rules, a.address, a.allowed);
    CountsNow(s, a, rules);
  }
}

/**
 How long the rig was busy in a window of whole local days: job times clipped, sorted and merged,
 and split across midnights -- against a count of the instants at which some job held it.
*/
module BusyTime {
  import opened Names

  /** Instants are whole microseconds, as the timestamps are. */
  const DAY: int := 86_400_000_000

  datatype Job = Job(kind: string, started: Option<int>, finished: Option<int>)

  /** From begin up to, not including, end. */
  datatype Span = Span(begin: int, end: int)

  /** The three kinds of job that count as busy time. */
  predicate TakesRig(j: Job) {
    j.kind in {"suite", "build", "inventory"}
  }

  function DayOf(t: int, offset: int): int {
    (t + offset) / DAY
  }

  function Midnight(day: int, offset: int): int {
    day * DAY - offset
  }

  function FirstDay(now: int, days: int, offset: int): int {
    DayOf(now, offset) - (days - 1)
  }

  /** Local midnight of the window's first day, `days - 1` days before the day of `now`. */
  function WindowStart(now: int, days: int, offset: int): int {
    Midnight(FirstDay(now, days, offset), offset)
  }

  // ---- what busy means ----

  predicate RunsAt(j: Job, t: int) {
    TakesRig(j) && j.started.Some? && j.started.value <= t && (j.finished.Some? ==> t < j.finished.value)
  }

  ghost function BusyInstants(jobs: seq<Job>, start: int, now: int): set<int> {
    set t | t in Range(Span(start, now)) && (exists j :: j in jobs && RunsAt(j, t))
  }

  ghost function OnDay(instants: set<int>, day: int, offset: int): set<int> {
    set t | t in instants && DayOf(t, offset) == day
  }

  /** A job that begins after now, and ends later still, is counted backwards. */
  predicate BeginsLate(j: Job, now: int) {
    TakesRig(j) && j.started.Some? && j.started.value > now && j.finished.Some? && j.finished.value > j.started.value
  }

  // ---- spans ----

  function Max(a: int, b: int): int {
    if a < b then b else a
  }

  function Lesser(a: int, b: int): int {
    if a < b then a else b
  }

  /** The part of a job between `start` and `now`, as at most one span. */
  function SpanOf(j: Job, start: int, now: int): seq<Span> {
    if !TakesRig(j) || j.started.None? then []
    else
      var begin := Max(j.started.value, start);
      var end := if j.finished.Some? then j.finished.value else now;
      if end > begin then [Span(begin, Lesser(end, now))] else []
  }

  function SpansOf(jobs: seq<Job>, start: int, now: int): seq<Span> {
    if jobs == [] then []
    else SpansOf(jobs[..|jobs| - 1], start, now) + SpanOf(jobs[|jobs| - 1], start, now)
  }

  predicate Sooner(a: Span, b: Span) {
    a.begin < b.begin || (a.begin == b.begin && a.end <= b.end)
  }

  function InsertSpan(s: Span, sorted: seq<Span>): seq<Span> {
    if sorted == [] then [s]
    else if Sooner(s, sorted[0]) then [s] + sorted
    else [sorted[0]] + InsertSpan(s, sorted[1..])
  }

  function Sort(spans: seq<Span>): seq<Span> {
    if spans == [] then [] else InsertSpan(spans[0], Sort(spans[1..]))
  }

  ghost predicate InOrder(spans: seq<Span>) {
    forall i, j :: 0 <= i < j < |spans| ==> spans[i].begin <= spans[j].begin
  }

  lemma {:induction false} InsertIs(s: Span, sorted: seq<Span>)
    requires InOrder(sorted)
    ensures InOrder(InsertSpan(s, sorted))
    ensures forall x :: x in InsertSpan(s, sorted) <==> x == s || x in sorted
  {
    if sorted != [] && !Sooner(s, sorted[0]) {
      InsertIs(s, sorted[1..]);
      assert sorted == [sorted[0]] + sorted[1..];
      forall x | x in sorted[1..] ensures sorted[0].begin <= x.begin {}
    }
  }

  lemma {:induction false} SortIs(spans: seq<Span>)
    ensures InOrder(Sort(spans)) && forall x :: x in Sort(spans) <==> x in spans
  {
    if spans != [] {
      SortIs(spans[1..]);
      InsertIs(spans[0], Sort(spans[1..]));
      assert spans == [spans[0]] + spans[1..];
    }
  }

  // ---- the instants of spans ----

  predicate Within(t: int, s: Span) {
    s.begin <= t < s.end
  }

  ghost function Range(s: Span): set<int> {
    set t {:trigger Within(t, s)} | s.begin <= t < s.end && Within(t, s)
  }

  lemma {:induction false} RangeSize(s: Span)
    ensures |Range(s)| == if s.begin < s.end then s.end - s.begin else 0
    decreases s.end - s.begin
  {
    if s.begin < s.end {
      var shorter := Span(s.begin, s.end - 1);
      RangeSize(shorter);
      assert Range(s) == Range(shorter) + {s.end - 1};
    } else {
      assert Range(s) == {};
    }
  }

  /** All the instants some span covers. */
  ghost function Instants(spans: seq<Span>): set<int> {
    if spans == [] then {} else Instants(spans[..|spans| - 1]) + Range(spans[|spans| - 1])
  }

  lemma {:induction false} InstantsAre(spans: seq<Span>, t: int)
    ensures t in Instants(spans) <==> exists s :: s in spans && s.begin <= t < s.end
  {
    if spans != [] {
      var n := |spans| - 1;
      InstantsAre(spans[..n], t);
      assert spans == spans[..n] + [spans[n]];
    }
  }

  lemma {:induction false} SpansOfMember(jobs: seq<Job>, start: int, now: int, s: Span)
    ensures s in SpansOf(jobs, start, now) <==> exists j :: j in jobs && s in SpanOf(j, start, now)
  {
    if jobs != [] {
      var n := |jobs| - 1;
      SpansOfMember(jobs[..n], start, now, s);
      assert jobs == jobs[..n] + [jobs[n]];
    }
  }

  lemma SpanRuns(j: Job, start: int, now: int, t: int)
    ensures (start <= t < now && RunsAt(j, t)) <==>
            (SpanOf(j, start, now) != [] && SpanOf(j, start, now)[0].begin <= t < SpanOf(j, start, now)[0].end)
  {
  }

  lemma CoveredIsBusy(jobs: seq<Job>, start: int, now: int, t: int)
    ensures (exists s :: s in SpansOf(jobs, start, now) && s.begin <= t < s.end) <==>
      t in BusyInstants(jobs, start, now)
  {
    if s :| s in SpansOf(jobs, start, now) && s.begin <= t < s.end {
      SpansOfMember(jobs, start, now, s);
      var j :| j in jobs && s in SpanOf(j, start, now);
      SpanRuns(j, start, now, t);
    }
    if t in BusyInstants(jobs, start, now) {
      var j :| j in jobs && RunsAt(j, t);
      SpanRuns(j, start, now, t);
      var s := SpanOf(j, start, now)[0];
      assert s in SpanOf(j, start, now);
      SpansOfMember(jobs, start, now, s);
    }
  }

  /** Clipped or not, the spans cover exactly the instants at which a job ran inside the window. */
  lemma SpansAreBusy(jobs: seq<Job>, start: int, now: int, spans: seq<Span>)
    requires forall s :: s in spans <==> s in SpansOf(jobs, start, now)
    ensures Instants(spans) == BusyInstants(jobs, start, now)
  {
    forall t ensures t in Instants(spans) <==> t in BusyInstants(jobs, start, now) {
      InstantsAre(spans, t);
      CoveredIsBusy(jobs, start, now, t);
    }
  }

  // ---- merging ----

  function MergeStep(merged: seq<Span>, s: Span): seq<Span> {
    var n := |merged| - 1;
    if n >= 0 && s.begin <= merged[n].end then merged[..n] + [Span(merged[n].begin, Max(merged[n].end, s.end))]
    else merged + [s]
  }

  /** What the clipping leaves: a span within the window, or one that begins after now and ends at it. */
  ghost predicate Clipped(s: Span, now: int) {
    s.end <= now && (s.begin <= s.end || s.begin > now)
  }

  /** Spans that touch nowhere, each beginning after the one before it ended. */
  ghost predicate Merged(merged: seq<Span>, now: int) {
    && (forall s :: s in merged ==> Clipped(s, now))
    && (forall i, j :: 0 <= i < j < |merged| ==> merged[i].end < merged[j].begin && merged[i].begin <= merged[j].begin)
  }

  /** Some span begins after now. */
  ghost predicate SomeLate(spans: seq<Span>, now: int) {
    exists s :: s in spans && s.begin > now
  }

  lemma MergeStepMerges(merged: seq<Span>, s: Span, now: int)
    requires Merged(merged, now) && Clipped(s, now)
    requires merged != [] ==> merged[|merged| - 1].begin <= s.begin
    ensures Merged(MergeStep(merged, s), now)
    ensures MergeStep(merged, s)[|MergeStep(merged, s)| - 1].begin <= s.begin
  {
    var next, n := MergeStep(merged, s), |merged| - 1;
    if n >= 0 {
      assert Clipped(merged[n], now) by { assert merged[n] in merged; }
      assert forall i :: 0 <= i < n ==> merged[i].end < merged[n].begin && merged[i].begin <= merged[n].begin;
    }
    forall x | x in next ensures Clipped(x, now) {}
  }

  lemma MergeStepCovers(merged: seq<Span>, s: Span, now: int)
    requires Merged(merged, now) && Clipped(s, now)
    requires merged != [] ==> merged[|merged| - 1].begin <= s.begin
    ensures Instants(MergeStep(merged, s)) == Instants(merged) + Range(s)
    ensures SomeLate(MergeStep(merged, s), now) <==> SomeLate(merged, now) || s.begin > now
  {
    var n := |merged| - 1;
    if n >= 0 && s.begin <= merged[n].end {
      assert merged[n] in merged;
      var before, last := Stretches(merged, s);
      Replaced(before, last, Span(last.begin, Max(last.end, s.end)), s, now);
    } else {
      OneMore(merged, s, now);
    }
  }

  /** A span that begins within the last one stretches it. */
  lemma Stretches(merged: seq<Span>, s: Span) returns (before: seq<Span>, last: Span)
    requires merged != [] && s.begin <= merged[|merged| - 1].end
    ensures merged == before + [last] && last == merged[|merged| - 1]
    ensures MergeStep(merged, s) == before + [Span(last.begin, Max(last.end, s.end))]
  {
    before, last := merged[..|merged| - 1], merged[|merged| - 1];
  }

  lemma Replaced(before: seq<Span>, last: Span, longer: Span, s: Span, now: int)
    requires longer == Span(last.begin, Max(last.end, s.end)) && last.begin <= s.begin <= last.end
    requires Clipped(last, now) && Clipped(s, now)
    ensures Instants(before + [longer]) == Instants(before + [last]) + Range(s)
    ensures SomeLate(before + [longer], now) <==> SomeLate(before + [last], now) || s.begin > now
  {
    OneMore(before, last, now);
    OneMore(before, longer, now);
    TouchingRanges(last, s);
    Regrouped(Instants(before), Range(last), Range(s), Range(longer));
  }

  lemma Regrouped(a: set<int>, b: set<int>, c: set<int>, d: set<int>)
    requires d == b + c
    ensures a + d == a + b + c
  {
  }

  lemma OneMore(spans: seq<Span>, s: Span, now: int)
    ensures Instants(spans + [s]) == Instants(spans) + Range(s)
    ensures SomeLate(spans + [s], now) <==> SomeLate(spans, now) || s.begin > now
  {
    assert (spans + [s])[..|spans|] == spans;
    assert s in spans + [s] && forall x :: x in spans ==> x in spans + [s];
  }

  lemma TouchingRanges(a: Span, b: Span)
    requires a.begin <= b.begin <= a.end
    ensures Range(Span(a.begin, Max(a.end, b.end))) == Range(a) + Range(b)
  {
  }

  method MergeAll(sorted: seq<Span>, now: int) returns (merged: seq<Span>)
    requires InOrder(sorted) && forall s :: s in sorted ==> Clipped(s, now)
    ensures Merged(merged, now) && Instants(merged) == Instants(sorted)
    ensures SomeLate(merged, now) <==> SomeLate(sorted, now)
  {
    merged := [];
    for i := 0 to |sorted|
      invariant Merged(merged, now) && Instants(merged) == Instants(sorted[..i])
      invariant merged != [] ==> i > 0 && merged[|merged| - 1].begin <= sorted[i - 1].begin
      invariant SomeLate(merged, now) <==> SomeLate(sorted[..i], now)
    {
      LateSoFar(sorted, i, now);
      MergeStepMerges(merged, sorted[i], now);
      MergeStepCovers(merged, sorted[i], now);
      merged := MergeStep(merged, sorted[i]);
    }
    assert sorted[..|sorted|] == sorted;
  }

  lemma LateSoFar(spans: seq<Span>, i: nat, now: int)
    requires i < |spans|
    ensures SomeLate(spans[..i + 1], now) <==> SomeLate(spans[..i], now) || spans[i].begin > now
    ensures Instants(spans[..i + 1]) == Instants(spans[..i]) + Range(spans[i])
  {
    OneMore(spans[..i], spans[i], now);
    assert spans[..i + 1] == spans[..i] + [spans[i]];
  }

  // ---- adding up ----

  lemma MergedApart(merged: seq<Span>, now: int, i: nat)
    requires Merged(merged, now) && i < |merged|
    ensures Instants(merged[..i]) !! Range(merged[i])
    ensures Instants(merged[..i + 1]) == Instants(merged[..i]) + Range(merged[i])
  {
    assert merged[..i + 1][..i] == merged[..i];
    forall t | t in Instants(merged[..i]) ensures t < merged[i].begin {
      InstantsAre(merged[..i], t);
      var s :| s in merged[..i] && s.begin <= t < s.end;
      var k :| 0 <= k < i && merged[k] == s;
    }
  }

  /** Seconds by local day; only the days asked for are counted. */
  type PerDay = map<int, int>

  ghost predicate CountsDays(perDay: PerDay, first: int, days: int, instants: set<int>, offset: int) {
    forall d :: first <= d < first + days ==> d in perDay && perDay[d] == |OnDay(instants, d, offset)|
  }

  function Credit(perDay: PerDay, day: int, amount: int): PerDay {
    if day in perDay then perDay[day := perDay[day] + amount] else perDay
  }

  lemma OnDayPlus(instants: set<int>, piece: Span, day: int, d: int, offset: int)
    requires piece.begin < piece.end && instants !! Range(piece)
    requires forall t :: t in Range(piece) ==> DayOf(t, offset) == day
    ensures |OnDay(instants + Range(piece), d, offset)| ==
            |OnDay(instants, d, offset)| + (if d == day then piece.end - piece.begin else 0)
  {
    RangeSize(piece);
    assert OnDay(instants + Range(piece), d, offset) ==
           OnDay(instants, d, offset) + (if d == day then Range(piece) else {});
  }

  lemma AddPiece(perDay: PerDay, first: int, days: int, instants: set<int>, piece: Span, day: int, offset: int)
    requires CountsDays(perDay, first, days, instants, offset)
    requires piece.begin < piece.end && instants !! Range(piece)
    requires forall t :: t in Range(piece) ==> DayOf(t, offset) == day
    ensures CountsDays(Credit(perDay, day, piece.end - piece.begin), first, days, instants + Range(piece), offset)
  {
    forall d | first <= d < first + days
      ensures |OnDay(instants + Range(piece), d, offset)| ==
              |OnDay(instants, d, offset)| + (if d == day then piece.end - piece.begin else 0)
    {
      OnDayPlus(instants, piece, day, d, offset);
    }
  }

  lemma SameDay(t: int, u: int, offset: int)
    requires t <= u < Midnight(DayOf(t, offset) + 1, offset)
    ensures DayOf(u, offset) == DayOf(t, offset)
  {
  }

  /** Add to each local day the instants of the span that fall in it. */
  method Split(perDay: PerDay, s: Span, first: int, days: int, offset: int, ghost before: set<int>)
      returns (after: PerDay)
    requires CountsDays(perDay, first, days, before, offset) && before !! Range(s)
    ensures CountsDays(after, first, days, before + Range(s), offset)
  {
    after := perDay;
    var cursor := s.begin;
    assert before + Range(Span(s.begin, cursor)) == before;
    while cursor < s.end
      invariant s.begin <= cursor && (cursor <= s.end || cursor == s.begin)
      invariant CountsDays(after, first, days, before + Range(Span(s.begin, cursor)), offset)
      decreases s.end - cursor
    {
      var day := DayOf(cursor, offset);
      var pieceEnd := Lesser(s.end, Midnight(day + 1, offset));
      AddNextPiece(after, first, days, before, s.begin, cursor, pieceEnd, offset);
      after := Credit(after, day, pieceEnd - cursor);
      cursor := pieceEnd;
    }
    assert before + Range(Span(s.begin, cursor)) == before + Range(s);
  }

  lemma AddNextPiece(perDay: PerDay, first: int, days: int, before: set<int>, begin: int, cursor: int, end: int,
      offset: int)
    requires begin <= cursor < end <= Midnight(DayOf(cursor, offset) + 1, offset)
    requires CountsDays(perDay, first, days, before + Range(Span(begin, cursor)), offset)
    requires before !! Range(Span(begin, end))
    ensures CountsDays(Credit(perDay, DayOf(cursor, offset), end - cursor), first, days,
                       before + Range(Span(begin, end)), offset)
  {
    var done, piece := before + Range(Span(begin, cursor)), Span(cursor, end);
    forall t | t in Range(piece) ensures DayOf(t, offset) == DayOf(cursor, offset) && t !in done {
      SameDay(cursor, t, offset);
      assert t in Range(Span(begin, end));
    }
    AddPiece(perDay, first, days, done, piece, DayOf(cursor, offset), offset);
    assert done + Range(piece) == before + Range(Span(begin, end));
  }

  /** Every day asked for, with nothing counted yet. */
  method EmptyDays(first: int, days: nat, offset: int) returns (perDay: PerDay)
    ensures CountsDays(perDay, first, days, {}, offset)
  {
    perDay := map[];
    for k := 0 to days
      invariant forall d :: first <= d < first + k ==> d in perDay && perDay[d] == 0
    {
      perDay := perDay[first + k := 0];
    }
    assert forall d :: OnDay({}, d, offset) == {};
  }

  /** The whole time of the merged spans, and the part of it on each day. */
  method AddUp(merged: seq<Span>, now: int, first: int, days: nat, offset: int) returns (busy: int, perDay: PerDay)
    requires Merged(merged, now)
    ensures busy <= |Instants(merged)| && (busy == |Instants(merged)| <==> !SomeLate(merged, now))
    ensures CountsDays(perDay, first, days, Instants(merged), offset)
  {
    busy := 0;
    perDay := EmptyDays(first, days, offset);
    for i := 0 to |merged|
      invariant busy <= |Instants(merged[..i])|
      invariant busy == |Instants(merged[..i])| <==> !SomeLate(merged[..i], now)
      invariant CountsDays(perDay, first, days, Instants(merged[..i]), offset)
    {
      MergedApart(merged, now, i);
      RangeSize(merged[i]);
      assert Clipped(merged[i], now);
      LateSoFar(merged, i, now);
      perDay := Split(perDay, merged[i], first, days, offset, Instants(merged[..i]));
      busy := busy + (merged[i].end - merged[i].begin);
    }
    assert merged[..|merged|] == merged;
  }

  lemma LateSpans(jobs: seq<Job>, start: int, now: int, spans: seq<Span>)
    requires start <= now && forall s :: s in spans <==> s in SpansOf(jobs, start, now)
    ensures forall s :: s in spans ==> Clipped(s, now)
    ensures SomeLate(spans, now) <==> exists j :: j in jobs && BeginsLate(j, now)
  {
    forall s | s in spans ensures Clipped(s, now) {
      SpansOfMember(jobs, start, now, s);
    }
    if s :| s in spans && s.begin > now {
      SpansOfMember(jobs, start, now, s);
      var j :| j in jobs && s in SpanOf(j, start, now);
      assert BeginsLate(j, now);
    }
    if j :| j in jobs && BeginsLate(j, now) {
      var s := SpanOf(j, start, now)[0];
      assert s in SpanOf(j, start, now);
      SpansOfMember(jobs, start, now, s);
    }
  }

  method CollectSpans(jobs: seq<Job>, start: int, now: int) returns (spans: seq<Span>)
    ensures spans == SpansOf(jobs, start, now)
  {
    spans := [];
    for i := 0 to |jobs|
      invariant spans == SpansOf(jobs[..i], start, now)
    {
      assert jobs[..i + 1][..i] == jobs[..i];
      spans := spans + SpanOf(jobs[i], start, now);
    }
    assert jobs[..|jobs|] == jobs;
  }

  /**
   Busy time is a measure. Whatever jobs overlap, each day is given exactly the instants of that day
   at which some job held the rig; and the total is the number of instants in the window at which
   one did if, and only if, no job counted begins after now. Otherwise it falls short.
  */
  method BusySeconds(jobs: seq<Job>, now: int, days: int, offset: int) returns (busy: int, perDay: PerDay)
    requires days >= 1
    ensures var instants := BusyInstants(jobs, WindowStart(now, days, offset), now);
      && (busy == |instants| <==> forall j :: j in jobs ==> !BeginsLate(j, now))
      && busy <= |instants|
      && CountsDays(perDay, FirstDay(now, days, offset), days, instants, offset)
  {
    var start := WindowStart(now, days, offset);
    var spans := CollectSpans(jobs, start, now);
    var sorted := Sort(spans);
    SortIs(spans);
    SpansAreBusy(jobs, start, now, sorted);
    LateSpans(jobs, start, now, sorted);
    var merged := MergeAll(sorted, now);
    busy, perDay := AddUp(merged, now, FirstDay(now, days, offset), days, offset);
  }

  /** One job that begins after now and ends later still: the clipped span it adds is negative. */
  lemma LateIsNegative(j: Job, start: int, now: int)
    requires start <= now && BeginsLate(j, now)
    ensures SpanOf(j, start, now) == [Span(j.started.value, now)] && now - j.started.value < 0
    ensures BusyInstants([j], start, now) == {}
  {
    assert forall x :: x in [j] ==> x == j;
  }

  // ---- the days together ----

  function Sum(perDay: PerDay, first: int, days: nat): int
    requires forall d :: first <= d < first + days ==> d in perDay
  {
    if days == 0 then 0 else Sum(perDay, first, days - 1) + perDay[first + days - 1]
  }

  ghost function OnDays(instants: set<int>, first: int, days: int, offset: int): set<int> {
    set t | t in instants && first <= DayOf(t, offset) < first + days
  }

  lemma {:induction false} DaysAddUp(perDay: PerDay, first: int, days: nat, instants: set<int>, offset: int)
    requires CountsDays(perDay, first, days, instants, offset)
    ensures Sum(perDay, first, days) == |OnDays(instants, first, days, offset)|
  {
    if days == 0 {
      assert OnDays(instants, first, days, offset) == {};
    } else {
      DaysAddUp(perDay, first, days - 1, instants, offset);
      assert OnDays(instants, first, days, offset) ==
             OnDays(instants, first, days - 1, offset) + OnDay(instants, first + days - 1, offset);
    }
  }

  /** The window begins at a local midnight, as many midnights back as days are asked for, today's the first. */
  lemma WindowIs(now: int, days: int, offset: int)
    ensures (WindowStart(now, days, offset) + offset) % DAY == 0
    ensures (days - 1) * DAY <= now - WindowStart(now, days, offset) < days * DAY
  {
    var day, first := DayOf(now, offset), FirstDay(now, days, offset);
    assert first * DAY == day * DAY - (days - 1) * DAY;
    assert (first * DAY) % DAY == 0;
  }

  /** The days add up to the whole, and the whole is no more than the window. */
  lemma WindowAddsUp(jobs: seq<Job>, now: int, days: nat, offset: int, perDay: PerDay)
    requires days >= 1
    requires var instants := BusyInstants(jobs, WindowStart(now, days, offset), now);
      CountsDays(perDay, FirstDay(now, days, offset), days, instants, offset)
    ensures var instants := BusyInstants(jobs, WindowStart(now, days, offset), now);
      && Sum(perDay, FirstDay(now, days, offset), days) == |instants|
      && |instants| <= now - WindowStart(now, days, offset)
  {
    var first, start := FirstDay(now, days, offset), WindowStart(now, days, offset);
    var instants := BusyInstants(jobs, start, now);
    DaysAddUp(perDay, first, days, instants, offset);
    forall t | start <= t < now ensures first <= DayOf(t, offset) < first + days {}
    assert OnDays(instants, first, days, offset) == instants;
    RangeSize(Span(start, now));
    Subset(instants, Range(Span(start, now)));
  }

  lemma Subset(a: set<int>, b: set<int>)
    requires a <= b
    ensures |a| <= |b|
  {
    assert b == a + (b - a);
  }
}

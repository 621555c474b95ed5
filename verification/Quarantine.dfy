/**
 What a canary run says about each board, and which boards it takes out of the pool or gives back:
 the evidence is comparative -- a check that another board passed.
*/
module Quarantine {
  import opened Names

  datatype Verdict = Failed | Error | Passed | Skipped

  /** One line of the results: a check, on a board. */
  datatype Record = Record(board: string, check: string, verdict: Verdict)

  /** Checks that count neither against a board nor against the farm. */
  const BOARD_ONLY_CHECKS: set<string> := {"test_every_wire_carries_a_level_both_ways"}

  type Checks = map<string, Verdict>

  function Badness(v: Verdict): nat {
    match v
    case Failed | Error => 3
    case Passed => 2
    case Skipped => 1
  }

  predicate Red(v: Verdict) {
    v == Failed || v == Error
  }

  // ---- what the records of one run say of a board and a check ----

  predicate About(r: Record, board: string, check: string) {
    r.board == board && r.check == check
  }

  /** The i-th record is the first of the worst there are for its board and check. */
  ghost predicate IsWorst(records: seq<Record>, i: nat)
    requires i < |records|
  {
    var r := records[i];
    forall j :: 0 <= j < |records| && About(records[j], r.board, r.check) ==>
      Badness(records[j].verdict) <= Badness(r.verdict) &&
      (Badness(records[j].verdict) == Badness(r.verdict) ==> i <= j)
  }

  ghost predicate SaysWorst(records: seq<Record>, board: string, check: string, v: Verdict) {
    exists i :: 0 <= i < |records| && About(records[i], board, check) && records[i].verdict == v && IsWorst(records, i)
  }

  function ChecksOf(perBoard: map<string, Checks>, board: string): Checks {
    if board in perBoard then perBoard[board] else map[]
  }

  ghost predicate HasBoards(perBoard: map<string, Checks>, records: seq<Record>) {
    forall board :: board in perBoard <==> exists r :: r in records && r.board == board
  }

  ghost predicate HasChecks(perBoard: map<string, Checks>, records: seq<Record>) {
    forall r :: r in records ==> r.check in ChecksOf(perBoard, r.board)
  }

  ghost predicate KeepsWorst(perBoard: map<string, Checks>, records: seq<Record>) {
    forall board, check :: check in ChecksOf(perBoard, board) ==>
      SaysWorst(records, board, check, ChecksOf(perBoard, board)[check])
  }

  ghost predicate Summarises(perBoard: map<string, Checks>, records: seq<Record>) {
    HasBoards(perBoard, records) && HasChecks(perBoard, records) && KeepsWorst(perBoard, records)
  }

  /** One more record: it stands if it is the first for its board and check, or strictly worse. */
  function Noted(perBoard: map<string, Checks>, r: Record): map<string, Checks> {
    var checks := ChecksOf(perBoard, r.board);
    if r.check !in checks || Badness(r.verdict) > Badness(checks[r.check])
    then perBoard[r.board := checks[r.check := r.verdict]]
    else perBoard
  }

  lemma WorstOfMore(records: seq<Record>, r: Record, board: string, check: string, v: Verdict)
    requires SaysWorst(records, board, check, v)
    ensures !About(r, board, check) || Badness(r.verdict) <= Badness(v) ==> SaysWorst(records + [r], board, check, v)
    ensures About(r, board, check) && Badness(r.verdict) > Badness(v) ==>
      SaysWorst(records + [r], board, check, r.verdict)
  {
    var more, n := records + [r], |records|;
    var i :| 0 <= i < n && About(records[i], board, check) && records[i].verdict == v && IsWorst(records, i);
    assert more[i] == records[i] && more[n] == r && forall j :: 0 <= j < n ==> more[j] == records[j];
    if About(r, board, check) && Badness(r.verdict) > Badness(v) {
      assert IsWorst(more, n);
    } else {
      assert IsWorst(more, i);
    }
  }

  lemma FirstIsWorst(records: seq<Record>, r: Record)
    requires forall x :: x in records ==> !About(x, r.board, r.check)
    ensures SaysWorst(records + [r], r.board, r.check, r.verdict)
  {
    var more, n := records + [r], |records|;
    assert forall j :: 0 <= j < n ==> more[j] == records[j] && records[j] in records;
    assert more[n] == r && IsWorst(more, n);
  }

  lemma NotingKeepsWorst(perBoard: map<string, Checks>, records: seq<Record>, r: Record)
    requires KeepsWorst(perBoard, records) && HasChecks(perBoard, records)
    ensures KeepsWorst(Noted(perBoard, r), records + [r])
  {
    var next, more := Noted(perBoard, r), records + [r];
    forall board, check | check in ChecksOf(next, board)
      ensures SaysWorst(more, board, check, ChecksOf(next, board)[check])
    {
      if check in ChecksOf(perBoard, board) {
        WorstOfMore(records, r, board, check, ChecksOf(perBoard, board)[check]);
      } else {
        FirstIsWorst(records, r);
      }
    }
  }

  lemma NotingKeepsChecks(perBoard: map<string, Checks>, records: seq<Record>, r: Record)
    requires HasChecks(perBoard, records)
    ensures HasChecks(Noted(perBoard, r), records + [r])
  {
    forall x | x in records + [r] ensures x.check in ChecksOf(Noted(perBoard, r), x.board) {
      if x in records { assert x.check in ChecksOf(perBoard, x.board); }
    }
  }

  lemma NotingKeepsBoards(perBoard: map<string, Checks>, records: seq<Record>, r: Record)
    requires HasBoards(perBoard, records) && HasChecks(perBoard, records)
    ensures HasBoards(Noted(perBoard, r), records + [r])
  {
    var next, more := Noted(perBoard, r), records + [r];
    forall board ensures board in next <==> exists x :: x in more && x.board == board {
      if board in perBoard {
        var x :| x in records && x.board == board;
        assert x in more;
      }
      if board == r.board { assert r in more; }
    }
  }

  lemma NotingSummarises(perBoard: map<string, Checks>, records: seq<Record>, r: Record)
    requires Summarises(perBoard, records)
    ensures Summarises(Noted(perBoard, r), records + [r])
  {
    NotingKeepsBoards(perBoard, records, r);
    NotingKeepsChecks(perBoard, records, r);
    NotingKeepsWorst(perBoard, records, r);
  }

  function PerBoard(records: seq<Record>): map<string, Checks> {
    if records == [] then map[] else Noted(PerBoard(records[..|records| - 1]), records[|records| - 1])
  }

  /** Read the results back, per board: each check at the worst it did there. */
  lemma {:induction false} PerBoardSummarises(records: seq<Record>)
    ensures Summarises(PerBoard(records), records)
  {
    if records == [] {
      NothingSummarised();
    } else {
      var before, last := records[..|records| - 1], records[|records| - 1];
      assert records == before + [last];
      PerBoardSummarises(before);
      NotingSummarises(PerBoard(before), before, last);
    }
  }

  lemma NothingSummarised()
    ensures Summarises(map[], [])
  {
  }

  lemma KeptIsWorst(records: seq<Record>, board: string, check: string)
    requires check in ChecksOf(PerBoard(records), board)
    ensures SaysWorst(records, board, check, ChecksOf(PerBoard(records), board)[check])
  {
    PerBoardSummarises(records);
  }

  method Summarise(records: seq<Record>) returns (perBoard: map<string, Checks>)
    ensures perBoard == PerBoard(records)
  {
    perBoard := map[];
    for i := 0 to |records|
      invariant perBoard == PerBoard(records[..i])
    {
      assert records[..i + 1][..i] == records[..i];
      var r := records[i];
      var checks := if r.board in perBoard then perBoard[r.board] else map[];
      if r.check !in checks || Badness(r.verdict) > Badness(checks[r.check]) {
        perBoard := perBoard[r.board := checks[r.check := r.verdict]];
      }
    }
    assert records[..|records|] == records;
  }

  lemma WorstBounds(records: seq<Record>, board: string, check: string, v: Verdict)
    requires SaysWorst(records, board, check, v)
    ensures exists r :: r in records && About(r, board, check) && r.verdict == v
    ensures forall r :: r in records && About(r, board, check) ==> Badness(r.verdict) <= Badness(v)
  {
    var i :| 0 <= i < |records| && About(records[i], board, check) && records[i].verdict == v && IsWorst(records, i);
    assert records[i] in records;
    forall r | r in records && About(r, board, check) ensures Badness(r.verdict) <= Badness(v) {
      var j :| 0 <= j < |records| && records[j] == r;
    }
  }

  /** A check that went red once is red, whatever it did before or since: a retry that passes does not clear it. */
  lemma RedOnceIsRed(records: seq<Record>, board: string, check: string)
    requires check in ChecksOf(PerBoard(records), board)
    ensures Red(ChecksOf(PerBoard(records), board)[check]) <==>
            exists r :: r in records && About(r, board, check) && Red(r.verdict)
    ensures ChecksOf(PerBoard(records), board)[check] == Skipped <==>
            forall r :: r in records && About(r, board, check) ==> r.verdict == Skipped
  {
    KeptIsWorst(records, board, check);
    WorstBounds(records, board, check, ChecksOf(PerBoard(records), board)[check]);
  }

  /** Of several red verdicts the first stands, a failure and an error weighing the same. */
  lemma FirstRedStands(records: seq<Record>, board: string, check: string, i: nat)
    requires i < |records| && About(records[i], board, check) && Red(records[i].verdict)
    requires forall j :: 0 <= j < i && About(records[j], board, check) ==> !Red(records[j].verdict)
    ensures check in ChecksOf(PerBoard(records), board)
    ensures ChecksOf(PerBoard(records), board)[check] == records[i].verdict
  {
    PerBoardSummarises(records);
    assert records[i] in records;
    KeptIsWorst(records, board, check);
    var k :| 0 <= k < |records| && About(records[k], board, check) && IsWorst(records, k)
      && records[k].verdict == ChecksOf(PerBoard(records), board)[check];
    assert k == i;
  }

  /** A check retried and passed: what the first try found stands. */
  lemma RetryStaysRed(board: string, check: string, first: Verdict)
    requires Red(first)
    ensures var records := [Record(board, check, first), Record(board, check, Passed)];
      check in ChecksOf(PerBoard(records), board) && ChecksOf(PerBoard(records), board)[check] == first
  {
    var records := [Record(board, check, first), Record(board, check, Passed)];
    assert records[..1] == [Record(board, check, first)] && records[..1][..0] == [];
    assert PerBoard([]) == map[];
  }

  // ---- the farm's fault, or the board's ----

  predicate Ran(checks: Checks, check: string) {
    check in checks && checks[check] != Skipped
  }

  predicate Fails(checks: Checks, check: string) {
    check in checks && Red(checks[check])
  }

  /** Some board ran the check, and no board that did came through it. */
  predicate FarmWide(perBoard: map<string, Checks>, check: string) {
    && check !in BOARD_ONLY_CHECKS
    && (exists board :: board in perBoard && Ran(perBoard[board], check))
    && (forall board :: board in perBoard && Ran(perBoard[board], check) ==> Fails(perBoard[board], check))
  }

  datatype Outcome = BoardFailed | Inconclusive | BoardPassed

  /** The checks that are this board's own to have failed. */
  function OwnFailures(perBoard: map<string, Checks>, board: string): set<string>
    requires board in perBoard
  {
    set check | check in perBoard[board] && Fails(perBoard[board], check)
      && !FarmWide(perBoard, check) && check !in BOARD_ONLY_CHECKS
  }

  predicate AnyFailure(checks: Checks) {
    exists check :: check in checks && Fails(checks, check)
  }

  function OutcomeOf(perBoard: map<string, Checks>, board: string): Outcome
    requires board in perBoard
  {
    if OwnFailures(perBoard, board) != {} then BoardFailed
    else if AnyFailure(perBoard[board]) then Inconclusive
    else BoardPassed
  }

  /** Another board passed a check that this one failed. */
  ghost predicate Compares(perBoard: map<string, Checks>, board: string, other: string, check: string)
    requires board in perBoard
  {
    && Fails(perBoard[board], check) && check !in BOARD_ONLY_CHECKS
    && other in perBoard && other != board && check in perBoard[other] && perBoard[other][check] == Passed
  }

  /**
   A board is held to have failed exactly when another board, in the same run, passed a check that
   it failed, other than the wiring check; and to have passed exactly when nothing failed on it.
  */
  lemma FailureIsComparative(perBoard: map<string, Checks>, board: string)
    requires board in perBoard
    ensures OutcomeOf(perBoard, board) == BoardFailed <==>
      exists other, check :: Compares(perBoard, board, other, check)
    ensures OutcomeOf(perBoard, board) == BoardPassed <==>
      forall check :: check in perBoard[board] ==> !Red(perBoard[board][check])
  {
    if check :| check in OwnFailures(perBoard, board) {
      assert Ran(perBoard[board], check);
      var other :| other in perBoard && Ran(perBoard[other], check) && !Fails(perBoard[other], check);
      assert Compares(perBoard, board, other, check);
    }
    if other, check :| Compares(perBoard, board, other, check) {
      assert Ran(perBoard[other], check) && !Fails(perBoard[other], check);
      assert check in OwnFailures(perBoard, board);
    }
    if AnyFailure(perBoard[board]) {
      var check :| check in perBoard[board] && Fails(perBoard[board], check);
    }
    if check :| check in perBoard[board] && Red(perBoard[board][check]) {
      assert Fails(perBoard[board], check);
    }
  }

  // ---- who is held ----

  /** What is kept of one canary run about one board. */
  datatype Row = Row(job: string, outcome: Outcome)

  datatype State = Reserved | Quarantined

  datatype Hold = Hold(state: State, job: Option<string>)

  datatype Settings = Settings(enabled: bool, afterFailures: int)

  const HISTORY := 50

  function Recent(rows: seq<Row>): seq<Row> {
    if |rows| <= HISTORY then rows else rows[..HISTORY]
  }

  /** The rows that say something about the board. */
  function Conclusive(rows: seq<Row>): seq<Row> {
    if rows == [] then []
    else (if rows[0].outcome == Inconclusive then [] else [rows[0]]) + Conclusive(rows[1..])
  }

  /** How many of the newest conclusive rows are failures, without a break. */
  function Streak(rows: seq<Row>): nat {
    if rows == [] || rows[0].outcome == BoardPassed then 0
    else (if rows[0].outcome == BoardFailed then 1 else 0) + Streak(rows[1..])
  }

  ghost predicate FirstAllFailed(rows: seq<Row>, k: int) {
    k <= |rows| && forall i :: 0 <= i < k ==> rows[i].outcome == BoardFailed
  }

  lemma {:induction false} StreakIs(rows: seq<Row>, k: int)
    ensures Streak(rows) >= k <==> k <= 0 || FirstAllFailed(Conclusive(rows), k)
  {
    if rows != [] {
      var rest := Conclusive(rows[1..]);
      if rows[0].outcome == Inconclusive {
        StreakIs(rows[1..], k);
        assert Conclusive(rows) == rest;
      } else if rows[0].outcome == BoardFailed {
        StreakIs(rows[1..], k - 1);
        assert Conclusive(rows)[1..] == rest;
        if k > 0 && FirstAllFailed(Conclusive(rows), k) {
          assert forall i :: 0 <= i < k - 1 ==> rest[i] == Conclusive(rows)[i + 1];
        }
      } else {
        assert Conclusive(rows)[0] == rows[0];
      }
    }
  }

  predicate Releases(rows: seq<Row>, hold: Option<Hold>, job: string) {
    var said := Conclusive(rows);
    hold.Some? && hold.value.state == Quarantined && said != [] && said[0] == Row(job, BoardPassed)
  }

  predicate Quarantines(rows: seq<Row>, hold: Option<Hold>, job: string, settings: Settings) {
    settings.enabled && hold.None? && rows != [] && rows[0].job == job && Streak(rows) >= settings.afterFailures
  }

  /** What one canary run makes of the hold on one board it looked at. */
  function Held(rows: seq<Row>, hold: Option<Hold>, job: string, settings: Settings): Option<Hold> {
    if Releases(rows, hold, job) then None
    else if Quarantines(rows, hold, job, settings) then Some(Hold(Quarantined, Some(job)))
    else hold
  }

  function Lookup<V>(m: map<string, V>, key: string): Option<V> {
    if key in m then Some(m[key]) else None
  }

  function RowsOf(verdicts: map<string, seq<Row>>, board: string): seq<Row> {
    if board in verdicts then verdicts[board] else []
  }

  /** The rows of other runs. */
  function OtherJobs(rows: seq<Row>, job: string): seq<Row> {
    if rows == [] then []
    else (if rows[0].job == job then [] else [rows[0]]) + OtherJobs(rows[1..], job)
  }

  /** A board's rows once a run has looked at it. */
  function RowsAfter(rows: seq<Row>, perBoard: map<string, Checks>, board: string, job: string): seq<Row> {
    if board in perBoard then [Row(job, OutcomeOf(perBoard, board))] + OtherJobs(rows, job) else rows
  }

  /** A run has one row for a board. */
  ghost predicate OneRowPerRun(rows: seq<Row>) {
    forall i, j :: 0 <= i < j < |rows| ==> rows[i].job != rows[j].job
  }

  lemma {:induction false} OtherJobsAre(rows: seq<Row>, job: string, row: Row)
    ensures row in OtherJobs(rows, job) <==> row in rows && row.job != job
  {
    if rows != [] {
      OtherJobsAre(rows[1..], job, row);
      assert rows == [rows[0]] + rows[1..];
    }
  }

  lemma {:induction false} OtherJobsOnce(rows: seq<Row>, job: string)
    requires OneRowPerRun(rows)
    ensures OneRowPerRun(OtherJobs(rows, job))
  {
    if rows != [] {
      OtherJobsOnce(rows[1..], job);
      forall row | row in OtherJobs(rows[1..], job) ensures row.job != rows[0].job {
        OtherJobsAre(rows[1..], job, row);
        var i :| 0 <= i < |rows[1..]| && rows[1..][i] == row;
        assert rows[i + 1] == row;
      }
    }
  }

  /** A run that looks at a board again leaves it one row a run. */
  lemma RunsStayOnce(rows: seq<Row>, perBoard: map<string, Checks>, board: string, job: string)
    requires OneRowPerRun(rows)
    ensures OneRowPerRun(RowsAfter(rows, perBoard, board, job))
  {
    OtherJobsOnce(rows, job);
    forall row | row in OtherJobs(rows, job) ensures row.job != job {
      OtherJobsAre(rows, job, row);
    }
  }

  datatype Judgement = Release | Condemn | Leave

  function JudgementOf(rows: seq<Row>, hold: Option<Hold>, job: string, settings: Settings): Judgement {
    if Releases(rows, hold, job) then Release
    else if Quarantines(rows, hold, job, settings) then Condemn else Leave
  }

  /** Of these boards, what was condemned is held and listed, what was cleared is not and is; no other hold changed. */
  ghost predicate Applied(
    boards: seq<string>, before: map<string, Hold>, holds: map<string, Hold>, verdicts: map<string, seq<Row>>,
    quarantined: seq<string>, released: seq<string>, job: string, settings: Settings)
  {
    && (forall b ::
          Lookup(holds, b) ==
          if b in boards
          then Held(Recent(RowsOf(verdicts, b)), Lookup(before, b), job, settings) else Lookup(before, b))
    && (forall b ::
          b in quarantined <==>
          b in boards && Quarantines(Recent(RowsOf(verdicts, b)), Lookup(before, b), job, settings))
    && (forall b :: b in released <==> b in boards && Releases(Recent(RowsOf(verdicts, b)), Lookup(before, b), job))
  }

  lemma AppliedMore(
      boards: seq<string>, board: string, before: map<string, Hold>, was: map<string, Hold>, holds: map<string, Hold>,
      verdicts: map<string, seq<Row>>, quarantined: seq<string>, released: seq<string>, job: string, settings: Settings)
    requires board !in boards && Applied(boards, before, was, verdicts, quarantined, released, job, settings)
    requires Lookup(holds, board) == Held(Recent(RowsOf(verdicts, board)), Lookup(before, board), job, settings)
    requires forall b :: b != board ==> Lookup(holds, b) == Lookup(was, b)
    ensures var judgement := JudgementOf(Recent(RowsOf(verdicts, board)), Lookup(before, board), job, settings);
      Applied(boards + [board], before, holds, verdicts,
              if judgement == Condemn then quarantined + [board] else quarantined,
              if judgement == Release then released + [board] else released, job, settings)
  {
  }

  class BoardHolds {
    var holds: map<string, Hold>
    /** Each board's rows, newest first. */
    var verdicts: map<string, seq<Row>>

    ghost predicate Valid()
      reads this
    {
      forall b :: b in verdicts ==> OneRowPerRun(verdicts[b])
    }

    constructor ()
      ensures Valid() && holds == map[] && verdicts == map[]
    {
      holds, verdicts := map[], map[];
    }

    function History(board: string): seq<Row>
      reads this
    {
      Recent(RowsOf(verdicts, board))
    }

    /** Note one outcome: a row written again for the same run replaces the one before. */
    method RecordVerdict(board: string, row: Row)
      modifies `verdicts
      ensures verdicts == old(verdicts)[board := [row] + OtherJobs(old(RowsOf(verdicts, board)), row.job)]
    {
      verdicts := verdicts[board := [row] + OtherJobs(RowsOf(verdicts, board), row.job)];
    }

    /** Keep each board's outcome from a canary run, and judge its boards by what is kept. */
    method RecordBoardHealth(job: string, records: seq<Record>, settings: Settings)
        returns (quarantined: seq<string>, released: seq<string>)
      requires Valid()
      modifies this
      ensures Valid()
      ensures forall b :: RowsOf(verdicts, b) == RowsAfter(old(RowsOf(verdicts, b)), PerBoard(records), b, job)
      ensures forall b :: Lookup(holds, b) ==
                (if b in PerBoard(records)
                 then HoldAfterRun(PerBoard(records), b, old(RowsOf(verdicts, b)), Lookup(old(holds), b), job, settings)
                 else Lookup(old(holds), b))
    {
      var perBoard := Summarise(records);
      ghost var before := verdicts;
      var boards := RecordOutcomes(job, perBoard);
      forall b | b in verdicts ensures OneRowPerRun(verdicts[b]) {
        RunsStayOnce(RowsOf(before, b), perBoard, b, job);
        assert RowsOf(verdicts, b) == verdicts[b];
      }
      quarantined, released := ApplyQuarantine(job, boards, settings);
    }

    method RecordOutcomes(job: string, perBoard: map<string, Checks>) returns (boards: seq<string>)
      modifies `verdicts
      ensures Distinct(boards) && forall b :: b in boards <==> b in perBoard
      ensures forall b :: RowsOf(verdicts, b) == RowsAfter(old(RowsOf(verdicts, b)), perBoard, b, job)
    {
      boards := ListBoards(perBoard);
      ghost var before := verdicts;
      for i := 0 to |boards|
        invariant forall b :: RowsOf(verdicts, b) ==
                    (if b in boards[..i] then RowsAfter(RowsOf(before, b), perBoard, b, job) else RowsOf(before, b))
      {
        assert boards[..i + 1] == boards[..i] + [boards[i]] && boards[i] !in boards[..i];
        RecordVerdict(boards[i], Row(job, OutcomeOf(perBoard, boards[i])));
      }
      assert boards[..|boards|] == boards;
    }

    /** Release what this run clears and quarantine what it condemns, and nothing else. */
    method ApplyQuarantine(job: string, boards: seq<string>, settings: Settings)
        returns (quarantined: seq<string>, released: seq<string>)
      requires Distinct(boards)
      modifies `holds
      ensures forall b :: Lookup(holds, b) ==
                (if b in boards then Held(History(b), Lookup(old(holds), b), job, settings) else Lookup(old(holds), b))
      ensures forall b ::
                b in quarantined <==> b in boards && Quarantines(History(b), Lookup(old(holds), b), job, settings)
      ensures forall b :: b in released <==> b in boards && Releases(History(b), Lookup(old(holds), b), job)
    {
      quarantined, released := [], [];
      var before, sorted := holds, Sorted(boards);
      SortedIncreasing(boards);
      IncreasingDistinct(sorted);
      for i := 0 to |sorted|
        invariant Applied(sorted[..i], before, holds, verdicts, quarantined, released, job, settings)
      {
        var b := sorted[i];
        assert sorted[..i + 1] == sorted[..i] + [b] && b !in sorted[..i];
        ghost var was := holds;
        var judgement := ApplyTo(b, Lookup(before, b), job, settings);
        AppliedMore(sorted[..i], b, before, was, holds, verdicts, quarantined, released, job, settings);
        match judgement
        case Release => released := released + [b];
        case Condemn => quarantined := quarantined + [b];
        case Leave =>
      }
      assert sorted[..|sorted|] == sorted;
      forall b: string { SortedMembers(boards, b); }
    }

    method ApplyTo(board: string, hold: Option<Hold>, job: string, settings: Settings) returns (j: Judgement)
      requires hold == Lookup(holds, board)
      modifies `holds
      ensures j == JudgementOf(History(board), hold, job, settings)
      ensures Lookup(holds, board) == Held(History(board), hold, job, settings)
      ensures forall b :: b != board ==> Lookup(holds, b) == Lookup(old(holds), b)
    {
      j := Judge(History(board), hold, job, settings);
      match j
      case Release => holds := holds - {board};
      case Condemn => holds := holds[board := Hold(Quarantined, Some(job))];
      case Leave =>
    }
  }

  method ListBoards(perBoard: map<string, Checks>) returns (boards: seq<string>)
    ensures Distinct(boards) && forall b :: b in boards <==> b in perBoard
  {
    boards := [];
    var left := perBoard.Keys;
    while left != {}
      invariant left <= perBoard.Keys && Distinct(boards)
      invariant forall b :: b in boards <==> b in perBoard && b !in left
      decreases |left|
    {
      var board: string :| board in left;
      left := left - {board};
      DistinctAppend(boards, [board]);
      boards := boards + [board];
    }
  }

  method Judge(rows: seq<Row>, hold: Option<Hold>, job: string, settings: Settings) returns (j: Judgement)
    ensures j == JudgementOf(rows, hold, job, settings)
  {
    var said := Conclusive(rows);
    if hold.Some? && hold.value.state == Quarantined && said != [] && said[0] == Row(job, BoardPassed) {
      return Release;
    }
    if !settings.enabled || hold.Some? {
      return Leave;
    }
    var streak := CountStreak(rows);
    if streak >= settings.afterFailures && rows != [] && rows[0].job == job {
      return Condemn;
    }
    return Leave;
  }

  method CountStreak(rows: seq<Row>) returns (streak: nat)
    ensures streak == Streak(rows)
  {
    streak := 0;
    for i := 0 to |rows|
      invariant streak + Streak(rows[i..]) == Streak(rows)
    {
      assert rows[i..][0] == rows[i] && rows[i..][1..] == rows[i + 1..];
      if rows[i].outcome == BoardPassed { break; }
      if rows[i].outcome == BoardFailed { streak := streak + 1; }
    }
  }

  /**
   With quarantine on, a board nobody holds is quarantined exactly when its newest row is this run's
   and its newest conclusive rows, as many as the setting says, are all failures of its own.
  */
  lemma QuarantinedIff(rows: seq<Row>, job: string, settings: Settings)
    requires settings.enabled && settings.afterFailures > 0
    ensures Held(rows, None, job, settings).Some? <==>
      rows != [] && rows[0].job == job && FirstAllFailed(Conclusive(rows), settings.afterFailures)
    ensures Held(rows, None, job, settings).Some? ==>
      Held(rows, None, job, settings).value == Hold(Quarantined, Some(job)) &&
      exists row :: row in rows && row.outcome == BoardFailed
  {
    StreakIs(rows, settings.afterFailures);
    if Held(rows, None, job, settings).Some? {
      ConclusiveMember(rows, Conclusive(rows)[0]);
    }
  }

  lemma {:induction false} ConclusiveMember(rows: seq<Row>, row: Row)
    ensures row in Conclusive(rows) <==> row in rows && row.outcome != Inconclusive
  {
    if rows != [] {
      ConclusiveMember(rows[1..], row);
      assert rows == [rows[0]] + rows[1..];
    }
  }

  // ---- what one run does to a hold ----

  /** The hold on a board once a run has looked at it, recorded what it found, and judged it. */
  function HoldAfterRun(
    perBoard: map<string, Checks>, board: string, rows: seq<Row>, hold: Option<Hold>, job: string,
    settings: Settings): Option<Hold>
  {
    Held(Recent(RowsAfter(rows, perBoard, board, job)), hold, job, settings)
  }

  /** What is read of the runs before it. */
  function Older(rows: seq<Row>, job: string): seq<Row> {
    var others := OtherJobs(rows, job);
    if |others| <= HISTORY - 1 then others else others[..HISTORY - 1]
  }

  /** The rows judged: this run's first, and no other of this run. */
  lemma RowsJudged(perBoard: map<string, Checks>, board: string, rows: seq<Row>, job: string)
    requires board in perBoard
    ensures Recent(RowsAfter(rows, perBoard, board, job)) == [Row(job, OutcomeOf(perBoard, board))] + Older(rows, job)
    ensures forall row :: row in Conclusive(Older(rows, job)) ==> row.job != job
  {
    var latest, others := Row(job, OutcomeOf(perBoard, board)), OtherJobs(rows, job);
    assert |others| > HISTORY - 1 ==> ([latest] + others)[..HISTORY] == [latest] + others[..HISTORY - 1];
    forall row | row in Conclusive(Older(rows, job)) ensures row.job != job {
      ConclusiveMember(Older(rows, job), row);
      assert row in others;
      OtherJobsAre(rows, job, row);
    }
  }

  /**
   A run releases a board exactly when a canary had taken it and nothing at all was red on it in this
   very run, whatever runs before it found; any other hold stays as it is.
  */
  lemma ReleasedIff(perBoard: map<string, Checks>, board: string, rows: seq<Row>, hold: Hold, job: string,
      settings: Settings)
    requires board in perBoard
    ensures HoldAfterRun(perBoard, board, rows, Some(hold), job, settings) ==
      if hold.state == Quarantined && forall check :: check in perBoard[board] ==> !Red(perBoard[board][check])
      then None else Some(hold)
  {
    RowsJudged(perBoard, board, rows, job);
    FailureIsComparative(perBoard, board);
    var row, older := Row(job, OutcomeOf(perBoard, board)), Older(rows, job);
    ConclusiveLed(row, older);
    if row.outcome == Inconclusive && Conclusive(older) != [] {
      assert Conclusive(older)[0] in Conclusive(older);
    }
  }

  lemma ConclusiveLed(row: Row, rows: seq<Row>)
    ensures Conclusive([row] + rows) ==
            if row.outcome == Inconclusive then Conclusive(rows) else [row] + Conclusive(rows)
  {
    assert ([row] + rows)[1..] == rows;
  }

  /** An outcome completes, with the newest conclusive rows before it, a count of k failures. */
  ghost predicate Condemned(outcome: Outcome, before: seq<Row>, k: int) {
    match outcome
    case BoardPassed => false
    case BoardFailed => FirstAllFailed(before, k - 1)
    case Inconclusive => FirstAllFailed(before, k)
  }

  /**
   A run quarantines a board nobody holds exactly when its own failure and the newest conclusive runs
   before it, as many as the setting asks for together, are failures. An inconclusive run adds none,
   and so quarantines exactly on a full count of older ones; one that passes the board never does.
  */
  lemma QuarantinedByRunIff(perBoard: map<string, Checks>, board: string, rows: seq<Row>, job: string,
      settings: Settings)
    requires board in perBoard && settings.enabled && settings.afterFailures > 0
    ensures HoldAfterRun(perBoard, board, rows, None, job, settings).Some? <==>
      Condemned(OutcomeOf(perBoard, board), Conclusive(Older(rows, job)), settings.afterFailures)
  {
    var row, older := Row(job, OutcomeOf(perBoard, board)), Older(rows, job);
    RowsJudged(perBoard, board, rows, job);
    QuarantinedIff([row] + older, job, settings);
    ConclusiveLed(row, older);
    if row.outcome != Inconclusive { FailedLed(row, Conclusive(older), settings.afterFailures); }
  }

  lemma FailedLed(row: Row, rows: seq<Row>, k: int)
    requires k > 0
    ensures FirstAllFailed([row] + rows, k) <==> row.outcome == BoardFailed && FirstAllFailed(rows, k - 1)
  {
    var led := [row] + rows;
    if FirstAllFailed(led, k) {
      assert led[0] == row;
      forall i | 0 <= i < k - 1 ensures rows[i].outcome == BoardFailed {
        assert led[i + 1] == rows[i];
      }
    }
  }

  /**
   Quarantine rests on comparative evidence, but not always on the run's own: where a run quarantines
   a board nobody held, another board passed a check that this one failed in it, if and only if the
   run was not inconclusive about the board.
  */
  lemma CondemnedByComparison(perBoard: map<string, Checks>, board: string, rows: seq<Row>, job: string,
      settings: Settings)
    requires board in perBoard && settings.afterFailures > 0
    requires HoldAfterRun(perBoard, board, rows, None, job, settings).Some?
    ensures (exists other, check :: Compares(perBoard, board, other, check)) <==>
      OutcomeOf(perBoard, board) != Inconclusive
  {
    QuarantinedByRunIff(perBoard, board, rows, job, settings);
    FailureIsComparative(perBoard, board);
  }

  /** An inconclusive run does quarantine on some history of other runs, for every setting the rows read can fill. */
  lemma InconclusiveCanCondemn(perBoard: map<string, Checks>, board: string, job: string, settings: Settings)
    requires board in perBoard && OutcomeOf(perBoard, board) == Inconclusive
    requires settings.enabled && settings.afterFailures > 0
    ensures (exists rows :: OneRowPerRun(rows) && HoldAfterRun(perBoard, board, rows, None, job, settings).Some?) <==>
            settings.afterFailures < 50
  {
    var k := settings.afterFailures;
    if k < HISTORY {
      var rows := seq(k, i requires 0 <= i < k => Row(job + Dots(i + 1), BoardFailed));
      forall i, j | 0 <= i < j < |rows| ensures rows[i].job != rows[j].job {
        assert |rows[i].job| == |job| + i + 1;
      }
      assert OneRowPerRun(rows);
      AllOtherJobs(rows, job);
      AllConclusive(rows);
      QuarantinedByRunIff(perBoard, board, rows, job, settings);
    }
    if rows :| OneRowPerRun(rows) && HoldAfterRun(perBoard, board, rows, None, job, settings).Some? {
      QuarantinedByRunIff(perBoard, board, rows, job, settings);
      ConclusiveShorter(Older(rows, job));
    }
  }

  lemma {:induction false} AllOtherJobs(rows: seq<Row>, job: string)
    requires forall i :: 0 <= i < |rows| ==> rows[i].job != job
    ensures OtherJobs(rows, job) == rows
  {
    if rows != [] { AllOtherJobs(rows[1..], job); }
  }

  lemma {:induction false} AllConclusive(rows: seq<Row>)
    requires forall i :: 0 <= i < |rows| ==> rows[i].outcome != Inconclusive
    ensures Conclusive(rows) == rows
  {
    if rows != [] { AllConclusive(rows[1..]); }
  }

  lemma {:induction false} ConclusiveShorter(rows: seq<Row>)
    ensures |Conclusive(rows)| <= |rows|
  {
    if rows != [] { ConclusiveShorter(rows[1..]); }
  }
}

/** The job table: conditional updates, and the order queued jobs are taken in. */
module JobQueue {

  datatype Status = Queued | Running | Passed | Failed | Cancelled

  datatype Row = Row(id: string, status: Status, priority: int, created: int)

  // ---- the order ----

  /** The higher priority first; of equals, the older. */
  predicate Ahead(a: Row, b: Row) {
    a.priority > b.priority || (a.priority == b.priority && a.created < b.created)
  }

  function InsertRow(r: Row, s: seq<Row>): seq<Row> {
    if s == [] then [r]
    else if Ahead(r, s[0]) then [r] + s
    else [s[0]] + InsertRow(r, s[1..])
  }

  /** The rows of one status, in the order the table serves them. */
  function Served(rows: seq<Row>, status: Status): seq<Row> {
    if rows == [] then []
    else
      var last := rows[|rows| - 1];
      var before := Served(rows[..|rows| - 1], status);
      if last.status == status then InsertRow(last, before) else before
  }

  function RowIds(rows: seq<Row>): seq<string> {
    seq(|rows|, i requires 0 <= i < |rows| => rows[i].id)
  }

  /** The queue: the ids of the queued jobs, next first. */
  function QueueOf(rows: seq<Row>): seq<string> {
    RowIds(Served(rows, Queued))
  }

  predicate Older(a: Row, b: Row) {
    a.id != b.id && a.created < b.created
  }

  /** Ids are keys, each job was created after those before it, and no priority is below a fresh job's. */
  ghost predicate GoodRows(rows: seq<Row>) {
    && (forall i, j {:trigger Older(rows[i], rows[j])} :: 0 <= i < j < |rows| ==> Older(rows[i], rows[j]))
    && forall r :: r in rows ==> r.priority >= 0
  }

  ghost predicate InOrder(s: seq<Row>) {
    forall i, j {:trigger Ahead(s[i], s[j])} :: 0 <= i < j < |s| ==> Ahead(s[i], s[j])
  }

  // ---- the statements that change rows ----

  /** `UPDATE ... WHERE id=? AND status=?`, and whether it changed a row. */
  function Change(rows: seq<Row>, id: string, from: Status, to: Status): seq<Row> {
    seq(|rows|, i requires 0 <= i < |rows| =>
      if rows[i].id == id && rows[i].status == from then rows[i].(status := to) else rows[i])
  }

  predicate Has(rows: seq<Row>, id: string, status: Status) {
    exists r :: r in rows && r.id == id && r.status == status
  }

  function Top(rows: seq<Row>): int {
    if rows == [] then 0
    else
      var last, before := rows[|rows| - 1], Top(rows[..|rows| - 1]);
      if last.status == Queued && last.priority > before then last.priority else before
  }

  function Raise(rows: seq<Row>, id: string, priority: int): seq<Row> {
    seq(|rows|, i requires 0 <= i < |rows| => if rows[i].id == id then rows[i].(priority := priority) else rows[i])
  }

  datatype Promotion = Promoted | NoSuchJob | NotQueued

  class JobStore {
    var rows: seq<Row>

    ghost predicate Valid()
      reads this
    {
      GoodRows(rows)
    }

    constructor ()
      ensures Valid() && rows == []
    {
      rows := [];
    }

    method Create(id: string, now: int)
      requires Valid() && forall r :: r in rows ==> r.id != id && r.created < now
      modifies this
      ensures Valid() && rows == old(rows) + [Row(id, Queued, 0, now)]
      ensures QueueOf(rows) == old(QueueOf(rows)) + [id]
    {
      CreateAppends(rows, id, now);
      rows := rows + [Row(id, Queued, 0, now)];
    }

    /** Move the row from queued to running; where it is not queued, change nothing and say so. */
    method Claim(id: string) returns (won: bool)
      requires Valid()
      modifies this
      ensures Valid() && won == old(Has(rows, id, Queued))
      ensures rows == Change(old(rows), id, Queued, Running)
      ensures QueueOf(rows) == Less(old(QueueOf(rows)), id)
    {
      LeavesQueue(rows, id, Running);
      won := Has(rows, id, Queued);
      rows := Change(rows, id, Queued, Running);
    }

    /** Move the row from queued to cancelled; where it is not queued, change nothing and say so. */
    method CancelIfQueued(id: string) returns (won: bool)
      requires Valid()
      modifies this
      ensures Valid() && won == old(Has(rows, id, Queued))
      ensures rows == Change(old(rows), id, Queued, Cancelled)
      ensures QueueOf(rows) == Less(old(QueueOf(rows)), id)
    {
      LeavesQueue(rows, id, Cancelled);
      won := Has(rows, id, Queued);
      rows := Change(rows, id, Queued, Cancelled);
    }

    /** Move the row from running to queued: it stands behind exactly the rows ahead of it, the others as before. */
    method Requeue(id: string) returns (changed: bool)
      requires Valid()
      modifies this
      ensures Valid() && changed == old(Has(rows, id, Running))
      ensures rows == Change(old(rows), id, Running, Queued)
      ensures changed ==> (exists p :: StandsAt(rows, id, p)) && Less(QueueOf(rows), id) == old(QueueOf(rows))
    {
      if Has(rows, id, Running) { RequeueRejoins(rows, id); } else { assert Change(rows, id, Running, Queued) == rows; }
      changed := Has(rows, id, Running);
      rows := Change(rows, id, Running, Queued);
    }

    /** Give a queued row a priority one above the highest queued, so that it leads and the rest keep their order. */
    method Promote(id: string) returns (outcome: Promotion)
      requires Valid()
      modifies this
      ensures Valid()
      ensures outcome.Promoted? <==> old(Has(rows, id, Queued))
      ensures outcome.NoSuchJob? <==> forall r :: r in old(rows) ==> r.id != id
      ensures outcome.Promoted? ==>
        rows == Raise(old(rows), id, Top(old(rows)) + 1) && QueueOf(rows) == [id] + Less(old(QueueOf(rows)), id)
      ensures !outcome.Promoted? ==> rows == old(rows)
    {
      if !exists r :: r in rows && r.id == id {
        return NoSuchJob;
      }
      if !Has(rows, id, Queued) {
        return NotQueued;
      }
      PromoteLeads(rows, id);
      rows := Raise(rows, id, Top(rows) + 1);
      return Promoted;
    }
  }

  // ---- the queue as a list ----

  /** The list without id. */
  function Less(list: seq<string>, id: string): seq<string> {
    if list == [] then []
    else (if list[0] == id then [] else [list[0]]) + Less(list[1..], id)
  }

  /** Rows that keep their ids and ages, and whose priorities do not drop below a fresh job's, stay good. */
  lemma SameAgesStayGood(rows: seq<Row>, after: seq<Row>)
    requires GoodRows(rows) && |after| == |rows|
    requires forall i :: 0 <= i < |rows| ==>
      after[i].id == rows[i].id && after[i].created == rows[i].created && after[i].priority >= 0
    ensures GoodRows(after)
  {
    forall i, j | 0 <= i < j < |after| ensures Older(after[i], after[j]) {
      assert Older(rows[i], rows[j]);
    }
  }

  lemma ChangeKeepsGood(rows: seq<Row>, id: string, from: Status, to: Status)
    requires GoodRows(rows)
    ensures GoodRows(Change(rows, id, from, to))
  {
    assert forall i :: 0 <= i < |rows| ==> rows[i] in rows;
    SameAgesStayGood(rows, Change(rows, id, from, to));
  }

  /** An id names one row. */
  lemma OneRow(rows: seq<Row>, i: nat, j: nat)
    requires GoodRows(rows) && i < |rows| && j < |rows| && rows[i].id == rows[j].id
    ensures i == j
  {
    assert i < j ==> Older(rows[i], rows[j]);
    assert j < i ==> Older(rows[j], rows[i]);
  }

  /** How a conditional change of status moves rows in and out of a status. */
  lemma ChangedRow(rows: seq<Row>, id: string, from: Status, to: Status, x: Row)
    requires from != to
    ensures x in Change(rows, id, from, to) <==>
      (x in rows && !(x.id == id && x.status == from)) || (x.id == id && x.status == to && x.(status := from) in rows)
  {
    var after := Change(rows, id, from, to);
    if x in after {
      var i :| 0 <= i < |after| && after[i] == x;
      assert rows[i] in rows;
    }
    if x in rows && !(x.id == id && x.status == from) {
      var i :| 0 <= i < |rows| && rows[i] == x;
      assert after[i] == x;
    }
    if x.id == id && x.status == to && x.(status := from) in rows {
      var i :| 0 <= i < |rows| && rows[i] == x.(status := from);
      assert after[i] == x;
    }
  }

  lemma {:induction false} InsertIsOrdered(r: Row, s: seq<Row>)
    requires InOrder(s) && forall x :: x in s ==> x.created != r.created
    ensures InOrder(InsertRow(r, s))
    ensures forall x :: x in InsertRow(r, s) <==> x == r || x in s
  {
    if s != [] && !Ahead(r, s[0]) {
      InsertIsOrdered(r, s[1..]);
      assert forall x :: x in s[1..] ==> x in s;
      assert s[0] in s;
      forall x | x in InsertRow(r, s[1..]) ensures Ahead(s[0], x) {
        if x != r {
          var i :| 0 <= i < |s[1..]| && s[1..][i] == x;
          assert s[i + 1] == x && Ahead(s[0], s[i + 1]);
        }
      }
      LeadInOrder(s[0], InsertRow(r, s[1..]));
    } else if s != [] {
      forall x | x in s ensures Ahead(r, x) {
        var i :| 0 <= i < |s| && s[i] == x;
        assert i > 0 ==> Ahead(s[0], s[i]);
      }
      LeadInOrder(r, s);
    }
  }

  /** What is served is in order, and is exactly the rows of that status. */
  lemma {:induction false} ServedInOrder(rows: seq<Row>, status: Status)
    requires GoodRows(rows)
    ensures InOrder(Served(rows, status))
    ensures forall x :: x in Served(rows, status) <==> x in rows && x.status == status
  {
    if rows != [] {
      var n := |rows| - 1;
      ServedInOrder(rows[..n], status);
      forall x | x in Served(rows[..n], status) ensures x.created != rows[n].created {
        var i :| 0 <= i < n && rows[..n][i] == x;
        assert Older(rows[i], rows[n]);
      }
      assert rows == rows[..n] + [rows[n]];
      if rows[n].status == status { InsertIsOrdered(rows[n], Served(rows[..n], status)); }
    }
  }

  lemma SameFirst(a: seq<Row>, b: seq<Row>)
    requires InOrder(a) && InOrder(b) && SameRows(a, b) && a != []
    ensures b != [] && a[0] == b[0]
  {
    assert a[0] in b;
    var i :| 0 <= i < |b| && b[i] == a[0];
    assert b[0] in a;
    var j :| 0 <= j < |a| && a[j] == b[0];
    assert i > 0 ==> Ahead(b[0], b[i]);
    assert j > 0 ==> Ahead(a[0], a[j]);
  }

  lemma TailRows(s: seq<Row>, x: Row)
    requires InOrder(s) && s != []
    ensures x in s[1..] <==> x in s && x != s[0]
  {
    if x in s[1..] {
      var i :| 0 <= i < |s[1..]| && s[1..][i] == x;
      assert s[i + 1] == x && Ahead(s[0], s[i + 1]);
    }
  }

  ghost predicate SameRows(a: seq<Row>, b: seq<Row>) {
    forall x :: x in a <==> x in b
  }

  /** There is only one way to put rows in order. */
  lemma {:induction false} OrderIsUnique(a: seq<Row>, b: seq<Row>)
    requires InOrder(a) && InOrder(b) && SameRows(a, b)
    ensures a == b
  {
    if b != [] { SameFirst(b, a); }
    if a != [] {
      SameFirst(a, b);
      forall x | true ensures x in a[1..] <==> x in b[1..] {
        TailRows(a, x);
        TailRows(b, x);
      }
      OrderIsUnique(a[1..], b[1..]);
    }
  }

  function LessRow(s: seq<Row>, id: string): seq<Row> {
    if s == [] then [] else (if s[0].id == id then [] else [s[0]]) + LessRow(s[1..], id)
  }

  lemma {:induction false} LessRowMember(s: seq<Row>, id: string, x: Row)
    ensures x in LessRow(s, id) <==> x in s && x.id != id
  {
    if s != [] {
      LessRowMember(s[1..], id, x);
      assert x in s <==> x == s[0] || x in s[1..];
    }
  }

  lemma {:induction false} LessRowInOrder(s: seq<Row>, id: string)
    requires InOrder(s)
    ensures InOrder(LessRow(s, id))
  {
    if s != [] {
      LessRowInOrder(s[1..], id);
      forall x | x in LessRow(s[1..], id) ensures Ahead(s[0], x) {
        LessRowMember(s[1..], id, x);
        var i :| 0 <= i < |s[1..]| && s[1..][i] == x;
        assert s[i + 1] == x;
      }
      LeadInOrder(s[0], LessRow(s[1..], id));
    }
  }

  lemma LeadInOrder(r: Row, s: seq<Row>)
    requires InOrder(s) && forall x :: x in s ==> Ahead(r, x)
    ensures InOrder([r] + s)
  {
    var all := [r] + s;
    forall i, j | 0 <= i < j < |all| ensures Ahead(all[i], all[j]) {
      assert all[j] == s[j - 1] && s[j - 1] in s;
    }
  }

  lemma {:induction false} LessRowIds(s: seq<Row>, id: string)
    ensures RowIds(LessRow(s, id)) == Less(RowIds(s), id)
  {
    if s != [] {
      LessRowIds(s[1..], id);
      assert RowIds(s)[0] == s[0].id && RowIds(s)[1..] == RowIds(s[1..]);
      var rest := LessRow(s[1..], id);
      assert RowIds([s[0]] + rest) == [s[0].id] + RowIds(rest);
      assert [] + rest == rest && [] + RowIds(rest) == RowIds(rest);
    }
  }

  lemma {:induction false} LastIsInserted(r: Row, s: seq<Row>)
    requires forall x :: x in s ==> Ahead(x, r)
    ensures InsertRow(r, s) == s + [r]
  {
    if s != [] {
      assert s[0] in s;
      LastIsInserted(r, s[1..]);
    }
  }

  /** A new job goes to the back. */
  lemma CreateAppends(rows: seq<Row>, id: string, now: int)
    requires GoodRows(rows) && forall r :: r in rows ==> r.id != id && r.created < now
    ensures GoodRows(rows + [Row(id, Queued, 0, now)])
    ensures QueueOf(rows + [Row(id, Queued, 0, now)]) == QueueOf(rows) + [id]
  {
    var r := Row(id, Queued, 0, now);
    var served := Served(rows, Queued);
    ServedInOrder(rows, Queued);
    assert (rows + [r])[..|rows|] == rows;
    LastIsInserted(r, served);
    assert RowIds(served + [r]) == RowIds(served) + [id];
  }

  /** A job claimed or cancelled leaves the queue, the others keeping their order. */
  lemma LeavesQueue(rows: seq<Row>, id: string, to: Status)
    requires GoodRows(rows) && to != Queued
    ensures GoodRows(Change(rows, id, Queued, to))
    ensures QueueOf(Change(rows, id, Queued, to)) == Less(QueueOf(rows), id)
  {
    var served, after := Served(rows, Queued), Change(rows, id, Queued, to);
    ServedInOrder(rows, Queued);
    ChangeKeepsGood(rows, id, Queued, to);
    ServedInOrder(after, Queued);
    LessRowInOrder(served, id);
    LessRowIds(served, id);
    forall x | true ensures x in Served(after, Queued) <==> x in LessRow(served, id) {
      LessRowMember(served, id, x);
      ChangedRow(rows, id, Queued, to, x);
    }
    OrderIsUnique(Served(after, Queued), LessRow(served, id));
  }

  /** No queued row has a priority above the top. */
  lemma {:induction false} TopIsTop(rows: seq<Row>, r: Row)
    requires r in rows && r.status == Queued
    ensures r.priority <= Top(rows)
  {
    var n := |rows| - 1;
    if r != rows[n] {
      assert rows == rows[..n] + [rows[n]];
      TopIsTop(rows[..n], r);
    }
  }

  /** And it is one of theirs, or 0. */
  lemma {:induction false} TopIsReached(rows: seq<Row>)
    ensures Top(rows) == 0 || exists r :: r in rows && r.status == Queued && r.priority == Top(rows)
  {
    if rows != [] {
      TopIsReached(rows[..|rows| - 1]);
      assert rows == rows[..|rows| - 1] + [rows[|rows| - 1]];
    }
  }

  lemma {:induction false} TopIsPositive(rows: seq<Row>)
    ensures Top(rows) >= 0
  {
    if rows != [] { TopIsPositive(rows[..|rows| - 1]); }
  }

  lemma RaiseKeepsGood(rows: seq<Row>, id: string, priority: int)
    requires GoodRows(rows) && priority >= 0
    ensures GoodRows(Raise(rows, id, priority))
  {
    assert forall i :: 0 <= i < |rows| ==> rows[i] in rows;
    SameAgesStayGood(rows, Raise(rows, id, priority));
  }

  lemma RaisedQueued(rows: seq<Row>, id: string, priority: int, k: nat, x: Row)
    requires GoodRows(rows) && k < |rows| && rows[k].id == id && rows[k].status == Queued
    ensures x in Raise(rows, id, priority) && x.status == Queued <==>
            x == Raise(rows, id, priority)[k] || (x in rows && x.status == Queued && x.id != id)
  {
    var after := Raise(rows, id, priority);
    if x in after && x.status == Queued {
      var i :| 0 <= i < |after| && after[i] == x;
      if rows[i].id == id { OneRow(rows, i, k); } else { assert rows[i] == x; }
    }
    if x in rows && x.status == Queued && x.id != id {
      var i :| 0 <= i < |rows| && rows[i] == x;
      assert after[i] == x;
    }
  }

  lemma LedInOrder(rows: seq<Row>, id: string, lead: Row)
    requires GoodRows(rows) && lead.priority > Top(rows)
    ensures InOrder([lead] + LessRow(Served(rows, Queued), id))
  {
    var served := Served(rows, Queued);
    ServedInOrder(rows, Queued);
    LessRowInOrder(served, id);
    forall x | x in LessRow(served, id) ensures Ahead(lead, x) {
      LessRowMember(served, id, x);
      TopIsTop(rows, x);
    }
    LeadInOrder(lead, LessRow(served, id));
  }

  lemma RowIdsLed(r: Row, s: seq<Row>)
    ensures RowIds([r] + s) == [r.id] + RowIds(s)
  {}

  lemma ServedRaised(rows: seq<Row>, id: string, priority: int, k: nat)
    requires GoodRows(rows) && k < |rows| && rows[k].id == id && rows[k].status == Queued && priority > Top(rows) >= 0
    ensures GoodRows(Raise(rows, id, priority))
    ensures Served(Raise(rows, id, priority), Queued) ==
      [Raise(rows, id, priority)[k]] + LessRow(Served(rows, Queued), id)
  {
    var after := Raise(rows, id, priority);
    var rest := LessRow(Served(rows, Queued), id);
    RaiseKeepsGood(rows, id, priority);
    ServedInOrder(after, Queued);
    LedInOrder(rows, id, after[k]);
    ServedInOrder(rows, Queued);
    forall x | true ensures x in Served(after, Queued) <==> x in [after[k]] + rest {
      RaisedQueued(rows, id, priority, k, x);
      LessRowMember(Served(rows, Queued), id, x);
    }
    OrderIsUnique(Served(after, Queued), [after[k]] + rest);
  }

  /** A promoted job leads, the others keeping their order: the latest promotion wins. */
  lemma PromoteLeads(rows: seq<Row>, id: string)
    requires GoodRows(rows) && Has(rows, id, Queued)
    ensures GoodRows(Raise(rows, id, Top(rows) + 1))
    ensures QueueOf(Raise(rows, id, Top(rows) + 1)) == [id] + Less(QueueOf(rows), id)
  {
    var after := Raise(rows, id, Top(rows) + 1);
    var k :| 0 <= k < |rows| && rows[k].id == id && rows[k].status == Queued;
    TopIsPositive(rows);
    RaiseKeepsGood(rows, id, Top(rows) + 1);
    ServedRaised(rows, id, Top(rows) + 1, k);
    LessRowIds(Served(rows, Queued), id);
    RowIdsLed(after[k], LessRow(Served(rows, Queued), id));
  }

  // ---- any history of the table ----

  datatype Op = Submit(id: string, now: int) | Promote(id: string) | Claim(id: string) | Cancel(id: string)
              | Finish(id: string, how: Status)

  function Apply(rows: seq<Row>, op: Op): seq<Row> {
    match op
    case Submit(id, now) => rows + [Row(id, Queued, 0, now)]
    case Promote(id) => if Has(rows, id, Queued) then Raise(rows, id, Top(rows) + 1) else rows
    case Claim(id) => Change(rows, id, Queued, Running)
    case Cancel(id) => Change(rows, id, Queued, Cancelled)
    case Finish(id, how) => Change(rows, id, Running, how)
  }

  /** The same operation on a plain list of ids. */
  function ApplyToList(list: seq<string>, op: Op): seq<string> {
    match op
    case Submit(id, _) => list + [id]
    case Promote(id) => if id in list then [id] + Less(list, id) else list
    case Claim(id) => Less(list, id)
    case Cancel(id) => Less(list, id)
    case Finish(_, _) => list
  }

  function After(ops: seq<Op>): seq<Row> {
    if ops == [] then [] else Apply(After(ops[..|ops| - 1]), ops[|ops| - 1])
  }

  function ListAfter(ops: seq<Op>): seq<string> {
    if ops == [] then [] else ApplyToList(ListAfter(ops[..|ops| - 1]), ops[|ops| - 1])
  }

  /** Ids are new when submitted, and the clock only moves on; nothing is sent back to the queue. */
  ghost predicate PossibleStep(rows: seq<Row>, op: Op) {
    match op
    case Submit(id, now) => forall r :: r in rows ==> r.id != id && r.created < now
    case Finish(_, how) => how != Queued
    case _ => true
  }

  ghost predicate Possible(ops: seq<Op>) {
    ops != [] ==> Possible(ops[..|ops| - 1]) && PossibleStep(After(ops[..|ops| - 1]), ops[|ops| - 1])
  }

  lemma FinishKeepsQueue(rows: seq<Row>, id: string, how: Status)
    requires GoodRows(rows) && how != Queued
    ensures GoodRows(Change(rows, id, Running, how))
    ensures QueueOf(Change(rows, id, Running, how)) == QueueOf(rows)
  {
    var after := Change(rows, id, Running, how);
    if how == Running {
      assert after == rows;
      return;
    }
    ChangeKeepsGood(rows, id, Running, how);
    ServedInOrder(rows, Queued);
    ServedInOrder(after, Queued);
    forall x | true ensures x in Served(after, Queued) <==> x in Served(rows, Queued) {
      ChangedRow(rows, id, Running, how, x);
    }
    OrderIsUnique(Served(after, Queued), Served(rows, Queued));
  }

  lemma QueueMember(rows: seq<Row>, id: string)
    requires GoodRows(rows)
    ensures id in QueueOf(rows) <==> Has(rows, id, Queued)
  {
    var served := Served(rows, Queued);
    ServedInOrder(rows, Queued);
    if id in QueueOf(rows) {
      var i :| 0 <= i < |served| && QueueOf(rows)[i] == id;
      assert served[i] in served;
    }
    if r :| r in rows && r.id == id && r.status == Queued {
      var i :| 0 <= i < |served| && served[i] == r;
      assert QueueOf(rows)[i] == id;
    }
  }

  /** The queue names each queued job once. */
  lemma QueuedOnce(rows: seq<Row>)
    requires GoodRows(rows)
    ensures forall i, j :: 0 <= i < j < |QueueOf(rows)| ==> QueueOf(rows)[i] != QueueOf(rows)[j]
  {
    var served := Served(rows, Queued);
    ServedInOrder(rows, Queued);
    forall i, j | 0 <= i < j < |served| ensures served[i].id != served[j].id {
      assert Ahead(served[i], served[j]) && served[i] in served && served[j] in served;
      var a :| 0 <= a < |rows| && rows[a] == served[i];
      var b :| 0 <= b < |rows| && rows[b] == served[j];
      if rows[a].id == rows[b].id { OneRow(rows, a, b); }
    }
  }

  lemma PromoteStep(rows: seq<Row>, id: string)
    requires GoodRows(rows)
    ensures GoodRows(Apply(rows, Op.Promote(id)))
    ensures QueueOf(Apply(rows, Op.Promote(id))) == ApplyToList(QueueOf(rows), Op.Promote(id))
  {
    QueueMember(rows, id);
    if Has(rows, id, Queued) { PromoteLeads(rows, id); }
  }

  /** The job stands at place p of the queue: before it, exactly the queued rows ahead of its own. */
  ghost predicate StandsAt(rows: seq<Row>, id: string, p: nat) {
    var served := Served(rows, Queued);
    && p < |served| && served[p].id == id
    && forall x :: x in served[..p] <==> x in rows && x.status == Queued && Ahead(x, served[p])
  }

  lemma StandsByAge(rows: seq<Row>, id: string) returns (p: nat)
    requires GoodRows(rows) && Has(rows, id, Queued)
    ensures StandsAt(rows, id, p)
  {
    var served := Served(rows, Queued);
    ServedInOrder(rows, Queued);
    var r: Row :| r in rows && r.id == id && r.status == Queued;
    p :| 0 <= p < |served| && served[p] == r;
    forall x ensures x in served[..p] <==> x in rows && x.status == Queued && Ahead(x, r) {
      if x in served[..p] {
        var i :| 0 <= i < p && served[..p][i] == x;
        assert served[i] in served && Ahead(served[i], served[p]);
      }
      if x in rows && x.status == Queued && Ahead(x, r) {
        assert x in served;
        var i :| 0 <= i < |served| && served[i] == x;
        assert p < i ==> Ahead(served[p], served[i]);
        assert served[..p][i] == x;
      }
    }
  }

  /** A job sent back rejoins by priority and age; without it the queue is as it was. */
  lemma RequeueRejoins(rows: seq<Row>, id: string)
    requires GoodRows(rows) && Has(rows, id, Running)
    ensures GoodRows(Change(rows, id, Running, Queued))
    ensures exists p :: StandsAt(Change(rows, id, Running, Queued), id, p)
    ensures Less(QueueOf(Change(rows, id, Running, Queued)), id) == QueueOf(rows)
  {
    var back := Change(rows, id, Running, Queued);
    ChangeKeepsGood(rows, id, Running, Queued);
    var k :| 0 <= k < |rows| && rows[k].id == id && rows[k].status == Running;
    assert back[k].status == Queued && back[k] in back;
    var p := StandsByAge(back, id);
    LeavesQueue(back, id, Running);
    forall i | 0 <= i < |rows| ensures Change(back, id, Queued, Running)[i] == rows[i] {
      if rows[i].id == id { OneRow(rows, i, k); }
    }
    assert Change(back, id, Queued, Running) == rows;
  }

  lemma StepIsListStep(rows: seq<Row>, op: Op)
    requires GoodRows(rows) && PossibleStep(rows, op)
    ensures GoodRows(Apply(rows, op))
    ensures QueueOf(Apply(rows, op)) == ApplyToList(QueueOf(rows), op)
  {
    match op
    case Submit(id, now) => CreateAppends(rows, id, now);
    case Promote(id) => PromoteStep(rows, id);
    case Claim(id) => LeavesQueue(rows, id, Running);
    case Cancel(id) => LeavesQueue(rows, id, Cancelled);
    case Finish(id, how) => FinishKeepsQueue(rows, id, how);
  }

  /**
   The queue is a list. Whatever is submitted, promoted, claimed, cancelled and finished, in any
   order, the jobs the table serves next are those of a list that submissions join at the back,
   promotions move to the front, and claims and cancellations leave.
  */
  lemma {:induction false} QueueIsList(ops: seq<Op>)
    requires Possible(ops)
    ensures GoodRows(After(ops)) && QueueOf(After(ops)) == ListAfter(ops)
  {
    if ops != [] {
      QueueIsList(ops[..|ops| - 1]);
      StepIsListStep(After(ops[..|ops| - 1]), ops[|ops| - 1]);
    }
  }
}

/** The reconciliation report's figures per status. */
module Reports {
  import opened Types
  import opened Database
  import opened Sums

  /** A line of the reconciliation report. */
  datatype Line = Line(status: Status, count: nat, amount: int)

  datatype Report = Report(
    lines: seq<Line>, netWalletBalance: int, escrowPending: int, ledgerDebit: int, ledgerCredit: int,
    balanced: bool)

  /** The order of the status texts. */
  const STATUSES: seq<Status> := [AwaitingTransfer, Cancelled, Expired, Failed, Pending, Settled]

  ghost function LineAmount(db: Db, st: Status): int {
    Total(db.payments, WithStatus(db, st))
  }

  /** A line for each of the statuses that occurs, in their order. */
  ghost function LinesFor(db: Db, statuses: seq<Status>): seq<Line> {
    if statuses == [] then []
    else
      var st := statuses[|statuses| - 1];
      LinesFor(db, statuses[..|statuses| - 1])
      + if WithStatus(db, st) == {} then [] else [Line(st, |WithStatus(db, st)|, LineAmount(db, st))]
  }

  ghost function ReportLines(db: Db): seq<Line> {
    LinesFor(db, STATUSES)
  }

  /** What a report says about a status; a status without a line has nothing. */
  function Reported(lines: seq<Line>, st: Status): int {
    if lines == [] then 0
    else Reported(lines[..|lines| - 1], st) + if lines[|lines| - 1].status == st then lines[|lines| - 1].amount else 0
  }

  lemma ReportedAppended(lines: seq<Line>, l: Line, st: Status)
    ensures Reported(lines + [l], st) == Reported(lines, st) + if l.status == st then l.amount else 0
  {
    assert (lines + [l])[..|lines|] == lines;
  }

  lemma {:induction false} ReportedFor(db: Db, statuses: seq<Status>, st: Status)
    requires Distinct(statuses)
    ensures Reported(LinesFor(db, statuses), st) == if st in statuses then LineAmount(db, st) else 0
  {
    if statuses != [] {
      hide Reported, WithStatus;
      var front, last := statuses[..|statuses| - 1], statuses[|statuses| - 1];
      assert statuses == front + [last] && last !in front;
      ReportedFor(db, front, st);
      if WithStatus(db, last) != {} {
        ReportedAppended(LinesFor(db, front), Line(last, |WithStatus(db, last)|, LineAmount(db, last)), st);
      } else {
        assert LineAmount(db, last) == 0 && LinesFor(db, statuses) == LinesFor(db, front);
      }
    }
  }

  /** The lines of a report carry the amount of every status. */
  lemma ReportedIsLineAmount(db: Db, st: Status)
    ensures Reported(ReportLines(db), st) == LineAmount(db, st)
  {
    hide LinesFor, Reported;
    ReportedFor(db, STATUSES, st);
    EveryStatusIsListed(st);
  }

  lemma EveryStatusIsListed(st: Status)
    ensures st in STATUSES
  {
    match st
    case AwaitingTransfer => assert STATUSES[0] == st;
    case Cancelled => assert STATUSES[1] == st;
    case Expired => assert STATUSES[2] == st;
    case Failed => assert STATUSES[3] == st;
    case Pending => assert STATUSES[4] == st;
    case Settled => assert STATUSES[5] == st;
  }

  // ----- the counts -----

  function CountedIn(lines: seq<Line>): nat {
    if lines == [] then 0 else CountedIn(lines[..|lines| - 1]) + lines[|lines| - 1].count
  }

  lemma CountedAppended(lines: seq<Line>, l: Line)
    ensures CountedIn(lines + [l]) == CountedIn(lines) + l.count
  {
    assert (lines + [l])[..|lines|] == lines;
  }

  /** A line of the report is right about its status: that many payments have it, at least one, and their
      amounts add up to the line's. */
  ghost predicate LineIsRight(db: Db, l: Line) {
    var ids := set id | id in db.payments && db.payments[id].status == l.status;
    l.count == |ids| > 0 && l.amount == Total(db.payments, ids)
  }

  lemma {:induction false} LinesAreRight(db: Db, statuses: seq<Status>)
    ensures forall l | l in LinesFor(db, statuses) :: LineIsRight(db, l) && l.status in statuses
    ensures forall st | st in statuses && WithStatus(db, st) != {} ::
              exists l :: l in LinesFor(db, statuses) && l.status == st
  {
    if statuses != [] {
      var front, last := statuses[..|statuses| - 1], statuses[|statuses| - 1];
      assert statuses == front + [last];
      LinesAreRight(db, front);
      var l := Line(last, |WithStatus(db, last)|, LineAmount(db, last));
      assert WithStatus(db, last) == set id | id in db.payments && db.payments[id].status == last;
      if WithStatus(db, last) != {} {
        assert LinesFor(db, statuses) == LinesFor(db, front) + [l];
        assert l in LinesFor(db, statuses);
      }
    }
  }

  function WithStatuses(db: Db, statuses: seq<Status>): set<PaymentId> {
    set id | id in db.payments && db.payments[id].status in statuses
  }

  lemma OneStatusMore(db: Db, front: seq<Status>, last: Status)
    requires last !in front
    ensures |WithStatuses(db, front + [last])| == |WithStatuses(db, front)| + |WithStatus(db, last)|
  {
    assert WithStatuses(db, front + [last]) == WithStatuses(db, front) + WithStatus(db, last);
    assert WithStatuses(db, front) !! WithStatus(db, last);
  }

  lemma {:induction false} CountsFor(db: Db, statuses: seq<Status>)
    requires Distinct(statuses)
    ensures CountedIn(LinesFor(db, statuses)) == |WithStatuses(db, statuses)|
  {
    if statuses == [] {
      assert WithStatuses(db, statuses) == {};
    } else {
      hide CountedIn, WithStatus, WithStatuses;
      var front, last := statuses[..|statuses| - 1], statuses[|statuses| - 1];
      assert statuses == front + [last] && last !in front;
      CountsFor(db, front);
      OneStatusMore(db, front, last);
      if WithStatus(db, last) != {} {
        CountedAppended(LinesFor(db, front), Line(last, |WithStatus(db, last)|, LineAmount(db, last)));
      } else {
        assert LinesFor(db, statuses) == LinesFor(db, front);
      }
    }
  }

  /** Every line of the report is right about its status, every status that occurs has a line, and the counts
      add up to the number of payments. */
  lemma ReportsCountEveryPayment(db: Db)
    ensures forall l | l in ReportLines(db) :: LineIsRight(db, l)
    ensures forall id | id in db.payments ::
              exists l :: l in ReportLines(db) && l.status == db.payments[id].status
    ensures CountedIn(ReportLines(db)) == |db.payments|
  {
    hide LinesFor, CountedIn, LineIsRight;
    LinesAreRight(db, STATUSES);
    CountsFor(db, STATUSES);
    forall id | id in db.payments
      ensures db.payments[id].status in STATUSES && id in WithStatus(db, db.payments[id].status)
    {
      EveryStatusIsListed(db.payments[id].status);
    }
    assert WithStatuses(db, STATUSES) == db.payments.Keys;
  }

  // ----- the order -----

  function StatusText(st: Status): (text: string)
    ensures |text| > 0
  {
    match st
    case AwaitingTransfer => "AWAITING_TRANSFER"
    case Cancelled => "CANCELLED"
    case Expired => "EXPIRED"
    case Failed => "FAILED"
    case Pending => "PENDING"
    case Settled => "SETTLED"
  }

  /** The initials of the status texts differ, so they decide the order. */
  function Initial(st: Status): char {
    StatusText(st)[0]
  }

  predicate Ascend(statuses: seq<Status>) {
    forall i, j | 0 <= i < j < |statuses| :: Initial(statuses[i]) < Initial(statuses[j])
  }

  predicate LinesInOrder(lines: seq<Line>, statuses: seq<Status>) {
    && (forall i | 0 <= i < |lines| :: lines[i].status in statuses)
    && (forall i, j | 0 <= i < j < |lines| :: Initial(lines[i].status) < Initial(lines[j].status))
  }

  lemma OneLineMore(lines: seq<Line>, front: seq<Status>, last: Status, l: Line)
    requires LinesInOrder(lines, front) && Ascend(front + [last]) && l.status == last
    ensures LinesInOrder(lines, front + [last]) && LinesInOrder(lines + [l], front + [last])
  {
    hide Initial;
    var statuses := front + [last];
    forall st | st in front ensures Initial(st) < Initial(last) && st in statuses {
      var k :| 0 <= k < |front| && front[k] == st;
      assert statuses[k] == st && statuses[|front|] == last;
    }
    assert statuses[|front|] == last;
    forall i, j | 0 <= i < j < |lines + [l]|
      ensures Initial((lines + [l])[i].status) < Initial((lines + [l])[j].status)
    {
      assert (lines + [l])[i] == lines[i];
    }
  }

  lemma {:induction false} LinesAscendFor(db: Db, statuses: seq<Status>)
    requires Ascend(statuses)
    ensures LinesInOrder(LinesFor(db, statuses), statuses)
  {
    if statuses != [] {
      var front, last := statuses[..|statuses| - 1], statuses[|statuses| - 1];
      assert statuses == front + [last];
      assert Ascend(front) by {
        assert forall i | 0 <= i < |front| :: front[i] == statuses[i];
      }
      LinesAscendFor(db, front);
      hide LinesInOrder, Ascend, WithStatus;
      OneLineMore(LinesFor(db, front), front, last, Line(last, |WithStatus(db, last)|, LineAmount(db, last)));
      assert LinesFor(db, front) + [] == LinesFor(db, front);
    }
  }

  /** The lines of a report come in ascending order of their status texts. */
  lemma LinesAscend(db: Db)
    ensures var lines := ReportLines(db);
            forall i, j | 0 <= i < j < |lines| :: StatusText(lines[i].status)[0] < StatusText(lines[j].status)[0]
  {
    StatusesAscend();
    hide LinesFor, Ascend, StatusText;
    LinesAscendFor(db, STATUSES);
    InitialsOf(ReportLines(db), STATUSES);
  }

  lemma InitialsOf(lines: seq<Line>, statuses: seq<Status>)
    requires LinesInOrder(lines, statuses)
    ensures forall i, j | 0 <= i < j < |lines| :: StatusText(lines[i].status)[0] < StatusText(lines[j].status)[0]
  {
    hide StatusText;
    forall i, j | 0 <= i < j < |lines| ensures StatusText(lines[i].status)[0] < StatusText(lines[j].status)[0] {
      assert Initial(lines[i].status) < Initial(lines[j].status);
    }
  }

  lemma StatusesAscend()
    ensures Ascend(STATUSES)
  {
    Initials();
    hide Initial;
  }

  lemma Initials()
    ensures Initial(AwaitingTransfer) == 'A' && Initial(Cancelled) == 'C' && Initial(Expired) == 'E'
    ensures Initial(Failed) == 'F' && Initial(Pending) == 'P' && Initial(Settled) == 'S'
  {
  }
}

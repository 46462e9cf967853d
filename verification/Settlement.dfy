/** Settlement runs: the balance is read in one step and posted in another. */
module SettlementRuns {
  import opened Types
  import opened Ledger
  import opened Database
  import opened Accounts
  import opened Machine
  import opened Safety
  import opened Guarantees
  import opened PendingCounter

  /** In every run, whatever the faults: a run recorded SUCCESS with a positive amount has posted exactly
      its two entries of that amount under its own reference, one recorded with amount zero or FAILED has
      posted none, and one still RUNNING has posted a pair or nothing. */
  lemma RunsPostWhatTheyRecord(s: State, n: nat)
    requires Reachable(s) && n < |s.db.settlements|
    ensures var row := s.db.settlements[n];
            var lines := Lines(s.db, OfSettlement(n));
            && (row.status == Success && row.amount > 0 ==>
                  && lines == [Entry(Escrow, DR, row.amount, SettlementOut, OfSettlement(n)),
                               Entry(Operating, CR, row.amount, SettlementOut, OfSettlement(n))]
                  && row.entries == 2)
            && (row.status == Success && row.amount <= 0 ==> lines == [] && row.amount == 0)
            && (row.status == RunFailed ==> lines == [])
            && (row.status == Running ==>
                  lines == [] || (lines[0].amount > 0 && lines == SettlementLines(n, lines[0].amount)))
  {
    ReachableIsOk(s);
  }

  /** What an operating total gained between two states. */
  function Gained(before: Db, after: Db, k: Kind): int {
    OperatingTotal(after.books.log, k) - OperatingTotal(before.books.log, k)
  }

  /** The balance that a run reads is the operating wallet's debits less its credits, the whole of it. */
  lemma RunReadsTheBalance(s: State, t: nat)
    requires Reachable(s) && t in s.tasks && s.tasks[t].SettleReading?
    ensures var n := Net(s.db.books.log, Operating);
            var run := s.tasks[t].run;
            Next(s, TaskDoes(t, ReadBalance))
            == Option.Some(s.(tasks := s.tasks[t :=
                 if n > 0 then SettlePosting(run, n) else SettleClosing(run, 0, 0, Success)]))
  {
    hide Inv, Reachable, BalanceOf;
    ReachableIsOk(s);
    BalanceIsNet(s);
  }

  /** After the read, and whatever the others do, the run stands where the read put it. */
  lemma ReadAndWaited(s: State, t: nat, acts: seq<Action>)
    requires Reachable(s) && t in s.tasks && s.tasks[t].SettleReading? && Apart(t, acts)
    requires Exec(s, [TaskDoes(t, ReadBalance)] + acts).Some?
    ensures var mid := Exec(s, [TaskDoes(t, ReadBalance)] + acts).value;
            var n := Net(s.db.books.log, Operating);
            && t in mid.tasks
            && mid.tasks[t] == (if n > 0 then SettlePosting(s.tasks[t].run, n)
                                else SettleClosing(s.tasks[t].run, 0, 0, Success))
            && Inv(s) && Inv(mid) && BalanceOf(s.db, Operating) == n
            && Exec(Next(s, TaskDoes(t, ReadBalance)).value, acts) == Option.Some(mid)
  {
    hide Reachable, Inv, Next, Apart, Grows;
    RunReadsTheBalance(s, t);
    ReachableIsOk(s);
    ExecKeeps(s, [TaskDoes(t, ReadBalance)] + acts);
    assert ([TaskDoes(t, ReadBalance)] + acts)[1..] == acts;
    TasksWait(Next(s, TaskDoes(t, ReadBalance)).value, t, acts);
    BalanceIsNet(s);
  }

  lemma BalanceIsNet(s: State)
    requires Inv(s)
    ensures BalanceOf(s.db, Operating) == Net(s.db.books.log, Operating)
  {
  }

  /** A run that reads a positive balance and later posts it leaves in the operating wallet exactly what
      was paid in between the two steps, less what was refunded and settled by others between them. */
  lemma RunLeavesWhatCameBetween(s: State, t: nat, acts: seq<Action>)
    requires Reachable(s) && t in s.tasks && s.tasks[t].SettleReading? && Net(s.db.books.log, Operating) > 0
    requires Apart(t, acts) && Exec(s, [TaskDoes(t, ReadBalance)] + acts).Some?
    ensures var mid := Exec(s, [TaskDoes(t, ReadBalance)] + acts).value;
            && Next(mid, TaskDoes(t, PostRun)).Some?
            && var end := Next(mid, TaskDoes(t, PostRun)).value;
               && BalanceOf(end.db, Operating)
                  == Gained(s.db, mid.db, PaymentIn) - Gained(s.db, mid.db, Reversal)
                     - Gained(s.db, mid.db, SettlementOut)
               && Lines(end.db, OfSettlement(s.tasks[t].run))
                  == SettlementLines(s.tasks[t].run, Net(s.db.books.log, Operating))
  {
    hide EngineOk, DueOk, EventsOk, TasksOk, Reachable, Grows, TablesOk, Apart;
    ReadAndWaited(s, t, acts);
    var n := Net(s.db.books.log, Operating);
    var mid := Exec(s, [TaskDoes(t, ReadBalance)] + acts).value;
    TaskIsOk(mid, t);
    RunSettlementKeeps(mid.db, s.tasks[t].run, n);
    var end := Next(mid, TaskDoes(t, PostRun)).value;
    OperatingByKind(s.db);
    OperatingByKind(mid.db);
    OperatingByKind(end.db);
    var lines := SettlementLines(s.tasks[t].run, n);
    assert lines == [lines[0], lines[1]];
    PairAppended(mid.db.books.log, lines[0], lines[1]);
  }

  lemma OperatingByKind(db: Db)
    requires TablesOk(db)
    ensures BalanceOf(db, Operating)
            == OperatingTotal(db.books.log, PaymentIn) - OperatingTotal(db.books.log, Reversal)
               - OperatingTotal(db.books.log, SettlementOut)
  {
  }

  /** No refund and no settlement posting among the steps. */
  predicate OnlyPayInsPost(acts: seq<Action>) {
    forall i | 0 <= i < |acts| && acts[i].TaskDoes? :: acts[i].step != RefundWrite && acts[i].step != PostRun
  }

  /** If only the engine posts in between, the run leaves exactly the pay-ins that landed in between, which
      is never negative; with no step in between it leaves zero. */
  lemma RunEmptiesTheWallet(s: State, t: nat, acts: seq<Action>)
    requires Reachable(s) && t in s.tasks && s.tasks[t].SettleReading? && Net(s.db.books.log, Operating) > 0
    requires Apart(t, acts) && OnlyPayInsPost(acts) && Exec(s, [TaskDoes(t, ReadBalance)] + acts).Some?
    ensures var mid := Exec(s, [TaskDoes(t, ReadBalance)] + acts).value;
            && Next(mid, TaskDoes(t, PostRun)).Some?
            && var end := Next(mid, TaskDoes(t, PostRun)).value;
               && BalanceOf(end.db, Operating) == Gained(s.db, mid.db, PaymentIn) >= 0
               && (acts == [] ==> BalanceOf(end.db, Operating) == 0)
  {
    hide Inv, Reachable, OnlyPayInsPost, Apart;
    RunLeavesWhatCameBetween(s, t, acts);
    ReadAndWaited(s, t, acts);
    RunReadsTheBalance(s, t);
    NextKeeps(s, TaskDoes(t, ReadBalance));
    PayInsOnly(Next(s, TaskDoes(t, ReadBalance)).value, acts);
  }

  /** A settlement with nothing in between: it opens the next row, empties the operating wallet of its whole
      balance, and records that amount. */
  lemma SerialSettlement(s: State, t: nat)
    requires Reachable(s) && t !in s.tasks && Net(s.db.books.log, Operating) > 0
    ensures var n := Net(s.db.books.log, Operating);
            var run := |s.db.settlements|;
            var end := Exec(s, [TaskDoes(t, OpenRun), TaskDoes(t, ReadBalance), TaskDoes(t, PostRun),
                                TaskDoes(t, CloseRun)]);
            && end.Some?
            && Net(end.value.db.books.log, Operating) == 0
            && end.value.db.settlements == s.db.settlements + [SettlementRow(n, 2, Success)]
            && end.value.db.books.log == s.db.books.log + SettlementLines(run, n)
            && t in end.value.tasks && end.value.tasks[t] == Emitting([SettlementCompleted(run)], 0)
  {
    hide Reachable, Next;
    var n := Net(s.db.books.log, Operating);
    var run := |s.db.settlements|;
    var started := RunOpens(s, t);
    RunReadsTheBalance(started, t);
    ReachableOn(started, TaskDoes(t, ReadBalance));
    var read := Next(started, TaskDoes(t, ReadBalance)).value;
    var posted := RunPostsAll(read, t, run, n);
    RunCloses(posted, t, run, n);
    FourSteps(s, TaskDoes(t, OpenRun), TaskDoes(t, ReadBalance), TaskDoes(t, PostRun), TaskDoes(t, CloseRun));
  }

  lemma RunOpens(s: State, t: nat) returns (to: State)
    requires Reachable(s) && t !in s.tasks
    ensures Next(s, TaskDoes(t, OpenRun)) == Option.Some(to) && Reachable(to)
    ensures t in to.tasks && to.tasks[t] == SettleReading(|s.db.settlements|)
    ensures to.db == s.db.(settlements := s.db.settlements + [SettlementRow(0, 0, Running)])
  {
    hide Reachable;
    to := Next(s, TaskDoes(t, OpenRun)).value;
    ReachableOn(s, TaskDoes(t, OpenRun));
  }

  lemma RunPostsAll(s: State, t: nat, run: nat, n: int) returns (to: State)
    requires Reachable(s) && t in s.tasks && s.tasks[t] == SettlePosting(run, n)
    requires n == Net(s.db.books.log, Operating)
    ensures Next(s, TaskDoes(t, PostRun)) == Option.Some(to)
    ensures t in to.tasks && to.tasks[t] == SettleClosing(run, n, 2, Success)
    ensures to.db.settlements == s.db.settlements && to.db.books.log == s.db.books.log + SettlementLines(run, n)
    ensures Net(to.db.books.log, Operating) == 0
  {
    hide Reachable, TablesOk, EngineOk, DueOk, TasksOk, EventsOk, RunSettlement, Grows, OnlyRun, KeepsExact;
    ReachableIsOk(s);
    TaskIsOk(s, t);
    RunSettlementKeeps(s.db, run, n);
    to := Next(s, TaskDoes(t, PostRun)).value;
    SettledNet(s.db, to.db, run, n);
  }

  lemma RunCloses(s: State, t: nat, run: nat, n: int)
    requires t in s.tasks && s.tasks[t] == SettleClosing(run, n, 2, Success)
    requires run < |s.db.settlements| && n > 0
    ensures var next := Next(s, TaskDoes(t, CloseRun));
            && next.Some? && next.value.db.books == s.db.books
            && next.value.db.settlements == s.db.settlements[run := SettlementRow(n, 2, Success)]
            && t in next.value.tasks && next.value.tasks[t] == Emitting([SettlementCompleted(run)], 0)
  {
  }

  /** A run whose read or whose posting fails is to be closed as FAILED with nothing, and the tables are as
      they were; its closing then records that. */
  lemma FailedRunsAreRecorded(s: State, t: nat)
    requires t in s.tasks
    ensures s.tasks[t].SettleReading? ==>
              Next(s, TaskDoes(t, ReadBalanceFails))
              == Option.Some(s.(tasks := s.tasks[t := SettleClosing(s.tasks[t].run, 0, 0, RunFailed)]))
    ensures s.tasks[t].SettlePosting? ==>
              Next(s, TaskDoes(t, PostRunFails))
              == Option.Some(s.(tasks := s.tasks[t := SettleClosing(s.tasks[t].run, 0, 0, RunFailed)]))
    ensures s.tasks[t].SettleClosing? && s.tasks[t].status == RunFailed && s.tasks[t].amount == 0
            && s.tasks[t].run < |s.db.settlements| ==>
              && Next(s, TaskDoes(t, CloseRun)).Some?
              && var to := Next(s, TaskDoes(t, CloseRun)).value;
                 && to.db.settlements
                    == s.db.settlements[s.tasks[t].run := SettlementRow(0, s.tasks[t].entries, RunFailed)]
                 && to.db.books == s.db.books && t !in to.tasks
  {
  }

  lemma SettledNet(db: Db, to: Db, run: nat, n: int)
    requires to.books.log == db.books.log + SettlementLines(run, n) && n > 0
    ensures Net(to.books.log, Operating) == Net(db.books.log, Operating) - n
  {
    var lines := SettlementLines(run, n);
    assert lines == [lines[0], lines[1]];
    PairAppended(db.books.log, lines[0], lines[1]);
  }

  lemma FourSteps(s: State, a: Action, b: Action, c: Action, d: Action)
    requires Next(s, a).Some? && Next(Next(s, a).value, b).Some?
    requires Next(Next(Next(s, a).value, b).value, c).Some?
    ensures Exec(s, [a, b, c, d]) == Next(Next(Next(Next(s, a).value, b).value, c).value, d)
  {
    hide Next;
    var s1 := Next(s, a).value;
    var s2 := Next(s1, b).value;
    var s3 := Next(s2, c).value;
    assert [a, b, c, d][1..] == [b, c, d] && [b, c, d][1..] == [c, d] && [c, d][1..] == [d] && [d][1..] == [];
    assert Exec(s3, [d]) == Next(s3, d);
    assert Exec(s2, [c, d]) == Exec(s3, [d]);
    assert Exec(s1, [b, c, d]) == Exec(s2, [c, d]);
  }

  /** Along steps that only pay in, the other operating totals stay and the pay-ins rise. */
  lemma {:induction false} PayInsOnly(s: State, acts: seq<Action>)
    requires Inv(s) && OnlyPayInsPost(acts) && Exec(s, acts).Some?
    ensures var to := Exec(s, acts).value;
            && Gained(s.db, to.db, Reversal) == 0 && Gained(s.db, to.db, SettlementOut) == 0
            && Gained(s.db, to.db, PaymentIn) >= 0
    decreases |acts|
  {
    hide Inv, Next;
    if acts != [] {
      NextKeeps(s, acts[0]);
      PayInOnly(s, acts[0]);
      PayInsOnly(Next(s, acts[0]).value, acts[1..]);
    }
  }

  lemma PayInOnly(s: State, a: Action)
    requires Inv(s) && Next(s, a).Some?
    requires a.TaskDoes? ==> a.step != RefundWrite && a.step != PostRun
    ensures var to := Next(s, a).value;
            && Gained(s.db, to.db, Reversal) == 0 && Gained(s.db, to.db, SettlementOut) == 0
            && Gained(s.db, to.db, PaymentIn) >= 0
  {
    match a
    case TaskDoes(t, step) =>
      TaskPostsNothing(s, t, step);
    case EngineDoes(Write) =>
      EngineWritePosts(s);
    case _ =>
      OtherStepsAreQuiet(s, a);
  }

  lemma TaskPostsNothing(s: State, t: nat, step: TaskStep)
    requires Inv(s) && TaskNext(s, t, step).Some? && step != RefundWrite && step != PostRun
    ensures TaskNext(s, t, step).value.db.books.log == s.db.books.log
  {
    hide Inv, Selects, ExpireEach, Proceeds, Opens;
    if t in s.tasks {
      LaterStatementPostsNothing(s, t, step);
    } else {
      FirstStatementPostsNothing(s, t, step);
    }
  }

  lemma FirstStatementPostsNothing(s: State, t: nat, step: TaskStep)
    requires t !in s.tasks && Opens(s, t, step).Some?
    ensures Opens(s, t, step).value.db.books.log == s.db.books.log
  {
    hide Selects, ExpireEach;
    if step.SweepWrite? {
      SweepPostsNothing(s.db, step.ids);
    }
  }

  lemma {:induction false} SweepPostsNothing(db: Db, ids: seq<PaymentId>)
    ensures ExpireEach(db, ids).books == db.books
    decreases |ids|
  {
    if ids != [] {
      SweepPostsNothing(ExpireOne(db, ids[0]), ids[1..]);
    }
  }

  lemma LaterStatementPostsNothing(s: State, t: nat, step: TaskStep)
    requires t in s.tasks && Proceeds(s, t, step).Some? && step != RefundWrite && step != PostRun
    ensures Proceeds(s, t, step).value.db.books.log == s.db.books.log
  {
  }

  lemma EngineWritePosts(s: State)
    requires Inv(s) && Next(s, EngineDoes(Write)).Some?
    ensures var to := Next(s, EngineDoes(Write)).value;
            && Gained(s.db, to.db, Reversal) == 0 && Gained(s.db, to.db, SettlementOut) == 0
            && Gained(s.db, to.db, PaymentIn) >= 0
  {
    hide TablesOk, EngineOk, DueOk, TasksOk, EventsOk, Grows, OnlyPayments, Writes, PayIn;
    WriteStep(s);
    EngineWrites(s);
    if s.engine.pc == Posting {
      EnginePosts(s);
      var id := s.engine.batch[0].id;
      if !PaidIn(s.db, id) {
        PayInGains(s.db, Writes(s).value.db, id);
      }
    }
  }

  lemma PayInGains(db: Db, to: Db, x: PaymentId)
    requires TablesOk(db) && PayIn(db, to, x)
    ensures Gained(db, to, Reversal) == 0 && Gained(db, to, SettlementOut) == 0 && Gained(db, to, PaymentIn) >= 0
  {
    hide TablesOk, OnlyPayments;
    AmountIsPositive(db, x);
    var lines := PayInLines(x, db.payments[x].amount);
    assert lines == [lines[0], lines[1]];
    PairAppended(db.books.log, lines[0], lines[1]);
  }

  /** A run that reads a balance of zero or less posts nothing, whatever happens before it closes: its
      closing moves no money and records a SUCCESS of zero, and no line is filed under it. */
  lemma EmptyRunPostsNothing(s: State, t: nat, acts: seq<Action>)
    requires Reachable(s) && t in s.tasks && s.tasks[t].SettleReading? && Net(s.db.books.log, Operating) <= 0
    requires Apart(t, acts) && Exec(s, [TaskDoes(t, ReadBalance)] + acts).Some?
    ensures var mid := Exec(s, [TaskDoes(t, ReadBalance)] + acts).value;
            && Next(mid, TaskDoes(t, CloseRun)).Some?
            && var end := Next(mid, TaskDoes(t, CloseRun)).value;
               && end.db.books == mid.db.books
               && (acts == [] ==> end.db.books == s.db.books)
               && s.tasks[t].run < |end.db.settlements|
               && end.db.settlements[s.tasks[t].run] == SettlementRow(0, 0, Success)
               && Lines(end.db, OfSettlement(s.tasks[t].run)) == []
  {
    hide TablesOk, EngineOk, DueOk, TasksOk, EventsOk, Reachable, Grows, Apart;
    ReadAndWaited(s, t, acts);
    var mid := Exec(s, [TaskDoes(t, ReadBalance)] + acts).value;
    TaskIsOk(mid, t);
    NextKeeps(mid, TaskDoes(t, CloseRun));
    var end := Next(mid, TaskDoes(t, CloseRun)).value;
    EmptyRunHasNoLines(end.db, s.tasks[t].run);
    if acts == [] {
      assert [TaskDoes(t, ReadBalance)] + acts == [TaskDoes(t, ReadBalance)];
      assert [TaskDoes(t, ReadBalance)][1..] == [];
    }
  }

  lemma EmptyRunHasNoLines(db: Db, n: nat)
    requires TablesOk(db) && n < |db.settlements| && db.settlements[n] == SettlementRow(0, 0, Success)
    ensures Lines(db, OfSettlement(n)) == []
  {
    assert RunOk(n, db.settlements[n], Lines(db, OfSettlement(n)));
  }
}

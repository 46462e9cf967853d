/** The pending counter of the escrow wallet, which no code ever recomputes. */
module PendingCounter {
  import opened Types
  import opened Database
  import opened Accounts
  import opened Sums
  import opened Machine
  import opened Safety
  import opened Guarantees
  import opened Reports

  /** In every run, whatever the faults, the pending counter is never negative and never reports more than
      the payments that are awaiting transfer or failed and not paid in; and it reports exactly that sum
      unless some payment was expired after its pay-in had been posted. */
  lemma PendingNeverOverReports(s: State)
    requires Reachable(s)
    ensures 0 <= PendingOf(s.db) <= Sum(s.db, OutstandingIds(s.db))
    ensures !ExpiredAfterPayIn(s.db) ==> PendingOf(s.db) == Sum(s.db, OutstandingIds(s.db))
  {
    ReachableIsOk(s);
  }

  // ----- runs in which no fault separates a posting from its mark -----

  predicate CleanStep(s: State, a: Action) {
    s.engine.pc == Marking ==> a != Crash && a != EngineDoes(WriteFails)
  }

  /** No crash and no failed write strikes while the engine stands between posting a transfer and marking
      its payment; faults are allowed everywhere else. */
  predicate CleanRun(s: State, acts: seq<Action>)
    decreases |acts|
  {
    acts != [] ==>
      && CleanStep(s, acts[0])
      && (Next(s, acts[0]).Some? ==> CleanRun(Next(s, acts[0]).value, acts[1..]))
  }

  /** The payment's money has moved and its row does not show it. */
  predicate InLimbo(db: Db, id: PaymentId) {
    id in db.payments && PaidIn(db, id) && db.payments[id].status in {AwaitingTransfer, Failed, Expired}
  }

  /** At most the payment that the engine is about to mark is in limbo. */
  ghost predicate NoLimbo(s: State) {
    forall id | InLimbo(s.db, id) :: s.engine.pc == Marking && s.engine.batch != [] && s.engine.batch[0].id == id
  }

  lemma TaskLeavesNoLimbo(s: State, to: State)
    requires Inv(s) && NoLimbo(s) && TaskKeeps(s, to)
    ensures NoLimbo(to)
  {
    forall id | InLimbo(to.db, id) ensures InLimbo(s.db, id) {
      assert PaidIn(s.db, id);
      assert id in s.db.payments;
      assert RowOk(id, s.db.payments[id], Lines(s.db, OfPayment(id)));
      assert RowOk(id, to.db.payments[id], Lines(to.db, OfPayment(id)));
      hide TablesOk, EngineOk, DueOk, TasksOk, EventsOk;
      if s.db.payments[id].status == Settled {
        hide TrailOk;
        LongerTrail(s.db.payments[id], to.db.payments[id]);
      }
    }
  }

  /** Rows and ledger lines other than the engine's present payment are as they were. */
  lemma WriteLeavesNoLimbo(s: State)
    requires Inv(s) && NoLimbo(s) && s.engine.batch != [] && Writes(s).Some?
    ensures NoLimbo(Writes(s).value)
  {
    hide TablesOk, DueOk, TasksOk, EventsOk, Grows;
    EngineWrites(s);
    var to := Writes(s).value;
    var x := s.engine.batch[0].id;
    assert s.engine.pc != Marking ==> !InLimbo(s.db, x);
    HeadAfterWrite(s);
    assert forall id | id != x :: InLimbo(to.db, id) ==> InLimbo(s.db, id);
  }

  lemma HeadAfterWrite(s: State)
    requires Inv(s) && s.engine.batch != [] && Writes(s).Some?
    requires s.engine.pc != Marking ==> !InLimbo(s.db, s.engine.batch[0].id)
    ensures var to := Writes(s).value;
            InLimbo(to.db, s.engine.batch[0].id) ==> to.engine.pc == Marking && to.engine.batch == s.engine.batch
  {
    hide TablesOk, EngineOk, DueOk, TasksOk, EventsOk, Grows, OnlyPayments, PayIn;
    if s.engine.pc == Marking {
      EngineMarks(s);
    } else if s.engine.pc == Posting {
      EnginePosts(s);
    } else if s.engine.pc == Requeueing {
      HeadFailed(s);
    } else {
      HeadWaits(s);
    }
  }

  lemma WriteStep(s: State)
    requires Next(s, EngineDoes(Write)).Some?
    ensures s.engine.batch != [] && Next(s, EngineDoes(Write)) == Writes(s)
  {
  }

  /** Apart from task steps and engine writes, no step touches a payment or the ledger; unless a fault does,
      it does not leave Marking either. */
  lemma OtherStepsAreQuiet(s: State, a: Action)
    requires Next(s, a).Some? && !a.TaskDoes? && a != EngineDoes(Write)
    ensures var to := Next(s, a).value;
            && to.db.payments == s.db.payments && to.db.books == s.db.books
            && to.db.settlements == s.db.settlements
            && (s.engine.pc == Marking && CleanStep(s, a) ==> to.engine == s.engine)
  {
    hide Oldest;
  }

  lemma NextLeavesNoLimbo(s: State, a: Action)
    requires Inv(s) && NoLimbo(s) && CleanStep(s, a) && Next(s, a).Some?
    ensures NoLimbo(Next(s, a).value)
  {
    hide TablesOk, EngineOk, DueOk, TasksOk, EventsOk, TaskNext, EngineNext;
    var to := Next(s, a).value;
    match a
    case TaskDoes(t, step) =>
      TaskNextKeeps(s, t, step);
      TaskLeavesNoLimbo(s, to);
    case EngineDoes(Write) =>
      WriteStep(s);
      WriteLeavesNoLimbo(s);
    case _ =>
      OtherStepsAreQuiet(s, a);
      assert forall id :: InLimbo(to.db, id) <==> InLimbo(s.db, id);
  }

  lemma {:induction false} CleanRunsKeepNoLimbo(s: State, acts: seq<Action>)
    requires Inv(s) && NoLimbo(s) && CleanRun(s, acts) && Exec(s, acts).Some?
    ensures NoLimbo(Exec(s, acts).value) && Inv(Exec(s, acts).value)
    decreases |acts|
  {
    hide Inv, NoLimbo, Next;
    if acts != [] {
      NextKeeps(s, acts[0]);
      NextLeavesNoLimbo(s, acts[0]);
      CleanRunsKeepNoLimbo(Next(s, acts[0]).value, acts[1..]);
    }
  }

  /** After a clean run from the empty tables. */
  ghost predicate CleanlyReachable(s: State) {
    exists now: int, acts: seq<Action> ::
      CleanRun(Start(now), acts) && Exec(Start(now), acts) == Option.Some(s)
  }

  lemma CleanStatesAreOk(s: State)
    requires CleanlyReachable(s)
    ensures Reachable(s) && Inv(s) && NoLimbo(s) && !ExpiredAfterPayIn(s.db)
  {
    hide Inv;
    var now: int, acts: seq<Action> :| CleanRun(Start(now), acts) && Exec(Start(now), acts) == Option.Some(s);
    StartIsOk(now);
    assert NoLimbo(Start(now));
    CleanRunsKeepNoLimbo(Start(now), acts);
    if id :| HasStatus(s.db, id, Expired) && PaidIn(s.db, id) {
      assert InLimbo(s.db, id);
      HeadIsWaiting(s);
    }
  }

  lemma HeadIsWaiting(s: State)
    requires Inv(s) && s.engine.pc == Marking && s.engine.batch != []
    ensures HasStatus(s.db, s.engine.batch[0].id, AwaitingTransfer)
  {
    HeadWaits(s);
  }

  /** In a clean run, after every step, the pending counter equals the outstanding sum, and neither of the
      two saturating releases that the engine may be about to run would saturate. */
  lemma CleanPendingIsExact(s: State)
    requires CleanlyReachable(s)
    ensures PendingOf(s.db) == Sum(s.db, OutstandingIds(s.db))
    ensures s.engine.pc in {Posting, Expiring} ==>
              s.engine.batch != [] && s.engine.batch[0].row.amount <= PendingOf(s.db)
  {
    CleanStatesAreOk(s);
    if s.engine.pc in {Posting, Expiring} {
      HeadWaits(s);
      assert !InLimbo(s.db, s.engine.batch[0].id);
      OutstandingCovers(s.db, s.engine.batch[0].id);
    }
  }

  /** In a clean run, whenever the engine is not between a posting and its mark, the pending counter equals
      the AWAITING_TRANSFER line plus the FAILED line of a report taken at that moment. */
  lemma CleanPendingMatchesTheReport(s: State)
    requires CleanlyReachable(s) && s.engine.pc != Marking
    ensures PendingOf(s.db)
            == Reported(ReportLines(s.db), AwaitingTransfer) + Reported(ReportLines(s.db), Failed)
  {
    ReportedIsLineAmount(s.db, AwaitingTransfer);
    ReportedIsLineAmount(s.db, Failed);
    hide Inv, CleanlyReachable, Reachable;
    CleanPendingIsExact(s);
    CleanStatesAreOk(s);
    var a, f := WithStatus(s.db, AwaitingTransfer), WithStatus(s.db, Failed);
    forall id ensures id in OutstandingIds(s.db) <==> id in a + f {
      assert !InLimbo(s.db, id);
    }
    assert OutstandingIds(s.db) == a + f;
    TotalUnion(s.db.payments, a, f);
  }

  // ----- where exactness ends -----

  /** The engine is about to expire a payment that is paid in, with something pending that is not its own. */
  ghost predicate ReleasesAgain(s: State, a: Action) {
    && a == EngineDoes(Write) && s.engine.pc == Expiring && s.engine.batch != []
    && PaidIn(s.db, s.engine.batch[0].id) && PendingOf(s.db) > 0
  }

  lemma CreateWriteKeepsExact(s: State, t: nat)
    requires TablesOk(s.db) && t in s.tasks && Proceeds(s, t, CreateWrite).Some?
    ensures KeepsExact(s.db, Proceeds(s, t, CreateWrite).value.db)
  {
    hide TablesOk, KeepsExact, CreatePayment, Grows, OnlyPayments;
    var k := s.tasks[t];
    UnchangedKeepsExact(s.db);
    if CreatePayment(s.db, k.id, k.reference, None, k.amount, k.due).Ok? {
      CreateKeeps(s.db, k.id, k.reference, None, k.amount, k.due);
    }
  }

  lemma UnchangedKeepsExact(db: Db)
    ensures KeepsExact(db, db)
  {
  }

  lemma PayerWriteKeepsExact(s: State, t: nat)
    requires TablesOk(s.db) && t in s.tasks && Proceeds(s, t, PayerWrite).Some?
    ensures KeepsExact(s.db, Proceeds(s, t, PayerWrite).value.db)
  {
    hide TablesOk, KeepsExact, UpdatePaymentStatus, ConfirmPaymentIntent, Grows, OnlyPayments;
    UnchangedKeepsExact(s.db);
    match s.tasks[t]
    case PayerExpiring(id) =>
      if UpdatePaymentStatus(s.db, id, Option.Some(Pending), Expired).Ok? {
        ExpirePendingKeeps(s.db, id);
      }
    case PayerConfirming(id) =>
      if ConfirmPaymentIntent(s.db, id).Ok? {
        ConfirmKeeps(s.db, id);
      }
    case _ =>
  }

  lemma RefundWriteKeepsExact(s: State, t: nat)
    requires TablesOk(s.db) && TasksOk(s) && t in s.tasks && Proceeds(s, t, RefundWrite).Some?
    ensures KeepsExact(s.db, Proceeds(s, t, RefundWrite).value.db)
  {
    hide TablesOk, KeepsExact, RefundSettledPayment, Grows, OnlyPayments;
    UnchangedKeepsExact(s.db);
    assert TaskOk(s.db, s.tasks[t]);
    var k := s.tasks[t];
    if HasStatus(s.db, k.id, Settled) {
      RefundKeeps(s.db, k.id, k.amount);
    } else {
      RefundKeeps(s.db, k.id, k.amount);
    }
  }

  lemma PostRunKeepsExact(s: State, t: nat)
    requires TablesOk(s.db) && TasksOk(s) && t in s.tasks && Proceeds(s, t, PostRun).Some?
    ensures KeepsExact(s.db, Proceeds(s, t, PostRun).value.db)
  {
    hide TablesOk, KeepsExact, RunSettlement, Grows, OnlyRun;
    assert TaskOk(s.db, s.tasks[t]);
    RunSettlementKeeps(s.db, s.tasks[t].run, s.tasks[t].amount);
  }

  lemma CloseRunKeepsExact(s: State, t: nat)
    requires TablesOk(s.db) && TasksOk(s) && t in s.tasks && Proceeds(s, t, CloseRun).Some?
    ensures KeepsExact(s.db, Proceeds(s, t, CloseRun).value.db)
  {
    hide TablesOk, KeepsExact, CompleteSettlement, Grows, OnlyRun;
    var k := s.tasks[t];
    assert TaskOk(s.db, k);
    CompleteSettlementKeeps(s.db, k.run, k.amount, k.entries, k.status);
  }

  /** No step of a handler, a sweep or a settlement run disturbs an exact counter. */
  lemma TaskKeepsExact(s: State, t: nat, step: TaskStep)
    requires Inv(s) && TaskNext(s, t, step).Some?
    ensures KeepsExact(s.db, TaskNext(s, t, step).value.db)
  {
    hide TablesOk, TasksOk, EngineOk, DueOk, EventsOk, KeepsExact, Selects, ExpireEach, Grows, OnlyPayments, OnlyRun;
    UnchangedKeepsExact(s.db);
    if t !in s.tasks {
      match step
      case SweepWrite(ids, _, _) => ExpireEachKeeps(s.db, ids);
      case OpenRun => CreateSettlementKeeps(s.db);
      case _ =>
    } else {
      match step
      case CreateWrite => CreateWriteKeepsExact(s, t);
      case PayerWrite => PayerWriteKeepsExact(s, t);
      case RefundWrite => RefundWriteKeepsExact(s, t);
      case PostRun => PostRunKeepsExact(s, t);
      case CloseRun => CloseRunKeepsExact(s, t);
      case Emit => EnqueueKeeps(s.db, s.tasks[t].todo[s.tasks[t].next]);
      case _ =>
    }
  }

  /** A write of the engine disturbs an exact counter if and only if it releases a second time. */
  lemma WriteKeepsExact(s: State)
    requires Inv(s) && EngineNext(s, Write).Some? && Exact(s.db)
    ensures Exact(EngineNext(s, Write).value.db) <==> !ReleasesAgain(s, EngineDoes(Write))
  {
    hide TablesOk, TasksOk, EngineOk, DueOk, EventsOk, Exact, Grows, OnlyPayments, ExpireAwaitingTransfer,
         ClearPendingEscrowToOperating, MarkPaymentSettled, IncrementRetryAndSetStatus, UpdatePaymentStatus;
    EngineWrites(s);
    var x := s.engine.batch[0].id;
    PendingIsNonNegative(s);
    match s.engine.pc
    case Expiring =>
      HeadWaits(s);
      ExpireAwaitingKeeps(s.db, x);
    case Posting =>
      HeadWaits(s);
      ClearPendingKeeps(s.db, x);
    case Marking =>
      EngineMarks(s);
      HeadIsPaidIn(s);
      MarkKeeps(s.db, x);
    case Declining =>
      HeadWaits(s);
      DeclineKeeps(s.db, x);
    case Requeueing =>
      HeadFailed(s);
      RequeueKeeps(s.db, x);
  }

  lemma PendingIsNonNegative(s: State)
    requires Inv(s)
    ensures PendingOf(s.db) >= 0
  {
  }

  lemma HeadIsPaidIn(s: State)
    requires Inv(s) && s.engine.pc == Marking && s.engine.batch != []
    ensures PaidIn(s.db, s.engine.batch[0].id)
  {
  }

  /** Any action from a state with an exact counter: the counter is exact afterwards if and only if the
      action is not the expiry of a paid-in payment with something pending. */
  lemma ExactnessEndsOnlyThere(s: State, a: Action)
    requires Inv(s) && Exact(s.db) && Next(s, a).Some?
    ensures Exact(Next(s, a).value.db) <==> !ReleasesAgain(s, a)
  {
    hide Inv, Exact, Writes, TaskNext;
    match a
    case TaskDoes(t, step) =>
      TaskKeepsExact(s, t, step);
    case EngineDoes(Write) =>
      WriteKeepsExact(s);
    case EngineDoes(Announce) =>
      EnqueueIsExact(s);
    case _ =>
  }

  lemma EnqueueIsExact(s: State)
    requires Inv(s) && s.engine.pc.Announcing?
    ensures KeepsExact(s.db, Enqueue(s.db, s.engine.pc.event))
  {
    hide TablesOk, KeepsExact, Grows, OnlyPayments;
    EnqueueKeeps(s.db, s.engine.pc.event);
  }

  ghost predicate ExactThroughout(s: State, acts: seq<Action>)
    decreases |acts|
  {
    && Exact(s.db)
    && (acts != [] && Next(s, acts[0]).Some? ==> ExactThroughout(Next(s, acts[0]).value, acts[1..]))
  }

  ghost predicate NeverReleasesAgain(s: State, acts: seq<Action>)
    decreases |acts|
  {
    acts != [] ==>
      && !ReleasesAgain(s, acts[0])
      && (Next(s, acts[0]).Some? ==> NeverReleasesAgain(Next(s, acts[0]).value, acts[1..]))
  }

  lemma {:induction false} ExactRuns(s: State, acts: seq<Action>)
    requires Inv(s) && Exact(s.db) && Exec(s, acts).Some?
    ensures ExactThroughout(s, acts) <==> NeverReleasesAgain(s, acts)
    decreases |acts|
  {
    hide Inv, Exact, Next, ReleasesAgain;
    if acts != [] {
      var next := Next(s, acts[0]).value;
      NextKeeps(s, acts[0]);
      ExactnessEndsOnlyThere(s, acts[0]);
      if Exact(next.db) {
        ExactRuns(next, acts[1..]);
      }
    }
  }

  /** A run from the empty tables, whatever the interleaving and the faults: the counter is exact after
      every step if and only if no step expires a paid-in payment with something pending. */
  lemma RunsAreExactUnlessReleasedAgain(now: int, acts: seq<Action>)
    requires Exec(Start(now), acts).Some?
    ensures ExactThroughout(Start(now), acts) <==> NeverReleasesAgain(Start(now), acts)
  {
    hide Inv, Next, ReleasesAgain, Exec;
    StartIsOk(now);
    StartIsExact(now);
    ExactRuns(Start(now), acts);
  }

  lemma StartIsExact(now: int)
    ensures Exact(Start(now).db)
  {
    assert OutstandingIds(EMPTY_DB) == {};
  }

  /** An exact counter stays exact over an expiry by the engine if and only if the payment's transfer had
      not been posted, or there was nothing pending for the second release to take. */
  lemma ExpiryIsExactUnlessPaidIn(s: State)
    requires Reachable(s) && s.engine.pc == Expiring && s.engine.batch != []
    requires Exact(s.db)
    ensures Next(s, EngineDoes(Write)).Some?
    ensures Exact(Next(s, EngineDoes(Write)).value.db)
            <==> !PaidIn(s.db, s.engine.batch[0].id) || PendingOf(s.db) == 0
  {
    hide Inv, Reachable, Exact;
    ReachableIsOk(s);
    EngineExpires(s);
    PendingIsNonNegative(s);
    ExactnessEndsOnlyThere(s, EngineDoes(Write));
  }

  lemma ExpiryMoves(db: Db, to: Db, x: PaymentId)
    requires TablesOk(db) && HasStatus(db, x, AwaitingTransfer)
    requires ExpireAwaitingTransfer(db, x, db.payments[x].amount) == Ok(to)
    ensures PendingOf(to) == Release(PendingOf(db), db.payments[x].amount)
    ensures Sum(to, OutstandingIds(to)) == Sum(db, OutstandingIds(db)) - DueAt(db, x)
    ensures 0 < db.payments[x].amount && 0 <= PendingOf(db) && DueAt(db, x) <= Sum(db, OutstandingIds(db))
    ensures DueAt(db, x) == if PaidIn(db, x) then 0 else db.payments[x].amount
  {
    hide TablesOk, TrailOk;
    ExpireAwaitingKeeps(db, x);
    SelectionsMove(db, to, x);
    AmountIsPositive(db, x);
    assert !Outstanding(to, x);
  }

  lemma AmountIsPositive(db: Db, x: PaymentId)
    requires TablesOk(db) && x in db.payments
    ensures 0 < db.payments[x].amount && 0 <= PendingOf(db) && DueAt(db, x) <= Sum(db, OutstandingIds(db))
  {
    assert RowOk(x, db.payments[x], Lines(db, OfPayment(x)));
    DueIsCovered(db, x);
  }
}

/** The guarantees over whole runs: any interleaving of the goroutines, with faults between any two steps
    unless a lemma says otherwise. */
module Guarantees {
  import opened Types
  import opened Ledger
  import opened Database
  import opened Accounts
  import opened Machine
  import opened Safety

  // ----- every step, every run -----

  lemma NextKeeps(s: State, a: Action)
    requires Inv(s) && Next(s, a).Some?
    ensures Inv(Next(s, a).value) && Grows(s.db, Next(s, a).value.db)
  {
    SelfRely(s.db);
    match a
    case TaskDoes(t, step) => TaskNextKeeps(s, t, step);
    case EngineDoes(move) => EngineNextKeeps(s, move);
    case Advance(_) => AdvanceKeeps(s, Next(s, a).value);
    case Crash => CrashKeeps(s, Next(s, a).value);
  }

  lemma AdvanceKeeps(s: State, to: State)
    requires Inv(s) && to == s.(now := to.now) && to.now >= s.now
    ensures Inv(to)
  {
    hide TablesOk, EngineOk, DueOk, EventsOk, Grows;
    SelfRely(s.db);
    EngineKeepsUnderRely(s, to);
    EventsKept(s, to, None, None);
  }

  lemma CrashKeeps(s: State, to: State)
    requires Inv(s) && to == State(s.db, FreshEngine(s.now), map[], s.now)
    ensures Inv(to)
  {
    hide TablesOk, EventsOk, Grows, Earned;
    SelfRely(s.db);
    EventsKept(s, to, None, None);
  }

  lemma {:induction false} ExecKeeps(s: State, acts: seq<Action>)
    requires Inv(s) && Exec(s, acts).Some?
    ensures Inv(Exec(s, acts).value) && Grows(s.db, Exec(s, acts).value.db)
    decreases |acts|
  {
    hide Inv, Grows, Next;
    SelfRely(s.db);
    if acts != [] {
      NextKeeps(s, acts[0]);
      ExecKeeps(Next(s, acts[0]).value, acts[1..]);
      GrowsOn(s.db, Next(s, acts[0]).value.db, Exec(s, acts).value.db);
    }
  }

  ghost predicate Reachable(s: State) {
    exists now: int, acts: seq<Action> :: Exec(Start(now), acts) == Option.Some(s)
  }

  lemma StartIsOk(now: int)
    ensures Inv(Start(now))
  {
    EmptyTablesOk();
    hide TablesOk;
    assert forall h, e :: !Holds(Start(now), h, e);
  }

  lemma ReachableIsOk(s: State)
    requires Reachable(s)
    ensures Inv(s)
  {
    hide Inv, Exec, Grows;
    var now: int, acts: seq<Action> :| Exec(Start(now), acts) == Option.Some(s);
    StartIsOk(now);
    ExecKeeps(Start(now), acts);
  }

  lemma ReachableOn(s: State, a: Action)
    requires Reachable(s) && Next(s, a).Some?
    ensures Reachable(Next(s, a).value)
  {
    var now: int, acts: seq<Action> :| Exec(Start(now), acts) == Option.Some(s);
    ExecJoins(Start(now), acts, [a]);
    assert [a][1..] == [];
    assert Exec(s, [a]) == Next(s, a);
  }

  lemma HasEscrow(s: State)
    requires Reachable(s)
    ensures Escrow in s.db.books.wallets
  {
    ReachableIsOk(s);
  }

  // ----- between two statements of one goroutine -----

  /** No crash and no step of task t. */
  predicate Apart(t: nat, acts: seq<Action>) {
    forall i | 0 <= i < |acts| :: acts[i] != Crash && !(acts[i].TaskDoes? && acts[i].t == t)
  }

  /** Between two statements of a task no step of another actor changes where it stands. */
  lemma {:induction false} TasksWait(s: State, t: nat, acts: seq<Action>)
    requires Exec(s, acts).Some? && Apart(t, acts)
    ensures var to := Exec(s, acts).value;
            && (t in to.tasks <==> t in s.tasks) && (t in s.tasks ==> to.tasks[t] == s.tasks[t])
            && to.now >= s.now
    decreases |acts|
  {
    hide Next;
    if acts != [] {
      OthersLeaveTask(s, t, acts[0]);
      TasksWait(Next(s, acts[0]).value, t, acts[1..]);
    }
  }

  lemma OthersLeaveTask(s: State, t: nat, a: Action)
    requires Next(s, a).Some? && a != Crash && !(a.TaskDoes? && a.t == t)
    ensures var to := Next(s, a).value;
            && (t in to.tasks <==> t in s.tasks) && (t in s.tasks ==> to.tasks[t] == s.tasks[t])
            && to.now >= s.now
  {
    hide Oldest, Selects, ExpireEach, Visits, Writes;
    if a.EngineDoes? {
      EngineLeavesTasks(s);
    }
  }

  lemma EngineLeavesTasks(s: State)
    ensures s.engine.batch != [] ==>
              forall delay :: Visits(s, delay).tasks == s.tasks && Visits(s, delay).now == s.now
    ensures s.engine.batch != [] && Writes(s).Some? ==> Writes(s).value.tasks == s.tasks && Writes(s).value.now == s.now
  {
  }

  // ----- the ledger -----

  /** In every reachable state each cached balance is the fold of the log, the balances sum to zero, the
      two sides agree, no balance exceeds the total debit, and the log of any later state extends it. */
  lemma BalancesRefineTheLog(s: State, acts: seq<Action>)
    requires Reachable(s) && Exec(s, acts).Some?
    ensures forall w :: BalanceOf(s.db, w) == Net(s.db.books.log, w)
    ensures NetWalletBalance(s.db) == 0
    ensures LedgerTotals(s.db).0 == LedgerTotals(s.db).1
    ensures forall w :: -LedgerTotals(s.db).0 <= BalanceOf(s.db, w) <= LedgerTotals(s.db).0
    ensures LedgerTotals(s.db).0 < 0x8000_0000_0000_0000 ==>
              forall w :: -0x8000_0000_0000_0000 <= BalanceOf(s.db, w) < 0x8000_0000_0000_0000
    ensures s.db.books.log <= Exec(s, acts).value.db.books.log
  {
    hide RowsOk, StampsOk, RunsOk, MoneyOk, PendingOk, EngineOk, DueOk, TasksOk, EventsOk, Reachable;
    ReachableIsOk(s);
    ExecKeeps(s, acts);
    SoundBooksBalance(s.db.books);
  }

  /** The integrity check and the flag of the reconciliation report, whose sum over the wallets and whose
      ledger totals are read at two moments, never report an imbalance. */
  lemma ReportsNeverSeeImbalance(s: State, acts: seq<Action>)
    requires Reachable(s) && Exec(s, acts).Some?
    ensures var later := Exec(s, acts).value;
            NetWalletBalance(s.db) == 0 && LedgerTotals(later.db).0 == LedgerTotals(later.db).1
  {
    hide RowsOk, StampsOk, RunsOk, MoneyOk, PendingOk, EngineOk, DueOk, TasksOk, EventsOk, Grows, Reachable;
    ReachableIsOk(s);
    SoundBooksBalance(s.db.books);
    ExecKeeps(s, acts);
  }

  /** The operating wallet holds what was paid in, less what was refunded, less what was settled; the
      escrow wallet is its mirror and no fee is ever taken. */
  lemma BalancesInClosedForm(s: State)
    requires Reachable(s)
    ensures BalanceOf(s.db, Operating)
            == Sum(s.db, PaidIds(s.db)) - Sum(s.db, WithStatus(s.db, Cancelled))
               - OperatingTotal(s.db.books.log, SettlementOut)
    ensures BalanceOf(s.db, Escrow) == -BalanceOf(s.db, Operating)
    ensures BalanceOf(s.db, Fee) == 0
  {
    ReachableIsOk(s);
  }

  /** A payment has been paid in exactly when the log holds its PAYMENT_IN entry. */
  lemma PaidInMeansPaymentIn(s: State, id: PaymentId)
    requires Reachable(s)
    ensures PaidIn(s.db, id) <==>
              exists i :: 0 <= i < |s.db.books.log|
                && s.db.books.log[i].kind == PaymentIn && s.db.books.log[i].ref == OfPayment(id)
  {
    ReachableIsOk(s);
    FiledUnder(s.db.books.log, OfPayment(id));
    if PaidIn(s.db, id) {
      assert RowOk(id, s.db.payments[id], Lines(s.db, OfPayment(id)));
      assert Lines(s.db, OfPayment(id))[0].kind == PaymentIn;
    }
  }

  /** Under(log, r) holds exactly the entries of the log that refer to r. */
  lemma {:induction false} FiledUnder(log: seq<Entry>, r: Ref)
    ensures forall e :: e in Under(log, r) <==> e in log && e.ref == r
  {
    if log != [] {
      assert log == log[..|log| - 1] + [log[|log| - 1]];
      FiledUnder(log[..|log| - 1], r);
    }
  }

  /** The whole ledger history of a payment, in any run: nothing, its pay-in pair once, or that pair and
      then its reversal pair once. Both entries of a pair are there or neither is. */
  lemma PaymentsPostAtMostOnce(s: State, id: PaymentId)
    requires Reachable(s)
    ensures id !in s.db.payments ==> Lines(s.db, OfPayment(id)) == []
    ensures id in s.db.payments ==>
              var p := s.db.payments[id];
              var lines := Lines(s.db, OfPayment(id));
              && (lines == [] || lines == PayInLines(id, p.amount)
                  || lines == PayInLines(id, p.amount) + ReversalLines(id, p.amount))
              && (lines != [] ==>
                    && lines[0] == Entry(Operating, DR, p.amount, PaymentIn, OfPayment(id))
                    && lines[1] == Entry(Escrow, CR, p.amount, Simulation, OfPayment(id)))
              && (|lines| > 2 ==>
                    && |lines| == 4
                    && lines[2] == Entry(Escrow, DR, p.amount, Reversal, OfPayment(id))
                    && lines[3] == Entry(Operating, CR, p.amount, Reversal, OfPayment(id)))
              && (p.status == Cancelled <==> lines == PayInLines(id, p.amount) + ReversalLines(id, p.amount))
              && (p.status == Settled ==> lines == PayInLines(id, p.amount))
              && (p.status == Pending ==> lines == [])
  {
    ReachableIsOk(s);
    if id in s.db.payments {
      assert RowOk(id, s.db.payments[id], Lines(s.db, OfPayment(id)));
    }
  }

  /** What a refunded payment contributed to each wallet is zero. */
  lemma RefundsCancelOut(s: State, id: PaymentId)
    requires Reachable(s) && HasStatus(s.db, id, Cancelled)
    ensures forall w :: Net(Lines(s.db, OfPayment(id)), w) == 0
  {
    PaymentsPostAtMostOnce(s, id);
    var a := s.db.payments[id].amount;
    ReachableIsOk(s);
    assert RowOk(id, s.db.payments[id], Lines(s.db, OfPayment(id)));
    var p, r := PayInLines(id, a), ReversalLines(id, a);
    assert p == [] + [p[0], p[1]] && r == [r[0], r[1]];
    PairAppended([], p[0], p[1]);
    PairAppended(p, r[0], r[1]);
  }

  // ----- the life of a payment -----

  /** A full life: expiry before confirmation, or a confirmation, up to two retries and an ending; only a
      third decline ends in FAILED. */
  ghost predicate Life(w: seq<Status>) {
    || w == [Pending, Expired]
    || (exists k: nat :: k <= 2 && (w == Rounds(k) + [Settled, Cancelled] || w == Rounds(k) + [Expired]))
    || w == Rounds(2) + [Failed]
  }

  /** Each payment's status history is the beginning of a full life. */
  lemma HistoriesAreLives(s: State, id: PaymentId)
    requires Reachable(s) && id in s.db.payments
    ensures exists w :: Life(w) && s.db.payments[id].trail <= w
    ensures s.db.payments[id].retry <= 3
    ensures s.db.payments[id].status == AwaitingTransfer ==> s.db.payments[id].retry <= 2
    ensures 1 <= |s.db.payments[id].trail| <= 8
    ensures s.db.payments[id].status == s.db.payments[id].trail[|s.db.payments[id].trail| - 1]
  {
    hide Rounds, Life, TrailOk, LinesOk, TablesOk, EngineOk, DueOk, TasksOk, EventsOk, Reachable;
    ReachableIsOk(s);
    RowIsOk(s.db, id);
    TrailBegins(s.db.payments[id]);
  }

  lemma TrailBegins(p: Payment)
    requires TrailOk(p)
    ensures exists w :: Life(w) && p.trail <= w
    ensures p.retry <= 3 && (p.status == AwaitingTransfer ==> p.retry <= 2)
    ensures 1 <= |p.trail| <= 8
    ensures p.status == p.trail[|p.trail| - 1]
  {
    RoundsGrow();
    var w :=
      if p.status == Pending || p.trail == [Pending, Expired] then [Pending, Expired]
      else if p.status in {Settled, Cancelled} then Rounds(p.retry) + [Settled, Cancelled]
      else if p.status in {AwaitingTransfer, Expired} then Rounds(p.retry) + [Expired]
      else if p.retry == 3 then Rounds(2) + [Failed]
      else Rounds(p.retry) + [Expired];
    assert p.trail <= w;
    assert Life(w);
  }

  lemma RoundsGrow()
    ensures Rounds(0) == [Pending, AwaitingTransfer]
    ensures Rounds(1) == Rounds(0) + [Failed, AwaitingTransfer]
    ensures Rounds(2) == Rounds(1) + [Failed, AwaitingTransfer]
  {
  }

  // ----- the engine's stale batch -----

  /** Every payment of the batch whose turn has not passed is still as the query read it: in
      AWAITING_TRANSFER, with the same amount and retry count. */
  lemma SnapshotsStayTrue(s: State, i: nat)
    requires Reachable(s) && i < |s.engine.batch|
    requires i > 0 || BeforeTheWrite(s.engine.pc)
    ensures var snap := s.engine.batch[i];
            && HasStatus(s.db, snap.id, AwaitingTransfer)
            && s.db.payments[snap.id] == snap.row
            && !snap.row.processed && snap.row.retry <= 2
  {
    ReachableIsOk(s);
    AwaitingTrail(s.db, s.engine.batch[i].id);
  }

  /** The unguarded update of a decline finds a waiting payment, counts the retry that the engine computed
      from its snapshot and changes no other row; so no final status is ever overwritten by it. */
  lemma DeclinesOverwriteNothing(s: State)
    requires Reachable(s) && s.engine.pc == Declining && Next(s, EngineDoes(Write)).Some?
    ensures var snap := s.engine.batch[0];
            var to := Next(s, EngineDoes(Write)).value;
            && HasStatus(s.db, snap.id, AwaitingTransfer)
            && HasStatus(to.db, snap.id, Failed)
            && to.db.payments[snap.id].retry == snap.row.retry + 1 <= 3
            && (forall id | id in s.db.payments && id != snap.id :: to.db.payments[id] == s.db.payments[id])
            && (to.engine.pc == Announcing(PaymentFailed(snap.id, to.db.payments[snap.id].retry),
                                           to.db.payments[snap.id].retry < 3))
  {
    SnapshotsStayTrue(s, 0);
  }

  /** A final status stays final; SETTLED may still become CANCELLED. */
  lemma FinalStatusesStay(s: State, acts: seq<Action>, id: PaymentId)
    requires Reachable(s) && id in s.db.payments && Exec(s, acts).Some?
    ensures id in Exec(s, acts).value.db.payments
    ensures var p, q := s.db.payments[id], Exec(s, acts).value.db.payments[id];
            && (p.status in {Expired, Cancelled} || (p.status == Failed && p.retry == 3) ==>
                  q.status == p.status && q.trail == p.trail)
            && (p.status == Settled ==> q.status in {Settled, Cancelled})
  {
    ReachableIsOk(s);
    ExecKeeps(s, acts);
    var to := Exec(s, acts).value;
    var p, q := s.db.payments[id], to.db.payments[id];
    assert RowOk(id, p, Lines(s.db, OfPayment(id)));
    assert RowOk(id, q, Lines(to.db, OfPayment(id)));
    LongerTrail(p, q);
  }

  lemma LongerTrail(p: Payment, q: Payment)
    requires TrailOk(p) && TrailOk(q) && p.trail <= q.trail
    ensures p.status in {Expired, Cancelled} || (p.status == Failed && p.retry == 3) ==>
              q.status == p.status && q.trail == p.trail
    ensures p.status == Settled ==> q.status in {Settled, Cancelled}
  {
    hide TrailOk;
    TrailBegins(p);
    TrailBegins(q);
    var n := |p.trail| - 1;
    assert q.trail[n] == p.status;
    FinalAt(q, n);
    if p.status == Failed && p.retry == 3 {
      ThirdDecline(p);
    }
  }

  lemma ThirdDecline(p: Payment)
    requires TrailOk(p) && p.status == Failed && p.retry == 3
    ensures |p.trail| == 7
  {
    RoundsLength(2);
  }

  /** In a trail a final status stands only at the end. */
  lemma FinalAt(q: Payment, n: nat)
    requires TrailOk(q) && n < |q.trail|
    ensures q.trail[n] in {Expired, Cancelled} || (q.trail[n] == Failed && n >= 6) ==> n == |q.trail| - 1
    ensures q.trail[n] == Settled ==> q.status in {Settled, Cancelled}
  {
    hide Rounds;
    if q.status != Pending && q.trail != [Pending, Expired] {
      var r := RoundsOf(q);
      RoundsLength(r);
      RoundsHold(r);
      TrailParts(q);
      assert r <= 2;
      hide TrailOk;
      assert q.trail[n] == if n < |Rounds(r)| then Rounds(r)[n] else Ending(q.status)[n - |Rounds(r)|];
      assert n < |Rounds(r)| ==> q.trail[n] in Rounds(r);
    }
  }

  function RoundsOf(p: Payment): nat {
    if p.status == Failed && p.retry > 0 then p.retry - 1 else p.retry
  }

  /** What follows the rounds in the trail of a confirmed payment. */
  function Ending(st: Status): seq<Status> {
    match st
    case Failed => [Failed]
    case Settled => [Settled]
    case Cancelled => [Settled, Cancelled]
    case Expired => [Expired]
    case _ => []
  }

  lemma TrailParts(p: Payment)
    requires TrailOk(p) && p.status != Pending && p.trail != [Pending, Expired]
    ensures p.trail == Rounds(RoundsOf(p)) + Ending(p.status) && RoundsOf(p) <= 2
  {
    hide Rounds;
  }

  lemma {:induction false} RoundsLength(r: nat)
    ensures |Rounds(r)| == 2 + 2 * r
  {
    if r > 0 {
      RoundsLength(r - 1);
    }
  }

  // ----- exactly-once settlement across faults -----

  /** A payment that is posted but not marked, however it came to be so and whatever happened since: when
      the rail approves it again, the second posting and its pending release are rolled back and the
      payment is marked. Wallets and ledger do not move. */
  lemma RedoSettlesWithoutMoving(s: State)
    requires Reachable(s) && s.engine.pc == Posting && s.engine.batch != []
    requires PaidIn(s.db, s.engine.batch[0].id)
    ensures var id := s.engine.batch[0].id;
            var end := Exec(s, [EngineDoes(Write), EngineDoes(Write)]);
            && end.Some?
            && end.value.db == MarkPaymentSettled(s.db, id).0
            && end.value.db.books == s.db.books
            && HasStatus(end.value.db, id, Settled)
            && Lines(end.value.db, OfPayment(id)) == PayInLines(id, s.db.payments[id].amount)
  {
    hide TablesOk, EngineOk, DueOk, TasksOk, EventsOk, Reachable, Grows, OnlyPayments;
    ReachableIsOk(s);
    EnginePosts(s);
    TwoWrites(s);
    var posted := Writes(s).value;
    EngineMarks(posted);
    var end := Writes(posted).value;
    FiledWhenSettled(end.db, s.engine.batch[0].id);
  }

  lemma TwoWrites(s: State)
    requires s.engine.pc == Posting && s.engine.batch != []
    requires Writes(s).Some? && Writes(s).value.engine == s.engine.(pc := Marking)
    ensures Exec(s, [EngineDoes(Write), EngineDoes(Write)]) == Writes(Writes(s).value)
  {
    var posted := Writes(s).value;
    assert [EngineDoes(Write), EngineDoes(Write)][1..] == [EngineDoes(Write)];
    assert Exec(posted, [EngineDoes(Write)]) == Writes(posted) by {
      assert [EngineDoes(Write)][1..] == [];
    }
  }

  lemma FiledWhenSettled(db: Db, id: PaymentId)
    requires TablesOk(db) && HasStatus(db, id, Settled)
    ensures Lines(db, OfPayment(id)) == PayInLines(id, db.payments[id].amount)
  {
    assert RowOk(id, db.payments[id], Lines(db, OfPayment(id)));
  }

  /** A settlement that was interrupted after its posting (u) and one that was not (s), whatever happened in
      between and to everything else: when the rail approves, both leave the same row apart from its stamp
      and the same ledger lines; the resumed one moves nothing in the books and touches no other payment.
      If nothing happened in between, they leave the same tables. */
  lemma InterruptedRunEndsAlike(s: State, u: State)
    requires Reachable(s) && Reachable(u)
    requires s.engine.pc == Posting && s.engine.batch != [] && !PaidIn(s.db, s.engine.batch[0].id)
    requires u.engine.pc == Posting && u.engine.batch != [] && PaidIn(u.db, u.engine.batch[0].id)
    requires u.engine.batch[0].id == s.engine.batch[0].id
    requires u.engine.batch[0].row.(stamp := 0) == s.engine.batch[0].row.(stamp := 0)
    ensures var id := s.engine.batch[0].id;
            var straight := Exec(s, [EngineDoes(Write), EngineDoes(Write)]);
            var resumed := Exec(u, [EngineDoes(Write), EngineDoes(Write)]);
            && straight.Some? && resumed.Some?
            && HasStatus(straight.value.db, id, Settled) && HasStatus(resumed.value.db, id, Settled)
            && resumed.value.db.payments[id].(stamp := 0) == straight.value.db.payments[id].(stamp := 0)
            && Lines(resumed.value.db, OfPayment(id)) == Lines(straight.value.db, OfPayment(id))
            && resumed.value.db.books == u.db.books
            && OnlyPayments(u.db, resumed.value.db, {id})
            && (u.db == Next(s, EngineDoes(Write)).value.db ==> resumed.value.db == straight.value.db)
  {
    hide TablesOk, EngineOk, DueOk, TasksOk, EventsOk, Reachable, Grows, OnlyPayments;
    var id := s.engine.batch[0].id;
    StraightRun(s);
    RedoSettlesWithoutMoving(u);
    ReachableIsOk(u);
    HeadWaits(s);
    HeadWaits(u);
    RedoTouchesOne(u);
    FiledWhenSettled(Exec(s, [EngineDoes(Write), EngineDoes(Write)]).value.db, id);
  }

  /** A first posting and its mark. */
  lemma StraightRun(s: State)
    requires Reachable(s) && s.engine.pc == Posting && s.engine.batch != []
    requires !PaidIn(s.db, s.engine.batch[0].id)
    ensures var id := s.engine.batch[0].id;
            var straight := Exec(s, [EngineDoes(Write), EngineDoes(Write)]);
            && straight.Some? && Inv(s) && TablesOk(straight.value.db)
            && Next(s, EngineDoes(Write)).Some?
            && straight.value.db == MarkPaymentSettled(Next(s, EngineDoes(Write)).value.db, id).0
            && HasStatus(straight.value.db, id, Settled)
            && id in s.db.payments
            && straight.value.db.payments[id].(stamp := 0)
               == Becomes(s.db.payments[id], Settled).(processed := true, stamp := 0)
  {
    hide TablesOk, EngineOk, DueOk, TasksOk, EventsOk, Reachable, Grows, OnlyPayments;
    ReachableIsOk(s);
    HeadWaits(s);
    EnginePosts(s);
    TwoWrites(s);
    EngineMarks(Writes(s).value);
    assert Writes(s).value.db.payments == s.db.payments;
  }

  lemma RedoTouchesOne(u: State)
    requires Inv(u) && u.engine.pc == Posting && u.engine.batch != []
    requires PaidIn(u.db, u.engine.batch[0].id)
    ensures OnlyPayments(u.db, MarkPaymentSettled(u.db, u.engine.batch[0].id).0, {u.engine.batch[0].id})
    ensures MarkPaymentSettled(u.db, u.engine.batch[0].id).1
  {
    hide TablesOk, EngineOk, DueOk, TasksOk, EventsOk, Grows, OnlyPayments;
    EnginePosts(u);
    EngineMarks(Writes(u).value);
  }

  // ----- outbox events -----

  /** The outbox never repeats an event, every event in it reports a transition that has taken place, and
      the events of failed attempts are numbered 1 to 3. */
  lemma EventsFollowTransitionsOnce(s: State)
    requires Reachable(s)
    ensures forall i, j | 0 <= i < j < |s.db.outbox| :: s.db.outbox[i] != s.db.outbox[j]
    ensures forall i | 0 <= i < |s.db.outbox| :: Earned(s.db, s.db.outbox[i])
    ensures forall i | 0 <= i < |s.db.outbox| && s.db.outbox[i].PaymentFailed? ::
              s.db.outbox[i].id in s.db.payments
              && 1 <= s.db.outbox[i].retry <= 3 && s.db.outbox[i].retry <= s.db.payments[s.db.outbox[i].id].retry
  {
    hide TablesOk, EngineOk, DueOk, TasksOk, Reachable;
    ReachableIsOk(s);
    forall i | 0 <= i < |s.db.outbox| ensures Earned(s.db, s.db.outbox[i]) {
      assert Holds(s, InOutbox(i), s.db.outbox[i]);
    }
    forall i, j | 0 <= i < j < |s.db.outbox| ensures s.db.outbox[i] != s.db.outbox[j] {
      assert Holds(s, InOutbox(i), s.db.outbox[i]) && Holds(s, InOutbox(j), s.db.outbox[j]);
    }
    forall i | 0 <= i < |s.db.outbox| && s.db.outbox[i].PaymentFailed?
      ensures s.db.outbox[i].id in s.db.payments
              && 1 <= s.db.outbox[i].retry <= s.db.payments[s.db.outbox[i].id].retry <= 3
    {
      assert Earned(s.db, s.db.outbox[i]);
      FailuresCounted(s.db, s.db.outbox[i].id);
    }
  }

  /** A payment has been FAILED as often as its retry count says. */
  lemma FailuresCounted(db: Db, id: PaymentId)
    requires TablesOk(db) && id in db.payments
    ensures multiset(db.payments[id].trail)[Failed] == db.payments[id].retry <= 3
  {
    hide Rounds;
    assert RowOk(id, db.payments[id], Lines(db, OfPayment(id)));
    TrailFailures(db.payments[id]);
  }

  lemma TrailFailures(p: Payment)
    requires TrailOk(p)
    ensures multiset(p.trail)[Failed] == p.retry
  {
    hide Rounds;
    RoundsLength(p.retry);
    if p.status != Pending && p.trail != [Pending, Expired] {
      RoundsHold(RoundsOf(p));
      TrailParts(p);
      assert multiset(p.trail) == multiset(Rounds(RoundsOf(p))) + multiset(Ending(p.status));
    }
  }

  // ----- the due-time cache -----

  /** Between two payments of a batch, and between ticks, only payments that await their transfer have a
      due time: the cache does not leak. */
  lemma DueTimesDoNotLeak(s: State)
    requires Reachable(s) && s.engine.pc == Ready
    ensures forall id | id in s.engine.dueAt :: HasStatus(s.db, id, AwaitingTransfer)
  {
    ReachableIsOk(s);
  }

  predicate NoCrash(acts: seq<Action>) {
    forall i | 0 <= i < |acts| :: acts[i] != Crash
  }

  /** Two rail calls for one payment in the life of a process are at least 30 seconds apart. */
  lemma RailCallsAreSpaced(s: State, reply: Reply, acts: seq<Action>)
    requires Reachable(s) && s.engine.pc == Calling && s.engine.batch != []
    requires NoCrash(acts)
    requires Exec(s, [EngineDoes(CallRail(reply))] + acts).Some?
    requires var to := Exec(s, [EngineDoes(CallRail(reply))] + acts).value;
             to.engine.pc == Calling && to.engine.batch != [] && to.engine.batch[0].id == s.engine.batch[0].id
    ensures Exec(s, [EngineDoes(CallRail(reply))] + acts).value.now >= s.now + 30
  {
    hide TablesOk, TasksOk, EventsOk, EngineOk, Reachable, Grows;
    ReachableIsOk(s);
    assert ([EngineDoes(CallRail(reply))] + acts)[1..] == acts;
    var called := Next(s, EngineDoes(CallRail(reply))).value;
    NextKeeps(s, EngineDoes(CallRail(reply)));
    RailTimesRise(called, acts, s.engine.batch[0].id);
    ExecKeeps(called, acts);
  }

  lemma {:induction false} RailTimesRise(s: State, acts: seq<Action>, id: PaymentId)
    requires Inv(s) && NoCrash(acts) && Exec(s, acts).Some? && id in s.engine.lastRail
    ensures id in Exec(s, acts).value.engine.lastRail
    ensures s.engine.lastRail[id] <= Exec(s, acts).value.engine.lastRail[id]
    decreases |acts|
  {
    hide Inv, Next, Grows;
    if acts != [] {
      NextKeeps(s, acts[0]);
      RailTimeRises(s, acts[0], id);
      RailTimesRise(Next(s, acts[0]).value, acts[1..], id);
    }
  }

  lemma VisitsKeepRailTimes(s: State)
    ensures s.engine.batch != [] ==> forall delay :: Visits(s, delay).engine.lastRail == s.engine.lastRail
  {
  }

  lemma RailTimeRises(s: State, a: Action, id: PaymentId)
    requires Inv(s) && a != Crash && Next(s, a).Some? && id in s.engine.lastRail
    ensures var to := Next(s, a).value;
            id in to.engine.lastRail && s.engine.lastRail[id] <= to.engine.lastRail[id]
  {
    hide TablesOk, TasksOk, EventsOk, EngineOk, Oldest, TaskNext, Grows, Rely, ExpireAwaitingTransfer,
         ClearPendingEscrowToOperating, MarkPaymentSettled, IncrementRetryAndSetStatus, UpdatePaymentStatus, Visits;
    assert a.EngineDoes? && a.move.Visit? ==> Visits(s, a.move.delay).engine.lastRail == s.engine.lastRail by {
      VisitsKeepRailTimes(s);
    }
    if a.TaskDoes? {
      TaskNextKeeps(s, a.t, a.step);
    }
  }
}

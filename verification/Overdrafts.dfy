/** When the balance of the operating wallet falls below zero. */
module Overdrafts {
  import opened Types
  import opened Ledger
  import opened Database
  import opened Accounts
  import opened Machine
  import opened Safety
  import opened Guarantees
  import opened SettlementRuns
  import opened DoubleRelease

  /** The action takes more from the operating wallet than there is: a refund, or the posting of a settlement
      whose amount was read earlier. */
  predicate Overdraws(s: State, a: Action) {
    a.TaskDoes? && a.t in s.tasks &&
    match (a.step, s.tasks[a.t])
    case (RefundWrite, Refunding(id, amount)) =>
      HasStatus(s.db, id, Settled) && amount > BalanceOf(s.db, Operating)
    case (PostRun, SettlePosting(_, amount)) => amount > BalanceOf(s.db, Operating)
    case _ => false
  }

  // ----- how the balance moves -----

  /** Every action other than a refund and a settlement posting leaves the balance or raises it. */
  lemma OthersDoNotLower(s: State, a: Action)
    requires Inv(s) && Next(s, a).Some?
    requires a.TaskDoes? ==> a.step != RefundWrite && a.step != PostRun
    ensures BalanceOf(Next(s, a).value.db, Operating) >= BalanceOf(s.db, Operating)
  {
    hide TablesOk, EngineOk, DueOk, TasksOk, EventsOk, Next, Grows;
    NextKeeps(s, a);
    PayInOnly(s, a);
    OperatingByKind(s.db);
    OperatingByKind(Next(s, a).value.db);
  }

  /** A refund takes the amount of a SETTLED payment, and nothing otherwise. */
  lemma RefundTakes(s: State, t: nat)
    requires Inv(s) && t in s.tasks && s.tasks[t].Refunding?
    ensures Next(s, TaskDoes(t, RefundWrite)).Some?
    ensures BalanceOf(Next(s, TaskDoes(t, RefundWrite)).value.db, Operating)
            == BalanceOf(s.db, Operating)
               - if HasStatus(s.db, s.tasks[t].id, Settled) then s.tasks[t].amount else 0
  {
    hide TablesOk, EngineOk, DueOk, TasksOk, EventsOk, Grows, RefundSettledPayment, OnlyPayments;
    RefundIsKnown(s, t);
    var k := s.tasks[t];
    RefundKeeps(s.db, k.id, k.amount);
    if HasStatus(s.db, k.id, Settled) {
      RefundLeaves(s.db, k.id);
    }
  }

  lemma RefundLeaves(db: Db, x: PaymentId)
    requires TablesOk(db) && HasStatus(db, x, Settled)
    ensures var r := RefundSettledPayment(db, x, db.payments[x].amount);
            r.Ok? && BalanceOf(r.value, Operating) == BalanceOf(db, Operating) - db.payments[x].amount
  {
    hide TablesOk, RefundSettledPayment, Grows, OnlyPayments;
    RowIsOk(db, x);
    RefundPosts(db, x);
    RefundKeeps(db, x, db.payments[x].amount);
    var to := RefundSettledPayment(db, x, db.payments[x].amount).value;
    PairLeaves(db, to, ReversalLines(x, db.payments[x].amount), Reversal);
  }

  lemma RefundIsKnown(s: State, t: nat)
    requires Inv(s) && t in s.tasks && s.tasks[t].Refunding?
    ensures s.tasks[t].id in s.db.payments && s.db.payments[s.tasks[t].id].amount == s.tasks[t].amount > 0
  {
    assert TaskOk(s.db, s.tasks[t]);
    RowIsOk(s.db, s.tasks[t].id);
  }

  /** The posting of a settlement goes through and takes the amount that was read. */
  lemma PostRunTakes(s: State, t: nat)
    requires Inv(s) && t in s.tasks && s.tasks[t].SettlePosting?
    ensures var k := s.tasks[t];
            var next := Next(s, TaskDoes(t, PostRun));
            && next.Some?
            && BalanceOf(next.value.db, Operating) == BalanceOf(s.db, Operating) - k.amount
            && next.value.tasks == s.tasks[t := SettleClosing(k.run, k.amount, 2, Success)]
  {
    hide TablesOk, EngineOk, DueOk, EventsOk, TasksOk, Grows, RunSettlement, OnlyRun;
    TaskIsOk(s, t);
    var k := s.tasks[t];
    RunSettlementKeeps(s.db, k.run, k.amount);
    PairLeaves(s.db, RunSettlement(s.db, k.run, k.amount).value, SettlementLines(k.run, k.amount), SettlementOut);
  }

  /** A pair that debits escrow and credits the operating wallet. */
  lemma PairLeaves(db: Db, to: Db, lines: seq<Entry>, kind: Kind)
    requires TablesOk(db) && TablesOk(to) && to.books.log == db.books.log + lines
    requires |lines| == 2 && IsPair(lines[0], lines[1]) && lines[0].wallet == Escrow && lines[1].wallet == Operating
    requires lines[1].kind == kind && kind in {Reversal, SettlementOut}
    ensures BalanceOf(to, Operating) == BalanceOf(db, Operating) - lines[1].amount
  {
    OperatingByKind(db);
    OperatingByKind(to);
    hide TablesOk;
    assert lines == [lines[0], lines[1]];
    PairAppended(db.books.log, lines[0], lines[1]);
  }

  // ----- where the balance goes below zero -----

  /** From any state with a balance that is not negative, any action leaves it so if and only if it does not
      overdraw. */
  lemma BelowZeroOnlyThere(s: State, a: Action)
    requires Inv(s) && BalanceOf(s.db, Operating) >= 0 && Next(s, a).Some?
    ensures BalanceOf(Next(s, a).value.db, Operating) >= 0 <==> !Overdraws(s, a)
  {
    hide Inv, BalanceOf;
    match a
    case TaskDoes(t, RefundWrite) => RefundTakes(s, t);
    case TaskDoes(t, PostRun) => PostRunTakes(s, t);
    case _ => OthersDoNotLower(s, a);
  }

  predicate NeverNegative(s: State, acts: seq<Action>)
    decreases |acts|
  {
    && BalanceOf(s.db, Operating) >= 0
    && (acts != [] && Next(s, acts[0]).Some? ==> NeverNegative(Next(s, acts[0]).value, acts[1..]))
  }

  predicate NeverOverdraws(s: State, acts: seq<Action>)
    decreases |acts|
  {
    acts != [] ==>
      && !Overdraws(s, acts[0])
      && (Next(s, acts[0]).Some? ==> NeverOverdraws(Next(s, acts[0]).value, acts[1..]))
  }

  lemma {:induction false} NonNegativeRuns(s: State, acts: seq<Action>)
    requires Inv(s) && BalanceOf(s.db, Operating) >= 0 && Exec(s, acts).Some?
    ensures NeverNegative(s, acts) <==> NeverOverdraws(s, acts)
    decreases |acts|
  {
    hide Inv, Next, Overdraws, BalanceOf;
    if acts != [] {
      var next := Next(s, acts[0]).value;
      NextKeeps(s, acts[0]);
      BelowZeroOnlyThere(s, acts[0]);
      if BalanceOf(next.db, Operating) >= 0 {
        NonNegativeRuns(next, acts[1..]);
      }
    }
  }

  /** A run from the empty tables, whatever the interleaving and the faults: the operating balance is never
      negative if and only if no step overdraws. */
  lemma RunsStayPositiveUnlessOverdrawn(now: int, acts: seq<Action>)
    requires Exec(Start(now), acts).Some?
    ensures NeverNegative(Start(now), acts) <==> NeverOverdraws(Start(now), acts)
  {
    hide Inv, Next, Overdraws, Exec;
    StartIsOk(now);
    NonNegativeRuns(Start(now), acts);
  }

  // ----- a run in which it does -----

  /** Two settlement runs both read five cents, and both post them. */
  lemma OverlappingRunsOverdraw()
    ensures exists s :: Reachable(s) && BalanceOf(s.db, Operating) == -5
  {
    hide Reachable, Inv, PayIn, BalanceOf, RunSettlement;
    var s := FiveCentsPaidIn();
    var running := BothOpen(s);
    var read := BothRead(running, 0, 1);
    ReachableIsOk(read);
    PostRunTakes(read, 0);
    ReachableOn(read, TaskDoes(0, PostRun));
    var once := Next(read, TaskDoes(0, PostRun)).value;
    ReachableIsOk(once);
    PostRunTakes(once, 1);
    ReachableOn(once, TaskDoes(1, PostRun));
    var twice := Next(once, TaskDoes(1, PostRun)).value;
    assert Reachable(twice) && BalanceOf(twice.db, Operating) == -5;
  }

  lemma FiveCentsPaidIn() returns (s: State)
    ensures Reachable(s) && s.tasks == map[] && BalanceOf(s.db, Operating) == 5
  {
    hide Reachable, Inv, PayIn;
    var x := PaymentId("a");
    StartIsReachable();
    var confirmed := CreateAndConfirm(Start(0), x, 5, 100);
    OneAwaits(confirmed, x);
    var started := StartOn(confirmed, [x]);
    assert started.db.books.log == [] && !PaidIn(started.db, x);
    s := PostAndCrash(started);
    ReachableIsOk(s);
    FiveInOperating(started.db, s, x);
  }

  lemma FiveInOperating(db: Db, s: State, x: PaymentId)
    requires PayIn(db, s.db, x) && db.books.log == [] && db.payments[x].amount == 5 && Inv(s)
    ensures BalanceOf(s.db, Operating) == 5
  {
    hide TablesOk, EngineOk, DueOk, TasksOk, EventsOk;
    OperatingByKind(s.db);
    var lines := PayInLines(x, 5);
    assert lines == [lines[0], lines[1]];
    PairAppended([], lines[0], lines[1]);
  }

  lemma BothOpen(s: State) returns (to: State)
    requires Reachable(s) && s.tasks == map[]
    ensures Reachable(to) && BalanceOf(to.db, Operating) == BalanceOf(s.db, Operating)
    ensures to.tasks.Keys == {0, 1} && to.tasks[0].SettleReading? && to.tasks[1].SettleReading?
  {
    hide Reachable;
    ReachableOn(s, TaskDoes(0, OpenRun));
    var once := Next(s, TaskDoes(0, OpenRun)).value;
    ReachableOn(once, TaskDoes(1, OpenRun));
    to := Next(once, TaskDoes(1, OpenRun)).value;
  }

  lemma BothRead(s: State, t: nat, u: nat) returns (to: State)
    requires Reachable(s) && BalanceOf(s.db, Operating) == 5
    requires t != u && t in s.tasks && u in s.tasks && s.tasks[t].SettleReading? && s.tasks[u].SettleReading?
    ensures Reachable(to) && BalanceOf(to.db, Operating) == 5 && t in to.tasks && u in to.tasks
    ensures to.tasks[t] == SettlePosting(s.tasks[t].run, 5) && to.tasks[u] == SettlePosting(s.tasks[u].run, 5)
  {
    hide Reachable, BalanceOf;
    ReachableOn(s, TaskDoes(t, ReadBalance));
    var once := Next(s, TaskDoes(t, ReadBalance)).value;
    ReachableOn(once, TaskDoes(u, ReadBalance));
    to := Next(once, TaskDoes(u, ReadBalance)).value;
  }
}

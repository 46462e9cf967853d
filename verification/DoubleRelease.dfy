/** A run in which the pending counter under-reports: a crash hides the mark of a posted payment, its due
    date passes, and its expiry releases its pending cents a second time. */
module DoubleRelease {
  import opened Types
  import opened Database
  import opened Accounts
  import opened Sums
  import opened Machine
  import opened Safety
  import opened Guarantees
  import opened PendingCounter
  import opened PaymentReferences
  import opened ReferenceText

  const TODAY: Day := "20240101"

  function Confirmed(s: State, amount: int, due: int): Payment {
    Payment(
      NextReference(s.db, TODAY), None, amount, due, AwaitingTransfer, 0, false, s.db.writes + 1,
      [Pending, AwaitingTransfer])
  }

  /** A payment is created and confirmed. */
  lemma CreateAndConfirm(s: State, id: PaymentId, amount: int, due: int) returns (to: State)
    requires Reachable(s) && s.tasks == map[] && id !in s.db.payments && amount > 0 && s.now <= due
    requires Escrow in s.db.books.wallets
    ensures Reachable(to) && to.tasks == map[] && to.engine == s.engine && to.now == s.now
    ensures to.db.payments == s.db.payments[id := Confirmed(s, amount, due)]
    ensures to.db.books == s.db.books.(wallets := AddPending(s.db.books.wallets, amount))
    ensures to.db.writes == s.db.writes + 2
  {
    hide Reachable, NextReference;
    var created := CreateOne(s, id, amount, due);
    to := ConfirmOne(created, id);
    assert to.db.payments[id] == Confirmed(s, amount, due);
  }

  lemma CreateOne(s: State, id: PaymentId, amount: int, due: int) returns (to: State)
    requires Reachable(s) && s.tasks == map[] && id !in s.db.payments && amount > 0
    ensures Reachable(to) && to.tasks == map[] && to.engine == s.engine && to.now == s.now
    ensures CreatePayment(s.db, id, NextReference(s.db, TODAY), None, amount, due) == Ok(to.db)
  {
    hide Reachable, NextReference, ReferenceTaken;
    GeneratedIsFree(s, TODAY);
    var s1 := Next(s, TaskDoes(0, Generate(id, amount, due, TODAY))).value;
    ReachableOn(s, TaskDoes(0, Generate(id, amount, due, TODAY)));
    var s2 := Next(s1, TaskDoes(0, CreateWrite)).value;
    ReachableOn(s1, TaskDoes(0, CreateWrite));
    to := Next(s2, TaskDoes(0, Drop)).value;
    ReachableOn(s2, TaskDoes(0, Drop));
    assert to.tasks == map[];
  }

  lemma ConfirmOne(s: State, id: PaymentId) returns (to: State)
    requires Reachable(s) && s.tasks == map[] && HasStatus(s.db, id, Pending) && s.now <= s.db.payments[id].due
    ensures Reachable(to) && to.tasks == map[] && to.engine == s.engine && to.now == s.now
    ensures ConfirmPaymentIntent(s.db, id) == Ok(to.db)
  {
    hide Reachable;
    var s1 := Next(s, TaskDoes(0, OpenPay(id, true))).value;
    ReachableOn(s, TaskDoes(0, OpenPay(id, true)));
    var s2 := Next(s1, TaskDoes(0, Decide(true))).value;
    ReachableOn(s1, TaskDoes(0, Decide(true)));
    assert s2.tasks[0] == PayerConfirming(id);
    var s3 := Next(s2, TaskDoes(0, PayerWrite)).value;
    ReachableOn(s2, TaskDoes(0, PayerWrite));
    to := Next(s3, TaskDoes(0, Drop)).value;
    ReachableOn(s3, TaskDoes(0, Drop));
    assert to.tasks == map[];
  }

  predicate Idle(s: State) {
    s.engine.pc == Ready && s.engine.batch == []
  }

  /** From an idle engine without due times: the payments in the queue get one, it passes, and the engine
      starts on the first. */
  lemma StartOn(s: State, ids: seq<PaymentId>) returns (to: State)
    requires Reachable(s) && Idle(s) && s.engine.dueAt == map[] && Oldest(s.db, ids) && 1 <= |ids| <= 2
    ensures Reachable(to) && to.db == s.db && to.tasks == s.tasks && to.now == s.now + 30
    ensures to.engine.pc == Started && to.engine.batch == SnapAll(s.db, ids)
  {
    hide Reachable, Oldest;
    InBounds(s.db, ids);
    var t := Next(s, EngineDoes(Tick(ids))).value;
    ReachableOn(s, EngineDoes(Tick(ids)));
    var v := Next(t, EngineDoes(Visit(30))).value;
    ReachableOn(t, EngineDoes(Visit(30)));
    assert v.engine.batch == t.engine.batch[1..];
    if |ids| == 2 {
      ReachableOn(v, EngineDoes(Visit(30)));
      var w := Next(v, EngineDoes(Visit(30))).value;
      assert w.engine.batch == [];
      v := w;
    }
    var u := Next(v, Advance(30)).value;
    ReachableOn(v, Advance(30));
    var r := Next(u, EngineDoes(Tick(ids))).value;
    ReachableOn(u, EngineDoes(Tick(ids)));
    to := Next(r, EngineDoes(Visit(30))).value;
    ReachableOn(r, EngineDoes(Visit(30)));
    assert ids[0] in r.engine.dueAt && r.engine.dueAt[ids[0]] == s.now + 30;
  }

  lemma InBounds(db: Db, ids: seq<PaymentId>)
    requires Oldest(db, ids)
    ensures forall i | 0 <= i < |ids| :: ids[i] in db.payments
    ensures Distinct(ids)
  {
  }

  /** The rail approves, the transfer is posted, and the process stops before the mark. */
  lemma PostAndCrash(s: State) returns (to: State)
    requires Reachable(s) && s.engine.pc == Started && s.engine.batch != []
    requires s.now <= s.engine.batch[0].row.due && !PaidIn(s.db, s.engine.batch[0].id)
    ensures Reachable(to) && to.tasks == map[] && to.now == s.now && to.engine == FreshEngine(s.now)
    ensures PayIn(s.db, to.db, s.engine.batch[0].id) && to.db.writes == s.db.writes
    ensures PendingOf(to.db) == Release(PendingOf(s.db), s.engine.batch[0].row.amount)
  {
    hide Reachable, Inv, PayIn, ClearPendingEscrowToOperating;
    ReachableOn(s, EngineDoes(CheckDate));
    var c := Next(s, EngineDoes(CheckDate)).value;
    ReachableOn(c, EngineDoes(CallRail(Approved)));
    var p := Next(c, EngineDoes(CallRail(Approved))).value;
    ReachableIsOk(p);
    EnginePosts(p);
    WriteStep(p);
    ReachableOn(p, EngineDoes(Write));
    var m := Next(p, EngineDoes(Write)).value;
    ReachableOn(m, Crash);
    to := Next(m, Crash).value;
    PostedPending(p);
  }

  lemma PostedPending(s: State)
    requires Inv(s) && s.engine.pc == Posting && s.engine.batch != [] && !PaidIn(s.db, s.engine.batch[0].id)
    requires Writes(s).Some?
    ensures PendingOf(Writes(s).value.db) == Release(PendingOf(s.db), s.engine.batch[0].row.amount)
    ensures Writes(s).value.db.writes == s.db.writes
  {
    hide EngineOk, DueOk, TasksOk, EventsOk, TablesOk, Grows;
    HeadWaits(s);
    ClearPendingPosts(s.db, s.engine.batch[0].id);
  }

  /** Five cents and seven cents are confirmed; the five are paid in, hidden by a crash, and expired: the
      counter shows two cents for the seven that are outstanding. */
  lemma PendingCanUnderReport()
    ensures exists s :: Reachable(s) && PendingOf(s.db) == 2 && Sum(s.db, OutstandingIds(s.db)) == 7
  {
    hide Reachable, Inv, AboutToReleaseAgain;
    var a, b := PaymentId("a"), PaymentId("b");
    var hidden := PaidInAndHidden(a);
    var s := AboutTo(hidden, a, b);
    FinalExpiry(s, a, b);
  }

  /** The five cents are in the operating wallet, and the process has forgotten it. */
  lemma PaidInAndHidden(a: PaymentId) returns (s: State)
    ensures Reachable(s) && s.tasks == map[] && s.engine == FreshEngine(s.now) && s.now == 30
    ensures s.db.payments.Keys == {a} && HasStatus(s.db, a, AwaitingTransfer) && !s.db.payments[a].processed
    ensures s.db.payments[a].amount == 5 && s.db.payments[a].due == 100
    ensures s.db.payments[a].stamp < s.db.writes
    ensures PaidIn(s.db, a) && (forall id | id != a :: !PaidIn(s.db, id)) && PendingOf(s.db) == 0
  {
    hide Reachable, Inv, PayIn;
    StartIsReachable();
    var confirmed := CreateAndConfirm(Start(0), a, 5, 100);
    OneAwaits(confirmed, a);
    var started := StartOn(confirmed, [a]);
    assert started.db.books.log == [];
    s := PostAndCrash(started);
    PostedRow(started.db, s.db, a);
  }

  /** The engine is about to expire a, which is paid in, while b's seven cents are pending. */
  ghost predicate AboutToReleaseAgain(s: State, a: PaymentId, b: PaymentId) {
    && Reachable(s) && s.engine.pc == Expiring && s.engine.batch != [] && s.engine.batch[0].id == a
    && s.db.payments.Keys == {a, b} && PaidIn(s.db, a) && !PaidIn(s.db, b)
    && HasStatus(s.db, a, AwaitingTransfer) && s.db.payments[a].amount == 5
    && HasStatus(s.db, b, AwaitingTransfer) && s.db.payments[b].amount == 7
    && PendingOf(s.db) == 7
  }

  lemma AboutTo(s: State, a: PaymentId, b: PaymentId) returns (to: State)
    requires a != b && Reachable(s) && s.tasks == map[] && s.engine == FreshEngine(s.now) && s.now == 30
    requires s.db.payments.Keys == {a} && HasStatus(s.db, a, AwaitingTransfer) && !s.db.payments[a].processed
    requires s.db.payments[a].amount == 5 && s.db.payments[a].due == 100
    requires s.db.payments[a].stamp < s.db.writes
    requires PaidIn(s.db, a) && !PaidIn(s.db, b) && PendingOf(s.db) == 0
    ensures AboutToReleaseAgain(to, a, b)
  {
    hide Reachable;
    HasEscrow(s);
    var both := CreateAndConfirm(s, b, 7, 1000);
    TwoAwait(both, a, b);
    var late := Next(both, Advance(100)).value;
    ReachableOn(both, Advance(100));
    var started := StartOn(late, [a, b]);
    ReachableOn(started, EngineDoes(CheckDate));
    to := Next(started, EngineDoes(CheckDate)).value;
  }

  lemma StartIsReachable()
    ensures Reachable(Start(0))
  {
    assert Exec(Start(0), []) == Option.Some(Start(0));
  }

  lemma OneAwaits(s: State, a: PaymentId)
    requires s.db.payments.Keys == {a} && HasStatus(s.db, a, AwaitingTransfer) && !s.db.payments[a].processed
    ensures Oldest(s.db, [a])
  {
    assert AwaitingIds(s.db) == {a};
  }

  lemma TwoAwait(s: State, a: PaymentId, b: PaymentId)
    requires a != b && s.db.payments.Keys == {a, b}
    requires HasStatus(s.db, a, AwaitingTransfer) && !s.db.payments[a].processed
    requires HasStatus(s.db, b, AwaitingTransfer) && !s.db.payments[b].processed
    requires s.db.payments[a].stamp <= s.db.payments[b].stamp
    ensures Oldest(s.db, [a, b])
  {
    assert AwaitingIds(s.db) == {a, b};
  }

  lemma PostedRow(db: Db, to: Db, a: PaymentId)
    requires PayIn(db, to, a)
    ensures to.payments == db.payments && PaidIn(to, a)
    ensures forall id | id != a :: PaidIn(to, id) == PaidIn(db, id)
  {
  }

  lemma FinalExpiry(s: State, a: PaymentId, b: PaymentId)
    requires a != b && AboutToReleaseAgain(s, a, b)
    ensures exists to :: Reachable(to) && PendingOf(to.db) == 2 && Sum(to.db, OutstandingIds(to.db)) == 7
  {
    hide Reachable, EngineOk, DueOk, TasksOk, EventsOk, TablesOk, Grows;
    ReachableIsOk(s);
    EngineExpires(s);
    HeadWaits(s);
    WriteStep(s);
    ReachableOn(s, EngineDoes(Write));
    var to := Next(s, EngineDoes(Write)).value;
    ExpiryMoves(s.db, to.db, a);
    assert OutstandingIds(s.db) == {b};
    TotalSplit(s.db.payments, {b}, b);
    assert {b} - {b} == {};
    assert Reachable(to) && PendingOf(to.db) == 2 && Sum(to.db, OutstandingIds(to.db)) == 7;
  }
}

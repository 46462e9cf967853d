/** What the request handlers and the sweeps make of the service, with anything happening between their
    statements. */
module Handlers {
  import opened Types
  import opened Database
  import opened Accounts
  import opened Machine
  import opened Safety
  import opened Guarantees
  import opened PaymentReferences
  import opened ReferenceText
  import opened Overdrafts

  /** From s to u without a crash and without a step of task t. */
  ghost predicate Meanwhile(s: State, t: nat, u: State) {
    exists acts: seq<Action> :: Exec(s, acts) == Option.Some(u) && Apart(t, acts)
  }

  lemma MeanwhileKeeps(s: State, t: nat, u: State)
    requires Reachable(s) && Meanwhile(s, t, u)
    ensures Reachable(u) && Inv(s) && Inv(u) && Grows(s.db, u.db)
    ensures (t in u.tasks <==> t in s.tasks) && (t in s.tasks ==> u.tasks[t] == s.tasks[t]) && u.now >= s.now
  {
    hide Inv, Grows, Apart, Reachable;
    var acts: seq<Action> :| Exec(s, acts) == Option.Some(u) && Apart(t, acts);
    ReachableIsOk(s);
    ExecKeeps(s, acts);
    TasksWait(s, t, acts);
    ReachedBy(s, acts);
  }

  lemma ReachedBy(s: State, acts: seq<Action>)
    requires Reachable(s) && Exec(s, acts).Some?
    ensures Reachable(Exec(s, acts).value)
  {
    var now: int, before: seq<Action> :| Exec(Start(now), before) == Option.Some(s);
    ExecJoins(Start(now), before, acts);
    assert Exec(Start(now), before + acts) == Exec(s, acts);
  }

  // ----- the refund -----

  /** A refund of a payment that is not SETTLED when it is read ends there, and nothing has happened. */
  lemma RefundsOfOthersAreRefused(s: State, t: nat, id: PaymentId)
    requires t !in s.tasks && (id !in s.db.payments || s.db.payments[id].status != Settled)
    ensures Next(s, TaskDoes(t, OpenRefund(id))) == Option.Some(s)
  {
  }

  /** A refund of a payment that is SETTLED when it is read: whatever happens before its write, the payment
      then is CANCELLED, its reversal filed, and its amount gone from the operating wallet to the escrow
      wallet; only when another refund was faster does the write change nothing. */
  lemma RefundsRefund(s: State, t: nat, id: PaymentId, w: State)
    requires Reachable(s) && t !in s.tasks && id in s.db.payments && s.db.payments[id].status == Settled
    requires Next(s, TaskDoes(t, OpenRefund(id))).Some? ==> Meanwhile(Next(s, TaskDoes(t, OpenRefund(id))).value, t, w)
    ensures Next(s, TaskDoes(t, OpenRefund(id))).Some? && Next(s, TaskDoes(t, OpenRefund(id))).value.db == s.db
    ensures id in w.db.payments && w.db.payments[id].status in {Settled, Cancelled}
    ensures var amount := s.db.payments[id].amount;
            && Next(w, TaskDoes(t, RefundWrite)).Some?
            && var end := Next(w, TaskDoes(t, RefundWrite)).value;
               if w.db.payments[id].status == Settled then
                 && id in end.db.payments && end.db.payments[id].status == Cancelled
                 && Lines(end.db, OfPayment(id)) == PayInLines(id, amount) + ReversalLines(id, amount)
                 && BalanceOf(end.db, Operating) == BalanceOf(w.db, Operating) - amount
                 && BalanceOf(end.db, Escrow) == BalanceOf(w.db, Escrow) + amount
                 && t in end.tasks && end.tasks[t] == Emitting([PaymentRefunded(id)], 0)
               else end.db == w.db && t !in end.tasks
  {
    hide Reachable, Inv, Grows, Meanwhile;
    var read := RefundOpens(s, t, id);
    MeanwhileKeeps(read, t, w);
    SettledRows(s, w, id);
    RefundWrites(w, t, id, s.db.payments[id].amount);
  }

  lemma RefundOpens(s: State, t: nat, id: PaymentId) returns (to: State)
    requires Reachable(s) && t !in s.tasks && id in s.db.payments && s.db.payments[id].status == Settled
    ensures Next(s, TaskDoes(t, OpenRefund(id))) == Option.Some(to) && Reachable(to) && to.db == s.db
    ensures t in to.tasks && to.tasks[t] == Refunding(id, s.db.payments[id].amount)
  {
    hide Reachable;
    to := Next(s, TaskDoes(t, OpenRefund(id))).value;
    ReachableOn(s, TaskDoes(t, OpenRefund(id)));
  }

  lemma SettledRows(s: State, w: State, id: PaymentId)
    requires Inv(w) && Reachable(s) && Grows(s.db, w.db) && HasStatus(s.db, id, Settled)
    ensures id in w.db.payments && w.db.payments[id].status in {Settled, Cancelled}
    ensures w.db.payments[id].amount == s.db.payments[id].amount
  {
    hide EngineOk, DueOk, TasksOk, EventsOk, Reachable;
    ReachableIsOk(s);
    var p, q := s.db.payments[id], w.db.payments[id];
    assert RowOk(id, p, Lines(s.db, OfPayment(id))) && RowOk(id, q, Lines(w.db, OfPayment(id)));
    hide TablesOk;
    LongerTrail(p, q);
  }

  lemma RefundWrites(w: State, t: nat, id: PaymentId, amount: int)
    requires Inv(w) && t in w.tasks && w.tasks[t] == Refunding(id, amount)
    requires id in w.db.payments && w.db.payments[id].status in {Settled, Cancelled}
    ensures Next(w, TaskDoes(t, RefundWrite)).Some?
    ensures var end := Next(w, TaskDoes(t, RefundWrite)).value;
            if w.db.payments[id].status == Settled then
              && id in end.db.payments && end.db.payments[id].status == Cancelled
              && Lines(end.db, OfPayment(id)) == PayInLines(id, amount) + ReversalLines(id, amount)
              && BalanceOf(end.db, Operating) == BalanceOf(w.db, Operating) - amount
              && BalanceOf(end.db, Escrow) == BalanceOf(w.db, Escrow) + amount
              && t in end.tasks && end.tasks[t] == Emitting([PaymentRefunded(id)], 0)
            else end.db == w.db && t !in end.tasks
  {
    hide EngineOk, DueOk, EventsOk, TasksOk, TablesOk, RefundSettledPayment, BalanceOf;
    RefundIsKnown(w, t);
    RefundEffect(w.db, id);
  }

  lemma RefundEffect(db: Db, x: PaymentId)
    requires TablesOk(db) && x in db.payments
    ensures var amount := db.payments[x].amount;
            var r := RefundSettledPayment(db, x, amount);
            if db.payments[x].status == Settled then
              && r.Ok? && x in r.value.payments && r.value.payments[x].status == Cancelled
              && Lines(r.value, OfPayment(x)) == PayInLines(x, amount) + ReversalLines(x, amount)
              && BalanceOf(r.value, Operating) == BalanceOf(db, Operating) - amount
              && BalanceOf(r.value, Escrow) == BalanceOf(db, Escrow) + amount
            else r.Err?
  {
    hide TablesOk, Grows, OnlyPayments, RefundSettledPayment, BalanceOf, KeepsExact;
    RefundKeeps(db, x, db.payments[x].amount);
    if db.payments[x].status == Settled {
      RefundLeaves(db, x);
      var to := RefundSettledPayment(db, x, db.payments[x].amount).value;
      RefundKeepsAmount(db, to, x);
      CancelledLines(to, x);
      Mirrors(db);
      Mirrors(to);
    }
  }

  lemma RefundKeepsAmount(db: Db, to: Db, x: PaymentId)
    requires Grows(db, to) && x in db.payments
    ensures x in to.payments && to.payments[x].amount == db.payments[x].amount
  {
  }

  lemma CancelledLines(db: Db, id: PaymentId)
    requires TablesOk(db) && HasStatus(db, id, Cancelled)
    ensures Lines(db, OfPayment(id))
            == PayInLines(id, db.payments[id].amount) + ReversalLines(id, db.payments[id].amount)
  {
    assert RowOk(id, db.payments[id], Lines(db, OfPayment(id)));
  }

  lemma Mirrors(db: Db)
    requires TablesOk(db)
    ensures BalanceOf(db, Escrow) == -BalanceOf(db, Operating)
  {
  }

  // ----- the payer -----

  /** A pay page or a confirmation decides on the row as it read it: a PENDING row whose due date has passed
      at that moment is to be expired; a confirmation that goes through of one whose date has not passed is to
      be confirmed; anything else ends the request. The tables do not change. */
  lemma PayersDecide(s: State, t: nat, goesThrough: bool)
    requires t in s.tasks && s.tasks[t].Payer?
    ensures var k := s.tasks[t];
            var late := s.now > k.row.due;
            && Next(s, TaskDoes(t, Decide(goesThrough))).Some?
            && var to := Next(s, TaskDoes(t, Decide(goesThrough))).value;
               && to.db == s.db
               && (k.row.status == Pending && late ==> t in to.tasks && to.tasks[t] == PayerExpiring(k.id))
               && (k.row.status == Pending && !late && k.confirms && goesThrough ==>
                     t in to.tasks && to.tasks[t] == PayerConfirming(k.id))
               && (k.row.status != Pending || (!late && !(k.confirms && goesThrough)) ==> t !in to.tasks)
  {
  }

  /** The write of a payer's request, whatever happened since the row was read: a row that is still PENDING is
      expired, or confirmed with its amount pending; a row that has moved on is left alone. */
  lemma PayersWrite(s: State, t: nat)
    requires Reachable(s) && t in s.tasks && (s.tasks[t].PayerExpiring? || s.tasks[t].PayerConfirming?)
    ensures var id := s.tasks[t].id;
            && Next(s, TaskDoes(t, PayerWrite)).Some?
            && var to := Next(s, TaskDoes(t, PayerWrite)).value;
               if id !in s.db.payments || s.db.payments[id].status != Pending then to.db == s.db && t !in to.tasks
               else
                 && id in to.db.payments && to.db.payments[id].amount == s.db.payments[id].amount
                 && (forall jd | jd in s.db.payments && jd != id ::
                       jd in to.db.payments && to.db.payments[jd] == s.db.payments[jd])
                 && to.db.books.log == s.db.books.log && to.db.outbox == s.db.outbox
                 && (s.tasks[t].PayerExpiring? ==>
                       && to.db.payments[id].status == Expired && t !in to.tasks
                       && PendingOf(to.db) == PendingOf(s.db))
                 && (s.tasks[t].PayerConfirming? ==>
                       && to.db.payments[id].status == AwaitingTransfer
                       && PendingOf(to.db) == PendingOf(s.db) + s.db.payments[id].amount
                       && t in to.tasks && to.tasks[t] == Emitting([PaymentConfirmed(id)], 0))
  {
    hide TablesOk, EngineOk, DueOk, TasksOk, EventsOk, Reachable;
    HasEscrow(s);
  }

  /** From reading the row to the write, whatever happens in between: a confirmation that goes through
      confirms a payment that was and still is PENDING and whose date had not passed when it decided, and
      expires one whose date had; it never expires one whose date had not. */
  lemma ConfirmationsConfirm(
    s: State, t: nat, id: PaymentId, confirms: bool, goesThrough: bool, d: State, w: State)
    requires Reachable(s) && t !in s.tasks && id in s.db.payments && s.db.payments[id].status == Pending
    requires Next(s, TaskDoes(t, OpenPay(id, confirms))).Some?
             && Meanwhile(Next(s, TaskDoes(t, OpenPay(id, confirms))).value, t, d)
    requires Next(d, TaskDoes(t, Decide(goesThrough))).Some?
             && Meanwhile(Next(d, TaskDoes(t, Decide(goesThrough))).value, t, w)
    requires id in w.db.payments && w.db.payments[id].status == Pending
    ensures var late := d.now > s.db.payments[id].due;
            if late || (confirms && goesThrough) then
              && Next(w, TaskDoes(t, PayerWrite)).Some?
              && var end := Next(w, TaskDoes(t, PayerWrite)).value;
                 && id in end.db.payments
                 && end.db.payments[id].status == (if late then Expired else AwaitingTransfer)
            else t !in w.tasks
  {
    hide Reachable, Inv, Grows, Meanwhile, Proceeds;
    var read := PayerOpens(s, t, id, confirms);
    MeanwhileKeeps(read, t, d);
    PayersDecide(d, t, goesThrough);
    ReachableOn(d, TaskDoes(t, Decide(goesThrough)));
    MeanwhileKeeps(Next(d, TaskDoes(t, Decide(goesThrough))).value, t, w);
    if t in w.tasks {
      PayersWrite(w, t);
    }
  }

  lemma PayerOpens(s: State, t: nat, id: PaymentId, confirms: bool) returns (to: State)
    requires Reachable(s) && t !in s.tasks && id in s.db.payments
    ensures Next(s, TaskDoes(t, OpenPay(id, confirms))) == Option.Some(to) && Reachable(to) && to.db == s.db
    ensures t in to.tasks && to.tasks[t] == Payer(id, s.db.payments[id], confirms)
  {
    hide Reachable;
    to := Next(s, TaskDoes(t, OpenPay(id, confirms))).value;
    ReachableOn(s, TaskDoes(t, OpenPay(id, confirms)));
  }

  // ----- a new payment -----

  /** From counting the references to the insert, whatever happens in between: as long as the day's count
      still holds, the payment is created as it was asked for, PENDING under the number after the count;
      otherwise nothing is. */
  lemma RequestsCreate(s: State, t: nat, id: PaymentId, amount: int, due: int, day: Day, w: State)
    requires Reachable(s) && t !in s.tasks && amount > 0
    requires Next(s, TaskDoes(t, Generate(id, amount, due, day))).Some?
             && Meanwhile(Next(s, TaskDoes(t, Generate(id, amount, due, day))).value, t, w)
    requires id !in w.db.payments
    ensures Next(w, TaskDoes(t, CreateWrite)).Some?
    ensures var end := Next(w, TaskDoes(t, CreateWrite)).value;
            if CountOf(w.db, day) == CountOf(s.db, day) then
              && id in end.db.payments
              && end.db.payments[id].reference == Render(day, CountOf(s.db, day) + 1)
              && end.db.payments[id].amount == amount && end.db.payments[id].due == due
              && end.db.payments[id].status == Pending
              && end.db.payments[id].retry == 0 && !end.db.payments[id].processed
              && (forall jd | jd in w.db.payments ::
                    jd in end.db.payments && end.db.payments[jd] == w.db.payments[jd])
              && end.db.books == w.db.books && end.db.outbox == w.db.outbox
              && t in end.tasks && end.tasks[t] == Emitting([PaymentCreated(id)], 0)
            else end.db == w.db && t !in end.tasks
  {
    hide Reachable, Inv, Grows, Meanwhile, CountOf, Render;
    var counted := RequestOpens(s, t, id, amount, due, day);
    MeanwhileKeeps(counted, t, w);
    StaleCountsAreRefused(w, t, day, CountOf(s.db, day) + 1);
    RequestWrites(w, t);
  }

  lemma RequestOpens(s: State, t: nat, id: PaymentId, amount: int, due: int, day: Day) returns (to: State)
    requires Reachable(s) && t !in s.tasks
    ensures Next(s, TaskDoes(t, Generate(id, amount, due, day))) == Option.Some(to) && Reachable(to) && to.db == s.db
    ensures t in to.tasks && to.tasks[t] == Creating(id, Render(day, CountOf(s.db, day) + 1), amount, due)
  {
    hide Reachable, CountOf, Render;
    to := Next(s, TaskDoes(t, Generate(id, amount, due, day))).value;
    ReachableOn(s, TaskDoes(t, Generate(id, amount, due, day)));
  }

  lemma RequestWrites(w: State, t: nat)
    requires t in w.tasks && w.tasks[t].Creating? && w.tasks[t].id !in w.db.payments
    ensures var k := w.tasks[t];
            && Next(w, TaskDoes(t, CreateWrite)).Some?
            && var end := Next(w, TaskDoes(t, CreateWrite)).value;
               if k.id in end.db.payments then
                 && end.db.payments[k.id]
                    == Payment(k.reference, None, k.amount, k.due, Pending, 0, false, w.db.writes, [Pending])
                 && end.db.payments == w.db.payments[k.id := end.db.payments[k.id]]
                 && end.db.books == w.db.books && end.db.outbox == w.db.outbox
                 && t in end.tasks && end.tasks[t] == Emitting([PaymentCreated(k.id)], 0)
               else end.db == w.db && t !in end.tasks
  {
    hide ReferenceTaken;
  }

  // ----- announcements -----

  /** No fault strikes task t. */
  predicate Spared(t: nat, a: Action) {
    a != Crash && !(a.TaskDoes? && a.t == t && a.step in {EmitFails, Drop})
  }

  /** The events from index n on are in the hands of task t, those before it in the outbox. */
  predicate Announcing(s: State, t: nat, todo: seq<Event>) {
    if t in s.tasks && s.tasks[t].Emitting? && s.tasks[t].todo == todo
    then s.tasks[t].next <= |todo| && forall i | 0 <= i < s.tasks[t].next :: todo[i] in s.db.outbox
    else forall i | 0 <= i < |todo| :: todo[i] in s.db.outbox
  }

  lemma AnnouncingStep(s: State, t: nat, todo: seq<Event>, a: Action)
    requires Inv(s) && Announcing(s, t, todo) && Spared(t, a) && Next(s, a).Some?
    ensures Announcing(Next(s, a).value, t, todo)
  {
    var to := Next(s, a).value;
    OutboxOnlyGrows(s, a);
    if a.TaskDoes? && a.t == t {
      hide Inv;
      OwnAnnouncement(s, t, todo, a.step);
    } else {
      hide Inv;
      OthersLeaveTask(s, t, a);
    }
  }

  lemma OutboxOnlyGrows(s: State, a: Action)
    requires Inv(s) && Next(s, a).Some?
    ensures forall e :: e in s.db.outbox ==> e in Next(s, a).value.db.outbox
  {
    hide Inv, Next;
    NextKeeps(s, a);
  }

  lemma OwnAnnouncement(s: State, t: nat, todo: seq<Event>, step: TaskStep)
    requires Announcing(s, t, todo) && Spared(t, TaskDoes(t, step)) && TaskNext(s, t, step).Some?
    requires forall e :: e in s.db.outbox ==> e in TaskNext(s, t, step).value.db.outbox
    ensures Announcing(TaskNext(s, t, step).value, t, todo)
  {
    if t in s.tasks && s.tasks[t].Emitting? && s.tasks[t].todo == todo && step == Emit {
      var to := TaskNext(s, t, step).value;
      assert to.db.outbox == s.db.outbox + [todo[s.tasks[t].next]];
    }
  }

  lemma {:induction false} AnnouncingRun(s: State, t: nat, todo: seq<Event>, acts: seq<Action>)
    requires Inv(s) && Announcing(s, t, todo) && Exec(s, acts).Some?
    requires forall i | 0 <= i < |acts| :: Spared(t, acts[i])
    ensures Announcing(Exec(s, acts).value, t, todo)
    decreases |acts|
  {
    hide Inv, Announcing, Next, Grows;
    if acts != [] {
      NextKeeps(s, acts[0]);
      AnnouncingStep(s, t, todo, acts[0]);
      AnnouncingRun(Next(s, acts[0]).value, t, todo, acts[1..]);
    }
  }

  /** A goroutine that has taken up events and is done, without a fault of its own and whatever the others
      did, has put all of them into the outbox. */
  lemma EventsAreAnnounced(s: State, t: nat, todo: seq<Event>, acts: seq<Action>)
    requires Reachable(s) && t in s.tasks && s.tasks[t] == Emitting(todo, 0)
    requires Exec(s, acts).Some? && forall i | 0 <= i < |acts| :: Spared(t, acts[i])
    requires t !in Exec(s, acts).value.tasks
    ensures forall e | e in todo :: e in Exec(s, acts).value.db.outbox
  {
    hide Inv, Reachable;
    ReachableIsOk(s);
    AnnouncingRun(s, t, todo, acts);
  }

  /** The sweep takes up an event for each payment that it expired, the dashboard none, and a settlement that
      succeeds with a positive amount takes up its own. */
  lemma EventsAreTakenUp(s: State, t: nat, ids: seq<PaymentId>, limit: nat)
    requires t !in s.tasks && Next(s, TaskDoes(t, SweepWrite(ids, limit, true))).Some?
    ensures var to := Next(s, TaskDoes(t, SweepWrite(ids, limit, true))).value;
            && t in to.tasks && to.tasks[t].Emitting? && to.tasks[t].next == 0
            && (forall id :: PaymentExpired(id) in to.tasks[t].todo <==> id in ids)
  {
    hide Selects, ExpireEach;
    var todo := ExpiryEvents(ids);
    forall id ensures PaymentExpired(id) in todo <==> id in ids {
      if id in ids {
        var i :| 0 <= i < |ids| && ids[i] == id;
        assert todo[i] == PaymentExpired(id);
      }
    }
  }
}

/** What holds in every state the service can reach, under any interleaving and any faults. */
module Safety {
  import opened Types
  import opened Database
  import opened Accounts
  import opened Machine
  import opened Sets

  // ----- the engine and its batch -----

  /** The row is exactly as the engine's query read it. */
  predicate Waiting(db: Db, snap: Snap) {
    snap.id in db.payments && db.payments[snap.id] == snap.row && snap.row.status == AwaitingTransfer
  }

  predicate BeforeTheWrite(pc: Pc) {
    pc in {Ready, Started, Expiring, Calling, Posting, Marking, Declining}
  }

  predicate ToRequeue(pc: Pc) {
    pc == Requeueing || (pc.Announcing? && pc.again)
  }

  ghost predicate EngineOk(s: State) {
    var g := s.engine;
    && (forall i, j | 0 <= i < j < |g.batch| :: g.batch[i].id != g.batch[j].id)
    && (g.pc != Ready ==> g.batch != [])
    && (forall i | 0 <= i < |g.batch| && (i > 0 || BeforeTheWrite(g.pc)) :: Waiting(s.db, g.batch[i]))
    && (g.pc == Marking ==> PaidIn(s.db, g.batch[0].id))
    && (ToRequeue(g.pc) ==> HasStatus(s.db, g.batch[0].id, Failed) && s.db.payments[g.batch[0].id].retry < 3)
  }

  // ----- the due-time cache -----

  predicate BeforeTheRail(pc: Pc) {
    pc in {Ready, Started, Calling}
  }

  ghost predicate DueOk(s: State) {
    var g := s.engine;
    && (g.pc != Ready ==> g.batch != [])
    && g.tickNow <= s.now
    && (forall id | id in g.lastRail :: g.lastRail[id] <= s.now)
    && (forall id | id in g.dueAt && id in g.lastRail && (BeforeTheRail(g.pc) || id != g.batch[0].id) ::
          g.dueAt[id] >= g.lastRail[id] + 30)
    && (forall i | 0 <= i < |g.batch| && (i > 0 || BeforeTheRail(g.pc)) && g.batch[i].id in g.lastRail ::
          g.lastRail[g.batch[i].id] <= g.tickNow)
    && (g.pc in {Started, Calling} ==> g.batch[0].id in g.dueAt && g.dueAt[g.batch[0].id] <= g.tickNow)
    && (forall id | id in g.dueAt ::
          HasStatus(s.db, id, AwaitingTransfer) || (g.pc != Ready && id == g.batch[0].id))
  }

  // ----- tasks -----

  function RunOf(k: Task): Option<nat> {
    if k.SettleReading? || k.SettlePosting? || k.SettleClosing? then Option.Some(k.run) else None
  }

  predicate OwnsRun(k: Task, run: nat) {
    RunOf(k) == Option.Some(run)
  }

  predicate RunIsOpen(db: Db, run: nat) {
    run < |db.settlements| && db.settlements[run].status == Running
  }

  predicate TaskOk(db: Db, k: Task) {
    match k
    case Refunding(id, amount) => id in db.payments && db.payments[id].amount == amount
    case SettleReading(run) => RunIsOpen(db, run) && Lines(db, OfSettlement(run)) == []
    case SettlePosting(run, amount) => RunIsOpen(db, run) && Lines(db, OfSettlement(run)) == [] && amount > 0
    case SettleClosing(run, amount, entries, status) =>
      && RunIsOpen(db, run) && status != Running && amount >= 0
      && RunOk(run, SettlementRow(amount, entries, status), Lines(db, OfSettlement(run)))
    case Emitting(todo, next) => next <= |todo|
    case _ => true
  }

  ghost predicate TasksOk(s: State) {
    && (forall t | t in s.tasks :: TaskOk(s.db, s.tasks[t]))
    && (forall t, u, run: nat |
          t in s.tasks && u in s.tasks && OwnsRun(s.tasks[t], run) && OwnsRun(s.tasks[u], run) :: t == u)
  }

  // ----- events -----

  /** A place where an event can be: in the outbox, or in the hands of a goroutine that will enqueue it. */
  datatype Holder = InOutbox(i: nat) | InTask(t: nat, j: nat) | InEngine

  predicate Holds(s: State, h: Holder, e: Event) {
    match h
    case InOutbox(i) => i < |s.db.outbox| && s.db.outbox[i] == e
    case InTask(t, j) =>
      t in s.tasks && s.tasks[t].Emitting? && s.tasks[t].next <= j < |s.tasks[t].todo| && s.tasks[t].todo[j] == e
    case InEngine => s.engine.pc.Announcing? && s.engine.pc.event == e
  }

  predicate HadStatus(db: Db, id: PaymentId, st: Status) {
    id in db.payments && st in db.payments[id].trail
  }

  /** The transition that the event reports has taken place. */
  predicate Earned(db: Db, e: Event) {
    match e
    case PaymentCreated(id) => id in db.payments
    case PaymentConfirmed(id) => HadStatus(db, id, AwaitingTransfer)
    case PaymentSettled(id) => HadStatus(db, id, Settled)
    case PaymentExpired(id) => HadStatus(db, id, Expired)
    case PaymentRefunded(id) => HadStatus(db, id, Cancelled)
    case PaymentFailed(id, retry) =>
      id in db.payments && 1 <= retry <= multiset(db.payments[id].trail)[Failed]
    case SettlementCompleted(run) =>
      run < |db.settlements| && db.settlements[run].status == Success && db.settlements[run].amount > 0
  }

  ghost predicate EventsOk(s: State) {
    && (forall h, k, e | Holds(s, h, e) && Holds(s, k, e) :: h == k)
    && (forall h, e | Holds(s, h, e) :: Earned(s.db, e))
  }

  ghost predicate Inv(s: State) {
    TablesOk(s.db) && EngineOk(s) && DueOk(s) && TasksOk(s) && EventsOk(s)
  }

  // ----- rely and guarantee -----

  /** What the engine relies on: the others change PENDING and SETTLED rows only, add no pay-in, and leave
      the ledger lines of rows in flight alone. */
  ghost predicate Rely(db: Db, to: Db) {
    && Grows(db, to)
    && (forall id | id in db.payments && db.payments[id].status !in {Pending, Settled} ::
          to.payments[id] == db.payments[id])
    && (forall id | id in db.payments && db.payments[id].status in {AwaitingTransfer, Failed} ::
          Lines(to, OfPayment(id)) == Lines(db, OfPayment(id)))
    && (forall id | PaidIn(to, id) :: PaidIn(db, id))
  }

  lemma RelyFromOthers(db: Db, to: Db, xs: set<PaymentId>)
    requires Grows(db, to) && OnlyPayments(db, to, xs)
    requires forall x | x in xs && x in db.payments :: db.payments[x].status in {Pending, Settled}
    requires to.books.log == db.books.log || forall x | x in xs :: PaidIn(db, x)
    ensures Rely(db, to)
  {
  }

  lemma EngineKeepsUnderRely(s: State, to: State)
    requires EngineOk(s) && DueOk(s) && Rely(s.db, to.db)
    requires to.engine == s.engine && to.now >= s.now
    ensures EngineOk(to) && DueOk(to)
  {
    assert EngineOk(to) by { hide DueOk; }
    assert DueOk(to) by { hide EngineOk; }
    hide EngineOk, DueOk, Rely;
  }

  /** The runs other than n keep their row and their lines. */
  ghost predicate OtherRunsKept(db: Db, to: Db, owned: Option<nat>) {
    forall m: nat | m < |db.settlements| && owned != Option.Some(m) ::
      m < |to.settlements| && to.settlements[m] == db.settlements[m]
      && Lines(to, OfSettlement(m)) == Lines(db, OfSettlement(m))
  }

  lemma TaskOkKept(db: Db, to: Db, k: Task, owned: Option<nat>)
    requires TaskOk(db, k) && Grows(db, to) && OtherRunsKept(db, to, owned)
    requires owned.Some? ==> !OwnsRun(k, owned.value)
    ensures TaskOk(to, k)
  {
  }

  lemma EarnedKept(db: Db, to: Db, e: Event)
    requires Earned(db, e) && Grows(db, to)
    ensures Earned(to, e)
  {
    if e.PaymentFailed? {
      var old', new' := db.payments[e.id].trail, to.payments[e.id].trail;
      assert new' == old' + new'[|old'|..];
      assert multiset(new') == multiset(old') + multiset(new'[|old'|..]);
    }
  }

  /** Whose hands a holder is: those of task t, or the engine's when t is None. */
  predicate Mine(h: Holder, t: Option<nat>) {
    match h
    case InOutbox(_) => false
    case InTask(u, _) => t == Option.Some(u)
    case InEngine => t == None
  }

  /** How a step of one goroutine may move events: others hold no new ones, it takes up distinct events
      that its own step has just earned, and it passes at most the one at `from` to the outbox. */
  ghost predicate EventsMove(s: State, to: State, t: Option<nat>, from: Option<Holder>) {
    && (from.Some? ==> Mine(from.value, t))
    && (forall h: Holder, e | !h.InOutbox? && !Mine(h, t) && Holds(to, h, e) :: Holds(s, h, e))
    && (forall h, e | Mine(h, t) && Holds(to, h, e) ::
          (Holds(s, h, e) && from != Option.Some(h)) || (!Earned(s.db, e) && Earned(to.db, e)))
    && (forall h, k, e | Mine(h, t) && Mine(k, t) && Holds(to, h, e) && Holds(to, k, e) :: h == k)
    && (to.db.outbox == s.db.outbox
        || (&& from.Some?
            && exists e :: Holds(s, from.value, e) && to.db.outbox == s.db.outbox + [e]))
  }

  lemma EventsKept(s: State, to: State, t: Option<nat>, from: Option<Holder>)
    requires EventsOk(s) && Grows(s.db, to.db) && EventsMove(s, to, t, from)
    ensures EventsOk(to)
  {
    forall h, e | Holds(to, h, e) ensures Earned(to.db, e) {
      OriginOf(s, to, t, from, h, e);
      if Earned(s.db, e) {
        EarnedKept(s.db, to.db, e);
      }
    }
    forall h, k, e | Holds(to, h, e) && Holds(to, k, e) ensures h == k {
      OriginOf(s, to, t, from, h, e);
      OriginOf(s, to, t, from, k, e);
    }
  }

  /** A holder in the new state held its event before, or took it over, or has just earned it. */
  lemma OriginOf(s: State, to: State, t: Option<nat>, from: Option<Holder>, h: Holder, e: Event)
    requires EventsOk(s) && EventsMove(s, to, t, from) && Holds(to, h, e)
    ensures || (Holds(s, h, e) && from != Option.Some(h))
            || (h == InOutbox(|s.db.outbox|) && from.Some? && Holds(s, from.value, e))
            || (Mine(h, t) && !Earned(s.db, e) && Earned(to.db, e))
    ensures Earned(s.db, e) || Earned(to.db, e)
  {
    match h
    case InOutbox(i) =>
      if i < |s.db.outbox| {
        assert to.db.outbox[i] == s.db.outbox[i];
        assert Holds(s, h, e);
      }
    case InTask(_, _) =>
      if !Mine(h, t) {
        assert Holds(s, h, e);
      }
    case InEngine =>
  }

  // ----- task steps -----

  /** A step of task t: the only run it may touch is `owned`, the only event it may pass on is at `from`. */
  ghost predicate TaskMoves(s: State, t: nat, to: State, owned: Option<nat>, from: Option<Holder>) {
    && TablesOk(to.db) && Rely(s.db, to.db) && to.engine == s.engine && to.now == s.now
    && OtherRunsKept(s.db, to.db, owned)
    && (owned.Some? ==>
          owned.value >= |s.db.settlements| || (t in s.tasks && OwnsRun(s.tasks[t], owned.value)))
    && (forall u | u in s.tasks && u != t :: u in to.tasks && to.tasks[u] == s.tasks[u])
    && (forall u | u in to.tasks && u != t :: u in s.tasks)
    && (t in to.tasks ==>
          && TaskOk(to.db, to.tasks[t])
          && (forall n: nat | OwnsRun(to.tasks[t], n) :: owned == Option.Some(n)))
    && EventsMove(s, to, Option.Some(t), from)
  }

  /** What every task step keeps, and what it guarantees to the engine. */
  ghost predicate TaskKeeps(s: State, to: State) {
    Inv(to) && Rely(s.db, to.db) && to.engine == s.engine && to.now == s.now
  }

  lemma TaskMovesKeeps(s: State, t: nat, to: State, owned: Option<nat>, from: Option<Holder>)
    requires Inv(s) && TaskMoves(s, t, to, owned, from)
    ensures TaskKeeps(s, to)
  {
    EngineKeepsUnderRely(s, to);
    EventsKept(s, to, Option.Some(t), from);
    OtherTasksKept(s, t, to, owned, from);
  }

  lemma OtherTasksKept(s: State, t: nat, to: State, owned: Option<nat>, from: Option<Holder>)
    requires TasksOk(s) && TaskMoves(s, t, to, owned, from)
    ensures TasksOk(to)
  {
    hide Grows, TablesOk, EventsMove, OtherRunsKept;
    assert Grows(s.db, to.db);
    forall u | u in s.tasks && u != t ensures owned.Some? ==> !OwnsRun(s.tasks[u], owned.value) {
      assert TaskOk(s.db, s.tasks[u]);
    }
    forall u | u in to.tasks ensures TaskOk(to.db, to.tasks[u]) {
      if u != t {
        TaskOkKept(s.db, to.db, s.tasks[u], owned);
      }
    }
  }

  /** A step that changes at most the payments xs, none of them in flight. */
  lemma RunsKept(db: Db, to: Db, xs: set<PaymentId>)
    requires OnlyPayments(db, to, xs)
    ensures OtherRunsKept(db, to, None)
  {
  }

  /** A step that leaves the tables alone. */
  lemma LocalKeeps(s: State, t: nat, to: State)
    requires Inv(s) && to.db == s.db && to.engine == s.engine && to.now == s.now
    requires forall u | u in s.tasks && u != t :: u in to.tasks && to.tasks[u] == s.tasks[u]
    requires forall u | u in to.tasks && u != t :: u in s.tasks
    requires t in to.tasks ==>
               && TaskOk(s.db, to.tasks[t])
               && (forall n: nat | OwnsRun(to.tasks[t], n) :: t in s.tasks && OwnsRun(s.tasks[t], n))
               && (to.tasks[t].Emitting? ==>
                     && t in s.tasks && s.tasks[t].Emitting?
                     && to.tasks[t].todo == s.tasks[t].todo && s.tasks[t].next <= to.tasks[t].next)
    ensures TaskKeeps(s, to)
  {
    hide TablesOk, EngineOk, DueOk, TaskOk;
    var owned := if t in to.tasks then RunOf(to.tasks[t]) else None;
    forall h, e | Mine(h, Option.Some(t)) && Holds(to, h, e) ensures Holds(s, h, e) {
    }
    TaskMovesKeeps(s, t, to, owned, None);
  }

  /** A step that changes the PENDING or SETTLED payments xs and takes up the events of `todo`. */
  lemma PaymentStepKeeps(s: State, t: nat, to: State, xs: set<PaymentId>, todo: seq<Event>)
    requires Inv(s) && TablesOk(to.db) && Grows(s.db, to.db) && OnlyPayments(s.db, to.db, xs)
    requires forall x | x in xs && x in s.db.payments :: s.db.payments[x].status in {Pending, Settled}
    requires to.db.books.log == s.db.books.log || forall x | x in xs :: PaidIn(s.db, x)
    requires to.db.outbox == s.db.outbox
    requires to == With(s.(db := to.db), t, Emitting(todo, 0)) || (to == Without(s.(db := to.db), t) && todo == [])
    requires Distinct(todo)
    requires forall e | e in todo :: !Earned(s.db, e) && Earned(to.db, e)
    ensures TaskKeeps(s, to)
  {
    hide TablesOk, EngineOk, DueOk, Earned, OnlyPayments, Grows;
    RelyFromOthers(s.db, to.db, xs);
    RunsKept(s.db, to.db, xs);
    TaskMovesKeeps(s, t, to, None, None);
  }

  lemma OpensKeeps(s: State, t: nat, step: TaskStep)
    requires Inv(s) && t !in s.tasks && Opens(s, t, step).Some?
    ensures TaskKeeps(s, Opens(s, t, step).value)
  {
    hide TablesOk, EngineOk, DueOk, Grows, OnlyPayments;
    var to := Opens(s, t, step).value;
    match step
    case Generate(_, _, _, _) =>
      LocalKeeps(s, t, to);
    case OpenPay(id, confirms) =>
      LocalKeeps(s, t, to);
    case OpenRefund(id) =>
      LocalKeeps(s, t, to);
    case SweepWrite(ids, limit, announces) =>
      SweepKeeps(s, t, ids, limit, announces);
    case OpenRun =>
      OpenRunKeeps(s, t, to);
  }

  lemma SelfRely(db: Db)
    ensures Rely(db, db) && Grows(db, db)
  {
  }

  lemma RunStepKept(db: Db, to: Db, n: nat)
    requires OnlyRun(db, to, n) && Grows(db, to)
    ensures Rely(db, to) && OtherRunsKept(db, to, Option.Some(n))
  {
  }

  lemma OpenRunKeeps(s: State, t: nat, to: State)
    requires t !in s.tasks && Opens(s, t, OpenRun) == Option.Some(to)
    requires Inv(s)
    ensures TaskKeeps(s, to)
  {
    hide TablesOk, EngineOk, DueOk, Rely, Grows, OnlyRun, OtherRunsKept, Lines, EventsOk, TasksOk, Earned;
    CreateSettlementKeeps(s.db);
    RunStepKept(s.db, to.db, |s.db.settlements|);
    TaskMovesKeeps(s, t, to, Option.Some(|s.db.settlements|), None);
  }

  lemma SweepEarns(db: Db, ids: seq<PaymentId>)
    requires TablesOk(db) && forall id | id in ids :: HasStatus(db, id, Pending)
    ensures forall e | e in ExpiryEvents(ids) :: !Earned(db, e) && Earned(ExpireEach(db, ids), e)
  {
    hide TablesOk, Grows, OnlyPayments, ExpireEach;
    ExpireEachKeeps(db, ids);
    forall e | e in ExpiryEvents(ids) ensures !Earned(db, e) && Earned(ExpireEach(db, ids), e) {
      var j :| 0 <= j < |ids| && e == PaymentExpired(ids[j]);
      assert ids[j] in ids;
      PendingTrail(db, ids[j]);
      ExpiredTrail(ExpireEach(db, ids), ids[j]);
    }
  }

  lemma SweepKeeps(s: State, t: nat, ids: seq<PaymentId>, limit: nat, announces: bool)
    requires Inv(s) && t !in s.tasks && Opens(s, t, SweepWrite(ids, limit, announces)).Some?
    ensures TaskKeeps(s, Opens(s, t, SweepWrite(ids, limit, announces)).value)
  {
    hide TablesOk, EngineOk, DueOk, Grows, OnlyPayments, Earned, EventsOk, TasksOk;
    SweepEarns(s.db, ids);
    ExpireEachKeeps(s.db, ids);
    var to := Opens(s, t, SweepWrite(ids, limit, announces)).value;
    PaymentStepKeeps(s, t, to, Elements(ids), SweepEvents(ids, announces));
  }

  lemma PendingTrail(db: Db, id: PaymentId)
    requires TablesOk(db) && HasStatus(db, id, Pending)
    ensures db.payments[id].trail == [Pending]
  {
    assert RowOk(id, db.payments[id], Lines(db, OfPayment(id)));
  }

  lemma ExpiredTrail(db: Db, id: PaymentId)
    requires TablesOk(db) && HasStatus(db, id, Expired)
    ensures Expired in db.payments[id].trail
  {
    assert RowOk(id, db.payments[id], Lines(db, OfPayment(id)));
    assert db.payments[id].trail[|db.payments[id].trail| - 1] == Expired;
  }

  lemma TaskIsOk(s: State, t: nat)
    requires TasksOk(s) && t in s.tasks
    ensures TaskOk(s.db, s.tasks[t])
  {
  }

  lemma CreateStepKeeps(s: State, t: nat, k: Task)
    requires Inv(s) && t in s.tasks && s.tasks[t] == k && k.Creating?
    ensures TaskKeeps(
              s,
              match CreatePayment(s.db, k.id, k.reference, None, k.amount, k.due)
              case Ok(db) => With(s.(db := db), t, Emitting([PaymentCreated(k.id)], 0))
              case Err(_) => Without(s, t))
  {
    hide TablesOk, EngineOk, DueOk, Grows, OnlyPayments;
    if CreatePayment(s.db, k.id, k.reference, None, k.amount, k.due).Ok? {
      var db := CreatePayment(s.db, k.id, k.reference, None, k.amount, k.due).value;
      CreateKeeps(s.db, k.id, k.reference, None, k.amount, k.due);
      var created := [PaymentCreated(k.id)];
      PaymentStepKeeps(s, t, With(s.(db := db), t, Emitting(created, 0)), {k.id}, created);
    } else {
      LocalKeeps(s, t, Without(s, t));
    }
  }

  lemma ConfirmStepKeeps(s: State, t: nat, id: PaymentId, to: State)
    requires t in s.tasks && s.tasks[t] == PayerConfirming(id) && Proceeds(s, t, PayerWrite) == Option.Some(to)
    requires Inv(s)
    ensures TaskKeeps(s, to)
  {
    hide TablesOk, EngineOk, DueOk, Grows, OnlyPayments, EventsOk, TasksOk;
    if HasStatus(s.db, id, Pending) {
      PendingTrail(s.db, id);
      ConfirmKeeps(s.db, id);
      var trail := to.db.payments[id].trail;
      assert trail[1] == AwaitingTransfer;
      PaymentStepKeeps(s, t, to, {id}, [PaymentConfirmed(id)]);
    } else {
      LocalKeeps(s, t, to);
    }
  }

  lemma PayerExpiryKeeps(s: State, t: nat, id: PaymentId, to: State)
    requires t in s.tasks && s.tasks[t] == PayerExpiring(id) && Proceeds(s, t, PayerWrite) == Option.Some(to)
    requires Inv(s)
    ensures TaskKeeps(s, to)
  {
    hide TablesOk, EngineOk, DueOk, Grows, OnlyPayments, EventsOk, TasksOk;
    if HasStatus(s.db, id, Pending) {
      ExpirePendingKeeps(s.db, id);
      PaymentStepKeeps(s, t, to, {id}, []);
    } else {
      LocalKeeps(s, t, to);
    }
  }

  lemma SettledTrail(db: Db, id: PaymentId)
    requires TablesOk(db) && HasStatus(db, id, Settled)
    ensures Cancelled !in db.payments[id].trail && PaidIn(db, id)
  {
    hide Rounds;
    var p := db.payments[id];
    assert RowOk(id, p, Lines(db, OfPayment(id)));
    hide TablesOk;
    RoundsHold(p.retry);
  }

  lemma {:induction false} RoundsHold(r: nat)
    ensures forall st | st in Rounds(r) :: st in {Pending, AwaitingTransfer, Failed}
    ensures multiset(Rounds(r))[Failed] == r
  {
    if r > 0 {
      RoundsHold(r - 1);
      assert multiset(Rounds(r)) == multiset(Rounds(r - 1)) + multiset([Failed, AwaitingTransfer]);
    }
  }

  lemma RefundStepKeeps(s: State, t: nat, id: PaymentId, amount: int)
    requires Inv(s) && t in s.tasks && s.tasks[t] == Refunding(id, amount)
    ensures TaskKeeps(
              s,
              match RefundSettledPayment(s.db, id, amount)
              case Ok(db) => With(s.(db := db), t, Emitting([PaymentRefunded(id)], 0))
              case Err(_) => Without(s, t))
  {
    hide TablesOk, EngineOk, DueOk, Grows, OnlyPayments, EventsOk, TasksOk, RefundSettledPayment;
    TaskIsOk(s, t);
    var to :=
      match RefundSettledPayment(s.db, id, amount)
      case Ok(db) => With(s.(db := db), t, Emitting([PaymentRefunded(id)], 0))
      case Err(_) => Without(s, t);
    RefundKeeps(s.db, id, amount);
    if HasStatus(s.db, id, Settled) {
      SettledTrail(s.db, id);
      CancelledTrail(to.db, id);
      PaymentStepKeeps(s, t, to, {id}, [PaymentRefunded(id)]);
    } else {
      LocalKeeps(s, t, to);
    }
  }

  lemma CancelledTrail(db: Db, id: PaymentId)
    requires TablesOk(db) && HasStatus(db, id, Cancelled)
    ensures Cancelled in db.payments[id].trail
  {
    assert RowOk(id, db.payments[id], Lines(db, OfPayment(id)));
    assert db.payments[id].trail[|db.payments[id].trail| - 1] == Cancelled;
  }

  lemma PostRunKeeps(s: State, t: nat, run: nat, amount: int)
    requires Inv(s) && t in s.tasks && s.tasks[t] == SettlePosting(run, amount)
    ensures RunSettlement(s.db, run, amount).Ok?
    ensures TaskKeeps(
              s, With(s.(db := RunSettlement(s.db, run, amount).value), t, SettleClosing(run, amount, 2, Success)))
  {
    hide TablesOk, EngineOk, DueOk, Rely, Grows, OnlyRun, OtherRunsKept, Lines, EventsOk, TasksOk, Earned;
    hide RunSettlement;
    TaskIsOk(s, t);
    RunSettlementKeeps(s.db, run, amount);
    var to := With(s.(db := RunSettlement(s.db, run, amount).value), t, SettleClosing(run, amount, 2, Success));
    RunStepKept(s.db, to.db, run);
    TaskMovesKeeps(s, t, to, Option.Some(run), None);
  }

  lemma CloseRunKeeps(s: State, t: nat, k: Task)
    requires Inv(s) && t in s.tasks && s.tasks[t] == k && k.SettleClosing?
    ensures TaskKeeps(s, RunClosed(s, t, k))
  {
    hide TablesOk, EngineOk, DueOk, Rely, Grows, OnlyRun, OtherRunsKept, Lines, EventsOk, TasksOk, RunOk, EventsMove;
    TaskIsOk(s, t);
    var to := RunClosed(s, t, k);
    CompleteSettlementKeeps(s.db, k.run, k.amount, k.entries, k.status);
    RunStepKept(s.db, to.db, k.run);
    CloseRunMoves(s, t, k);
    TaskMovesKeeps(s, t, to, Option.Some(k.run), None);
  }

  lemma CloseRunMoves(s: State, t: nat, k: Task)
    requires t in s.tasks && s.tasks[t] == k && k.SettleClosing? && TaskOk(s.db, k)
    ensures EventsMove(s, RunClosed(s, t, k), Option.Some(t), None)
  {
    hide RunOk;
    var to := RunClosed(s, t, k);
    forall h, e | Mine(h, Option.Some(t)) && Holds(to, h, e) ensures !Earned(s.db, e) && Earned(to.db, e) {
      assert e == SettlementCompleted(k.run);
    }
  }

  lemma EmitKeeps(s: State, t: nat, todo: seq<Event>, next: nat)
    requires Inv(s) && t in s.tasks && s.tasks[t] == Emitting(todo, next) && next < |todo|
    ensures TaskKeeps(s, With(s.(db := Enqueue(s.db, todo[next])), t, Emitting(todo, next + 1)))
  {
    hide TablesOk, EngineOk, DueOk, Rely, Grows, OnlyPayments, OtherRunsKept, Lines, EventsOk, TasksOk, EventsMove;
    var to := With(s.(db := Enqueue(s.db, todo[next])), t, Emitting(todo, next + 1));
    EnqueueKeeps(s.db, todo[next]);
    RelyFromOthers(s.db, to.db, {});
    RunsKept(s.db, to.db, {});
    EmitMoves(s, t, todo, next);
    TaskMovesKeeps(s, t, to, None, Option.Some(InTask(t, next)));
  }

  lemma EmitMoves(s: State, t: nat, todo: seq<Event>, next: nat)
    requires EventsOk(s) && t in s.tasks && s.tasks[t] == Emitting(todo, next) && next < |todo|
    ensures EventsMove(
              s, With(s.(db := Enqueue(s.db, todo[next])), t, Emitting(todo, next + 1)),
              Option.Some(t), Option.Some(InTask(t, next)))
  {
    EventsOfOne(s, t, todo, next);
    hide EventsOk, Earned;
    assert Holds(s, InTask(t, next), todo[next]);
  }

  /** The events that one task still has to enqueue are distinct. */
  lemma EventsOfOne(s: State, t: nat, todo: seq<Event>, next: nat)
    requires EventsOk(s) && t in s.tasks && s.tasks[t] == Emitting(todo, next)
    ensures forall i, j | next <= i < j < |todo| :: todo[i] != todo[j]
  {
    forall i, j | next <= i < j < |todo| ensures todo[i] != todo[j] {
      assert Holds(s, InTask(t, i), todo[i]) && Holds(s, InTask(t, j), todo[j]);
    }
  }

  lemma ProceedsKeeps(s: State, t: nat, step: TaskStep)
    requires Inv(s) && t in s.tasks && Proceeds(s, t, step).Some?
    ensures TaskKeeps(s, Proceeds(s, t, step).value)
  {
    hide TablesOk, EngineOk, DueOk, EventsOk, TasksOk, Rely, CreatePayment, UpdatePaymentStatus, ConfirmPaymentIntent,
         RefundSettledPayment, RunSettlement, CompleteSettlement, Enqueue, BalanceOf;
    TaskIsOk(s, t);
    var to := Proceeds(s, t, step).value;
    match (step, s.tasks[t])
    case (CreateWrite, Creating(_, _, _, _)) => CreateStepKeeps(s, t, s.tasks[t]);
    case (PayerWrite, PayerExpiring(id)) => PayerExpiryKeeps(s, t, id, to);
    case (PayerWrite, PayerConfirming(id)) => ConfirmStepKeeps(s, t, id, to);
    case (RefundWrite, Refunding(id, amount)) => RefundStepKeeps(s, t, id, amount);
    case (PostRun, SettlePosting(run, amount)) => PostRunKeeps(s, t, run, amount);
    case (CloseRun, SettleClosing(_, _, _, _)) => CloseRunKeeps(s, t, s.tasks[t]);
    case (Emit, Emitting(todo, next)) => EmitKeeps(s, t, todo, next);
    case _ => LocalKeeps(s, t, to);
  }

  lemma TaskNextKeeps(s: State, t: nat, step: TaskStep)
    requires Inv(s) && TaskNext(s, t, step).Some?
    ensures TaskKeeps(s, TaskNext(s, t, step).value)
  {
    if t in s.tasks {
      ProceedsKeeps(s, t, step);
    } else {
      OpensKeeps(s, t, step);
    }
  }

  // ----- engine steps -----

  lemma EngineMovesKeeps(s: State, to: State, from: Option<Holder>)
    requires TasksOk(s) && EventsOk(s) && to.tasks == s.tasks
    requires TablesOk(to.db) && Grows(s.db, to.db) && OtherRunsKept(s.db, to.db, None)
    requires EngineOk(to) && DueOk(to) && EventsMove(s, to, None, from)
    ensures Inv(to)
  {
    hide TablesOk, EngineOk, DueOk, TaskOk, Grows, OtherRunsKept, EventsOk, EventsMove;
    EventsKept(s, to, None, from);
    forall t | t in to.tasks ensures TaskOk(to.db, to.tasks[t]) {
      TaskOkKept(s.db, to.db, s.tasks[t], None);
    }
  }

  /** A step that changes only the engine, and leaves no event in its hands. */
  lemma EngineLocalKeeps(s: State, to: State)
    requires Inv(s) && to == s.(engine := to.engine) && !to.engine.pc.Announcing?
    requires EngineOk(to) && DueOk(to)
    ensures Inv(to)
  {
    hide TablesOk, EngineOk, DueOk, TasksOk, EventsOk, Earned;
    SelfRely(s.db);
    EngineMovesKeeps(s, to, None);
  }

  /** The conditions on the first row of the batch under the program counter that follows a write. */
  predicate HeadOk(db: Db, id: PaymentId, pc: Pc) {
    && !BeforeTheWrite(pc)
    && (ToRequeue(pc) ==> HasStatus(db, id, Failed) && db.payments[id].retry < 3)
  }

  /** A write to the first row of the batch leaves the rest of the batch as it was read. */
  lemma HeadWritten(s: State, db: Db, pc: Pc)
    requires EngineOk(s) && DueOk(s) && s.engine.pc != Ready && !BeforeTheRail(s.engine.pc)
    requires OnlyPayments(s.db, db, {s.engine.batch[0].id})
    requires HeadOk(db, s.engine.batch[0].id, pc)
    ensures EngineOk(At(s.(db := db), pc)) && DueOk(At(s.(db := db), pc))
  {
  }

  lemma WriteKeeps(s: State, db: Db, pc: Pc)
    requires Inv(s) && s.engine.pc != Ready && !BeforeTheRail(s.engine.pc) && !s.engine.pc.Announcing?
    requires s.engine.batch != [] && OnlyPayments(s.db, db, {s.engine.batch[0].id})
    requires TablesOk(db) && Grows(s.db, db) && db.outbox == s.db.outbox
    requires HeadOk(db, s.engine.batch[0].id, pc)
    requires pc.Announcing? ==> !Earned(s.db, pc.event) && Earned(db, pc.event)
    ensures Inv(At(s.(db := db), pc))
  {
    hide TablesOk, EngineOk, DueOk, TasksOk, EventsOk, Earned, Grows, OnlyPayments, HeadOk;
    HeadWritten(s, db, pc);
    RunsKept(s.db, db, {s.engine.batch[0].id});
    EngineMovesKeeps(s, At(s.(db := db), pc), None);
  }

  /** In its turn, until the write, the first row of the batch is as the query read it. */
  lemma HeadWaits(s: State)
    requires EngineOk(s) && s.engine.batch != [] && BeforeTheWrite(s.engine.pc)
    ensures Waiting(s.db, s.engine.batch[0])
    ensures s.engine.pc == Marking ==> PaidIn(s.db, s.engine.batch[0].id)
  {
  }

  lemma AwaitingTrail(db: Db, id: PaymentId)
    requires TablesOk(db) && HasStatus(db, id, AwaitingTransfer)
    ensures var p := db.payments[id];
            && p.retry <= 2 && !p.processed
            && (forall st | st in p.trail :: st in {Pending, AwaitingTransfer, Failed})
            && multiset(p.trail)[Failed] == p.retry
  {
    assert RowOk(id, db.payments[id], Lines(db, OfPayment(id)));
    RoundsHold(db.payments[id].retry);
  }

  lemma EngineExpires(s: State)
    requires Inv(s) && s.engine.pc == Expiring && s.engine.batch != []
    ensures Writes(s).Some? && Inv(Writes(s).value) && Grows(s.db, Writes(s).value.db)
    ensures OnlyPayments(s.db, Writes(s).value.db, {s.engine.batch[0].id})
    ensures Writes(s).value.db.books.log == s.db.books.log
  {
    hide TablesOk, EngineOk, DueOk, TasksOk, EventsOk, Grows, OnlyPayments;
    HeadWaits(s);
    var id := s.engine.batch[0].id;
    AwaitingTrail(s.db, id);
    ExpireAwaitingKeeps(s.db, id);
    var db := ExpireAwaitingTransfer(s.db, id, s.engine.batch[0].row.amount).value;
    ExpiredTrail(db, id);
    WriteKeeps(s, db, Announcing(PaymentExpired(id), false));
  }

  lemma EnginePosts(s: State)
    requires Inv(s) && s.engine.pc == Posting && s.engine.batch != []
    ensures Writes(s).Some? && Inv(Writes(s).value) && Grows(s.db, Writes(s).value.db)
    ensures OnlyPayments(s.db, Writes(s).value.db, {s.engine.batch[0].id})
    ensures Writes(s).value.engine == s.engine.(pc := Marking)
    ensures PaidIn(s.db, s.engine.batch[0].id) ==> Writes(s).value.db == s.db
    ensures !PaidIn(s.db, s.engine.batch[0].id) ==> PayIn(s.db, Writes(s).value.db, s.engine.batch[0].id)
  {
    hide TablesOk, EngineOk, DueOk, TasksOk, EventsOk, Grows, OnlyPayments, Earned;
    hide ClearPendingEscrowToOperating, PayIn;
    HeadWaits(s);
    var id := s.engine.batch[0].id;
    ClearPendingKeeps(s.db, id);
    var to := Writes(s).value;
    if PaidIn(s.db, id) {
      SelfRely(s.db);
      SelfOnly(s.db, {id});
      PostedDue(s, s.db);
      EngineLocalKeeps(s, to);
    } else {
      PostedDue(s, to.db);
      RunsKept(s.db, to.db, {id});
      EngineMovesKeeps(s, to, None);
    }
  }

  lemma SelfOnly(db: Db, xs: set<PaymentId>)
    ensures OnlyPayments(db, db, xs)
  {
  }

  lemma PostedDue(s: State, db: Db)
    requires EngineOk(s) && DueOk(s) && s.engine.pc == Posting
    requires if PaidIn(s.db, s.engine.batch[0].id) then db == s.db else PayIn(s.db, db, s.engine.batch[0].id)
    ensures EngineOk(At(s.(db := db), Marking)) && DueOk(At(s.(db := db), Marking))
  {
  }

  lemma EngineMarks(s: State)
    requires Inv(s) && s.engine.pc == Marking && s.engine.batch != []
    ensures Writes(s).Some? && Inv(Writes(s).value) && Grows(s.db, Writes(s).value.db)
    ensures OnlyPayments(s.db, Writes(s).value.db, {s.engine.batch[0].id})
    ensures Writes(s).value.db.books.log == s.db.books.log
    ensures MarkPaymentSettled(s.db, s.engine.batch[0].id).1
  {
    hide TablesOk, EngineOk, DueOk, TasksOk, EventsOk, Grows, OnlyPayments, PaidIn;
    HeadWaits(s);
    var id := s.engine.batch[0].id;
    AwaitingTrail(s.db, id);
    MarkKeeps(s.db, id);
    var db := MarkPaymentSettled(s.db, id).0;
    assert db.payments[id].trail[|db.payments[id].trail| - 1] == Settled;
    WriteKeeps(s, db, Announcing(PaymentSettled(id), false));
  }

  lemma EngineDeclines(s: State)
    requires Inv(s) && s.engine.pc == Declining && s.engine.batch != []
    ensures Writes(s).Some? && Inv(Writes(s).value) && Grows(s.db, Writes(s).value.db)
    ensures OnlyPayments(s.db, Writes(s).value.db, {s.engine.batch[0].id})
    ensures Writes(s).value.db.books.log == s.db.books.log
  {
    hide TablesOk, EngineOk, DueOk, TasksOk, EventsOk, Grows, OnlyPayments;
    HeadWaits(s);
    var snap := s.engine.batch[0];
    AwaitingTrail(s.db, snap.id);
    DeclineKeeps(s.db, snap.id);
    var db := IncrementRetryAndSetStatus(s.db, snap.id, Failed).value;
    assert db.payments[snap.id].trail == snap.row.trail + [Failed];
    WriteKeeps(s, db, Announcing(PaymentFailed(snap.id, snap.row.retry + 1), snap.row.retry + 1 < 3));
  }

  lemma HeadFailed(s: State)
    requires EngineOk(s) && ToRequeue(s.engine.pc)
    ensures s.engine.batch != []
    ensures HasStatus(s.db, s.engine.batch[0].id, Failed) && s.db.payments[s.engine.batch[0].id].retry < 3
  {
  }

  lemma EngineRequeues(s: State)
    requires Inv(s) && s.engine.pc == Requeueing && s.engine.batch != []
    ensures Writes(s).Some? && Inv(Writes(s).value) && Grows(s.db, Writes(s).value.db)
    ensures OnlyPayments(s.db, Writes(s).value.db, {s.engine.batch[0].id})
    ensures Writes(s).value.db.books.log == s.db.books.log
  {
    hide TablesOk, EngineOk, DueOk, TasksOk, EventsOk, Grows, OnlyPayments;
    HeadFailed(s);
    var id := s.engine.batch[0].id;
    RequeueKeeps(s.db, id);
    var db := UpdatePaymentStatus(s.db, id, Option.Some(Failed), AwaitingTransfer).value;
    WriteKeeps(s, db, Clearing);
  }

  lemma EngineAnnounces(s: State)
    requires Inv(s) && s.engine.pc.Announcing?
    ensures Inv(Announced(s)) && Grows(s.db, Announced(s).db)
  {
    hide TablesOk, EngineOk, DueOk, TasksOk, EventsOk, EventsMove, Grows, OnlyPayments, OtherRunsKept;
    var to := Announced(s);
    AnnouncedPc(s, to);
    EnqueueKeeps(s.db, s.engine.pc.event);
    RunsKept(s.db, to.db, {});
    AnnounceMoves(s);
    EngineMovesKeeps(s, to, Option.Some(InEngine));
  }

  lemma AnnounceMoves(s: State)
    requires s.engine.pc.Announcing?
    ensures EventsMove(s, Announced(s), None, Option.Some(InEngine))
  {
    hide Earned;
    assert Holds(s, InEngine, s.engine.pc.event);
  }

  lemma AnnouncedPc(s: State, to: State)
    requires EngineOk(s) && DueOk(s) && s.engine.pc.Announcing?
    requires to.engine == s.engine.(pc := AfterAnnouncing(s.engine.pc)) && to.now == s.now
    requires to.db.payments == s.db.payments && to.db.books == s.db.books
    ensures EngineOk(to) && DueOk(to)
  {
    assert EngineOk(to) by { hide DueOk; }
    assert DueOk(to) by { hide EngineOk; }
    hide EngineOk, DueOk;
  }

  lemma TickedBatch(s: State, ids: seq<PaymentId>)
    requires EngineOk(s) && DueOk(s) && EngineNext(s, Tick(ids)).Some?
    ensures EngineOk(EngineNext(s, Tick(ids)).value) && DueOk(EngineNext(s, Tick(ids)).value)
  {
    var to := EngineNext(s, Tick(ids)).value;
    assert EngineOk(to) by { hide DueOk; }
    assert DueOk(to);
    hide EngineOk, DueOk;
  }

  lemma VisitedBatch(s: State, delay: int)
    requires EngineOk(s) && DueOk(s) && EngineNext(s, Visit(delay)).Some?
    ensures EngineOk(EngineNext(s, Visit(delay)).value) && DueOk(EngineNext(s, Visit(delay)).value)
  {
    var to := EngineNext(s, Visit(delay)).value;
    assert EngineOk(to) by { hide DueOk; }
    assert DueOk(to);
    hide EngineOk, DueOk;
  }

  lemma CheckedBatch(s: State)
    requires EngineOk(s) && DueOk(s) && EngineNext(s, CheckDate).Some?
    ensures EngineOk(EngineNext(s, CheckDate).value) && DueOk(EngineNext(s, CheckDate).value)
  {
    var to := EngineNext(s, CheckDate).value;
    assert EngineOk(to) by { hide DueOk; }
    assert DueOk(to);
    hide EngineOk, DueOk;
  }

  lemma CalledBatch(s: State, reply: Reply)
    requires EngineOk(s) && DueOk(s) && EngineNext(s, CallRail(reply)).Some?
    ensures EngineOk(EngineNext(s, CallRail(reply)).value) && DueOk(EngineNext(s, CallRail(reply)).value)
  {
    var to := EngineNext(s, CallRail(reply)).value;
    assert EngineOk(to) by { hide DueOk; }
    CalledTimes(s, to);
    hide EngineOk, DueOk;
  }

  lemma CalledTimes(s: State, to: State)
    requires DueOk(s) && s.engine.pc == Calling && s.engine.batch != []
    requires forall i, j | 0 <= i < j < |s.engine.batch| :: s.engine.batch[i].id != s.engine.batch[j].id
    requires to.engine == s.engine.(pc := to.engine.pc, lastRail := s.engine.lastRail[s.engine.batch[0].id := s.now])
    requires to.engine.pc in {Posting, Declining, Clearing} && to.db == s.db && to.now == s.now
    ensures DueOk(to)
  {
  }

  lemma ClearedBatch(s: State)
    requires EngineOk(s) && DueOk(s) && EngineNext(s, Clear).Some?
    ensures EngineOk(EngineNext(s, Clear).value) && DueOk(EngineNext(s, Clear).value)
  {
    var to := EngineNext(s, Clear).value;
    assert EngineOk(to) by { hide DueOk; }
    assert DueOk(to);
    hide EngineOk, DueOk;
  }

  lemma FaultedBatch(s: State)
    requires EngineOk(s) && DueOk(s) && EngineNext(s, WriteFails).Some?
    ensures EngineOk(EngineNext(s, WriteFails).value) && DueOk(EngineNext(s, WriteFails).value)
  {
    var to := EngineNext(s, WriteFails).value;
    assert EngineOk(to) by { hide DueOk; }
    assert DueOk(to);
    hide EngineOk, DueOk;
  }

  lemma EngineNextKeeps(s: State, step: EngineStep)
    requires Inv(s) && EngineNext(s, step).Some?
    ensures Inv(EngineNext(s, step).value) && Grows(s.db, EngineNext(s, step).value.db)
  {
    hide TablesOk, EngineOk, DueOk, TasksOk, EventsOk, Grows, Writes, Visits, Oldest;
    var to := EngineNext(s, step).value;
    SelfRely(s.db);
    match step
    case Tick(ids) => TickedBatch(s, ids); EngineLocalKeeps(s, to);
    case Visit(delay) => VisitedBatch(s, delay); VisitIsLocal(s, delay); EngineLocalKeeps(s, to);
    case Write => EngineWrites(s);
    case Announce => EngineAnnounces(s);
    case AnnounceFails => AnnouncedPc(s, to); EngineLocalKeeps(s, to);
    case CheckDate => CheckedBatch(s); EngineLocalKeeps(s, to);
    case CallRail(reply) => CalledBatch(s, reply); EngineLocalKeeps(s, to);
    case Clear => ClearedBatch(s); EngineLocalKeeps(s, to);
    case WriteFails => FaultedBatch(s); EngineLocalKeeps(s, to);
  }

  lemma VisitIsLocal(s: State, delay: int)
    requires s.engine.batch != [] && s.engine.pc == Ready
    ensures Visits(s, delay) == s.(engine := Visits(s, delay).engine) && !Visits(s, delay).engine.pc.Announcing?
  {
  }

  lemma EngineWrites(s: State)
    requires Inv(s) && s.engine.batch != [] && Writes(s).Some?
    ensures Inv(Writes(s).value) && Grows(s.db, Writes(s).value.db)
    ensures OnlyPayments(s.db, Writes(s).value.db, {s.engine.batch[0].id})
    ensures s.engine.pc != Posting ==> Writes(s).value.db.books.log == s.db.books.log
  {
    hide Inv, Grows, OnlyPayments;
    match s.engine.pc
    case Expiring => EngineExpires(s);
    case Posting => EnginePosts(s);
    case Marking => EngineMarks(s);
    case Declining => EngineDeclines(s);
    case Requeueing => EngineRequeues(s);
  }
}

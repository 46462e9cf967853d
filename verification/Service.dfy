/** The program's loops and handlers as imperative code. Between any two of their statements the other
    goroutines may do anything that the transition system allows them, and any write may fail. Each method
    is proved to be a run of the transition system, so every guarantee about runs is one about this code. */
module PaymentService {
  import opened Types
  import opened Ledger
  import opened Database
  import opened Machine
  import opened Guarantees
  import opened Histories
  import opened PaymentStore
  import opened Reports
  import opened ReferenceText

  /** Appending one action to a run. */
  lemma ExecThen(s: State, acts: seq<Action>, a: Action)
    requires Exec(s, acts).Some?
    ensures Exec(s, acts + [a]) == Next(Exec(s, acts).value, a)
  {
    ExecJoins(s, acts, [a]);
    assert [a][1..] == [];
  }

  const DAY: int := 86400

  /** The local day of a moment; `offset` is the time zone's distance east of UTC. Days count from the epoch. */
  function LocalDay(now: int, offset: int): int {
    (now + offset) / DAY
  }

  /** The due date is read as a midnight in UTC and compared with the last local midnight. */
  predicate RefusesDueDay(dueDay: int, now: int, offset: int) {
    dueDay * DAY < LocalDay(now, offset) * DAY - offset
  }

  /** The last second of a local day. */
  function EndOfDay(day: int, offset: int): int {
    day * DAY + DAY - 1 - offset
  }

  /** East of UTC, and in it, the form accepts every due date from today on; west of it, only from tomorrow
      on. What it accepts is never overdue already. */
  lemma TodayIsAcceptedUnlessWest(dueDay: int, now: int, offset: int)
    requires -DAY < offset < DAY
    ensures !RefusesDueDay(dueDay, now, offset)
            <==> dueDay >= LocalDay(now, offset) + (if offset < 0 then 1 else 0)
    ensures LocalDay(now, offset) * 86400 <= now + offset < (LocalDay(now, offset) + 1) * 86400
    ensures EndOfDay(dueDay, offset) + offset == (dueDay + 1) * 86400 - 1
    ensures !RefusesDueDay(dueDay, now, offset) ==> EndOfDay(dueDay, offset) >= now
  {
    var today := LocalDay(now, offset);
    assert today * DAY <= now + offset < today * DAY + DAY;
  }

  // ----- what one side of the program did in a stretch of a run -----

  datatype Side = EngineSide | TaskSide(t: nat)

  predicate By(a: Action, side: Side) {
    match side
    case EngineSide => a.EngineDoes?
    case TaskSide(t) => a.TaskDoes? && a.t == t
  }

  predicate Faulty(a: Action) {
    match a
    case EngineDoes(move) => move in {WriteFails, AnnounceFails}
    case TaskDoes(_, step) => step in {ReadBalanceFails, PostRunFails, EmitFails, Drop}
    case _ => false
  }

  /** No crash, and a faulty step of this side only if a fault was counted. */
  function Fits(side: Side): (Action, bool) -> bool {
    (a: Action, clean: bool) => a != Crash && (clean && By(a, side) ==> !Faulty(a))
  }

  ghost predicate Went(h: History<Action>, k: History<Action>, side: Side) {
    Continues(h, k, Fits(side))
  }

  lemma WentOn(h: History<Action>, k: History<Action>, l: History<Action>, side: Side)
    requires Went(h, k, side) && Went(k, l, side)
    ensures Went(h, l, side) && h.faults <= k.faults <= l.faults && h.run <= k.run <= l.run
  {
    ContinuesOn(h, k, l, Fits(side));
  }

  lemma WentForward(h: History<Action>, k: History<Action>, side: Side)
    requires Went(h, k, side)
    ensures h.run <= k.run
  {
  }

  lemma StaysPut(h: History<Action>, side: Side)
    ensures Went(h, h, side)
  {
  }

  /** The tables stood like this at some moment between h and k. */
  ghost predicate Moment(origin: State, h: History<Action>, k: History<Action>, db: Db) {
    exists n :: |h.run| <= n <= |k.run| && AtMoment(origin, k.run, n, db)
  }

  ghost predicate AtMoment(origin: State, run: seq<Action>, n: nat, db: Db)
    requires n <= |run|
  {
    Exec(origin, run[..n]).Some? && Exec(origin, run[..n]).value.db == db
  }

  lemma MomentOn(origin: State, h: History<Action>, k: History<Action>, l: History<Action>, db: Db)
    requires Moment(origin, h, k, db) && k.run <= l.run
    ensures Moment(origin, h, l, db)
  {
    var n :| |h.run| <= n <= |k.run| && AtMoment(origin, k.run, n, db);
    assert l.run[..n] == k.run[..n];
    assert AtMoment(origin, l.run, n, db);
  }

  /** The row of a payment, if there is one. */
  function RowOf(db: Db, id: PaymentId): Option<Payment> {
    if id in db.payments then Option.Some(db.payments[id]) else None
  }

  class Service {
    const store: Store
    var dueAt: map<PaymentId, int>
    var now: int

    // where the goroutines stand
    ghost var batch: seq<Snap>
    ghost var tickNow: int
    ghost var pc: Pc
    ghost var lastRail: map<PaymentId, int>
    ghost var tasks: map<nat, Task>

    // the run so far, where it began, and the faults that struck this code
    ghost var origin: State
    ghost var run: seq<Action>
    ghost var faults: nat

    constructor (now: int)
      ensures Valid() && S() == Start(now) && origin == Start(now) && fresh(store)
    {
      store := new Store();
      dueAt, this.now := map[], now;
      batch, tickNow, pc, lastRail, tasks := [], now, Ready, map[], map[];
      origin, run, faults := Start(now), [], 0;
    }

    ghost function S(): State
      reads this, store
    {
      State(store.View(), Engine(batch, tickNow, dueAt, pc, lastRail), tasks, now)
    }

    ghost function H(): History<Action>
      reads `run, `faults
    {
      History(run, faults)
    }

    /** The object stands at the end of its run. */
    ghost predicate Valid()
      reads this, store
    {
      Exec(origin, run) == Option.Some(S())
    }

    /** Records that the step from `before` to the present state was the action a of this side. */
    ghost method Did(before: State, a: Action, h: History<Action>, side: Side)
      requires Exec(origin, run) == Option.Some(before) && Next(before, a) == Option.Some(S())
      requires Went(h, H(), side) && a != Crash && (Faulty(a) ==> faults > h.faults)
      modifies `run
      ensures Valid() && Went(h, H(), side) && Took(h, H(), a) && run == old(run) + [a]
    {
      ExecThen(origin, run, a);
      run := run + [a];
      assert run[|run| - 1] == a;
    }

    /** Counts a fault. */
    ghost method Struck(h: History<Action>, side: Side)
      requires Went(h, H(), side)
      modifies `faults
      ensures faults > old(faults) && faults > h.faults && Went(h, H(), side)
    {
      faults := faults + 1;
    }

    /** The present moment is one of the run. */
    lemma Now(h: History<Action>)
      requires Valid() && h.run <= run
      ensures Moment(origin, h, H(), store.View())
    {
      assert run[..|run|] == run;
      assert AtMoment(origin, H().run, |run|, store.View());
    }

    // ----- interference -----

    /** Whatever the other goroutines do while the engine is between two statements. */
    method OthersBesideEngine()
      requires Valid()
      modifies this, store
      ensures Valid() && origin == old(origin) && Went(old(H()), H(), EngineSide) && faults == old(faults)
      ensures forall i | |old(run)| <= i < |run| :: !run[i].EngineDoes?
      ensures batch == old(batch) && tickNow == old(tickNow) && pc == old(pc)
      ensures dueAt == old(dueAt) && lastRail == old(lastRail) && now >= old(now)
    {
    }

    /** Whatever the engine and the other goroutines do while task t is between two statements. */
    method OthersBeside(ghost t: nat)
      requires Valid()
      modifies this, store
      ensures Valid() && origin == old(origin) && Went(old(H()), H(), TaskSide(t)) && faults == old(faults)
      ensures forall i | |old(run)| <= i < |run| :: !By(run[i], TaskSide(t))
      ensures now >= old(now)
      ensures t in tasks <==> t in old(tasks)
      ensures t in tasks ==> tasks[t] == old(tasks[t])
    {
    }

    // ----- the transfer engine -----

    method GetOrCreateDue(id: PaymentId, tick: int) returns (due: int, ghost delay: int)
      modifies `dueAt
      ensures 30 <= delay <= 120
      ensures due == (if id in old(dueAt) then old(dueAt)[id] else tick + delay)
      ensures dueAt == old(dueAt)[id := due]
    {
      var wait: int :| 30 <= wait <= 120;
      delay := wait;
      if id in dueAt {
        due := dueAt[id];
      } else {
        due := tick + wait;
        dueAt := dueAt[id := due];
      }
      assert id in dueAt && dueAt[id] == due;
      assert dueAt == old(dueAt)[id := due];
    }

    /** One tick of the engine: from one idle state to the next, by way of one query. When the query fails,
        the tick does nothing. */
    method ProcessAwaiting()
      requires Valid() && pc == Ready && batch == []
      modifies this, store
      ensures Valid() && pc == Ready && batch == []
      ensures origin == old(origin) && Went(old(H()), H(), EngineSide)
      ensures faults == old(faults) ==> exists ids :: Took(old(H()), H(), EngineDoes(Tick(ids)))
    {
      hide Went, Took, Exec;
      ghost var start := H();
      var found, payments, tick, ids := QueryBatch();
      if !found {
        return;
      }
      var i := 0;
      while i < |payments|
        invariant 0 <= i <= |payments| && batch == payments[i..]
        invariant Valid() && pc == Ready && tickNow == tick
        invariant origin == old(origin) && Went(start, H(), EngineSide)
        invariant Took(start, H(), EngineDoes(Tick(ids)))
      {
        ghost var h := H();
        var isDue := VisitNext(payments[i], tick);
        WentOn(start, h, H(), EngineSide);
        TookOn(start, h, H(), EngineDoes(Tick(ids)));
        if isDue {
          h := H();
          ProcessOne(payments[i]);
          WentOn(start, h, H(), EngineSide);
          TookOn(start, h, H(), EngineDoes(Tick(ids)));
          h := H();
          ClearDue(payments[i].id);
          WentOn(start, h, H(), EngineSide);
          TookOn(start, h, H(), EngineDoes(Tick(ids)));
        }
        i := i + 1;
      }
    }

    method QueryBatch() returns (found: bool, payments: seq<Snap>, tick: int, ghost ids: seq<PaymentId>)
      requires Valid() && pc == Ready && batch == []
      modifies this, store
      ensures Valid() && pc == Ready && origin == old(origin) && Went(old(H()), H(), EngineSide)
      ensures if found then batch == payments && tickNow == tick && Took(old(H()), H(), EngineDoes(Tick(ids)))
              else batch == [] && faults > old(faults)
    {
      hide Went, Took, Exec;
      OthersBesideEngine();
      var fails: bool := *;
      if fails {
        Struck(old(H()), EngineSide);
        return false, [], now, [];
      }
      ghost var before := S();
      found := true;
      payments := store.GetAwaitingTransfers(200);
      ids := Ids(payments);
      assert payments == SnapAll(store.View(), ids);
      tick := now;
      batch, tickNow := payments, tick;
      Did(before, EngineDoes(Tick(ids)), old(H()), EngineSide);
    }

    method VisitNext(p: Snap, tick: int) returns (isDue: bool)
      requires Valid() && pc == Ready && batch != [] && batch[0] == p && tickNow == tick
      modifies this, store
      ensures Valid() && tickNow == tick && origin == old(origin) && Went(old(H()), H(), EngineSide)
      ensures if isDue then pc == Started && batch == old(batch) else pc == Ready && batch == old(batch)[1..]
    {
      hide Went, Took, Exec;
      OthersBesideEngine();
      ghost var before := S();
      var due, delay := GetOrCreateDue(p.id, tick);
      isDue := tick >= due;
      if isDue {
        pc := Started;
      } else {
        batch := batch[1..];
      }
      Did(before, EngineDoes(Visit(delay)), old(H()), EngineSide);
    }

    method ClearDue(id: PaymentId)
      requires Valid() && pc == Clearing && batch != [] && batch[0].id == id
      modifies this, store
      ensures Valid() && pc == Ready && batch == old(batch)[1..] && tickNow == old(tickNow)
      ensures origin == old(origin) && Went(old(H()), H(), EngineSide)
    {
      hide Went, Took, Exec;
      OthersBesideEngine();
      ghost var before := S();
      dueAt := dueAt - {id};
      pc, batch := Ready, batch[1..];
      Did(before, EngineDoes(Clear), old(H()), EngineSide);
    }

    /** One payment of the batch: expire it, or call the rail and act on its reply. */
    method ProcessOne(p: Snap)
      requires Valid() && pc == Started && batch != [] && batch[0] == p
      modifies this, store
      ensures Valid() && pc == Clearing && batch == old(batch) && tickNow == old(tickNow)
      ensures origin == old(origin) && Went(old(H()), H(), EngineSide)
    {
      hide Went, Took, Exec;
      ghost var start := H();
      var overdue := DatePassed(p);
      ghost var h := H();
      if overdue {
        ExpireOne(p);
        WentOn(start, h, H(), EngineSide);
        return;
      }
      var reply := CallTheRail(p);
      WentOn(start, h, H(), EngineSide);
      h := H();
      match reply {
        case Approved =>
          SettleOne(p);
          WentOn(start, h, H(), EngineSide);
        case Declined =>
          DeclineOne(p);
          WentOn(start, h, H(), EngineSide);
        case RailError =>
      }
    }

    method DatePassed(p: Snap) returns (overdue: bool)
      requires Valid() && pc == Started && batch != [] && batch[0] == p
      modifies this, store
      ensures Valid() && pc == (if overdue then Expiring else Calling)
      ensures batch == old(batch) && tickNow == old(tickNow)
      ensures origin == old(origin) && Went(old(H()), H(), EngineSide)
      ensures overdue <==> now > p.row.due
    {
      hide Went, Took, Exec;
      OthersBesideEngine();
      ghost var before := S();
      overdue := now > p.row.due;
      pc := if overdue then Expiring else Calling;
      Did(before, EngineDoes(CheckDate), old(H()), EngineSide);
    }

    method CallTheRail(p: Snap) returns (reply: Reply)
      requires Valid() && pc == Calling && batch != [] && batch[0] == p
      modifies this, store
      ensures Valid()
      ensures pc == match reply case Approved => Posting case Declined => Declining case RailError => Clearing
      ensures batch == old(batch) && tickNow == old(tickNow)
      ensures origin == old(origin) && Went(old(H()), H(), EngineSide)
      ensures Took(old(H()), H(), EngineDoes(CallRail(reply)))
    {
      hide Went, Took, Exec;
      OthersBesideEngine();
      ghost var before := S();
      reply := *;
      lastRail := lastRail[p.id := now];
      pc := match reply
        case Approved => Posting
        case Declined => Declining
        case RailError => Clearing;
      Did(before, EngineDoes(CallRail(reply)), old(H()), EngineSide);
    }

    method ExpireOne(p: Snap)
      requires Valid() && pc == Expiring && batch != [] && batch[0] == p
      modifies this, store
      ensures Valid() && pc == Clearing && batch == old(batch) && tickNow == old(tickNow)
      ensures origin == old(origin) && Went(old(H()), H(), EngineSide)
    {
      hide Went, Took, Exec;
      ghost var start := H();
      var expired := WriteExpiry(p);
      if expired {
        ghost var h := H();
        Enqueue(PaymentExpired(p.id));
        WentOn(start, h, H(), EngineSide);
      }
    }

    method WriteExpiry(p: Snap) returns (expired: bool)
      requires Valid() && pc == Expiring && batch != [] && batch[0] == p
      modifies this, store
      ensures Valid() && pc == (if expired then Announcing(PaymentExpired(p.id), false) else Clearing)
      ensures batch == old(batch) && tickNow == old(tickNow)
      ensures origin == old(origin) && Went(old(H()), H(), EngineSide)
    {
      hide Went, Took, Exec, TaskNext;
      OthersBesideEngine();
      ghost var before := S();
      var fault: Fault := *;
      var err := store.ExpireAwaitingTransfer(p.id, p.row.amount, fault);
      if err.Some? && err == FaultError(fault) {
        LeaveForLater(before, old(H()));
        return false;
      }
      expired := err == None;
      pc := if expired then Announcing(PaymentExpired(p.id), false) else Clearing;
      Did(before, EngineDoes(Write), old(H()), EngineSide);
    }

    /** The rail approved: post, then mark; a posting that is already there counts as posted. */
    method SettleOne(p: Snap)
      requires Valid() && pc == Posting && batch != [] && batch[0] == p
      modifies this, store
      ensures Valid() && pc == Clearing && batch == old(batch) && tickNow == old(tickNow)
      ensures origin == old(origin) && Went(old(H()), H(), EngineSide)
    {
      hide Went, Took, Exec;
      ghost var start := H();
      var posted := PostTransfer(p);
      if !posted {
        return;
      }
      ghost var h := H();
      var changed := MarkSettled(p);
      WentOn(start, h, H(), EngineSide);
      if changed {
        h := H();
        Enqueue(PaymentSettled(p.id));
        WentOn(start, h, H(), EngineSide);
      }
    }

    method PostTransfer(p: Snap) returns (posted: bool)
      requires Valid() && pc == Posting && batch != [] && batch[0] == p
      modifies this, store
      ensures Valid() && pc == (if posted then Marking else Clearing)
      ensures batch == old(batch) && tickNow == old(tickNow)
      ensures origin == old(origin) && Went(old(H()), H(), EngineSide)
    {
      hide Went, Took, Exec, TaskNext;
      OthersBesideEngine();
      ghost var before := S();
      var fault: Fault := *;
      var err := store.ClearPendingEscrowToOperating(p.id, p.row.amount, fault);
      if err.Some? && err == FaultError(fault) {
        LeaveForLater(before, old(H()));
        return false;
      }
      posted := err == None || err == Option.Some(UniqueViolation);
      pc := if posted then Marking else Clearing;
      Did(before, EngineDoes(Write), old(H()), EngineSide);
    }

    method MarkSettled(p: Snap) returns (changed: bool)
      requires Valid() && pc == Marking && batch != [] && batch[0] == p
      modifies this, store
      ensures Valid() && pc == (if changed then Announcing(PaymentSettled(p.id), false) else Clearing)
      ensures batch == old(batch) && tickNow == old(tickNow)
      ensures origin == old(origin) && Went(old(H()), H(), EngineSide)
    {
      hide Went, Took, Exec, TaskNext;
      OthersBesideEngine();
      ghost var before := S();
      var fault: Fault := *;
      var err;
      changed, err := store.MarkPaymentSettledIdempotent(p.id, fault);
      if err.Some? {
        LeaveForLater(before, old(H()));
        return;
      }
      pc := if changed then Announcing(PaymentSettled(p.id), false) else Clearing;
      Did(before, EngineDoes(Write), old(H()), EngineSide);
    }

    /** The rail declined: count the retry, announce it, and requeue the payment while retries are left. */
    method DeclineOne(p: Snap)
      requires Valid() && pc == Declining && batch != [] && batch[0] == p
      modifies this, store
      ensures Valid() && pc == Clearing && batch == old(batch) && tickNow == old(tickNow)
      ensures origin == old(origin) && Went(old(H()), H(), EngineSide)
    {
      hide Went, Took, Exec;
      ghost var start := H();
      var newRetry := p.row.retry + 1;
      var counted := CountRetry(p, newRetry);
      if !counted {
        return;
      }
      ghost var h := H();
      Enqueue(PaymentFailed(p.id, newRetry));
      WentOn(start, h, H(), EngineSide);
      if newRetry < 3 {
        h := H();
        Requeue(p);
        WentOn(start, h, H(), EngineSide);
      }
    }

    method CountRetry(p: Snap, newRetry: nat) returns (counted: bool)
      requires Valid() && pc == Declining && batch != [] && batch[0] == p && newRetry == p.row.retry + 1
      modifies this, store
      ensures Valid()
      ensures pc == if counted then Announcing(PaymentFailed(p.id, newRetry), newRetry < 3) else Clearing
      ensures batch == old(batch) && tickNow == old(tickNow)
      ensures origin == old(origin) && Went(old(H()), H(), EngineSide)
    {
      hide Went, Took, Exec, TaskNext;
      OthersBesideEngine();
      ghost var before := S();
      var fault: Fault := *;
      var err := store.IncrementRetryAndSetStatus(p.id, Failed, fault);
      if err.Some? && err == FaultError(fault) {
        LeaveForLater(before, old(H()));
        return false;
      }
      counted := err == None;
      pc := if counted then Announcing(PaymentFailed(p.id, newRetry), newRetry < 3) else Clearing;
      Did(before, EngineDoes(Write), old(H()), EngineSide);
    }

    method Requeue(p: Snap)
      requires Valid() && pc == Requeueing && batch != [] && batch[0] == p
      modifies this, store
      ensures Valid() && pc == Clearing && batch == old(batch) && tickNow == old(tickNow)
      ensures origin == old(origin) && Went(old(H()), H(), EngineSide)
    {
      hide Went, Took, Exec, TaskNext;
      OthersBesideEngine();
      ghost var before := S();
      var fault: Fault := *;
      var err := store.UpdatePaymentStatus(p.id, Option.Some(Failed), AwaitingTransfer, fault);
      if err.Some? && err == FaultError(fault) {
        LeaveForLater(before, old(H()));
        return;
      }
      pc := Clearing;
      Did(before, EngineDoes(Write), old(H()), EngineSide);
    }

    /** A write of the engine has failed and been rolled back: its payment is left for a later tick. */
    ghost method LeaveForLater(before: State, h: History<Action>)
      requires Exec(origin, run) == Option.Some(before) && S() == before
      requires pc in {Expiring, Posting, Marking, Declining, Requeueing} && Went(h, H(), EngineSide)
      modifies `pc, `run, `faults
      ensures Valid() && pc == Clearing && Went(h, H(), EngineSide) && faults > old(faults)
    {
      hide Went, Took, Exec;
      pc := Clearing;
      Struck(h, EngineSide);
      Did(before, EngineDoes(WriteFails), h, EngineSide);
    }

    method Enqueue(e: Event)
      requires Valid() && pc.Announcing? && pc.event == e
      modifies this, store
      ensures Valid() && pc == AfterAnnouncing(old(pc)) && batch == old(batch) && tickNow == old(tickNow)
      ensures origin == old(origin) && Went(old(H()), H(), EngineSide)
    {
      hide Went, Took, Exec, TaskNext;
      OthersBesideEngine();
      ghost var before := S();
      var fault: Fault := *;
      var err := store.EnqueueWebhook(e, fault);
      if err.Some? {
        Struck(old(H()), EngineSide);
      }
      pc := AfterAnnouncing(pc);
      Did(before, EngineDoes(if err.Some? then AnnounceFails else Announce), old(H()), EngineSide);
    }

    // ----- request handlers, the sweep and settlement runs, each as task t -----

    /** A write has failed and been rolled back: the goroutine gives up. */
    ghost method GiveUp(t: nat, before: State, h: History<Action>)
      requires Exec(origin, run) == Option.Some(before) && S() == before
      requires t in tasks && Went(h, H(), TaskSide(t))
      modifies `tasks, `run, `faults
      ensures Valid() && t !in tasks && Went(h, H(), TaskSide(t)) && faults > old(faults)
    {
      hide Went, Took, Exec;
      tasks := tasks - {t};
      Struck(h, TaskSide(t));
      Did(before, TaskDoes(t, Drop), h, TaskSide(t));
    }

    /** Enqueues the events that a transition has earned, and ends; a failed write loses its event. */
    method EnqueueAll(ghost t: nat, todo: seq<Event>)
      requires Valid() && t in tasks && tasks[t] == Emitting(todo, 0)
      modifies this, store
      ensures Valid() && t !in tasks && origin == old(origin) && Went(old(H()), H(), TaskSide(t))
      ensures Took(old(H()), H(), TaskDoes(t, Finish))
    {
      hide Went, Took, Exec;
      ghost var start := H();
      var i := 0;
      StaysPut(start, TaskSide(t));
      while i < |todo|
        invariant 0 <= i <= |todo| && Valid() && t in tasks && tasks[t] == Emitting(todo, i)
        invariant origin == old(origin) && Went(start, H(), TaskSide(t))
      {
        ghost var h := H();
        EnqueueNext(t, todo, i);
        WentOn(start, h, H(), TaskSide(t));
        i := i + 1;
      }
      ghost var h := H();
      EndEmitting(t, todo);
      WentOn(start, h, H(), TaskSide(t));
      TookOn(start, h, H(), TaskDoes(t, Finish));
    }

    method EndEmitting(ghost t: nat, ghost todo: seq<Event>)
      requires Valid() && t in tasks && tasks[t] == Emitting(todo, |todo|)
      modifies this, store
      ensures Valid() && t !in tasks && origin == old(origin) && Went(old(H()), H(), TaskSide(t))
      ensures Took(old(H()), H(), TaskDoes(t, Finish))
    {
      hide Went, Took, Exec;
      OthersBeside(t);
      ghost var before := S();
      tasks := tasks - {t};
      Did(before, TaskDoes(t, Finish), old(H()), TaskSide(t));
    }

    method EnqueueNext(ghost t: nat, todo: seq<Event>, i: nat)
      requires Valid() && t in tasks && i < |todo| && tasks[t] == Emitting(todo, i)
      modifies this, store
      ensures Valid() && t in tasks && tasks[t] == Emitting(todo, i + 1)
      ensures origin == old(origin) && Went(old(H()), H(), TaskSide(t))
    {
      hide Went, Took, Exec, EngineNext, Opens, Database.Enqueue, RunClosed, Decides;
      OthersBeside(t);
      ghost var before := S();
      var fault: Fault := *;
      var err := store.EnqueueWebhook(todo[i], fault);
      if err.Some? {
        Struck(old(H()), TaskSide(t));
      }
      tasks := tasks[t := Emitting(todo, i + 1)];
      Did(before, TaskDoes(t, if err.Some? then EmitFails else Emit), old(H()), TaskSide(t));
    }

    /** The administrator's form: a non-positive amount or a past due date never reaches the store. `today` is
        the text of the present day in UTC. A payment falls due with the last second of its due day. */
    method CreatePaymentRequest(
      ghost t: nat, id: PaymentId, amount: int, dueDay: int, offset: int, today: Day)
      requires Valid() && t !in tasks && -DAY < offset < DAY
      modifies this, store
      ensures Valid() && t !in tasks && origin == old(origin) && Went(old(H()), H(), TaskSide(t))
      ensures amount <= 0 || RefusesDueDay(dueDay, old(now), offset) ==> S() == old(S())
      ensures amount > 0 && !RefusesDueDay(dueDay, old(now), offset) && faults == old(faults) ==>
                && Took(old(H()), H(), TaskDoes(t, Generate(id, amount, EndOfDay(dueDay, offset), today)))
                && Took(old(H()), H(), TaskDoes(t, CreateWrite))
    {
      hide Went, Took, Exec;
      ghost var start := H();
      if amount <= 0 || dueDay * DAY < LocalDay(now, offset) * DAY - offset {
        StaysPut(start, TaskSide(t));
        return;
      }
      var due := EndOfDay(dueDay, offset);
      var reference := GenerateReference(t, id, amount, due, today);
      if reference == None {
        return;
      }
      ghost var generated := TaskDoes(t, Generate(id, amount, due, today));
      ghost var h := H();
      var created := WriteNewPayment(t, id, reference.value, amount, due);
      WentOn(start, h, H(), TaskSide(t));
      TookOn(start, h, H(), generated);
      TookOn(start, h, H(), TaskDoes(t, CreateWrite));
      if created {
        h := H();
        EnqueueAll(t, [PaymentCreated(id)]);
        WentOn(start, h, H(), TaskSide(t));
        TookOn(start, h, H(), generated);
        TookOn(start, h, H(), TaskDoes(t, CreateWrite));
      }
    }

    method GenerateReference(ghost t: nat, id: PaymentId, amount: int, due: int, today: Day)
      returns (reference: Option<string>)
      requires Valid() && t !in tasks
      modifies this, store
      ensures Valid() && origin == old(origin) && Went(old(H()), H(), TaskSide(t))
      ensures match reference
              case None => t !in tasks && faults > old(faults)
              case Some(r) =>
                && t in tasks && tasks[t] == Creating(id, r, amount, due)
                && Took(old(H()), H(), TaskDoes(t, Generate(id, amount, due, today)))
    {
      hide Went, Took, Exec, EngineNext, NextReference;
      OthersBeside(t);
      var fails: bool := *;
      if fails {
        Struck(old(H()), TaskSide(t));
        return None;
      }
      ghost var before := S();
      var r := store.GeneratePaymentReference(today);
      tasks := tasks[t := Creating(id, r, amount, due)];
      Did(before, TaskDoes(t, Generate(id, amount, due, today)), old(H()), TaskSide(t));
      return Option.Some(r);
    }

    method WriteNewPayment(ghost t: nat, id: PaymentId, reference: string, amount: int, due: int)
      returns (created: bool)
      requires Valid() && t in tasks && tasks[t] == Creating(id, reference, amount, due)
      modifies this, store
      ensures Valid() && origin == old(origin) && Went(old(H()), H(), TaskSide(t))
      ensures faults == old(faults) ==> Took(old(H()), H(), TaskDoes(t, CreateWrite))
      ensures if created then t in tasks && tasks[t] == Emitting([PaymentCreated(id)], 0) else t !in tasks
    {
      hide Went, Took, Exec, EngineNext, Database.CreatePayment;
      OthersBeside(t);
      ghost var before := S();
      var fault: Fault := *;
      var err := store.CreatePayment(id, reference, None, amount, due, fault);
      if err.Some? && err == FaultError(fault) {
        GiveUp(t, before, old(H()));
        return false;
      }
      created := err == None;
      tasks := if created then tasks[t := Emitting([PaymentCreated(id)], 0)] else tasks - {t};
      Did(before, TaskDoes(t, CreateWrite), old(H()), TaskSide(t));
    }

    /** A pay page (confirms is false) or a confirmation, with the outcome of its form checks: it reads the
        row, decides on what it read, and writes what it decided. */
    method PayerRequest(ghost t: nat, id: PaymentId, confirms: bool, goesThrough: bool)
      returns (row: Option<Payment>, overdue: bool, ghost seen: Db)
      requires Valid() && t !in tasks
      modifies this, store
      ensures Valid() && t !in tasks && origin == old(origin) && Went(old(H()), H(), TaskSide(t))
      ensures faults == old(faults) ==>
                && Moment(origin, old(H()), H(), seen) && row == RowOf(seen, id)
                && Took(old(H()), H(), TaskDoes(t, OpenPay(id, confirms)))
                && (row.Some? ==> Took(old(H()), H(), TaskDoes(t, Decide(goesThrough))))
                && (row.Some? && row.value.status == Pending && (overdue || (confirms && goesThrough)) ==>
                      Took(old(H()), H(), TaskDoes(t, PayerWrite)))
    {
      hide Went, Took, Exec, Moment;
      ghost var start := H();
      row := ReadForPayer(t, id, confirms);
      seen, overdue := store.View(), false;
      if row == None {
        return;
      }
      ghost var h := H();
      overdue := DecideForPayer(t, id, row.value, confirms, goesThrough);
      WentOn(start, h, H(), TaskSide(t));
      TookOn(start, h, H(), TaskDoes(t, OpenPay(id, confirms)));
      TookOn(start, h, H(), TaskDoes(t, Decide(goesThrough)));
      MomentOn(origin, start, h, H(), seen);
      h := H();
      if row.value.status == Pending && (overdue || (confirms && goesThrough)) {
        WriteForPayer(t, id, overdue);
        WentOn(start, h, H(), TaskSide(t));
        TookOn(start, h, H(), TaskDoes(t, OpenPay(id, confirms)));
        TookOn(start, h, H(), TaskDoes(t, Decide(goesThrough)));
        TookOn(start, h, H(), TaskDoes(t, PayerWrite));
        MomentOn(origin, start, h, H(), seen);
      }
    }

    method ReadForPayer(ghost t: nat, id: PaymentId, confirms: bool) returns (row: Option<Payment>)
      requires Valid() && t !in tasks
      modifies this, store
      ensures Valid() && origin == old(origin) && Went(old(H()), H(), TaskSide(t))
      ensures faults == old(faults) || row.Some? ==> Took(old(H()), H(), TaskDoes(t, OpenPay(id, confirms)))
      ensures row == None ==> t !in tasks
      ensures row.Some? ==> t in tasks && tasks[t] == Payer(id, row.value, confirms)
      ensures faults == old(faults) || row.Some? ==>
                row == RowOf(store.View(), id) && Moment(origin, old(H()), H(), store.View())
    {
      hide Went, Took, Exec, EngineNext, Moment;
      OthersBeside(t);
      var fails: bool := *;
      if fails {
        Struck(old(H()), TaskSide(t));
        return None;
      }
      ghost var before := S();
      if id in store.payments {
        row := Option.Some(store.payments[id]);
        tasks := tasks[t := Payer(id, store.payments[id], confirms)];
      } else {
        row := None;
      }
      Did(before, TaskDoes(t, OpenPay(id, confirms)), old(H()), TaskSide(t));
      WentForward(old(H()), H(), TaskSide(t));
      Now(old(H()));
    }

    method DecideForPayer(ghost t: nat, id: PaymentId, row: Payment, confirms: bool, goesThrough: bool)
      returns (overdue: bool)
      requires Valid() && t in tasks && tasks[t] == Payer(id, row, confirms)
      modifies this, store
      ensures Valid() && origin == old(origin) && Went(old(H()), H(), TaskSide(t))
      ensures Took(old(H()), H(), TaskDoes(t, Decide(goesThrough)))
      ensures if row.status == Pending && overdue then t in tasks && tasks[t] == PayerExpiring(id)
              else if confirms && row.status == Pending && goesThrough
              then t in tasks && tasks[t] == PayerConfirming(id)
              else t !in tasks
      ensures overdue <==> now > row.due
    {
      hide Went, Took, Exec, EngineNext;
      OthersBeside(t);
      ghost var before := S();
      overdue := now > row.due;
      if row.status == Pending && overdue {
        tasks := tasks[t := PayerExpiring(id)];
      } else if confirms && row.status == Pending && goesThrough {
        tasks := tasks[t := PayerConfirming(id)];
      } else {
        tasks := tasks - {t};
      }
      Did(before, TaskDoes(t, Decide(goesThrough)), old(H()), TaskSide(t));
    }

    method WriteForPayer(ghost t: nat, id: PaymentId, expires: bool)
      requires Valid() && t in tasks
      requires tasks[t] == if expires then PayerExpiring(id) else PayerConfirming(id)
      modifies this, store
      ensures Valid() && t !in tasks && origin == old(origin) && Went(old(H()), H(), TaskSide(t))
      ensures faults == old(faults) ==> Took(old(H()), H(), TaskDoes(t, PayerWrite))
    {
      hide Went, Took, Exec;
      ghost var start := H();
      if expires {
        WritePayerExpiry(t, id);
      } else {
        var confirmed := WriteConfirmation(t, id);
        if confirmed {
          ghost var h := H();
          EnqueueAll(t, [PaymentConfirmed(id)]);
          WentOn(start, h, H(), TaskSide(t));
          TookOn(start, h, H(), TaskDoes(t, PayerWrite));
        }
      }
    }

    method WritePayerExpiry(ghost t: nat, id: PaymentId)
      requires Valid() && t in tasks && tasks[t] == PayerExpiring(id)
      modifies this, store
      ensures Valid() && t !in tasks && origin == old(origin) && Went(old(H()), H(), TaskSide(t))
      ensures faults == old(faults) ==> Took(old(H()), H(), TaskDoes(t, PayerWrite))
    {
      hide Went, Took, Exec, EngineNext;
      OthersBeside(t);
      ghost var before := S();
      var fault: Fault := *;
      var err := store.UpdatePaymentStatus(id, Option.Some(Pending), Expired, fault);
      if err.Some? && err == FaultError(fault) {
        GiveUp(t, before, old(H()));
        return;
      }
      tasks := tasks - {t};
      Did(before, TaskDoes(t, PayerWrite), old(H()), TaskSide(t));
    }

    method WriteConfirmation(ghost t: nat, id: PaymentId) returns (confirmed: bool)
      requires Valid() && t in tasks && tasks[t] == PayerConfirming(id)
      modifies this, store
      ensures Valid() && origin == old(origin) && Went(old(H()), H(), TaskSide(t))
      ensures faults == old(faults) ==> Took(old(H()), H(), TaskDoes(t, PayerWrite))
      ensures if confirmed then t in tasks && tasks[t] == Emitting([PaymentConfirmed(id)], 0) else t !in tasks
    {
      hide Went, Took, Exec, EngineNext;
      OthersBeside(t);
      ghost var before := S();
      var fault: Fault := *;
      var err := store.ConfirmPaymentIntent(id, fault);
      if err.Some? && err == FaultError(fault) {
        GiveUp(t, before, old(H()));
        return false;
      }
      confirmed := err == None;
      tasks := if confirmed then tasks[t := Emitting([PaymentConfirmed(id)], 0)] else tasks - {t};
      Did(before, TaskDoes(t, PayerWrite), old(H()), TaskSide(t));
    }

    /** The administrator's refund: it reads the payment (`row`, as it stood at the moment `seen`), refuses
        one that is not SETTLED, and otherwise writes the refund of the amount that it read. */
    method RefundPaymentRequest(ghost t: nat, id: PaymentId) returns (row: Option<Payment>, ghost seen: Db)
      requires Valid() && t !in tasks
      modifies this, store
      ensures Valid() && t !in tasks && origin == old(origin) && Went(old(H()), H(), TaskSide(t))
      ensures faults == old(faults) ==>
                && Moment(origin, old(H()), H(), seen) && row == RowOf(seen, id)
                && Took(old(H()), H(), TaskDoes(t, OpenRefund(id)))
                && (Took(old(H()), H(), TaskDoes(t, RefundWrite)) <==> row.Some? && row.value.status == Settled)
    {
      hide Went, Took, Exec, Moment;
      ghost var start := H();
      row := ReadForRefund(t, id);
      seen := store.View();
      if row == None || row.value.status != Settled {
        return;
      }
      ghost var h := H();
      WriteRefund(t, id, row.value.amount);
      WentOn(start, h, H(), TaskSide(t));
      TookOn(start, h, H(), TaskDoes(t, OpenRefund(id)));
      TookOn(start, h, H(), TaskDoes(t, RefundWrite));
      if faults == old(faults) {
        MomentOn(origin, start, h, H(), seen);
      }
    }

    method ReadForRefund(ghost t: nat, id: PaymentId) returns (row: Option<Payment>)
      requires Valid() && t !in tasks
      modifies this, store
      ensures Valid() && origin == old(origin) && Went(old(H()), H(), TaskSide(t))
      ensures faults == old(faults) ==>
                && row == RowOf(store.View(), id) && Moment(origin, old(H()), H(), store.View())
                && Took(old(H()), H(), TaskDoes(t, OpenRefund(id)))
                && !Took(old(H()), H(), TaskDoes(t, RefundWrite))
      ensures faults > old(faults) ==> row == None
      ensures if row.Some? && row.value.status == Settled
              then t in tasks && tasks[t] == Refunding(id, row.value.amount) else t !in tasks
    {
      hide Went, Exec, EngineNext, Moment;
      OthersBeside(t);
      var fails: bool := *;
      if fails {
        Struck(old(H()), TaskSide(t));
        return None;
      }
      ghost var before := S();
      ghost var ran := run;
      row := if id in store.payments then Option.Some(store.payments[id]) else None;
      if row.Some? && row.value.status == Settled {
        tasks := tasks[t := Refunding(id, row.value.amount)];
      }
      Did(before, TaskDoes(t, OpenRefund(id)), old(H()), TaskSide(t));
      assert run == ran + [TaskDoes(t, OpenRefund(id))];
      WentForward(old(H()), H(), TaskSide(t));
      Now(old(H()));
    }

    method WriteRefund(ghost t: nat, id: PaymentId, amount: int)
      requires Valid() && t in tasks && tasks[t] == Refunding(id, amount)
      modifies this, store
      ensures Valid() && t !in tasks && origin == old(origin) && Went(old(H()), H(), TaskSide(t))
      ensures faults == old(faults) ==> Took(old(H()), H(), TaskDoes(t, RefundWrite))
    {
      hide Went, Took, Exec;
      ghost var start := H();
      var refunded := PostRefund(t, id, amount);
      if refunded {
        ghost var h := H();
        EnqueueAll(t, [PaymentRefunded(id)]);
        WentOn(start, h, H(), TaskSide(t));
        TookOn(start, h, H(), TaskDoes(t, RefundWrite));
      }
    }

    method PostRefund(ghost t: nat, id: PaymentId, amount: int) returns (refunded: bool)
      requires Valid() && t in tasks && tasks[t] == Refunding(id, amount)
      modifies this, store
      ensures Valid() && origin == old(origin) && Went(old(H()), H(), TaskSide(t))
      ensures faults == old(faults) ==> Took(old(H()), H(), TaskDoes(t, RefundWrite))
      ensures if refunded then t in tasks && tasks[t] == Emitting([PaymentRefunded(id)], 0) else t !in tasks
    {
      hide Went, Took, Exec, EngineNext;
      OthersBeside(t);
      ghost var before := S();
      var fault: Fault := *;
      var err := store.RefundSettledPayment(id, amount, fault);
      if err.Some? && err == FaultError(fault) {
        GiveUp(t, before, old(H()));
        return false;
      }
      refunded := err == None;
      tasks := if refunded then tasks[t := Emitting([PaymentRefunded(id)], 0)] else tasks - {t};
      Did(before, TaskDoes(t, RefundWrite), old(H()), TaskSide(t));
    }

    /** One tick of the expiry sweep. When its transaction fails, the tick does nothing. */
    method ExpireOverduePayments(ghost t: nat) returns (ids: seq<PaymentId>)
      requires Valid() && t !in tasks
      modifies this, store
      ensures Valid() && t !in tasks && origin == old(origin) && Went(old(H()), H(), TaskSide(t))
      ensures faults == old(faults) ==> Took(old(H()), H(), TaskDoes(t, SweepWrite(ids, 200, true)))
    {
      ids := Sweep(t, 200, true);
    }

    /** The dashboard sweeps too before it lists the payments, with a higher limit and without announcing. */
    method AdminDashboard(ghost t: nat) returns (ids: seq<PaymentId>)
      requires Valid() && t !in tasks
      modifies this, store
      ensures Valid() && t !in tasks && origin == old(origin) && Went(old(H()), H(), TaskSide(t))
      ensures faults == old(faults) ==> Took(old(H()), H(), TaskDoes(t, SweepWrite(ids, 2000, false)))
    {
      ids := Sweep(t, 2000, false);
    }

    method Sweep(ghost t: nat, limit: nat, announces: bool) returns (ids: seq<PaymentId>)
      requires Valid() && t !in tasks && limit > 0
      modifies this, store
      ensures Valid() && t !in tasks && origin == old(origin) && Went(old(H()), H(), TaskSide(t))
      ensures faults == old(faults) ==> Took(old(H()), H(), TaskDoes(t, SweepWrite(ids, limit, announces)))
    {
      hide Went, Took, Exec;
      ghost var start := H();
      var swept;
      swept, ids := WriteSweep(t, limit, announces);
      if !swept {
        return;
      }
      ghost var h := H();
      EnqueueAll(t, SweepEvents(ids, announces));
      WentOn(start, h, H(), TaskSide(t));
      TookOn(start, h, H(), TaskDoes(t, SweepWrite(ids, limit, announces)));
    }

    method WriteSweep(ghost t: nat, limit: nat, announces: bool) returns (swept: bool, ids: seq<PaymentId>)
      requires Valid() && t !in tasks && limit > 0
      modifies this, store
      ensures Valid() && origin == old(origin) && Went(old(H()), H(), TaskSide(t))
      ensures if swept then
                && t in tasks && tasks[t] == Emitting(SweepEvents(ids, announces), 0)
                && Took(old(H()), H(), TaskDoes(t, SweepWrite(ids, limit, announces)))
              else t !in tasks && faults > old(faults)
    {
      hide Went, Took, Exec, EngineNext, Proceeds, Selects, ExpireEach, NextReference, Database.CreateSettlement;
      OthersBeside(t);
      ghost var before := S();
      var fault: Fault := *;
      var err;
      ids, err := store.ExpireOverduePendingPayments(now, limit, fault);
      if err.Some? {
        Struck(old(H()), TaskSide(t));
        return false, [];
      }
      tasks := tasks[t := Emitting(SweepEvents(ids, announces), 0)];
      Did(before, TaskDoes(t, SweepWrite(ids, limit, announces)), old(H()), TaskSide(t));
      return true, ids;
    }

    /** A settlement run: open its row, read the balance, post it, close the row. */
    method TriggerSettlement(ghost t: nat)
      requires Valid() && t !in tasks
      modifies this, store
      ensures Valid() && t !in tasks && origin == old(origin) && Went(old(H()), H(), TaskSide(t))
      ensures faults == old(faults) ==> Took(old(H()), H(), TaskDoes(t, OpenRun))
      ensures faults == old(faults) ==> Took(old(H()), H(), TaskDoes(t, CloseRun))
    {
      hide Went, Took, Exec;
      ghost var start := H();
      var isOpen, number := OpenSettlement(t);
      if !isOpen {
        return;
      }
      ghost var h := H();
      SettleAndClose(t, number);
      WentOn(start, h, H(), TaskSide(t));
      TookOn(start, h, H(), TaskDoes(t, OpenRun));
      TookOn(start, h, H(), TaskDoes(t, CloseRun));
    }

    method SettleAndClose(ghost t: nat, number: nat)
      requires Valid() && t in tasks && tasks[t] == SettleReading(number)
      modifies this, store
      ensures Valid() && t !in tasks && origin == old(origin) && Went(old(H()), H(), TaskSide(t))
      ensures faults == old(faults) ==> Took(old(H()), H(), TaskDoes(t, CloseRun))
    {
      hide Went, Took, Exec;
      ghost var start := H();
      var balance := ReadOperating(t, number);
      ghost var h := H();
      if balance == None {
        CloseSettlement(t, number, 0, 0, RunFailed);
      } else if balance.value <= 0 {
        CloseSettlement(t, number, 0, 0, Success);
      } else {
        PostAndClose(t, number, balance.value);
      }
      WentOn(start, h, H(), TaskSide(t));
      TookOn(start, h, H(), TaskDoes(t, CloseRun));
    }

    method PostAndClose(ghost t: nat, number: nat, amount: int)
      requires Valid() && t in tasks && tasks[t] == SettlePosting(number, amount)
      modifies this, store
      ensures Valid() && t !in tasks && origin == old(origin) && Went(old(H()), H(), TaskSide(t))
      ensures faults == old(faults) ==> Took(old(H()), H(), TaskDoes(t, CloseRun))
    {
      hide Went, Took, Exec;
      ghost var start := H();
      var posted := PostSettlement(t, number, amount);
      ghost var h := H();
      if posted {
        CloseSettlement(t, number, amount, 2, Success);
      } else {
        CloseSettlement(t, number, 0, 0, RunFailed);
      }
      WentOn(start, h, H(), TaskSide(t));
      TookOn(start, h, H(), TaskDoes(t, CloseRun));
    }

    method OpenSettlement(ghost t: nat) returns (isOpen: bool, number: nat)
      requires Valid() && t !in tasks
      modifies this, store
      ensures Valid() && origin == old(origin) && Went(old(H()), H(), TaskSide(t))
      ensures if isOpen then
                t in tasks && tasks[t] == SettleReading(number) && Took(old(H()), H(), TaskDoes(t, OpenRun))
              else t !in tasks && faults > old(faults)
    {
      hide Went, Took, Exec, EngineNext;
      OthersBeside(t);
      ghost var before := S();
      var fault: Fault := *;
      var err;
      number, err := store.CreateSettlement(fault);
      if err.Some? {
        Struck(old(H()), TaskSide(t));
        return false, number;
      }
      tasks := tasks[t := SettleReading(number)];
      Did(before, TaskDoes(t, OpenRun), old(H()), TaskSide(t));
      return true, number;
    }

    method ReadOperating(ghost t: nat, number: nat) returns (balance: Option<int>)
      requires Valid() && t in tasks && tasks[t] == SettleReading(number)
      modifies this, store
      ensures Valid() && t in tasks && origin == old(origin) && Went(old(H()), H(), TaskSide(t))
      ensures tasks[t] ==
              if balance == None then SettleClosing(number, 0, 0, RunFailed)
              else if balance.value <= 0 then SettleClosing(number, 0, 0, Success)
              else SettlePosting(number, balance.value)
      ensures if balance == None then faults > old(faults)
              else Operating in store.wallets ==> balance.value == store.wallets[Operating].balance
    {
      hide Went, Took, Exec, EngineNext, Opens, RunClosed, Decides;
      OthersBeside(t);
      ghost var before := S();
      var fails: bool := *;
      if fails {
        Struck(old(H()), TaskSide(t));
      }
      balance := if fails then None else Option.Some(BalanceOf(store.View(), Operating));
      tasks := tasks[t :=
        if balance == None then SettleClosing(number, 0, 0, RunFailed)
        else if balance.value <= 0 then SettleClosing(number, 0, 0, Success)
        else SettlePosting(number, balance.value)];
      Did(before, TaskDoes(t, if fails then ReadBalanceFails else ReadBalance), old(H()), TaskSide(t));
    }

    method PostSettlement(ghost t: nat, number: nat, amount: int) returns (posted: bool)
      requires Valid() && t in tasks && tasks[t] == SettlePosting(number, amount)
      modifies this, store
      ensures Valid() && t in tasks && origin == old(origin) && Went(old(H()), H(), TaskSide(t))
      ensures tasks[t] ==
              if posted then SettleClosing(number, amount, 2, Success) else SettleClosing(number, 0, 0, RunFailed)
    {
      hide Went, Took, Exec, EngineNext, Opens, Database.RunSettlement, RunClosed, Decides;
      OthersBeside(t);
      ghost var before := S();
      var fault: Fault := *;
      var err := store.RunSettlement(number, amount, fault);
      var fails := err.Some? && err == FaultError(fault);
      posted := err == None;
      if fails {
        Struck(old(H()), TaskSide(t));
      }
      tasks := tasks[t :=
        if posted then SettleClosing(number, amount, 2, Success) else SettleClosing(number, 0, 0, RunFailed)];
      Did(before, TaskDoes(t, if fails then PostRunFails else PostRun), old(H()), TaskSide(t));
    }

    method CloseSettlement(ghost t: nat, number: nat, amount: int, count: nat, st: RunStatus)
      requires Valid() && t in tasks && tasks[t] == SettleClosing(number, amount, count, st)
      modifies this, store
      ensures Valid() && t !in tasks && origin == old(origin) && Went(old(H()), H(), TaskSide(t))
      ensures faults == old(faults) ==> Took(old(H()), H(), TaskDoes(t, CloseRun))
    {
      hide Went, Took, Exec;
      ghost var start := H();
      var announces := WriteClosing(t, number, amount, count, st);
      if announces {
        ghost var h := H();
        EnqueueAll(t, [SettlementCompleted(number)]);
        WentOn(start, h, H(), TaskSide(t));
        TookOn(start, h, H(), TaskDoes(t, CloseRun));
      }
    }

    method WriteClosing(ghost t: nat, number: nat, amount: int, count: nat, st: RunStatus)
      returns (announces: bool)
      requires Valid() && t in tasks && tasks[t] == SettleClosing(number, amount, count, st)
      modifies this, store
      ensures Valid() && origin == old(origin) && Went(old(H()), H(), TaskSide(t))
      ensures faults == old(faults) ==> Took(old(H()), H(), TaskDoes(t, CloseRun))
      ensures if announces then t in tasks && tasks[t] == Emitting([SettlementCompleted(number)], 0)
              else t !in tasks
    {
      hide Went, Took, Exec, EngineNext;
      OthersBeside(t);
      ghost var before := S();
      var fault: Fault := *;
      var err := store.CompleteSettlement(number, amount, count, st, fault);
      if err.Some? && err == FaultError(fault) {
        GiveUp(t, before, old(H()));
        return false;
      }
      announces := err == None && st == Success && amount > 0;
      tasks := if announces then tasks[t := Emitting([SettlementCompleted(number)], 0)] else tasks - {t};
      Did(before, TaskDoes(t, CloseRun), old(H()), TaskSide(t));
    }

    // ----- the reconciliation report -----

    /** Whatever anybody does between two statements of a reader. */
    method Others()
      requires Valid()
      modifies this, store
      ensures Valid() && origin == old(origin) && old(run) <= run
    {
    }

    /** The report's queries are separate statements: its lines, the sum over the wallets, the pending counter
        and the ledger totals belong to four moments of the run. Its flag is true nevertheless. */
    method ReconciliationReport() returns (report: Report, ghost lines: Db, ghost net: Db, ghost pending: Db)
      requires Valid() && Reachable(origin)
      modifies this, store
      ensures Valid() && origin == old(origin) && old(run) <= run
      ensures report.lines == ReportLines(lines)
      ensures report.netWalletBalance == NetWalletBalance(net)
      ensures report.escrowPending == PendingOf(pending)
      ensures (report.ledgerDebit, report.ledgerCredit) == LedgerTotals(store.View())
      ensures report.balanced <==> report.netWalletBalance == 0 && report.ledgerDebit == report.ledgerCredit
      ensures report.balanced
    {
      hide Exec, Reachable;
      Others();
      lines := store.View();
      var figures := store.StatusLines();
      Others();
      net := store.View();
      var sum := NetWalletBalance(store.View());
      BalancedWhenReachable(this);
      Others();
      pending := store.View();
      var escrow := PendingOf(store.View());
      Others();
      var debit, credit := store.LedgerTotals();
      BalancedWhenReachable(this);
      report := Report(figures, sum, escrow, debit, credit, sum == 0 && debit == credit);
    }
  }

  lemma BalancedWhenReachable(service: Service)
    requires service.Valid() && Reachable(service.origin)
    ensures NetWalletBalance(service.store.View()) == 0
    ensures Balanced(service.store.View().books.log)
  {
    ReachedFrom(service.origin, service.run, service.S());
    BalancesRefineTheLog(service.S(), []);
  }

  lemma ReachedFrom(s: State, acts: seq<Action>, to: State)
    requires Reachable(s) && Exec(s, acts) == Option.Some(to)
    ensures Reachable(to)
  {
    var now: int, before: seq<Action> :| Exec(Start(now), before) == Option.Some(s);
    ExecJoins(Start(now), before, acts);
    assert Exec(Start(now), before + acts) == Option.Some(to);
  }

  /** What the code's object has reached, the transition system has reached: the guarantees hold of it. */
  lemma ServiceStatesAreReachable(service: Service, now: int)
    requires service.Valid() && service.origin == Start(now)
    ensures Reachable(service.S())
    ensures Sound(service.store.View().books)
  {
    ReachableIsOk(service.S());
  }
}

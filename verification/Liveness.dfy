/** No starvation: when the rail never errors and writes succeed, every payment that awaits its transfer
    reaches a final status, although each tick of the engine sees only the 200 oldest. */
module Liveness {
  import opened Types
  import opened Database
  import opened Accounts
  import opened Machine
  import opened Safety
  import opened Guarantees
  import opened Sets

  // ----- fair runs -----

  /** No crash, no failed write of the engine, no rail error; and the clock moves between two ticks. */
  predicate Smooth(s: State, a: Action) {
    && a != Crash
    && (a.EngineDoes? ==>
          && a.move != WriteFails
          && a.move != CallRail(RailError)
          && (a.move.Tick? ==> s.engine.tickNow < s.now))
  }

  ghost predicate StepAt(run: nat -> State, acts: nat -> Action, i: nat) {
    Next(run(i), acts(i)) == Option.Some(run(i + 1)) && Smooth(run(i), acts(i))
  }

  ghost predicate EngineLater(acts: nat -> Action, i: nat) {
    exists j: nat :: i <= j && acts(j).EngineDoes?
  }

  /** An infinite run, under any interleaving, in which the engine always gets to take another step. */
  ghost predicate FairRun(run: nat -> State, acts: nat -> Action) {
    && Reachable(run(0))
    && (forall i: nat :: StepAt(run, acts, i))
    && (forall i: nat :: EngineLater(acts, i))
  }

  lemma {:induction false} InvAt(run: nat -> State, acts: nat -> Action, i: nat)
    requires FairRun(run, acts)
    ensures Inv(run(i))
  {
    hide Inv, Next, Reachable;
    if i == 0 {
      ReachableIsOk(run(0));
    } else {
      InvAt(run, acts, i - 1);
      assert StepAt(run, acts, i - 1);
      NextKeeps(run(i - 1), acts(i - 1));
    }
  }

  // ----- the queue -----

  /** The payments that the engine's query puts before x. */
  function Ahead(db: Db, x: PaymentId): set<PaymentId>
    requires x in db.payments
  {
    set id | id in AwaitingIds(db) && db.payments[id].stamp < db.payments[x].stamp
  }

  /** Rows that carry an old stamp are old rows. */
  predicate Aged(db: Db, to: Db) {
    && db.writes <= to.writes
    && forall id | id in to.payments && to.payments[id].stamp < db.writes ::
         id in db.payments && db.payments[id] == to.payments[id]
  }

  lemma AgedOn(a: Db, b: Db, c: Db)
    requires Aged(a, b) && Aged(b, c)
    ensures Aged(a, c)
  {
  }

  /** While the row of x stands, nothing overtakes it. */
  lemma NothingOvertakes(db: Db, to: Db, x: PaymentId)
    requires StampsOk(db) && Aged(db, to) && x in db.payments && x in to.payments
    requires to.payments[x] == db.payments[x]
    ensures Ahead(to, x) <= Ahead(db, x)
  {
  }

  lemma {:induction false} ExpireEachAges(db: Db, ids: seq<PaymentId>)
    ensures Aged(db, ExpireEach(db, ids))
    decreases |ids|
  {
    if ids != [] {
      ExpireEachAges(ExpireOne(db, ids[0]), ids[1..]);
      AgedOn(db, ExpireOne(db, ids[0]), ExpireEach(db, ids));
    }
  }

  lemma TaskAges(s: State, t: nat, step: TaskStep)
    requires TaskNext(s, t, step).Some?
    ensures Aged(s.db, TaskNext(s, t, step).value.db)
  {
    hide Opens, Proceeds;
    if t in s.tasks {
      LaterStatementAges(s, t, step);
    } else {
      FirstStatementAges(s, t, step);
    }
  }

  lemma FirstStatementAges(s: State, t: nat, step: TaskStep)
    requires t !in s.tasks && Opens(s, t, step).Some?
    ensures Aged(s.db, Opens(s, t, step).value.db)
  {
    hide Selects, ExpireEach, NextReference;
    if step.SweepWrite? {
      ExpireEachAges(s.db, step.ids);
    }
  }

  lemma LaterStatementAges(s: State, t: nat, step: TaskStep)
    requires t in s.tasks && Proceeds(s, t, step).Some?
    ensures Aged(s.db, Proceeds(s, t, step).value.db)
  {
    hide Ledger.PostInTx, Ledger.Postings, ReferenceTaken;
  }

  lemma EngineAges(s: State, move: EngineStep)
    requires EngineNext(s, move).Some?
    ensures Aged(s.db, EngineNext(s, move).value.db)
  {
    hide Selects, Oldest, Ledger.PostInTx;
  }

  lemma NextAges(s: State, a: Action)
    requires Next(s, a).Some?
    ensures Aged(s.db, Next(s, a).value.db)
  {
    match a
    case TaskDoes(t, step) => TaskAges(s, t, step);
    case EngineDoes(move) => EngineAges(s, move);
    case _ =>
  }

  // ----- what one step does to a waiting payment -----

  /** The engine's write has moved the payment on. */
  predicate Handled(p: Payment, q: Payment) {
    q.status in {Settled, Expired} || (q.status == Failed && q.retry == p.retry + 1)
  }

  lemma WriteHandlesHead(s: State)
    requires Inv(s) && s.engine.batch != [] && Writes(s).Some? && BeforeTheWrite(s.engine.pc)
    ensures var x := s.engine.batch[0].id;
            var to := Writes(s).value;
            && x in s.db.payments && x in to.db.payments
            && if s.engine.pc == Posting then to.db.payments == s.db.payments && to.engine.pc == Marking
               else Handled(s.db.payments[x], to.db.payments[x])
                    && to.db.payments[x].stamp != s.db.payments[x].stamp
                    && (to.db.payments[x].status == Failed && to.db.payments[x].retry < 3 ==>
                          ToRequeue(to.engine.pc) && to.engine.batch == s.engine.batch)
  {
    hide TablesOk, EngineOk, DueOk, TasksOk, EventsOk, Grows, OnlyPayments, PayIn;
    HeadWaits(s);
    var x := s.engine.batch[0].id;
    AwaitingTrail(s.db, x);
    if s.engine.pc == Posting {
      EnginePosts(s);
      PostKeepsRows(s);
    } else if s.engine.pc == Marking {
      EngineMarks(s);
    }
    StampIsOld(s.db, x);
  }

  lemma StampIsOld(db: Db, x: PaymentId)
    requires TablesOk(db) && x in db.payments
    ensures db.payments[x].stamp < db.writes
  {
  }

  lemma PostKeepsRows(s: State)
    requires s.engine.pc == Posting && s.engine.batch != [] && Writes(s).Some?
    ensures Writes(s).value.db.payments == s.db.payments
  {
  }

  /** A step either leaves the row of a waiting payment as it is, or is the engine's write that handles it. */
  lemma StepOnWaiting(s: State, a: Action, x: PaymentId)
    requires Inv(s) && Next(s, a).Some? && HasStatus(s.db, x, AwaitingTransfer)
    ensures var to := Next(s, a).value;
            && x in to.db.payments
            && (to.db.payments[x] == s.db.payments[x]
                || (&& a == EngineDoes(Write) && s.engine.batch != [] && s.engine.batch[0].id == x
                    && BeforeTheWrite(s.engine.pc)
                    && Handled(s.db.payments[x], to.db.payments[x])
                    && (to.db.payments[x].status == Failed && to.db.payments[x].retry < 3 ==>
                          ToRequeue(to.engine.pc) && to.engine.batch == s.engine.batch)))
  {
    hide TablesOk, EngineOk, DueOk, TasksOk, EventsOk, Writes, TaskNext, Handled;
    var to := Next(s, a).value;
    match a
    case TaskDoes(t, step) => TaskNextKeeps(s, t, step);
    case EngineDoes(Write) =>
      EngineWrites(s);
      if s.engine.batch[0].id == x {
        if BeforeTheWrite(s.engine.pc) {
          WriteHandlesHead(s);
        } else {
          RequeuePc(s);
          HeadFailed(s);
        }
      }
    case EngineDoes(move) => OtherMovesAreQuiet(s, move);
    case _ =>
  }

  lemma RequeuePc(s: State)
    requires s.engine.batch != [] && Writes(s).Some? && !BeforeTheWrite(s.engine.pc)
    ensures s.engine.pc == Requeueing
  {
  }

  lemma OtherMovesAreQuiet(s: State, move: EngineStep)
    requires EngineNext(s, move).Some? && move != Write
    ensures EngineNext(s, move).value.db.payments == s.db.payments
  {
    hide Oldest;
  }

  // ----- ticks and steps until a payment's turn -----

  predicate InBatch(g: Engine, f: PaymentId) {
    exists i :: 0 <= i < |g.batch| && g.batch[i].id == f
  }

  predicate TurnTaken(g: Engine, f: PaymentId) {
    g.batch != [] && g.batch[0].id == f && !BeforeTheWrite(g.pc)
  }

  /** An upper bound on the ticks before the tick that handles f. */
  function TicksLeft(g: Engine, f: PaymentId): nat {
    if TurnTaken(g, f) then 123
    else if f !in g.dueAt then (if InBatch(g, f) then 122 else 123)
    else if g.dueAt[f] > g.tickNow then 1 + (g.dueAt[f] - g.tickNow)
    else if InBatch(g, f) then 0 else 1
  }

  function PcRank(pc: Pc): nat {
    match pc
    case Ready => 12
    case Started => 11
    case Expiring => 10
    case Calling => 10
    case Posting => 9
    case Declining => 9
    case Marking => 8
    case Announcing(_, again) => if again then 7 else 5
    case Requeueing => 6
    case Clearing => 4
  }

  /** An upper bound on the engine's steps in its present batch. */
  function StepsLeft(g: Engine): nat {
    if g.batch == [] then 0 else 16 * (|g.batch| - 1) + PcRank(g.pc)
  }

  /** A payment with fewer than 200 before it is in the answer to the engine's query. */
  lemma WithinTheWindow(db: Db, ids: seq<PaymentId>, f: PaymentId)
    requires Oldest(db, ids) && f in AwaitingIds(db) && StampsOk(db)
    requires |Ahead(db, f)| < 200
    ensures f in ids
  {
    CardOfDistinct(ids);
    if f !in ids {
      forall id | id in Elements(ids) ensures id in Ahead(db, f) {
        var i :| 0 <= i < |ids| && ids[i] == id;
        assert On(db.payments[ids[i]], UpdatedAt) <= On(db.payments[f], UpdatedAt);
      }
      SubsetCard(Elements(ids), Ahead(db, f));
      SubsetCard(Elements(ids), AwaitingIds(db));
    }
  }

  lemma TickApproaches(s: State, ids: seq<PaymentId>, f: PaymentId)
    requires Inv(s) && EngineNext(s, Tick(ids)).Some? && s.engine.tickNow < s.now
    requires HasStatus(s.db, f, AwaitingTransfer) && |Ahead(s.db, f)| < BATCH_LIMIT
    ensures TicksLeft(EngineNext(s, Tick(ids)).value.engine, f) < TicksLeft(s.engine, f)
  {
    hide EngineOk, DueOk, TasksOk, EventsOk, TablesOk, Oldest;
    AwaitingTrail(s.db, f);
    StampsHold(s.db);
    WithinTheWindow(s.db, ids, f);
    var i :| 0 <= i < |ids| && ids[i] == f;
    var h := EngineNext(s, Tick(ids)).value.engine;
    assert h.batch[i].id == f;
  }

  lemma StampsHold(db: Db)
    requires TablesOk(db)
    ensures StampsOk(db)
  {
  }

  lemma VisitApproaches(s: State, delay: int, f: PaymentId)
    requires EngineOk(s) && EngineNext(s, Visit(delay)).Some?
    ensures var g, h := s.engine, EngineNext(s, Visit(delay)).value.engine;
            TicksLeft(h, f) < TicksLeft(g, f)
            || (TicksLeft(h, f) == TicksLeft(g, f) && StepsLeft(h) < StepsLeft(g))
  {
    var g, h := s.engine, EngineNext(s, Visit(delay)).value.engine;
    if h.batch == g.batch[1..] {
      ShorterBatch(g, h, f);
      assert InBatch(h, f) ==> g.batch[0].id != f;
    } else {
      assert h.batch == g.batch;
      assert g.batch[0].id == f ==> InBatch(g, f);
    }
  }

  /** Without its first payment the batch still has the others, once each. */
  lemma ShorterBatch(g: Engine, h: Engine, f: PaymentId)
    requires g.batch != [] && h.batch == g.batch[1..]
    requires forall i, j | 0 <= i < j < |g.batch| :: g.batch[i].id != g.batch[j].id
    ensures InBatch(g, f) <==> InBatch(h, f) || g.batch[0].id == f
    ensures InBatch(h, f) ==> g.batch[0].id != f
  {
    if InBatch(h, f) {
      var i :| 0 <= i < |h.batch| && h.batch[i].id == f;
      assert g.batch[i + 1].id == f;
    }
    if InBatch(g, f) && g.batch[0].id != f {
      var i :| 0 <= i < |g.batch| && g.batch[i].id == f;
      assert h.batch[i - 1].id == f;
    }
  }

  lemma ClearApproaches(s: State, f: PaymentId)
    requires EngineOk(s) && EngineNext(s, Clear).Some?
    ensures var g, h := s.engine, EngineNext(s, Clear).value.engine;
            TicksLeft(h, f) == TicksLeft(g, f) && StepsLeft(h) < StepsLeft(g)
  {
    var g, h := s.engine, EngineNext(s, Clear).value.engine;
    ShorterBatch(g, h, f);
  }

  lemma OtherApproaches(s: State, move: EngineStep, f: PaymentId)
    requires EngineOk(s) && EngineNext(s, move).Some?
    requires move.CheckDate? || (move.CallRail? && move.reply != RailError) || move.Announce? || move.AnnounceFails?
    ensures var g, h := s.engine, EngineNext(s, move).value.engine;
            TicksLeft(h, f) == TicksLeft(g, f) && StepsLeft(h) < StepsLeft(g)
  {
    var g, h := s.engine, EngineNext(s, move).value.engine;
    assert h.batch == g.batch && InBatch(h, f) == InBatch(g, f);
  }

  lemma WriteApproaches(s: State, f: PaymentId)
    requires Inv(s) && EngineNext(s, Write).Some? && HasStatus(s.db, f, AwaitingTransfer)
    requires var to := EngineNext(s, Write).value;
             f in to.db.payments && to.db.payments[f] == s.db.payments[f]
    ensures var g, h := s.engine, EngineNext(s, Write).value.engine;
            TicksLeft(h, f) == TicksLeft(g, f) && StepsLeft(h) < StepsLeft(g)
  {
    hide Inv, Handled, Writes, PcRank, BeforeTheWrite;
    WriteLowersRank(s);
    HeadPasses(s, f);
  }

  /** A write that leaves the row of f alone does not end the turn of f. */
  lemma HeadPasses(s: State, f: PaymentId)
    requires Inv(s) && s.engine.batch != [] && Writes(s).Some? && HasStatus(s.db, f, AwaitingTransfer)
    requires f in Writes(s).value.db.payments && Writes(s).value.db.payments[f] == s.db.payments[f]
    ensures s.engine.batch[0].id == f ==>
              BeforeTheWrite(s.engine.pc) && BeforeTheWrite(Writes(s).value.engine.pc)
  {
    hide Inv, Handled, Writes;
    if s.engine.batch[0].id == f {
      if BeforeTheWrite(s.engine.pc) {
        WriteHandlesHead(s);
      } else {
        RequeuePc(s);
        FailedIsNotWaiting(s);
      }
    }
  }

  lemma FailedIsNotWaiting(s: State)
    requires Inv(s) && s.engine.pc == Requeueing
    ensures s.engine.batch != [] && !HasStatus(s.db, s.engine.batch[0].id, AwaitingTransfer)
  {
    HeadFailed(s);
  }

  lemma WriteLowersRank(s: State)
    requires s.engine.batch != [] && Writes(s).Some?
    ensures var g, h := s.engine, Writes(s).value.engine;
            h == g.(pc := h.pc) && PcRank(h.pc) < PcRank(g.pc)
  {
    hide ExpireAwaitingTransfer, ClearPendingEscrowToOperating, MarkPaymentSettled, IncrementRetryAndSetStatus,
         UpdatePaymentStatus;
  }

  /** Each step of the engine brings the turn of f closer, first in ticks and then in steps of the batch. */
  lemma EngineStepApproaches(s: State, move: EngineStep, f: PaymentId)
    requires Inv(s) && EngineNext(s, move).Some? && Smooth(s, EngineDoes(move))
    requires HasStatus(s.db, f, AwaitingTransfer) && |Ahead(s.db, f)| < BATCH_LIMIT
    requires var to := EngineNext(s, move).value;
             f in to.db.payments && to.db.payments[f] == s.db.payments[f]
    ensures var g, h := s.engine, EngineNext(s, move).value.engine;
            TicksLeft(h, f) < TicksLeft(g, f)
            || (TicksLeft(h, f) == TicksLeft(g, f) && StepsLeft(h) < StepsLeft(g))
  {
    hide TablesOk, TasksOk, EventsOk, Writes, Oldest, EngineOk, DueOk;
    match move
    case Tick(ids) => TickApproaches(s, ids, f);
    case Visit(delay) => VisitApproaches(s, delay, f);
    case Write => WriteApproaches(s, f);
    case Clear => ClearApproaches(s, f);
    case _ => OtherApproaches(s, move, f);
  }

  // ----- along a fair run -----

  /** What steps of the other goroutines do to the engine and its queue: nothing, but for later arrivals. */
  ghost predicate Aside(s: State, to: State) {
    && to.engine == s.engine
    && Aged(s.db, to.db)
    && forall id | id in s.db.payments && s.db.payments[id].status in {AwaitingTransfer, Failed} ::
         id in to.db.payments && to.db.payments[id] == s.db.payments[id]
  }

  lemma AsideStep(s: State, a: Action)
    requires Inv(s) && Next(s, a).Some? && Smooth(s, a) && !a.EngineDoes?
    ensures Aside(s, Next(s, a).value)
  {
    hide TablesOk, EngineOk, DueOk, TasksOk, EventsOk, TaskNext;
    NextAges(s, a);
    if a.TaskDoes? {
      TaskNextKeeps(s, a.t, a.step);
    }
  }

  /** From any moment of a fair run the engine takes a step after finitely many steps aside. */
  lemma {:induction false} NextEngineStep(run: nat -> State, acts: nat -> Action, i: nat) returns (j: nat)
    requires FairRun(run, acts)
    ensures i <= j && acts(j).EngineDoes? && Aside(run(i), run(j))
  {
    assert EngineLater(acts, i);
    var k: nat :| i <= k && acts(k).EngineDoes?;
    j := NextEngineStepBy(run, acts, i, k);
  }

  lemma {:induction false} NextEngineStepBy(run: nat -> State, acts: nat -> Action, i: nat, k: nat)
    returns (j: nat)
    requires FairRun(run, acts) && i <= k && acts(k).EngineDoes?
    ensures i <= j <= k && acts(j).EngineDoes? && Aside(run(i), run(j))
    decreases k - i
  {
    hide Inv, Next, Smooth, Reachable;
    if acts(i).EngineDoes? {
      j := i;
    } else {
      assert StepAt(run, acts, i);
      InvAt(run, acts, i);
      AsideStep(run(i), acts(i));
      j := NextEngineStepBy(run, acts, i + 1, k);
      AgedOn(run(i).db, run(i + 1).db, run(j).db);
    }
  }

  predicate Awaits(s: State, x: PaymentId) {
    HasStatus(s.db, x, AwaitingTransfer)
  }

  /** A payment within the window is handled after finitely many steps: its row stands until then. */
  lemma {:induction false} WindowIsHandled(run: nat -> State, acts: nat -> Action, i: nat, f: PaymentId)
    returns (j: nat)
    requires FairRun(run, acts) && Awaits(run(i), f) && |Ahead(run(i).db, f)| < BATCH_LIMIT
    ensures i <= j && Awaits(run(j), f) && run(j).db.payments[f] == run(i).db.payments[f]
    ensures f in run(j + 1).db.payments && run(j + 1).db.payments[f] != run(j).db.payments[f]
    decreases TicksLeft(run(i).engine, f), StepsLeft(run(i).engine)
  {
    hide Inv, Next, Smooth, Reachable, FairRun, EngineLater, TicksLeft, StepsLeft, Ahead, EngineNext;
    var k := NextEngineStep(run, acts, i);
    QueueAside(run, acts, i, k, f);
    j := k;
    FairStep(run, acts, k);
    var s, to := run(k), run(k + 1);
    StepOnWaiting(s, acts(k), f);
    if to.db.payments[f] == s.db.payments[f] {
      SmoothMove(s, acts(k));
      EngineStepApproaches(s, acts(k).move, f);
      NextAges(s, acts(k));
      QueueShrinks(s, to, f);
      j := WindowIsHandled(run, acts, k + 1, f);
    }
  }

  lemma FairStep(run: nat -> State, acts: nat -> Action, i: nat)
    requires FairRun(run, acts)
    ensures Inv(run(i)) && Next(run(i), acts(i)) == Option.Some(run(i + 1)) && Smooth(run(i), acts(i))
  {
    hide Inv, Next, Smooth, Reachable;
    InvAt(run, acts, i);
    assert StepAt(run, acts, i);
  }

  lemma SmoothMove(s: State, a: Action)
    requires a.EngineDoes? && Next(s, a).Some?
    ensures a == EngineDoes(a.move) && EngineNext(s, a.move) == Next(s, a)
  {
  }

  lemma QueueShrinks(s: State, to: State, x: PaymentId)
    requires Inv(s) && Aged(s.db, to.db) && x in s.db.payments && x in to.db.payments
    requires to.db.payments[x] == s.db.payments[x]
    ensures Ahead(to.db, x) <= Ahead(s.db, x) && |Ahead(to.db, x)| <= |Ahead(s.db, x)|
  {
    StampsHold(s.db);
    NothingOvertakes(s.db, to.db, x);
    SubsetCard(Ahead(to.db, x), Ahead(s.db, x));
  }

  lemma QueueAside(run: nat -> State, acts: nat -> Action, i: nat, k: nat, x: PaymentId)
    requires FairRun(run, acts) && Aside(run(i), run(k)) && Awaits(run(i), x)
    ensures Awaits(run(k), x) && run(k).db.payments[x] == run(i).db.payments[x]
    ensures Ahead(run(k).db, x) <= Ahead(run(i).db, x) && |Ahead(run(k).db, x)| <= |Ahead(run(i).db, x)|
  {
    hide Inv, FairRun;
    InvAt(run, acts, i);
    QueueShrinks(run(i), run(k), x);
  }

  // ----- every payment is decided -----

  /** The payment has reached a final status. */
  predicate Decided(s: State, x: PaymentId) {
    && x in s.db.payments
    && (s.db.payments[x].status in {Settled, Cancelled, Expired}
        || (s.db.payments[x].status == Failed && s.db.payments[x].retry == 3))
  }

  predicate AwaitsRequeue(s: State, x: PaymentId) {
    HasStatus(s.db, x, Failed) && ToRequeue(s.engine.pc) && s.engine.batch != [] && s.engine.batch[0].id == x
  }

  /** A declined payment with retries left goes back to the queue. */
  lemma {:induction false} GoesBack(run: nat -> State, acts: nat -> Action, i: nat, x: PaymentId) returns (j: nat)
    requires FairRun(run, acts) && AwaitsRequeue(run(i), x)
    ensures i < j && Awaits(run(j), x) && run(j).db.payments[x].retry == run(i).db.payments[x].retry
    decreases PcRank(run(i).engine.pc)
  {
    hide Inv, FairRun, EngineLater, Reachable;
    var k := NextEngineStep(run, acts, i);
    FairStep(run, acts, k);
    RequeueStep(run(k), acts(k), x);
    if run(k).engine.pc == Requeueing {
      j := k + 1;
    } else {
      j := GoesBack(run, acts, k + 1, x);
    }
  }

  lemma RequeueStep(s: State, a: Action, x: PaymentId)
    requires AwaitsRequeue(s, x) && Next(s, a).Some? && Smooth(s, a) && a.EngineDoes?
    ensures var to := Next(s, a).value;
            && x in to.db.payments && to.db.payments[x].retry == s.db.payments[x].retry
            && if s.engine.pc == Requeueing then Awaits(to, x)
               else AwaitsRequeue(to, x) && to.engine.pc == Requeueing
  {
    hide Oldest;
  }

  /** Follows x from step i to step j: its row stands and its queue shrinks, or the row changes at k. */
  lemma {:induction false} Follow(run: nat -> State, acts: nat -> Action, i: nat, j: nat, x: PaymentId)
    returns (changed: bool, k: nat)
    requires FairRun(run, acts) && Awaits(run(i), x) && i <= j
    ensures i <= k <= j && Awaits(run(k), x) && run(k).db.payments[x] == run(i).db.payments[x]
    ensures Ahead(run(k).db, x) <= Ahead(run(i).db, x)
    ensures !changed ==> k == j
    ensures changed ==> x in run(k + 1).db.payments && run(k + 1).db.payments[x] != run(k).db.payments[x]
    decreases j - i
  {
    hide Inv, Next, Smooth, Reachable, FairRun, EngineLater, Ahead;
    if i == j {
      changed, k := false, i;
    } else {
      FairStep(run, acts, i);
      StepOnWaiting(run(i), acts(i), x);
      if run(i + 1).db.payments[x] == run(i).db.payments[x] {
        NextAges(run(i), acts(i));
        QueueShrinks(run(i), run(i + 1), x);
        changed, k := Follow(run, acts, i + 1, j, x);
      } else {
        changed, k := true, i;
      }
    }
  }

  /** A nonempty queue has a first payment, with nothing ahead of it. */
  lemma {:induction false} First(db: Db, ids: set<PaymentId>) returns (f: PaymentId)
    requires ids != {} && ids <= db.payments.Keys
    ensures f in ids && forall id | id in ids :: db.payments[f].stamp <= db.payments[id].stamp
    decreases ids
  {
    f :| f in ids;
    if ids != {f} {
      var g := First(db, ids - {f});
      if db.payments[g].stamp < db.payments[f].stamp {
        f := g;
      }
    }
  }

  lemma FrontOf(db: Db, x: PaymentId) returns (f: PaymentId)
    requires x in db.payments && Ahead(db, x) != {}
    ensures f in Ahead(db, x) && Ahead(db, f) == {}
  {
    f := First(db, Ahead(db, x));
    assert Ahead(db, f) <= Ahead(db, x);
  }

  /** Every payment that awaits its transfer is decided after finitely many steps. Each turn spends a retry
      or takes away a payment ahead; arrivals and requeued payments go to the back. */
  lemma {:induction false} ComesToItsTurn(run: nat -> State, acts: nat -> Action, i: nat, x: PaymentId)
    returns (j: nat)
    requires FairRun(run, acts) && Awaits(run(i), x)
    ensures i < j && Decided(run(j), x)
    decreases 3 - run(i).db.payments[x].retry, |Ahead(run(i).db, x)|
  {
    hide Inv, Next, Smooth, Reachable, FairRun, EngineLater, Ahead, ToRequeue;
    var k: nat;
    if |Ahead(run(i).db, x)| < BATCH_LIMIT {
      k := WindowIsHandled(run, acts, i, x);
    } else {
      var f := FrontOf(run(i).db, x);
      AheadAwaits(run(i), f, x);
      var m := WindowIsHandled(run, acts, i, f);
      var changed: bool;
      changed, k := Follow(run, acts, i, m + 1, x);
      if !changed {
        LeavesTheQueue(run, acts, m, f, x);
        ProperSubsetCard(Ahead(run(m + 1).db, x), Ahead(run(i).db, x), f);
        j := ComesToItsTurn(run, acts, m + 1, x);
        return;
      }
    }
    FairStep(run, acts, k);
    StepOnWaiting(run(k), acts(k), x);
    RetriesLeft(run(k), x);
    if Decided(run(k + 1), x) {
      j := k + 1;
    } else {
      var m := GoesBack(run, acts, k + 1, x);
      j := ComesToItsTurn(run, acts, m, x);
    }
  }

  lemma AheadAwaits(s: State, f: PaymentId, x: PaymentId)
    requires x in s.db.payments && f in Ahead(s.db, x)
    ensures Awaits(s, f)
  {
  }

  lemma RetriesLeft(s: State, x: PaymentId)
    requires Inv(s) && Awaits(s, x)
    ensures s.db.payments[x].retry <= 2
  {
    AwaitingTrail(s.db, x);
  }

  lemma LeavesTheQueue(run: nat -> State, acts: nat -> Action, m: nat, f: PaymentId, x: PaymentId)
    requires FairRun(run, acts) && Awaits(run(m), f) && x in run(m + 1).db.payments
    requires f in run(m + 1).db.payments && run(m + 1).db.payments[f] != run(m).db.payments[f]
    ensures f !in Ahead(run(m + 1).db, x)
  {
    hide Inv, Next, Smooth, Reachable, FairRun, EngineLater;
    FairStep(run, acts, m);
    StepOnWaiting(run(m), acts(m), f);
  }

  lemma ProperSubsetCard<T>(a: set<T>, b: set<T>, x: T)
    requires a <= b && x in b && x !in a
    ensures |a| < |b|
  {
    SubsetCard(a, b);
  }

  ghost predicate DecidedFrom(run: nat -> State, j: nat, x: PaymentId) {
    forall k: nat | j <= k :: Decided(run(k), x)
  }

  /** No starvation: in a fair run every payment that awaits its transfer is, from some step on, decided. */
  lemma NoStarvation(run: nat -> State, acts: nat -> Action, i: nat, x: PaymentId)
    requires FairRun(run, acts) && Awaits(run(i), x)
    ensures exists j: nat :: i < j && DecidedFrom(run, j, x)
  {
    hide Inv, Reachable, FairRun, Decided;
    var j := ComesToItsTurn(run, acts, i, x);
    forall k: nat | j <= k ensures Decided(run(k), x) {
      StaysDecided(run, acts, j, k, x);
    }
    assert DecidedFrom(run, j, x);
  }

  lemma {:induction false} StaysDecided(run: nat -> State, acts: nat -> Action, j: nat, k: nat, x: PaymentId)
    requires FairRun(run, acts) && Decided(run(j), x) && j <= k
    ensures Decided(run(k), x)
    decreases k - j
  {
    hide Inv, Reachable, FairRun, Next, Grows;
    if j < k {
      FairStep(run, acts, j);
      NextKeeps(run(j), acts(j));
      DecidedForGood(run(j), run(j + 1), x);
      StaysDecided(run, acts, j + 1, k, x);
    }
  }

  lemma DecidedForGood(s: State, to: State, x: PaymentId)
    requires Inv(s) && Inv(to) && Grows(s.db, to.db) && Decided(s, x)
    ensures Decided(to, x)
  {
    hide EngineOk, DueOk, TasksOk, EventsOk, TrailOk;
    var p, q := s.db.payments[x], to.db.payments[x];
    assert RowOk(x, p, Lines(s.db, OfPayment(x))) && RowOk(x, q, Lines(to.db, OfPayment(x)));
    LongerTrail(p, q);
    if p.status == Failed {
      TrailFailures(p);
      TrailFailures(q);
    }
  }

  // ----- payments that nobody will pick up -----

  /** FAILED, for the third time or because its requeue was lost to a fault. */
  predicate Stranded(s: State, id: PaymentId) {
    HasStatus(s.db, id, Failed) && !AwaitsRequeue(s, id)
  }

  lemma StrandedByOneStep(s: State, a: Action, id: PaymentId)
    requires Inv(s) && Stranded(s, id) && Next(s, a).Some?
    ensures Stranded(Next(s, a).value, id) && Next(s, a).value.db.payments[id] == s.db.payments[id]
  {
    hide TablesOk, EngineOk, DueOk, TasksOk, EventsOk, Writes, TaskNext, Oldest;
    match a
    case TaskDoes(t, step) => TaskNextKeeps(s, t, step);
    case EngineDoes(Write) =>
      EngineWrites(s);
      WriteKeepsHead(s);
      if s.engine.batch[0].id == id {
        if BeforeTheWrite(s.engine.pc) {
          HeadWaits(s);
        } else {
          RequeuePc(s);
        }
        assert false;
      }
    case EngineDoes(move) =>
      OtherMovesAreQuiet(s, move);
    case _ =>
  }

  /** A FAILED row changes by exactly one kind of action: the requeue that follows its decline. */
  lemma FailedRowsMoveByRequeueOnly(s: State, a: Action, id: PaymentId)
    requires Inv(s) && HasStatus(s.db, id, Failed) && Next(s, a).Some?
    ensures id in Next(s, a).value.db.payments
    ensures Next(s, a).value.db.payments[id] != s.db.payments[id]
            <==> a == EngineDoes(Write) && s.engine.pc == Requeueing && s.engine.batch[0].id == id
  {
    hide TablesOk, EngineOk, DueOk, TasksOk, EventsOk, TaskNext, Oldest, Writes;
    if Stranded(s, id) {
      StrandedByOneStep(s, a, id);
    } else {
      match a
      case TaskDoes(t, step) => TaskNextKeeps(s, t, step);
      case EngineDoes(Write) => RequeueMoves(s);
      case EngineDoes(move) => OtherMovesAreQuiet(s, move);
      case _ =>
    }
  }

  lemma RequeueMoves(s: State)
    requires Inv(s) && s.engine.batch != [] && ToRequeue(s.engine.pc) && Writes(s).Some?
    ensures s.engine.pc == Requeueing && HasStatus(Writes(s).value.db, s.engine.batch[0].id, AwaitingTransfer)
  {
    hide TablesOk, DueOk, TasksOk, EventsOk, EngineOk;
    HeadFailed(s);
  }

  lemma WriteKeepsHead(s: State)
    requires s.engine.batch != [] && Writes(s).Some?
    ensures Writes(s).value.engine.batch == s.engine.batch
  {
  }

  /** In any run, a FAILED payment that is not about to be requeued keeps its row for ever, retries left or
      not. */
  lemma {:induction false} StrandedForGood(s: State, acts: seq<Action>, id: PaymentId)
    requires Inv(s) && Stranded(s, id) && Exec(s, acts).Some?
    ensures Stranded(Exec(s, acts).value, id) && Exec(s, acts).value.db.payments[id] == s.db.payments[id]
    decreases |acts|
  {
    hide Inv, Next, Stranded, Grows;
    if acts != [] {
      NextKeeps(s, acts[0]);
      StrandedByOneStep(s, acts[0], id);
      StrandedForGood(Next(s, acts[0]).value, acts[1..], id);
    }
  }
}

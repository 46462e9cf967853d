/** What one visit of the engine makes of a payment: from the moment it finds the payment due until it is done
    with it, whatever the others do in between. */
module EngineVisits {
  import opened Types
  import opened Database
  import opened Accounts
  import opened Machine
  import opened Safety
  import opened Guarantees
  import opened Liveness

  /** Why the visit ends as it does. */
  datatype Fate = Overdue | Replied(reply: Reply)

  // ----- the date and the rail -----

  /** The engine expires a payment whose due date has passed at the moment it looks, and takes any other one
      to the rail. */
  lemma DateDecides(s: State)
    requires Reachable(s) && s.engine.pc == Started
    ensures s.engine.batch != [] && s.engine.batch[0].id in s.db.payments
    ensures Next(s, EngineDoes(CheckDate))
            == Option.Some(At(s, if s.now > s.db.payments[s.engine.batch[0].id].due then Expiring else Calling))
  {
    hide TablesOk, DueOk, TasksOk, EventsOk, Reachable;
    ReachableIsOk(s);
    HeadWaits(s);
  }

  /** The engine calls the rail only for a payment whose date has not passed, and goes on as the rail says:
      an approval leads to the posting, a decline to the count of a retry, an error to neither. */
  lemma RailDecides(s: State, reply: Reply)
    requires Reachable(s)
    ensures Next(s, EngineDoes(CallRail(reply))).Some? <==> s.engine.pc == Calling
    ensures s.engine.pc == Calling ==>
              var to := Next(s, EngineDoes(CallRail(reply))).value;
              && to.db == s.db && to.engine.batch == s.engine.batch
              && to.engine.pc == match reply
                                 case Approved => Posting
                                 case Declined => Declining
                                 case RailError => Clearing
  {
    hide TablesOk, DueOk, TasksOk, EventsOk, Reachable;
    ReachableIsOk(s);
  }

  // ----- the stages of a visit -----

  predicate Told(db: Db, e: Event) {
    e in db.outbox
  }

  /** The first payment of the batch stands as the query read it. */
  predicate Untouched(s: State, snap: Snap) {
    snap.id in s.db.payments && s.db.payments[snap.id] == snap.row && snap.row.status == AwaitingTransfer
  }

  predicate CountedOnce(s: State, snap: Snap, st: Status) {
    HasStatus(s.db, snap.id, st) && s.db.payments[snap.id].retry == snap.row.retry + 1
  }

  predicate IsSettled(db: Db, id: PaymentId) {
    id in db.payments && db.payments[id].status in {Settled, Cancelled}
  }

  /** Where a visit with this fate can stand, and what it has done so far. */
  predicate OnTheWay(s: State, snap: Snap, fate: Fate) {
    var pc := s.engine.pc;
    var x, again := snap.id, snap.row.retry + 1 < 3;
    && s.engine.batch != [] && s.engine.batch[0] == snap
    && match fate
       case Overdue =>
         || (pc == Expiring && Untouched(s, snap))
         || (pc == Announcing(PaymentExpired(x), false) && HasStatus(s.db, x, Expired))
         || (pc == Clearing && HasStatus(s.db, x, Expired) && Told(s.db, PaymentExpired(x)))
       case Replied(Approved) =>
         || (pc == Posting && Untouched(s, snap))
         || (pc == Marking && Untouched(s, snap))
         || (pc == Announcing(PaymentSettled(x), false) && IsSettled(s.db, x))
         || (pc == Clearing && IsSettled(s.db, x) && Told(s.db, PaymentSettled(x)))
       case Replied(Declined) =>
         || (pc == Declining && Untouched(s, snap))
         || (pc == Announcing(PaymentFailed(x, snap.row.retry + 1), again) && CountedOnce(s, snap, Failed))
         || (pc == Requeueing && again && CountedOnce(s, snap, Failed)
             && Told(s.db, PaymentFailed(x, snap.row.retry + 1)))
         || (pc == Clearing && CountedOnce(s, snap, if again then AwaitingTransfer else Failed)
             && Told(s.db, PaymentFailed(x, snap.row.retry + 1)))
       case Replied(RailError) => pc == Clearing && Untouched(s, snap)
  }

  /** No crash, no failed write of the engine, and not yet the end of the visit. */
  predicate DuringTheVisit(a: Action) {
    a != Crash && a != EngineDoes(WriteFails) && a != EngineDoes(AnnounceFails) && a != EngineDoes(Clear)
  }

  lemma OthersDuringTheVisit(s: State, snap: Snap, fate: Fate, to: State)
    requires Inv(s) && OnTheWay(s, snap, fate) && TaskKeeps(s, to)
    ensures OnTheWay(to, snap, fate)
  {
    hide Inv, Grows, OnlyPayments;
    HeadIsKnown(s, snap, fate);
    RowsInHandStay(s, to, snap.id);
    OutboxGrows(s, to);
    hide TaskKeeps, Rely;
  }

  lemma OutboxGrows(s: State, to: State)
    requires Rely(s.db, to.db)
    ensures forall e :: Told(s.db, e) ==> Told(to.db, e)
  {
  }

  lemma RowsInHandStay(s: State, to: State, x: PaymentId)
    requires Inv(s) && TaskKeeps(s, to) && x in s.db.payments
    ensures x in to.db.payments
    ensures s.db.payments[x].status in {AwaitingTransfer, Failed, Expired} ==> to.db.payments[x] == s.db.payments[x]
    ensures IsSettled(s.db, x) ==> IsSettled(to.db, x)
  {
    hide EngineOk, DueOk, TasksOk, EventsOk, TablesOk;
    if IsSettled(s.db, x) {
      SettledStays(s.db, to.db, x);
    }
  }

  lemma HeadIsKnown(s: State, snap: Snap, fate: Fate)
    requires Inv(s) && OnTheWay(s, snap, fate)
    ensures snap.id in s.db.payments
    ensures s.db.payments[snap.id].status in {AwaitingTransfer, Failed, Expired} || IsSettled(s.db, snap.id)
  {
    hide Inv;
  }

  lemma SettledStays(db: Db, to: Db, x: PaymentId)
    requires TablesOk(db) && TablesOk(to) && Grows(db, to) && IsSettled(db, x)
    ensures IsSettled(to, x)
  {
    var p, q := db.payments[x], to.payments[x];
    assert RowOk(x, p, Lines(db, OfPayment(x))) && RowOk(x, q, Lines(to, OfPayment(x)));
    LongerTrail(p, q);
  }

  lemma WriteDuringTheVisit(s: State, snap: Snap, fate: Fate)
    requires Inv(s) && OnTheWay(s, snap, fate) && EngineNext(s, Write).Some?
    ensures OnTheWay(EngineNext(s, Write).value, snap, fate)
  {
    hide TablesOk, EngineOk, DueOk, TasksOk, EventsOk, Grows, OnlyPayments, PayIn;
    match s.engine.pc
    case Posting =>
      EnginePosts(s);
      PostKeepsRows(s);
    case Marking =>
      EngineMarks(s);
    case Expiring =>
    case Declining =>
    case Requeueing =>
    case _ => assert false;
  }

  lemma AnnounceDuringTheVisit(s: State, snap: Snap, fate: Fate)
    requires OnTheWay(s, snap, fate) && s.engine.pc.Announcing?
    ensures OnTheWay(Announced(s), snap, fate)
  {
    var to := Announced(s);
    assert to.db.outbox[|s.db.outbox|] == s.engine.pc.event;
  }

  lemma StepDuringTheVisit(s: State, a: Action, snap: Snap, fate: Fate)
    requires Inv(s) && OnTheWay(s, snap, fate) && DuringTheVisit(a) && Next(s, a).Some?
    ensures OnTheWay(Next(s, a).value, snap, fate)
  {
    hide Inv, OnTheWay, TaskNext;
    match a
    case TaskDoes(t, step) =>
      TaskNextKeeps(s, t, step);
      OthersDuringTheVisit(s, snap, fate, Next(s, a).value);
    case EngineDoes(Write) => WriteDuringTheVisit(s, snap, fate);
    case EngineDoes(Announce) => AnnounceDuringTheVisit(s, snap, fate);
    case EngineDoes(move) => NoOtherMove(s, move, snap, fate);
    case Advance(_) => TimeDuringTheVisit(s, Next(s, a).value, snap, fate);
  }

  lemma TimeDuringTheVisit(s: State, to: State, snap: Snap, fate: Fate)
    requires OnTheWay(s, snap, fate) && to == s.(now := to.now)
    ensures OnTheWay(to, snap, fate)
  {
  }

  lemma NoOtherMove(s: State, move: EngineStep, snap: Snap, fate: Fate)
    requires OnTheWay(s, snap, fate) && DuringTheVisit(EngineDoes(move)) && move != Write && move != Announce
    ensures EngineNext(s, move) == None
  {
  }

  lemma {:induction false} StaysOnTheWay(s: State, acts: seq<Action>, snap: Snap, fate: Fate)
    requires Inv(s) && OnTheWay(s, snap, fate) && Exec(s, acts).Some?
    requires forall i | 0 <= i < |acts| :: DuringTheVisit(acts[i])
    ensures OnTheWay(Exec(s, acts).value, snap, fate)
    decreases |acts|
  {
    hide Inv, OnTheWay, Next, Grows;
    if acts != [] {
      NextKeeps(s, acts[0]);
      StepDuringTheVisit(s, acts[0], snap, fate);
      StaysOnTheWay(Next(s, acts[0]).value, acts[1..], snap, fate);
    }
  }

  // ----- how a visit ends -----

  /** What a visit with this fate leaves behind. */
  predicate Ended(s: State, snap: Snap, fate: Fate) {
    var x := snap.id;
    x in s.db.payments &&
    match fate
    case Overdue => s.db.payments[x].status == Expired && PaymentExpired(x) in s.db.outbox
    case Replied(Approved) =>
      s.db.payments[x].status in {Settled, Cancelled} && PaymentSettled(x) in s.db.outbox
    case Replied(Declined) =>
      && s.db.payments[x].retry == snap.row.retry + 1
      && s.db.payments[x].status == (if snap.row.retry + 1 < 3 then AwaitingTransfer else Failed)
      && PaymentFailed(x, snap.row.retry + 1) in s.db.outbox
    case Replied(RailError) => s.db.payments[x] == snap.row
  }

  /** A visit that finds the date passed, whatever the others do until it is over and unless a fault strikes
      it: the rail is not called, the payment is EXPIRED and that is announced. */
  lemma OverdueVisitsExpire(s: State, acts: seq<Action>)
    requires Reachable(s) && s.engine.pc == Started && s.engine.batch != []
    requires s.now > s.engine.batch[0].row.due
    requires forall i | 0 <= i < |acts| :: DuringTheVisit(acts[i])
    requires Exec(s, [EngineDoes(CheckDate)] + acts).Some?
    requires Exec(s, [EngineDoes(CheckDate)] + acts).value.engine.pc == Clearing
    ensures Ended(Exec(s, [EngineDoes(CheckDate)] + acts).value, s.engine.batch[0], Overdue)
  {
    hide Reachable, Inv, Next;
    var checked := At(s, Expiring);
    CheckedLate(s);
    assert ([EngineDoes(CheckDate)] + acts)[1..] == acts;
    StaysOnTheWay(checked, acts, s.engine.batch[0], Overdue);
  }

  lemma CheckedLate(s: State)
    requires Reachable(s) && s.engine.pc == Started && s.engine.batch != []
    requires s.now > s.engine.batch[0].row.due
    ensures Next(s, EngineDoes(CheckDate)) == Option.Some(At(s, Expiring))
    ensures Inv(At(s, Expiring)) && OnTheWay(At(s, Expiring), s.engine.batch[0], Overdue)
  {
    hide TablesOk, DueOk, TasksOk, EventsOk, EngineOk, Reachable, Grows;
    ReachableIsOk(s);
    HeadWaits(s);
    NextKeeps(s, EngineDoes(CheckDate));
  }

  /** A visit that calls the rail, whatever the others do until it is over and unless a fault strikes it: an
      approved payment is SETTLED (or refunded since), a declined one has one more retry and is awaiting its
      transfer again, or FAILED at the third, each announced; after an error of the rail the row is as it was. */
  lemma VisitsEndAsTheRailSays(s: State, reply: Reply, acts: seq<Action>)
    requires Reachable(s) && s.engine.pc == Calling && s.engine.batch != []
    requires forall i | 0 <= i < |acts| :: DuringTheVisit(acts[i])
    requires Exec(s, [EngineDoes(CallRail(reply))] + acts).Some?
    requires Exec(s, [EngineDoes(CallRail(reply))] + acts).value.engine.pc == Clearing
    ensures Ended(Exec(s, [EngineDoes(CallRail(reply))] + acts).value, s.engine.batch[0], Replied(reply))
  {
    hide Reachable, Inv, Next;
    CalledOnce(s, reply);
    assert ([EngineDoes(CallRail(reply))] + acts)[1..] == acts;
    StaysOnTheWay(Next(s, EngineDoes(CallRail(reply))).value, acts, s.engine.batch[0], Replied(reply));
  }

  lemma CalledOnce(s: State, reply: Reply)
    requires Reachable(s) && s.engine.pc == Calling && s.engine.batch != []
    ensures var next := Next(s, EngineDoes(CallRail(reply)));
            next.Some? && Inv(next.value) && OnTheWay(next.value, s.engine.batch[0], Replied(reply))
  {
    hide TablesOk, DueOk, TasksOk, EventsOk, EngineOk, Reachable, Grows;
    ReachableIsOk(s);
    HeadWaits(s);
    NextKeeps(s, EngineDoes(CallRail(reply)));
  }
}

/** Reference numbering over the running service: requests count the references of the day in one step and
    insert the next number in a later one. */
module PaymentReferences {
  import opened Types
  import opened Database
  import opened Machine
  import opened Guarantees
  import opened ReferenceText
  import opened Sets

  // ----- what every step keeps -----

  ghost predicate Rendered(reference: string) {
    exists day: Day, n: nat :: reference == Render(day, n)
  }

  /** The references of a day are those numbered 1 to the count, each once. */
  ghost predicate TableNumbered(db: Db) {
    && (forall id | id in db.payments :: Rendered(db.payments[id].reference))
    && (forall id, jd | id in db.payments && jd in db.payments && id != jd ::
          db.payments[id].reference != db.payments[jd].reference)
    && (forall day: Day, n: nat :: ReferenceTaken(db, Render(day, n)) <==> 1 <= n <= CountOf(db, day))
  }

  /** A reference in flight carries at most the next number of its day. */
  ghost predicate InFlight(db: Db, reference: string) {
    exists day: Day, n: nat :: reference == Render(day, n) && 1 <= n <= CountOf(db, day) + 1
  }

  ghost predicate Numbered(s: State) {
    && TableNumbered(s.db)
    && forall t | t in s.tasks && s.tasks[t].Creating? :: InFlight(s.db, s.tasks[t].reference)
  }

  predicate SameReferences(db: Db, to: Db) {
    to.payments.Keys == db.payments.Keys
    && forall id | id in db.payments :: to.payments[id].reference == db.payments[id].reference
  }

  lemma SameReferencesKeep(db: Db, to: Db)
    requires SameReferences(db, to)
    ensures forall day: Day :: CountOf(to, day) == CountOf(db, day)
    ensures TableNumbered(db) ==> TableNumbered(to)
    ensures forall r :: InFlight(db, r) ==> InFlight(to, r)
  {
    forall day: Day ensures CountOf(to, day) == CountOf(db, day) {
      assert (set id | id in to.payments && HasPrefix(to.payments[id].reference, day))
          == (set id | id in db.payments && HasPrefix(db.payments[id].reference, day));
    }
    hide CountOf, Render, HasPrefix;
    forall r ensures ReferenceTaken(to, r) <==> ReferenceTaken(db, r) {
      if id :| id in db.payments && db.payments[id].reference == r {
        assert to.payments[id].reference == r;
      }
    }
  }

  lemma {:induction false} ExpireEachKeepsReferences(db: Db, ids: seq<PaymentId>)
    ensures SameReferences(db, ExpireEach(db, ids))
    decreases |ids|
  {
    if ids != [] {
      ExpireEachKeepsReferences(ExpireOne(db, ids[0]), ids[1..]);
    }
  }

  /** Only the insert of a payment changes the references, and only Generate takes one up. */
  lemma FirstStatementKeeps(s: State, t: nat, step: TaskStep)
    requires t !in s.tasks && Opens(s, t, step).Some?
    ensures var to := Opens(s, t, step).value;
            && SameReferences(s.db, to.db)
            && (forall u | u in to.tasks && u != t :: u in s.tasks && to.tasks[u] == s.tasks[u])
            && (t in to.tasks && to.tasks[t].Creating? ==>
                  step.Generate? && to.tasks[t].reference == NextReference(s.db, step.day))
  {
    hide Selects, ExpireEach, NextReference;
    if step.SweepWrite? {
      ExpireEachKeepsReferences(s.db, step.ids);
    }
  }

  lemma LaterStatementKeeps(s: State, t: nat, step: TaskStep)
    requires t in s.tasks && Proceeds(s, t, step).Some?
    ensures var to := Proceeds(s, t, step).value;
            && (forall u | u in to.tasks && u != t :: u in s.tasks && to.tasks[u] == s.tasks[u])
            && (t in to.tasks ==> !to.tasks[t].Creating?)
            && (step == CreateWrite || SameReferences(s.db, to.db))
  {
    hide Ledger.PostInTx, ReferenceTaken;
  }

  lemma VisitsKeepTables(s: State)
    ensures s.engine.batch != [] ==>
              forall delay :: Visits(s, delay).db == s.db && Visits(s, delay).tasks == s.tasks
  {
  }

  lemma EngineKeepsReferences(s: State, move: EngineStep)
    requires EngineNext(s, move).Some?
    ensures var to := EngineNext(s, move).value;
            SameReferences(s.db, to.db) && to.tasks == s.tasks
  {
    hide Oldest, Ledger.PostInTx, ReleasePending, Visits;
    VisitsKeepTables(s);
  }

  /** An insert that goes through takes the next number. */
  lemma InsertKeeps(db: Db, id: PaymentId, reference: string, key: Option<string>, amount: int, due: int)
    requires TableNumbered(db) && InFlight(db, reference)
    requires CreatePayment(db, id, reference, key, amount, due).Ok?
    ensures var to := CreatePayment(db, id, reference, key, amount, due).value;
            && TableNumbered(to)
            && (forall day: Day :: CountOf(to, day) >= CountOf(db, day))
  {
    hide Render;
    hide CountOf, HasPrefix, ReferenceTaken;
    var to := CreatePayment(db, id, reference, key, amount, due).value;
    var d: Day, m: nat :| reference == Render(d, m) && 1 <= m <= CountOf(db, d) + 1;
    assert m == CountOf(db, d) + 1;
    InsertCounts(db, to, id, d, m);
    InsertedRows(db, to, id);
    NumbersAfter(db, to, id, d);
  }

  lemma NumbersAfter(db: Db, to: Db, id: PaymentId, d: Day)
    requires TableNumbered(db) && id !in db.payments && id in to.payments
    requires to.payments == db.payments[id := to.payments[id]]
    requires to.payments[id].reference == Render(d, CountOf(db, d) + 1)
    requires forall day: Day :: CountOf(to, day) == CountOf(db, day) + if day == d then 1 else 0
    ensures forall day: Day, n: nat :: ReferenceTaken(to, Render(day, n)) <==> 1 <= n <= CountOf(to, day)
  {
    hide CountOf, HasPrefix, ReferenceTaken, Rendered, Render;
    forall day: Day, n: nat ensures ReferenceTaken(to, Render(day, n)) <==> 1 <= n <= CountOf(to, day) {
      TakenAfter(db, to, id, Render(day, n));
      RenderIsInjective(day, n, d, CountOf(db, d) + 1);
    }
  }

  lemma InsertedRows(db: Db, to: Db, id: PaymentId)
    requires TableNumbered(db) && id !in db.payments && id in to.payments
    requires to.payments == db.payments[id := to.payments[id]]
    requires Rendered(to.payments[id].reference) && !ReferenceTaken(db, to.payments[id].reference)
    ensures forall jd | jd in to.payments :: Rendered(to.payments[jd].reference)
    ensures forall jd, kd | jd in to.payments && kd in to.payments && jd != kd ::
              to.payments[jd].reference != to.payments[kd].reference
  {
    hide Rendered, CountOf, Render;
  }

  lemma TakenAfter(db: Db, to: Db, id: PaymentId, r: string)
    requires id !in db.payments && id in to.payments && to.payments == db.payments[id := to.payments[id]]
    ensures ReferenceTaken(to, r) <==> ReferenceTaken(db, r) || r == to.payments[id].reference
  {
    if jd :| jd in db.payments && db.payments[jd].reference == r {
      assert to.payments[jd].reference == r;
    }
  }

  lemma InsertCounts(db: Db, to: Db, id: PaymentId, day: Day, n: nat)
    requires id !in db.payments && id in to.payments && to.payments == db.payments[id := to.payments[id]]
    requires to.payments[id].reference == Render(day, n)
    ensures forall d: Day :: CountOf(to, d) == CountOf(db, d) + if d == day then 1 else 0
  {
    hide Render, CountOf, HasPrefix;
    forall d: Day ensures CountOf(to, d) == CountOf(db, d) + if d == day then 1 else 0 {
      RenderIsInjective(day, n, d, n);
      InsertCountsOn(db, to, id, d);
    }
  }

  lemma InsertCountsOn(db: Db, to: Db, id: PaymentId, d: Day)
    requires id !in db.payments && id in to.payments && to.payments == db.payments[id := to.payments[id]]
    ensures CountOf(to, d) == CountOf(db, d) + if HasPrefix(to.payments[id].reference, d) then 1 else 0
  {
    hide HasPrefix;
    var before := set jd | jd in db.payments && HasPrefix(db.payments[jd].reference, d);
    var after := set jd | jd in to.payments && HasPrefix(to.payments[jd].reference, d);
    assert after == if HasPrefix(to.payments[id].reference, d) then before + {id} else before;
  }

  lemma NextKeepsNumbers(s: State, a: Action)
    requires Numbered(s) && Next(s, a).Some?
    ensures Numbered(Next(s, a).value)
  {
    hide TableNumbered, InFlight, CreatePayment, Opens, Proceeds, EngineNext;
    var to := Next(s, a).value;
    match a
    case TaskDoes(t, step) =>
      if t !in s.tasks {
        FirstStatementKeeps(s, t, step);
        SameReferencesKeep(s.db, to.db);
        if step.Generate? {
          GeneratedIsInFlight(to.db, step.day);
          SameNext(s.db, to.db, step.day);
        }
      } else {
        LaterStatementKeeps(s, t, step);
        if step == CreateWrite {
          CreateWriteKeepsNumbers(s, t);
        } else {
          SameReferencesKeep(s.db, to.db);
        }
      }
    case EngineDoes(move) =>
      EngineKeepsReferences(s, move);
      SameReferencesKeep(s.db, to.db);
    case _ =>
  }

  lemma SameNext(db: Db, to: Db, day: Day)
    requires SameReferences(db, to)
    ensures NextReference(db, day) == NextReference(to, day)
  {
    SameReferencesKeep(db, to);
  }

  lemma GeneratedIsInFlight(db: Db, day: Day)
    ensures InFlight(db, NextReference(db, day))
  {
  }

  lemma CreateWriteKeepsNumbers(s: State, t: nat)
    requires Numbered(s) && t in s.tasks && Proceeds(s, t, CreateWrite).Some?
    ensures Numbered(Proceeds(s, t, CreateWrite).value)
  {
    hide TableNumbered, CreatePayment, CountOf, Render;
    var k := s.tasks[t];
    if CreatePayment(s.db, k.id, k.reference, None, k.amount, k.due).Ok? {
      InsertKeeps(s.db, k.id, k.reference, None, k.amount, k.due);
    }
  }

  lemma {:induction false} ExecKeepsNumbers(s: State, acts: seq<Action>)
    requires Numbered(s) && Exec(s, acts).Some?
    ensures Numbered(Exec(s, acts).value)
    decreases |acts|
  {
    hide Numbered, Next;
    if acts != [] {
      NextKeepsNumbers(s, acts[0]);
      ExecKeepsNumbers(Next(s, acts[0]).value, acts[1..]);
    }
  }

  lemma StartIsNumbered(now: int)
    ensures Numbered(Start(now))
  {
    forall day: Day ensures CountOf(EMPTY_DB, day) == 0 {
      CountOfFew(EMPTY_DB, day);
    }
    assert forall r :: !ReferenceTaken(EMPTY_DB, r);
  }

  lemma CountOfFew(db: Db, day: Day)
    ensures CountOf(db, day) <= |db.payments.Keys|
  {
    var matching := set id | id in db.payments && HasPrefix(db.payments[id].reference, day);
    SubsetCard(matching, db.payments.Keys);
  }

  lemma ReachableIsNumbered(s: State)
    requires Reachable(s)
    ensures Numbered(s)
  {
    hide Numbered, Exec;
    var now: int, acts: seq<Action> :| Exec(Start(now), acts) == Option.Some(s);
    StartIsNumbered(now);
    ExecKeepsNumbers(Start(now), acts);
  }

  // ----- idempotency keys -----

  /** No two payments hold the same key. */
  predicate KeysUnique(db: Db) {
    forall id, jd | id in db.payments && jd in db.payments && id != jd && db.payments[id].key.Some? ::
      db.payments[id].key != db.payments[jd].key
  }

  /** An insert keeps the keys unique, and it is refused for its key if and only if nothing else speaks
      against it and another payment holds that key. */
  lemma OnePaymentPerKey(db: Db, id: PaymentId, reference: string, key: Option<string>, amount: int, due: int)
    requires KeysUnique(db)
    ensures var inserted := CreatePayment(db, id, reference, key, amount, due);
            && (inserted.Ok? ==> KeysUnique(inserted.value))
            && (inserted == Err(DuplicateKey) <==>
                  key.Some? && KeyInUse(db, key.value)
                  && amount > 0 && id !in db.payments && !ReferenceTaken(db, reference))
  {
  }

  // ----- guarantees -----

  /** In every run, whatever the interleaving and the faults, the references of each day are exactly those
      numbered 1 to n, without gap or repetition, n being the count that the next request reads. */
  lemma ReferencesAreGapless(s: State, day: Day)
    requires Reachable(s)
    ensures forall n: nat :: ReferenceTaken(s.db, Render(day, n)) <==> 1 <= n <= CountOf(s.db, day)
    ensures forall id, jd | id in s.db.payments && jd in s.db.payments && id != jd ::
              s.db.payments[id].reference != s.db.payments[jd].reference
    ensures forall id | id in s.db.payments && HasPrefix(s.db.payments[id].reference, day) ::
              exists n: nat :: s.db.payments[id].reference == Render(day, n) && 1 <= n <= CountOf(s.db, day)
  {
    hide CountOf, Render;
    ReachableIsNumbered(s);
    forall id | id in s.db.payments && HasPrefix(s.db.payments[id].reference, day)
      ensures exists n: nat :: s.db.payments[id].reference == Render(day, n) && 1 <= n <= CountOf(s.db, day)
    {
      var d: Day, n: nat :| s.db.payments[id].reference == Render(d, n);
      RenderIsInjective(d, n, day, n);
      assert ReferenceTaken(s.db, Render(day, n));
    }
  }

  /** A request whose count has gone stale is refused, because its number is taken; one whose count still
      holds goes through. */
  lemma StaleCountsAreRefused(s: State, t: nat, day: Day, n: nat)
    requires Reachable(s) && t in s.tasks && s.tasks[t].Creating?
    requires s.tasks[t].reference == Render(day, n)
    requires s.tasks[t].id !in s.db.payments && s.tasks[t].amount > 0
    ensures var k := s.tasks[t];
            var to := Next(s, TaskDoes(t, CreateWrite)).value;
            if n == CountOf(s.db, day) + 1
            then k.id in to.db.payments && to.db.payments[k.id].reference == k.reference
            else to.db == s.db
  {
    hide CountOf, Render;
    ReachableIsNumbered(s);
    var d: Day, m: nat :| s.tasks[t].reference == Render(d, m) && 1 <= m <= CountOf(s.db, d) + 1;
    RenderIsInjective(day, n, d, m);
  }

  /** The reference generated now is free now. */
  lemma GeneratedIsFree(s: State, day: Day)
    requires Reachable(s)
    ensures !ReferenceTaken(s.db, NextReference(s.db, day))
  {
    ReachableIsNumbered(s);
  }
}

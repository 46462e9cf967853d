/** The expiry sweep: each call expires the earliest-due overdue payments, up to its limit. */
module ExpirySweep {
  import opened Types
  import opened Database
  import opened Accounts
  import opened Sets

  /** The update loop writes exactly the rows of its ids. */
  lemma {:induction false} ExpireEachExactly(db: Db, ids: seq<PaymentId>)
    requires Distinct(ids) && forall i | 0 <= i < |ids| :: HasStatus(db, ids[i], Pending)
    ensures var to := ExpireEach(db, ids);
            && to == db.(payments := to.payments, writes := db.writes + |ids|)
            && to.payments.Keys == db.payments.Keys
            && (forall i | 0 <= i < |ids| ::
                  HasStatus(db, ids[i], Pending) && ids[i] in to.payments
                  && to.payments[ids[i]] == Becomes(db.payments[ids[i]], Expired).(stamp := db.writes + i))
            && (forall id | id in db.payments && id !in ids :: to.payments[id] == db.payments[id])
    decreases |ids|
  {
    if ids != [] {
      var next, rest := ExpireOne(db, ids[0]), ids[1..];
      forall i | 0 <= i < |rest| ensures HasStatus(next, rest[i], Pending) {
        assert rest[i] == ids[i + 1] && ids[0] != ids[i + 1] && HasStatus(db, ids[i + 1], Pending);
      }
      ExpireEachExactly(next, rest);
      forall i | 0 < i < |ids|
        ensures ids[i] == rest[i - 1] && ids[i] != ids[0] && ids[i] in db.payments
                && next.payments[ids[i]] == db.payments[ids[i]]
      {
        assert HasStatus(db, ids[i], Pending);
      }
      assert ids[0] !in rest;
    }
  }

  /** An answer to the sweep's query. */
  predicate SweepSelects(db: Db, now: int, limit: nat, ids: seq<PaymentId>) {
    Selects(db.payments, OverdueIds(db, now), DueDate, limit, ids)
  }

  /** A sweep at the moment `now` expires min(limit, n) of the n payments that are PENDING with a due time
      before `now`, none of them due later than one that it leaves; with room to spare it leaves none. Every
      other payment, the wallets, the ledger and the outbox stay as they are. */
  lemma SweepExpiresTheEarliest(db: Db, now: int, limit: nat, ids: seq<PaymentId>)
    requires SweepSelects(db, now, limit, ids)
    ensures var to := ExpireEach(db, ids);
            && |ids| == Least(limit, |OverdueIds(db, now)|)
            && to.books == db.books && to.settlements == db.settlements && to.outbox == db.outbox
            && to.payments.Keys == db.payments.Keys
            && (forall id | id in db.payments :: to.payments[id] != db.payments[id] <==> id in ids)
            && (forall id | id in ids ::
                  HasStatus(db, id, Pending) && db.payments[id].due < now && HasStatus(to, id, Expired))
            && (forall id | id in db.payments && (db.payments[id].status != Pending || db.payments[id].due >= now) ::
                  to.payments[id] == db.payments[id])
            && (forall id, jd | id in ids && jd in db.payments && to.payments[jd].status == Pending
                                && db.payments[jd].due < now ::
                  db.payments[id].due <= db.payments[jd].due)
            && (|ids| < limit ==> forall id | id in to.payments && to.payments[id].status == Pending ::
                  to.payments[id].due >= now)
            && OverdueIds(to, now) == OverdueIds(db, now) - Elements(ids)
  {
    hide ExpireEach;
    assert forall i | 0 <= i < |ids| :: HasStatus(db, ids[i], Pending) && db.payments[ids[i]].due < now by {
      assert forall i | 0 <= i < |ids| :: ids[i] in OverdueIds(db, now);
    }
    ExpireEachExactly(db, ids);
    var to := ExpireEach(db, ids);
    EarliestFirst(db, now, limit, ids);
    if |ids| < limit {
      AllSelected(db, now, limit, ids);
    }
    hide Selects, FirstOnes;
    forall id | id in ids
      ensures HasStatus(db, id, Pending) && db.payments[id].due < now
              && HasStatus(to, id, Expired) && to.payments[id] != db.payments[id]
    {
      var i :| 0 <= i < |ids| && ids[i] == id;
      assert to.payments[ids[i]].status == Expired;
    }
    assert OverdueIds(to, now) == OverdueIds(db, now) - Elements(ids);
  }

  /** A selection that falls short of its limit has left nothing out. */
  lemma AllSelected(db: Db, now: int, limit: nat, ids: seq<PaymentId>)
    requires SweepSelects(db, now, limit, ids) && |ids| < limit
    ensures forall id | id in db.payments && db.payments[id].status == Pending && db.payments[id].due < now :: id in ids
  {
    ShortSelectionIsAll(db.payments, OverdueIds(db, now), DueDate, limit, ids);
    assert forall id | id in db.payments && db.payments[id].status == Pending && db.payments[id].due < now ::
        id in OverdueIds(db, now);
  }

  lemma ShortSelectionIsAll(
    ps: map<PaymentId, Payment>, candidates: set<PaymentId>, c: Column, limit: nat, ids: seq<PaymentId>)
    requires candidates <= ps.Keys && Selects(ps, candidates, c, limit, ids) && |ids| < limit
    ensures forall id | id in candidates :: id in ids
  {
    CardOfDistinct(ids);
    assert Elements(ids) <= candidates;
    SubsetCard(Elements(ids), candidates);
    assert forall id | id in candidates :: id in Elements(ids);
  }

  lemma EarliestFirst(db: Db, now: int, limit: nat, ids: seq<PaymentId>)
    requires SweepSelects(db, now, limit, ids)
    ensures forall id, jd | id in ids && jd in OverdueIds(db, now) - Elements(ids) ::
              id in db.payments && jd in db.payments && db.payments[id].due <= db.payments[jd].due
  {
    forall id, jd | id in ids && jd in OverdueIds(db, now) - Elements(ids)
      ensures id in db.payments && jd in db.payments && db.payments[id].due <= db.payments[jd].due
    {
      var i :| 0 <= i < |ids| && ids[i] == id;
      assert ids[i] in OverdueIds(db, now);
      assert On(db.payments[ids[i]], DueDate) <= On(db.payments[jd], DueDate);
    }
  }

  /** Repeated sweeps, at one moment and with no payments arriving in between. */
  predicate Sweeps(db: Db, now: int, limit: nat, calls: seq<seq<PaymentId>>)
    decreases |calls|
  {
    calls != [] ==>
      SweepSelects(db, now, limit, calls[0]) && Sweeps(ExpireEach(db, calls[0]), now, limit, calls[1..])
  }

  function AfterSweeps(db: Db, calls: seq<seq<PaymentId>>): Db
    decreases |calls|
  {
    if calls == [] then db else AfterSweeps(ExpireEach(db, calls[0]), calls[1..])
  }

  function Swept(calls: seq<seq<PaymentId>>): set<PaymentId> {
    if calls == [] then {} else Elements(calls[0]) + Swept(calls[1..])
  }

  function MinusOrZero(n: int, m: int): int {
    if n >= m then n - m else 0
  }

  /** Repeated sweeps return lists of overdue payments that have none in common; together with what is left
      they make up the overdue set, and k calls leave n - k * limit of it, or none. */
  lemma {:induction false} SweepsDrain(db: Db, now: int, limit: nat, calls: seq<seq<PaymentId>>)
    requires Sweeps(db, now, limit, calls)
    ensures var to := AfterSweeps(db, calls);
            && Swept(calls) + OverdueIds(to, now) == OverdueIds(db, now)
            && Swept(calls) !! OverdueIds(to, now)
            && |OverdueIds(to, now)| == MinusOrZero(|OverdueIds(db, now)|, |calls| * limit)
    ensures forall i, j, id | 0 <= i < j < |calls| && id in calls[i] :: id !in calls[j]
    decreases |calls|
  {
    hide OverdueIds, ExpireEach, Selects, SweepSelects, Elements;
    if calls != [] {
      var next := ExpireEach(db, calls[0]);
      SweepExpiresTheEarliest(db, now, limit, calls[0]);
      SelectedFrom(db, now, limit, calls[0]);
      SweepsDrain(next, now, limit, calls[1..]);
      Halves(OverdueIds(db, now), calls[0]);
      CountDown(|OverdueIds(db, now)|, limit, |calls| - 1);
      Parts(OverdueIds(db, now), Elements(calls[0]), Swept(calls[1..]), OverdueIds(AfterSweeps(db, calls), now));
      ListsDiffer(calls, OverdueIds(next, now));
    }
  }

  lemma CountDown(n: nat, limit: nat, k: nat)
    ensures MinusOrZero(n - Least(limit, n), k * limit) == MinusOrZero(n, (k + 1) * limit)
  {
    assert (k + 1) * limit == k * limit + limit;
    assert k * limit >= 0;
  }

  lemma Parts<T>(all: set<T>, first: set<T>, rest: set<T>, left: set<T>)
    requires first <= all && rest + left == all - first && rest !! left
    ensures (first + rest) + left == all && (first + rest) !! left
  {
  }

  lemma SelectedFrom(db: Db, now: int, limit: nat, ids: seq<PaymentId>)
    requires SweepSelects(db, now, limit, ids)
    ensures Distinct(ids) && (forall id | id in ids :: id in OverdueIds(db, now))
    ensures Elements(ids) <= OverdueIds(db, now)
  {
  }

  lemma ListsDiffer(calls: seq<seq<PaymentId>>, left: set<PaymentId>)
    requires calls != [] && Elements(calls[0]) !! left && Swept(calls[1..]) <= left
    requires forall i, j, id | 0 <= i < j < |calls[1..]| && id in calls[1..][i] :: id !in calls[1..][j]
    ensures forall i, j, id | 0 <= i < j < |calls| && id in calls[i] :: id !in calls[j]
  {
    SweptHolds(calls[1..]);
    forall i, j, id | 0 <= i < j < |calls| && id in calls[i] ensures id !in calls[j] {
      assert calls[j] == calls[1..][j - 1];
      if i == 0 {
        assert id in Elements(calls[0]);
      } else {
        assert calls[i] == calls[1..][i - 1];
      }
    }
  }

  lemma {:induction false} SweptHolds(calls: seq<seq<PaymentId>>)
    ensures forall j, id | 0 <= j < |calls| && id in calls[j] :: id in Swept(calls)
  {
    if calls != [] {
      SweptHolds(calls[1..]);
      forall j, id | 0 <= j < |calls| && id in calls[j] ensures id in Swept(calls) {
        if j > 0 {
          assert calls[j] == calls[1..][j - 1];
        }
      }
    }
  }

  lemma Halves(all: set<PaymentId>, ids: seq<PaymentId>)
    requires Distinct(ids) && forall id | id in ids :: id in all
    ensures |all - Elements(ids)| == |all| - |ids|
  {
    CardOfDistinct(ids);
    assert all == Elements(ids) + (all - Elements(ids));
  }

  /** With a positive limit, ceil(n / limit) calls drain the overdue set, and one call fewer does not. */
  lemma EnoughSweepsDrain(db: Db, now: int, limit: nat, calls: seq<seq<PaymentId>>)
    requires limit > 0 && Sweeps(db, now, limit, calls)
    ensures OverdueIds(AfterSweeps(db, calls), now) == {}
            <==> |calls| >= (|OverdueIds(db, now)| + limit - 1) / limit
  {
    hide OverdueIds, AfterSweeps, Sweeps, Swept;
    SweepsDrain(db, now, limit, calls);
    var n := |OverdueIds(db, now)|;
    CeilDivides(n, limit, |calls|);
  }

  lemma CeilDivides(n: nat, limit: nat, k: nat)
    requires limit > 0
    ensures k * limit >= n <==> k >= (n + limit - 1) / limit
  {
    var q := (n + limit - 1) / limit;
    var r := (n + limit - 1) % limit;
    assert n + limit - 1 == q * limit + r && 0 <= r < limit;
    if k >= q {
      assert k * limit >= q * limit;
    } else {
      assert (k + 1) * limit <= q * limit;
      assert (k + 1) * limit == k * limit + limit;
    }
  }
}

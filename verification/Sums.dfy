/** Sums of payment amounts over sets of payments, as SQL's SUM computes them. */
module Sums {
  import opened Types

  ghost function Total(ps: map<PaymentId, Payment>, ids: set<PaymentId>): int
    requires ids <= ps.Keys
  {
    if ids == {} then 0
    else
      var id :| id in ids;
      ps[id].amount + Total(ps, ids - {id})
  }

  lemma {:induction false} TotalSplit(ps: map<PaymentId, Payment>, ids: set<PaymentId>, x: PaymentId)
    requires ids <= ps.Keys && x in ids
    ensures Total(ps, ids) == ps[x].amount + Total(ps, ids - {x})
    decreases ids
  {
    var id :| id in ids && Total(ps, ids) == ps[id].amount + Total(ps, ids - {id});
    if id != x {
      TotalSplit(ps, ids - {id}, x);
      assert ids - {id} - {x} == ids - {x} - {id};
      TotalSplit(ps, ids - {x}, id);
    }
  }

  lemma {:induction false} TotalSame(ps: map<PaymentId, Payment>, qs: map<PaymentId, Payment>, ids: set<PaymentId>)
    requires ids <= ps.Keys && ids <= qs.Keys
    requires forall id | id in ids :: ps[id].amount == qs[id].amount
    ensures Total(ps, ids) == Total(qs, ids)
    decreases ids
  {
    if ids != {} {
      var id :| id in ids;
      TotalSplit(ps, ids, id);
      TotalSplit(qs, ids, id);
      TotalSame(ps, qs, ids - {id});
    }
  }

  lemma {:induction false} TotalNonNegative(ps: map<PaymentId, Payment>, ids: set<PaymentId>)
    requires ids <= ps.Keys
    requires forall id | id in ids :: ps[id].amount > 0
    ensures 0 <= Total(ps, ids)
    decreases ids
  {
    if ids != {} {
      var id :| id in ids;
      TotalSplit(ps, ids, id);
      TotalNonNegative(ps, ids - {id});
    }
  }

  lemma TotalCovers(ps: map<PaymentId, Payment>, ids: set<PaymentId>, x: PaymentId)
    requires ids <= ps.Keys && x in ids
    requires forall id | id in ids :: ps[id].amount > 0
    ensures ps[x].amount <= Total(ps, ids)
  {
    TotalSplit(ps, ids, x);
    TotalNonNegative(ps, ids - {x});
  }

  lemma {:induction false} TotalUnion(ps: map<PaymentId, Payment>, a: set<PaymentId>, b: set<PaymentId>)
    requires a <= ps.Keys && b <= ps.Keys && a !! b
    ensures Total(ps, a + b) == Total(ps, a) + Total(ps, b)
    decreases a
  {
    if a == {} {
      assert a + b == b;
    } else {
      var id :| id in a;
      TotalSplit(ps, a, id);
      TotalSplit(ps, a + b, id);
      assert a + b - {id} == (a - {id}) + b;
      TotalUnion(ps, a - {id}, b);
    }
  }

  /** The share of payment x in the total over `ids`. */
  function Share(ps: map<PaymentId, Payment>, ids: set<PaymentId>, x: PaymentId): int {
    if x in ids && x in ps then ps[x].amount else 0
  }

  /** When a selection changes at most at x, its total changes by the share of x. */
  lemma TotalMoves(
    ps: map<PaymentId, Payment>, ids: set<PaymentId>,
    qs: map<PaymentId, Payment>, jds: set<PaymentId>,
    x: PaymentId)
    requires ids <= ps.Keys && jds <= qs.Keys
    requires ids - {x} == jds - {x}
    requires forall id | id in ids - {x} :: ps[id].amount == qs[id].amount
    ensures Total(qs, jds) - Share(qs, jds, x) == Total(ps, ids) - Share(ps, ids, x)
  {
    if x in ids {
      TotalSplit(ps, ids, x);
    } else {
      assert ids - {x} == ids;
    }
    if x in jds {
      TotalSplit(qs, jds, x);
    } else {
      assert jds - {x} == jds;
    }
    TotalSame(ps, qs, ids - {x});
  }
}

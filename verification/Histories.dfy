/** Stretches of a run, as seen by one piece of code. */
module Histories {

  /** A run and the number of faults that struck the code at hand. */
  datatype History<A> = History(run: seq<A>, faults: nat)

  /** From h to k the run went on by steps that fit; `fits(a, clean)` says which steps may occur, and clean
      that no fault has been counted. */
  ghost predicate Continues<A>(h: History<A>, k: History<A>, fits: (A, bool) -> bool) {
    && h.run <= k.run && h.faults <= k.faults
    && forall i | |h.run| <= i < |k.run| :: fits(k.run[i], k.faults == h.faults)
  }

  lemma ContinuesOn<A>(h: History<A>, k: History<A>, l: History<A>, fits: (A, bool) -> bool)
    requires Continues(h, k, fits) && Continues(k, l, fits)
    requires forall a :: fits(a, true) ==> fits(a, false)
    ensures Continues(h, l, fits)
  {
    forall i | |h.run| <= i < |l.run| ensures fits(l.run[i], l.faults == h.faults) {
      if i < |k.run| {
        assert l.run[i] == k.run[i];
      }
    }
  }

  ghost predicate Took<A>(h: History<A>, k: History<A>, a: A) {
    exists i :: |h.run| <= i < |k.run| && k.run[i] == a
  }

  lemma TookOn<A>(h: History<A>, k: History<A>, l: History<A>, a: A)
    requires h.run <= k.run <= l.run
    ensures Took(h, k, a) || Took(k, l, a) ==> Took(h, l, a)
  {
    if Took(h, k, a) {
      var i :| |h.run| <= i < |k.run| && k.run[i] == a;
      assert l.run[i] == a;
    }
  }
}

/** The double-entry ledger: an append-only log of entries and the wallet balances cached beside it. */
module Ledger {
  import opened Types

  /** The wallets table and the ledger_entries table. */
  datatype Books = Books(wallets: map<Wallet, WalletRow>, log: seq<Entry>)

  /** The columns of the unique index on ledger_entries. */
  datatype Key = Key(wallet: Wallet, direction: Direction, kind: Kind, ref: Ref)

  function KeyOf(e: Entry): Key {
    Key(e.wallet, e.direction, e.kind, e.ref)
  }

  predicate KeyTaken(log: seq<Entry>, k: Key) {
    exists i :: 0 <= i < |log| && KeyOf(log[i]) == k
  }

  // ----- what the log says -----

  function Signed(e: Entry, w: Wallet): int {
    if e.wallet != w then 0 else if e.direction == CR then -e.amount else e.amount
  }

  /** Debits minus credits of one wallet. */
  function Net(log: seq<Entry>, w: Wallet): int {
    if log == [] then 0 else Net(log[..|log| - 1], w) + Signed(log[|log| - 1], w)
  }

  function SideTotal(log: seq<Entry>, d: Direction): int {
    if log == [] then 0
    else SideTotal(log[..|log| - 1], d) + if log[|log| - 1].direction == d then log[|log| - 1].amount else 0
  }

  /** The amounts of one kind of entry on the operating wallet. */
  function OperatingTotal(log: seq<Entry>, k: Kind): int {
    if log == [] then 0
    else
      var e := log[|log| - 1];
      OperatingTotal(log[..|log| - 1], k) + if e.wallet == Operating && e.kind == k then e.amount else 0
  }

  /** The entries filed under one reference, in posting order. */
  function Under(log: seq<Entry>, r: Ref): seq<Entry> {
    if log == [] then []
    else
      var e := log[|log| - 1];
      Under(log[..|log| - 1], r) + if e.ref == r then [e] else []
  }

  // ----- posting -----

  predicate KnownDirection(e: Entry) {
    e.direction == DR || e.direction == CR
  }

  predicate Balanced(log: seq<Entry>) {
    SideTotal(log, DR) == SideTotal(log, CR)
  }

  /** One turn of the posting loop: look up the wallet, insert the entry, add to the cached balance. */
  function InsertEntry(b: Books, e: Entry): Result<Books> {
    if e.wallet !in b.wallets then Err(NoRows)
    else if e.amount <= 0 || !KnownDirection(e) then Err(CheckFailed)
    else if KeyTaken(b.log, KeyOf(e)) then Err(UniqueViolation)
    else
      var row := b.wallets[e.wallet];
      Ok(Books(b.wallets[e.wallet := row.(balance := row.balance + Signed(e, e.wallet))], b.log + [e]))
  }

  function InsertAll(b: Books, es: seq<Entry>): Result<Books>
    decreases |es|
  {
    if es == [] then Ok(b)
    else
      match InsertEntry(b, es[0])
      case Err(x) => Err(x)
      case Ok(next) => InsertAll(next, es[1..])
  }

  /** What one posting transaction does: everything, or nothing and an error. */
  function PostInTx(b: Books, es: seq<Entry>): Result<Books> {
    if exists i :: 0 <= i < |es| && !KnownDirection(es[i]) then Err(Rejected("invalid direction"))
    else if !Balanced(es) then Err(Rejected("unbalanced posting"))
    else InsertAll(b, es)
  }

  function Postings(b: Books, es: seq<Entry>): Result<Books> {
    if |es| < 2 then Err(Rejected("double-entry requires at least two postings")) else PostInTx(b, es)
  }

  // ----- consistency -----

  predicate AllWallets(ws: map<Wallet, WalletRow>) {
    Operating in ws && Escrow in ws && Fee in ws
  }

  /** The cached balances are the fold of the log. */
  ghost predicate CacheMatches(b: Books) {
    && AllWallets(b.wallets)
    && forall w :: w in b.wallets && b.wallets[w].balance == Net(b.log, w)
  }

  predicate WellFormed(log: seq<Entry>) {
    forall i :: 0 <= i < |log| ==> log[i].amount > 0 && KnownDirection(log[i])
  }

  predicate UniqueKeys(log: seq<Entry>) {
    forall i, j :: 0 <= i < j < |log| ==> KeyOf(log[i]) != KeyOf(log[j])
  }

  ghost predicate Sound(b: Books) {
    CacheMatches(b) && WellFormed(b.log) && UniqueKeys(b.log) && Balanced(b.log)
  }

  predicate SamePending(ws: map<Wallet, WalletRow>, vs: map<Wallet, WalletRow>) {
    ws.Keys == vs.Keys && forall w | w in ws :: ws[w].pending == vs[w].pending
  }

  lemma Appended(log: seq<Entry>, e: Entry)
    ensures forall w :: Net(log + [e], w) == Net(log, w) + Signed(e, w)
    ensures forall d :: SideTotal(log + [e], d) == SideTotal(log, d) + if e.direction == d then e.amount else 0
    ensures forall k ::
              OperatingTotal(log + [e], k)
              == OperatingTotal(log, k) + if e.wallet == Operating && e.kind == k then e.amount else 0
    ensures forall r :: Under(log + [e], r) == Under(log, r) + if e.ref == r then [e] else []
  {
    assert (log + [e])[..|log + [e]| - 1] == log;
  }

  lemma {:induction false} SideTotalConcat(a: seq<Entry>, b: seq<Entry>, d: Direction)
    ensures SideTotal(a + b, d) == SideTotal(a, d) + SideTotal(b, d)
  {
    if b == [] {
      assert a + b == a;
    } else {
      var front, last := b[..|b| - 1], b[|b| - 1];
      assert a + b == (a + front) + [last];
      SideTotalConcat(a, front, d);
      Appended(a + front, last);
    }
  }

  lemma InsertEntryKeeps(b: Books, e: Entry)
    requires CacheMatches(b) && WellFormed(b.log) && UniqueKeys(b.log)
    requires InsertEntry(b, e).Ok?
    ensures var v := InsertEntry(b, e).value;
            && CacheMatches(v) && WellFormed(v.log) && UniqueKeys(v.log)
            && v.log == b.log + [e] && SamePending(b.wallets, v.wallets)
  {
    Appended(b.log, e);
    var v := InsertEntry(b, e).value;
    forall i, j | 0 <= i < j < |v.log| ensures KeyOf(v.log[i]) != KeyOf(v.log[j]) {
      assert v.log[i] == b.log[i];
    }
  }

  /** Every posting list that goes through extends the log by exactly itself and keeps the cache equal to it. */
  lemma {:induction false} InsertAllKeeps(b: Books, es: seq<Entry>)
    requires CacheMatches(b) && WellFormed(b.log) && UniqueKeys(b.log)
    requires InsertAll(b, es).Ok?
    ensures var v := InsertAll(b, es).value;
            && CacheMatches(v) && WellFormed(v.log) && UniqueKeys(v.log)
            && v.log == b.log + es && SamePending(b.wallets, v.wallets)
    decreases |es|
  {
    hide CacheMatches, WellFormed, UniqueKeys, InsertEntry;
    if es == [] {
      assert b.log + es == b.log;
    } else {
      var next := InsertEntry(b, es[0]).value;
      InsertEntryKeeps(b, es[0]);
      InsertAllKeeps(next, es[1..]);
      assert (b.log + [es[0]]) + es[1..] == b.log + es;
    }
  }

  lemma PostInTxKeeps(b: Books, es: seq<Entry>)
    requires Sound(b)
    requires PostInTx(b, es).Ok?
    ensures var v := PostInTx(b, es).value;
            Sound(v) && v.log == b.log + es && SamePending(b.wallets, v.wallets)
  {
    InsertAllKeeps(b, es);
    SideTotalConcat(b.log, es, DR);
    SideTotalConcat(b.log, es, CR);
  }

  /** A posting list goes through exactly when it balances, its rows meet the CHECK constraints and the
      unique index accepts all of them beside the log. */
  lemma PostInTxSucceedsExactly(b: Books, es: seq<Entry>)
    requires Sound(b)
    ensures PostInTx(b, es).Ok? <==>
              && SideTotal(es, DR) == SideTotal(es, CR)
              && (forall i | 0 <= i < |es| :: es[i].amount > 0 && es[i].direction in {DR, CR})
              && Distinguished(b.log + es)
  {
    InsertAllSucceedsExactly(b, es);
  }

  /** Any two entries differ in wallet, direction, kind or reference. */
  predicate Distinguished(log: seq<Entry>) {
    forall i, j | 0 <= i < j < |log| ::
      || log[i].wallet != log[j].wallet || log[i].direction != log[j].direction
      || log[i].kind != log[j].kind || log[i].ref != log[j].ref
  }

  lemma {:induction false} InsertAllSucceedsExactly(b: Books, es: seq<Entry>)
    requires CacheMatches(b) && WellFormed(b.log) && UniqueKeys(b.log)
    ensures InsertAll(b, es).Ok? <==> WellFormed(es) && UniqueKeys(b.log + es)
    decreases |es|
  {
    if es == [] {
      assert b.log + es == b.log;
    } else {
      assert (b.log + [es[0]]) + es[1..] == b.log + es;
      assert WellFormed(es) ==> WellFormed(es[1..]) && es[0].amount > 0 && KnownDirection(es[0]);
      if InsertEntry(b, es[0]).Ok? {
        hide CacheMatches, UniqueKeys, InsertEntry;
        InsertEntryKeeps(b, es[0]);
        InsertAllSucceedsExactly(InsertEntry(b, es[0]).value, es[1..]);
        assert WellFormed(es[1..]) ==> WellFormed(es);
      } else if KeyTaken(b.log, KeyOf(es[0])) {
        var i :| 0 <= i < |b.log| && KeyOf(b.log[i]) == KeyOf(es[0]);
        assert (b.log + es)[i] == b.log[i] && (b.log + es)[|b.log|] == es[0];
      }
    }
  }

  // ----- bounds -----

  lemma {:induction false} NetWithinSides(log: seq<Entry>, w: Wallet)
    requires WellFormed(log)
    ensures -SideTotal(log, CR) <= Net(log, w) <= SideTotal(log, DR)
    ensures 0 <= SideTotal(log, DR) && 0 <= SideTotal(log, CR)
  {
    if log != [] {
      assert KnownDirection(log[|log| - 1]);
      NetWithinSides(log[..|log| - 1], w);
    }
  }

  lemma {:induction false} NetsAddUp(log: seq<Entry>)
    requires WellFormed(log)
    ensures Net(log, Operating) + Net(log, Escrow) + Net(log, Fee) == SideTotal(log, DR) - SideTotal(log, CR)
  {
    if log != [] {
      assert KnownDirection(log[|log| - 1]);
      NetsAddUp(log[..|log| - 1]);
    }
  }

  /** Sound books sum to zero over the wallets, and no balance exceeds the total debit in size: a ledger
      whose total debit fits in an int64 has balances that do. */
  lemma SoundBooksBalance(b: Books)
    requires Sound(b)
    ensures b.wallets[Operating].balance + b.wallets[Escrow].balance + b.wallets[Fee].balance == 0
    ensures forall w | w in b.wallets :: -SideTotal(b.log, DR) <= b.wallets[w].balance <= SideTotal(b.log, DR)
    ensures SideTotal(b.log, DR) < 0x8000_0000_0000_0000 ==>
              forall w | w in b.wallets ::
                -0x8000_0000_0000_0000 <= b.wallets[w].balance < 0x8000_0000_0000_0000
  {
    NetsAddUp(b.log);
    NetWithinSides(b.log, Operating);
    NetWithinSides(b.log, Escrow);
    NetWithinSides(b.log, Fee);
  }

  // ----- references and the unique index -----

  /** The unique index can be consulted among the entries of one reference. */
  lemma {:induction false} KeyTakenUnder(log: seq<Entry>, k: Key)
    ensures KeyTaken(log, k) <==> KeyTaken(Under(log, k.ref), k)
  {
    if log != [] {
      var front, last := log[..|log| - 1], log[|log| - 1];
      assert log == front + [last];
      KeyTakenUnder(front, k);
      KeyTakenAppended(front, last, k);
      KeyTakenAppended(Under(front, k.ref), last, k);
      if last.ref != k.ref {
        assert Under(log, k.ref) == Under(front, k.ref);
      }
    }
  }

  lemma KeyTakenAppended(log: seq<Entry>, e: Entry, k: Key)
    ensures KeyTaken(log + [e], k) <==> KeyTaken(log, k) || KeyOf(e) == k
  {
    if KeyTaken(log, k) {
      var i :| 0 <= i < |log| && KeyOf(log[i]) == k;
      assert (log + [e])[i] == log[i];
    }
    assert (log + [e])[|log|] == e;
  }

  /** A debit and a credit of the same amount under one reference, on two wallets. */
  predicate IsPair(d: Entry, c: Entry) {
    && d.direction == DR && c.direction == CR && d.wallet != c.wallet
    && d.amount == c.amount && d.amount > 0 && d.ref == c.ref
  }

  function Moved(ws: map<Wallet, WalletRow>, w: Wallet, delta: int): map<Wallet, WalletRow>
    requires w in ws
  {
    ws[w := ws[w].(balance := ws[w].balance + delta)]
  }

  /** A pair whose keys are free is posted; it debits one wallet and credits the other. */
  lemma PairPosts(b: Books, d: Entry, c: Entry)
    requires IsPair(d, c) && d.wallet in b.wallets && c.wallet in b.wallets
    requires !KeyTaken(b.log, KeyOf(d)) && !KeyTaken(b.log, KeyOf(c))
    ensures PostInTx(b, [d, c])
            == Ok(Books(Moved(Moved(b.wallets, d.wallet, d.amount), c.wallet, -c.amount), b.log + [d, c]))
  {
    assert [d, c] == [d] + [c];
    Appended([d], c);
    Appended([], d);
    assert [] + [d] == [d];
    var b1 := InsertEntry(b, d).value;
    KeyTakenAppended(b.log, d, KeyOf(c));
    var b2 := InsertEntry(b1, c).value;
    assert [d, c][1..] == [c];
    assert [c][1..] == [];
    assert InsertAll(b1, [c]) == InsertAll(b2, []) == Ok(b2);
    assert b.log + [d] + [c] == b.log + [d, c];
  }

  lemma PairTaken(b: Books, d: Entry, c: Entry)
    requires IsPair(d, c) && d.wallet in b.wallets
    requires KeyTaken(b.log, KeyOf(d))
    ensures PostInTx(b, [d, c]) == Err(UniqueViolation)
  {
    assert [d, c] == [d] + [c];
    Appended([d], c);
    Appended([], d);
    assert [] + [d] == [d];
  }

  lemma PairAppended(log: seq<Entry>, d: Entry, c: Entry)
    requires IsPair(d, c)
    ensures forall r :: Under(log + [d, c], r) == Under(log, r) + if d.ref == r then [d, c] else []
    ensures forall k ::
              OperatingTotal(log + [d, c], k) == OperatingTotal(log, k)
              + (if d.wallet == Operating && d.kind == k then d.amount else 0)
              + (if c.wallet == Operating && c.kind == k then c.amount else 0)
    ensures forall w :: Net(log + [d, c], w) == Net(log, w) + Signed(d, w) + Signed(c, w)
  {
    assert log + [d, c] == (log + [d]) + [c];
    Appended(log, d);
    Appended(log + [d], c);
  }
}

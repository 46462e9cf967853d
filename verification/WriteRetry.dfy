/** The retry loop's errors, pauses and bounds. */
module WriteRetry {
  import opened Words

  /** How the retry loop ends. */
  datatype Outcome<E> =
    | Nil                // the operation succeeded
    | Error(error: E)    // the operation's own error
    | ContextError       // the context was cancelled
    | FellThrough        // the statement after the loop

  function Lower(c: char): char {
    if 'A' <= c <= 'Z' then ((c as int) + 32) as char else c
  }

  predicate WordAt(text: string, word: string, i: int) {
    0 <= i <= |text| - |word| && text[i..i + |word|] == word
  }

  predicate Contains(text: string, word: string) {
    exists i :: 0 <= i <= |text| && WordAt(text, word, i)
  }

  function ToLower(text: string): string {
    seq(|text|, i requires 0 <= i < |text| => Lower(text[i]))
  }

  predicate IsBusy(error: string) {
    var msg := ToLower(error);
    Contains(msg, "database is locked") || Contains(msg, "database is busy") || Contains(msg, "busy")
  }

  /** c is the lower-case letter or other character d, or its capital. */
  predicate SameLetter(c: char, d: char) {
    c == d || ('a' <= d <= 'z' && (c as int) == (d as int) - 32)
  }

  predicate SameLetters(text: string, word: string) {
    |text| == |word| && forall i | 0 <= i < |text| :: SameLetter(text[i], word[i])
  }

  predicate IsBusyWord(word: string) {
    word == "busy" || word == "database is locked" || word == "database is busy"
  }

  /** Whatever stands before and after it, each of the three words makes a text busy, in capitals or not. */
  lemma BusyTexts(a: string, w: string, b: string, word: string)
    requires IsBusyWord(word) && SameLetters(w, word)
    ensures IsBusy(a + w + b)
  {
    var text := a + w + b;
    var msg := ToLower(text);
    LowerWord(w, word);
    forall i | 0 <= i < |w| ensures msg[|a| + i] == word[i] {
      assert text[|a| + i] == w[i];
      assert ToLower(w)[i] == word[i];
    }
    assert msg[|a|..|a| + |word|] == word;
    assert WordAt(msg, word, |a|);
    assert Contains(msg, word);
  }

  lemma LowerWord(w: string, word: string)
    requires IsBusyWord(word) && SameLetters(w, word)
    ensures ToLower(w) == word
  {
    assert forall i | 0 <= i < |word| :: word[i] == ' ' || 'a' <= word[i] <= 'z';
  }

  /** Nowhere in the text does y follow x, in capitals or not. */
  predicate NeverFollows(text: string, x: char, y: char) {
    forall i | 0 <= i < |text| - 1 :: !(SameLetter(text[i], x) && SameLetter(text[i + 1], y))
  }

  /** No "bu" and no "da" in the text. */
  predicate Calm(text: string) {
    NeverFollows(text, 'b', 'u') && NeverFollows(text, 'd', 'a')
  }

  lemma CalmTexts(text: string)
    requires Calm(text)
    ensures !IsBusy(text)
  {
    NoWord(text, "busy");
    NoWord(text, "database is locked");
    NoWord(text, "database is busy");
  }

  lemma NoWord(text: string, word: string)
    requires |word| >= 2 && 'a' <= word[0] <= 'z' && 'a' <= word[1] <= 'z'
    requires NeverFollows(text, word[0], word[1])
    ensures !Contains(ToLower(text), word)
  {
    var msg := ToLower(text);
    forall i | 0 <= i <= |msg| ensures !WordAt(msg, word, i) {
      if 0 <= i <= |msg| - |word| {
        assert msg[i..i + |word|][0] == msg[i] && msg[i..i + |word|][1] == msg[i + 1];
        assert msg[i] == word[0] ==> SameLetter(text[i], word[0]);
        assert msg[i + 1] == word[1] ==> SameLetter(text[i + 1], word[1]);
      }
    }
  }

  /** bs and ds are where the text has a b and a d. */
  lemma CalmAt(text: string, bs: set<nat>, ds: set<nat>)
    requires forall i: nat | i < |text| && SameLetter(text[i], 'b') :: i in bs
    requires forall i: nat | i < |text| && SameLetter(text[i], 'd') :: i in ds
    requires forall i | i in bs && i + 1 < |text| :: !SameLetter(text[i + 1], 'u')
    requires forall i | i in ds && i + 1 < |text| :: !SameLetter(text[i + 1], 'a')
    ensures Calm(text)
  {
  }

  lemma CalmTogether(a: string, b: string)
    requires Calm(a) && Calm(b) && (a != "" && b != "" ==> !SameLetter(a[|a| - 1], 'b') && !SameLetter(b[0], 'a'))
    ensures Calm(a + b)
  {
    var text := a + b;
    forall i | 0 <= i < |text| - 1
      ensures !(SameLetter(text[i], 'b') && SameLetter(text[i + 1], 'u'))
      ensures !(SameLetter(text[i], 'd') && SameLetter(text[i + 1], 'a'))
    {
      if i + 1 < |a| {
        assert text[i] == a[i] && text[i + 1] == a[i + 1];
      } else if i >= |a| {
        assert text[i] == b[i - |a|] && text[i + 1] == b[i + 1 - |a|];
      }
    }
  }

  // Neither what the database reports for other reasons nor what the program itself refuses is retried.

  lemma NoRowsIsNotBusy()
    ensures Calm("sql: no rows in result set") && !IsBusy("sql: no rows in result set")
  {
    CalmAt("sql: no rows in result set", {}, {});
    hide Calm, IsBusy;
    CalmTexts("sql: no rows in result set");
  }

  lemma CheckFailureIsNotBusy()
    ensures Calm("CHECK constraint failed") && !IsBusy("CHECK constraint failed")
  {
    CalmAt("CHECK constraint failed", {}, {22});
    hide Calm, IsBusy;
    CalmTexts("CHECK constraint failed");
  }

  lemma UniqueFailureIsNotBusy()
    ensures Calm("UNIQUE constraint failed") && !IsBusy("UNIQUE constraint failed")
  {
    CalmAt("UNIQUE constraint failed", {}, {23});
    hide Calm, IsBusy;
    CalmTexts("UNIQUE constraint failed");
  }

  lemma OnePostingInParts()
    ensures Calm("double-entry requires")
  {
    CalmAt("double-entry requires", {3}, {0});
  }

  lemma OnePostingIsNotBusy()
    ensures !IsBusy("double-entry requires at least two postings")
  {
    hide Calm, IsBusy;
    OnePostingInParts();
    CalmAt(" at least two postings", {}, {});
    CalmTogether("double-entry requires", " at least two postings");
    CalmTexts("double-entry requires" + " at least two postings");
    assert "double-entry requires at least two postings" == "double-entry requires" + " at least two postings";
  }

  lemma ImbalanceIsNotBusy()
    ensures Calm("unbalanced posting") && !IsBusy("unbalanced posting")
  {
    CalmAt("unbalanced posting", {2}, {9});
    hide Calm, IsBusy;
    CalmTexts("unbalanced posting");
  }

  lemma WrongDirectionIsNotBusy()
    ensures Calm("invalid direction") && !IsBusy("invalid direction")
  {
    CalmAt("invalid direction", {}, {6, 8});
    hide Calm, IsBusy;
    CalmTexts("invalid direction");
  }

  lemma WrongRefundIsNotBusy()
    ensures Calm("invalid refund amount") && !IsBusy("invalid refund amount")
  {
    CalmAt("invalid refund amount", {}, {6, 13});
    hide Calm, IsBusy;
    CalmTexts("invalid refund amount");
  }

  lemma NotPendingIsNotBusy()
    ensures Calm("payment request not in PENDING state") && !IsBusy("payment request not in PENDING state")
  {
    CalmAt("payment request not in PENDING state", {}, {26});
    hide Calm, IsBusy;
    CalmTexts("payment request not in PENDING state");
  }

  lemma DuplicateKeyIsNotBusy()
    ensures !IsBusy("UNIQUE constraint failed" + ": payment_requests.idempotency_key")
  {
    UniqueFailureIsNotBusy();
    CalmAt(": payment_requests.idempotency_key", {}, {20});
    hide Calm, IsBusy;
    CalmTogether("UNIQUE constraint failed", ": payment_requests.idempotency_key");
    CalmTexts("UNIQUE constraint failed" + ": payment_requests.idempotency_key");
  }

  const MILLISECOND: int := 1_000_000
  const BACKOFF_CAP: int := 500 * MILLISECOND

  /** The pause after a busy attempt, in nanoseconds as a 64-bit duration. */
  function Backoff(attempt: nat): int
    requires attempt >= 1
  {
    var pause := Wrap64(Wrap64(20 * ShiftLeft(1, attempt - 1)) * MILLISECOND);
    if pause > BACKOFF_CAP then BACKOFF_CAP else pause
  }

  /** The pause without the limits of 64 bits. */
  function DoublingPause(attempt: nat): int
    requires attempt >= 1
  {
    var pause := 20 * Pow2(attempt - 1) * MILLISECOND;
    if pause > BACKOFF_CAP then BACKOFF_CAP else pause
  }

  /** The pauses through the n-th double from 20 ms up to the cap of 500 ms if and only if n is at most 39:
      the 40th is negative, and from the 57th on there is none. No caller allows more than five attempts. */
  lemma BackoffDoublesUpToTheCap(n: nat)
    ensures (forall k: nat | 1 <= k <= n :: Backoff(k) == DoublingPause(k)) <==> n <= 39
    ensures Backoff(40) < 0
    ensures n >= 57 ==> Backoff(n) == 0
  {
    hide Backoff, DoublingPause;
    FortiethPause();
    forall k: nat | 1 <= k <= 39 ensures Backoff(k) == DoublingPause(k) {
      EarlyBackoff(k);
    }
    if n >= 57 {
      NoBackoff(n);
    }
  }

  lemma EarlyBackoff(attempt: nat)
    requires 1 <= attempt <= 39
    ensures Backoff(attempt) == DoublingPause(attempt)
  {
    Pow2Values();
    Pow2Rises(attempt - 1, 38);
    var p := Pow2(attempt - 1);
    assert ShiftLeft(1, attempt - 1) == p;
    assert Wrap64(20 * p) == 20 * p;
    assert Wrap64(20 * p * MILLISECOND) == 20 * p * MILLISECOND;
  }

  lemma FortiethPause()
    ensures Backoff(40) < 0 < DoublingPause(40)
  {
    Pow2Values();
  }

  lemma NoBackoff(attempt: nat)
    requires attempt >= 57
    ensures Backoff(attempt) == 0
  {
    Pow2Values();
    var p := Pow2(attempt - 57);
    Pow2Adds(56, attempt - 57);
    WrapProduct(Pow2(attempt - 1), 20);
    WrapProduct(20 * Pow2(attempt - 1), MILLISECOND);
    assert 20 * Pow2(attempt - 1) * MILLISECOND == (78125 * p) * (2 * INT64_LIMIT);
    WrapMultiple(78125 * p);
    assert ShiftLeft(1, attempt - 1) == Wrap64(Pow2(attempt - 1));
  }

  function AtLeastOne(n: int): nat {
    if n < 1 then 1 else n
  }
}

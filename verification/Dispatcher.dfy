/** The webhook dispatcher: bounded delivery with exponential backoff over the rows of the outbox. */
module WebhookDispatcher {
  import opened Types
  import opened Words
  import opened Histories

  datatype Delivery = Unsent | Sent | Retrying

  /** The delivery columns of a webhook_outbox row; the row's id is its position. */
  datatype Row = Row(status: Delivery, attempts: nat, nextAt: int)

  const MAX_ATTEMPTS: nat := 8
  const BATCH: nat := 20
  const DAY: int := 86400

  const SECOND: int := 1_000_000_000

  /** The number of seconds that the delay is to have, capped; the shift is one of 64-bit integers. */
  function CappedSeconds(attempts: nat): int {
    var seconds := ShiftLeft(5, attempts);
    if seconds > 1800 then 1800 else seconds
  }

  /** The delay in nanoseconds; the product with a second is one of 64-bit integers too. */
  function NextAttemptDelay(attempts: int): int {
    Wrap64(CappedSeconds(if attempts < 0 then 0 else attempts) * SECOND)
  }

  /** The delay in whole seconds, as the clock below counts them. */
  function RetryAfter(attempts: nat): int {
    NextAttemptDelay(attempts) / SECOND
  }

  /** The delay without the limits of 64 bits. */
  function DoublingDelay(attempts: nat): int {
    (if 5 * Pow2(attempts) > 1800 then 1800 else 5 * Pow2(attempts)) * SECOND
  }

  /** The delay doubles up to its cap exactly up to the 60th attempt, and at the 62nd by accident; at the
      61st, the 63rd and from the 64th on the two overflows leave a delay of zero. Below the guard's eight
      attempts the cap is never reached. */
  lemma DelayDoubles(attempts: nat)
    ensures NextAttemptDelay(attempts) == DoublingDelay(attempts) <==> attempts <= 60 || attempts == 62
    ensures attempts > 60 && attempts != 62 ==> NextAttemptDelay(attempts) == 0
    ensures attempts < 8 ==> NextAttemptDelay(attempts) == 5 * Pow2(attempts) * SECOND < 1800 * SECOND
  {
    hide Pow2, NextAttemptDelay, DoublingDelay, CappedSeconds;
    if attempts <= 60 {
      EarlyDelay(attempts);
    } else {
      Pow2Values();
      Pow2Rises(9, attempts);
      WideDelayIsPositive(attempts);
      if attempts >= 64 {
        NoDelay(attempts);
      } else {
        LateDelay(attempts);
      }
    }
  }

  lemma WideDelayIsPositive(attempts: nat)
    requires Pow2(attempts) >= 512
    ensures DoublingDelay(attempts) == 1800 * SECOND
  {
  }

  /** Below the guard's eight attempts the clock moves on by five seconds, ten, twenty and so on. */
  lemma EarlyRetries(attempts: nat)
    requires attempts < MAX_ATTEMPTS
    ensures 5 <= RetryAfter(attempts) == 5 * Pow2(attempts) < 1800
  {
    hide Pow2, NextAttemptDelay;
    DelayDoubles(attempts);
    Pow2Rises(0, attempts);
    Pow2Values();
  }

  lemma EarlyDelay(attempts: nat)
    requires attempts <= 60
    ensures NextAttemptDelay(attempts) == DoublingDelay(attempts)
    ensures attempts < MAX_ATTEMPTS ==> NextAttemptDelay(attempts) == 5 * Pow2(attempts) * SECOND < 1800 * SECOND
  {
    Pow2Values();
    Pow2Adds(57, 3);
    Pow2Rises(attempts, 60);
    Pow2Rises(0, attempts);
    if attempts < MAX_ATTEMPTS {
      Pow2Rises(attempts, 7);
      assert Pow2(8) == 2 * Pow2(7);
    }
    hide Pow2;
    assert ShiftLeft(5, attempts) == 5 * Pow2(attempts);
  }

  lemma NoDelay(attempts: nat)
    requires attempts >= 64
    ensures NextAttemptDelay(attempts) == 0
  {
    hide Pow2;
    Pow2Values();
    Pow2Adds(64, attempts - 64);
    WrapMultiple(5 * Pow2(attempts - 64));
    assert 5 * Pow2(attempts) == 5 * Pow2(attempts - 64) * (2 * INT64_LIMIT);
  }

  lemma LateDelay(attempts: nat)
    requires 61 <= attempts <= 63
    ensures NextAttemptDelay(attempts) == if attempts == 62 then 1800 * SECOND else 0
  {
    hide Pow2;
    Pow2Values();
    FirstPowers();
    Pow2Adds(57, attempts - 57);
    Pow2Adds(4, attempts - 61);
    WidePowers(attempts - 61);
  }

  lemma WidePowers(n: nat)
    requires n <= 2
    ensures Pow2(n) == if n == 0 then 1 else 2 * n
  {
  }

  // ----- the dispatcher as a transition system -----

  /** A row as the dispatcher's query returned it. */
  datatype Item = Item(id: nat, row: Row)

  datatype Answer = Accepted | Refused | NoRequest // a 2xx answer, any other failure, or no request could be built

  datatype Phase =
    | Between                         // about to look at the next item
    | Answered(answer: Answer)        // about to record the outcome of a delivery
    | GivingUp                        // about to push the row a day back

  /** `posts` lists the requests made so far, `first` when each row was first looked at, and `lost` how many
      outcomes of each row were never recorded; the program stores none of the three. */
  datatype Post = Post(id: nat, attempts: nat, at: int)

  datatype World = World(
    rows: seq<Row>,
    batch: seq<Item>,
    phase: Phase,
    now: int,
    posts: seq<Post>,
    first: map<nat, int>,
    lost: map<nat, nat>)

  datatype Step =
    | Enqueue
    | List
    | Deliver(answer: Answer)
    | Record
    | RecordFails
    | Pass(seconds: nat)
    | Restart

  predicate IsDue(r: Row, now: int) {
    r.status != Sent && r.nextAt <= now
  }

  /** The due rows from `from` on, lowest id first, at most `limit`. */
  function DueItems(rows: seq<Row>, now: int, from: nat, limit: nat): (items: seq<Item>)
    requires from <= |rows|
    ensures forall i | 0 <= i < |items| ::
              && from <= items[i].id < |rows| && items[i].row == rows[items[i].id]
              && IsDue(items[i].row, now) && items[i].row.status != Sent && items[i].row.nextAt <= now
    ensures forall i, j | 0 <= i < j < |items| :: items[i].id < items[j].id
    decreases |rows| - from
  {
    if limit == 0 || from == |rows| then []
    else if IsDue(rows[from], now) then [Item(from, rows[from])] + DueItems(rows, now, from + 1, limit - 1)
    else DueItems(rows, now, from + 1, limit)
  }

  /** A due row is left out only if the list is full of rows with lower ids. */
  lemma {:induction false} DueItemsLeaveOutTheLast(rows: seq<Row>, now: int, from: nat, limit: nat, id: nat)
    requires from <= id < |rows| && rows[id].status != Sent && rows[id].nextAt <= now
    ensures var items := DueItems(rows, now, from, limit);
            && |items| <= limit
            && (Item(id, rows[id]) in items
                || (|items| == limit && forall i | 0 <= i < |items| :: items[i].id < id))
    decreases |rows| - from
  {
    if limit > 0 {
      DueItemsFrom(rows, now, from, limit);
      hide DueItems;
      var rest := if IsDue(rows[from], now) then limit - 1 else limit;
      if from < id {
        DueItemsLeaveOutTheLast(rows, now, from + 1, rest, id);
      } else {
        DueItemsAreFew(rows, now, from + 1, limit - 1);
      }
    }
  }

  lemma DueItemsFrom(rows: seq<Row>, now: int, from: nat, limit: nat)
    requires from < |rows| && limit > 0
    ensures DueItems(rows, now, from, limit)
            == if IsDue(rows[from], now) then [Item(from, rows[from])] + DueItems(rows, now, from + 1, limit - 1)
               else DueItems(rows, now, from + 1, limit)
  {
  }

  lemma NoMoreItems(rows: seq<Row>, now: int, from: nat, limit: nat)
    requires from <= |rows| && (limit == 0 || from == |rows|)
    ensures DueItems(rows, now, from, limit) == []
  {
  }

  lemma {:induction false} DueItemsAreFew(rows: seq<Row>, now: int, from: nat, limit: nat)
    requires from <= |rows|
    ensures |DueItems(rows, now, from, limit)| <= limit
    decreases |rows| - from
  {
    if limit > 0 && from < |rows| {
      DueItemsAreFew(rows, now, from + 1, if IsDue(rows[from], now) then limit - 1 else limit);
    }
  }

  function MarkSent(r: Row): Row {
    Row(Sent, r.attempts + 1, r.nextAt)
  }

  function MarkRetry(r: Row, nextAt: int): Row {
    Row(Retrying, r.attempts + 1, nextAt)
  }

  function LostOf(w: World, id: nat): nat {
    if id in w.lost then w.lost[id] else 0
  }

  function Looked(w: World, id: nat): map<nat, int> {
    if id in w.first then w.first else w.first[id := w.now]
  }

  /** Whether the present item has had its request and no record of it yet. */
  predicate PostPending(w: World) {
    w.phase.Answered? && w.phase.answer != NoRequest
  }

  function Unrecorded(w: World): map<nat, nat> {
    if w.batch != [] && PostPending(w)
    then w.lost[w.batch[0].id := LostOf(w, w.batch[0].id) + 1] else w.lost
  }

  /** The first half of deliverOne: the guard on the attempts, then the request. */
  function Delivers(w: World, answer: Answer): World
    requires w.batch != []
  {
    var item := w.batch[0];
    var seen := w.(first := Looked(w, item.id));
    if item.row.attempts >= MAX_ATTEMPTS then seen.(phase := GivingUp)
    else if answer == NoRequest then seen.(phase := Answered(NoRequest))
    else seen.(phase := Answered(answer), posts := w.posts + [Post(item.id, item.row.attempts, w.now)])
  }

  /** The second half: the update of the row, by its id. */
  function Recorded(w: World): Row
    requires w.batch != [] && w.phase != Between && w.batch[0].id < |w.rows|
  {
    var item := w.batch[0];
    var r := w.rows[item.id];
    match w.phase
    case Answered(Accepted) => MarkSent(r)
    case GivingUp => MarkRetry(r, w.now + DAY)
    case _ => MarkRetry(r, w.now + RetryAfter(item.row.attempts))
  }

  function Next(w: World, step: Step): Option<World> {
    match step
    case Enqueue => Option.Some(w.(rows := w.rows + [Row(Unsent, 0, w.now)]))
    case List =>
      if w.batch == [] && w.phase == Between
      then Option.Some(w.(batch := DueItems(w.rows, w.now, 0, BATCH))) else None
    case Deliver(answer) =>
      if w.batch != [] && w.phase == Between then Option.Some(Delivers(w, answer)) else None
    case Record =>
      if w.batch != [] && w.phase != Between && w.batch[0].id < |w.rows|
      then Option.Some(w.(rows := w.rows[w.batch[0].id := Recorded(w)], batch := w.batch[1..], phase := Between))
      else None
    case RecordFails =>
      if w.batch != [] && w.phase != Between
      then Option.Some(w.(batch := w.batch[1..], phase := Between, lost := Unrecorded(w))) else None
    case Pass(seconds) => Option.Some(w.(now := w.now + seconds))
    case Restart => Option.Some(w.(batch := [], phase := Between, lost := Unrecorded(w)))
  }

  function Exec(w: World, steps: seq<Step>): Option<World>
    decreases |steps|
  {
    if steps == [] then Option.Some(w)
    else
      match Next(w, steps[0])
      case None => None
      case Some(next) => Exec(next, steps[1..])
  }

  function Start(now: int): World {
    World([], [], Between, now, [], map[], map[])
  }

  ghost predicate Reachable(w: World) {
    exists now: int, steps: seq<Step> :: Exec(Start(now), steps) == Option.Some(w)
  }

  // ----- invariants -----

  function PostsOf(posts: seq<Post>, id: nat): nat {
    if posts == [] then 0
    else PostsOf(posts[..|posts| - 1], id) + if posts[|posts| - 1].id == id then 1 else 0
  }

  function Capped(n: nat): nat {
    if n > MAX_ATTEMPTS then MAX_ATTEMPTS else n
  }

  /** 1 while the row's request awaits its record. */
  function InHand(w: World, id: nat): nat {
    if w.batch != [] && w.batch[0].id == id && PostPending(w) then 1 else 0
  }

  /** The least time that must pass before a request made with that many attempts. */
  function BackoffSum(attempts: nat): int {
    5 * (Pow2(attempts) - 1)
  }

  predicate BatchOk(w: World) {
    && (w.phase != Between ==> w.batch != [])
    && (forall i, j | 0 <= i < j < |w.batch| :: w.batch[i].id < w.batch[j].id)
    && (forall i | 0 <= i < |w.batch| ::
          w.batch[i].id < |w.rows| && w.batch[i].row == w.rows[w.batch[i].id] && IsDue(w.batch[i].row, w.now))
    && (w.phase.Answered? ==> w.batch[0].row.attempts < MAX_ATTEMPTS)
    && (w.phase == GivingUp ==> w.batch[0].row.attempts >= MAX_ATTEMPTS)
    && (w.phase != Between ==> w.batch[0].id in w.first)
  }

  predicate TimesOk(w: World) {
    && (forall id | id in w.first :: id < |w.rows| && w.first[id] <= w.now)
    && (forall id: nat | id < |w.rows| && id !in w.first :: w.rows[id].attempts == 0)
    && (forall id | id in w.first && w.rows[id].attempts > 0 && w.rows[id].status != Sent ::
          w.rows[id].nextAt >= w.first[id] + BackoffSum(Capped(w.rows[id].attempts)))
    && (forall i | 0 <= i < |w.posts| ::
          && w.posts[i].attempts < MAX_ATTEMPTS
          && w.posts[i].id in w.first
          && w.posts[i].at >= w.first[w.posts[i].id] + BackoffSum(w.posts[i].attempts))
  }

  ghost predicate CountsOk(w: World) {
    && (forall id: nat | id < |w.rows| ::
          PostsOf(w.posts, id) <= Capped(w.rows[id].attempts) + LostOf(w, id) + InHand(w, id))
    && (forall id: nat | id >= |w.rows| :: PostsOf(w.posts, id) == 0)
  }

  ghost predicate Inv(w: World) {
    BatchOk(w) && TimesOk(w) && CountsOk(w)
  }

  lemma PostAppended(posts: seq<Post>, p: Post)
    ensures forall id :: PostsOf(posts + [p], id) == PostsOf(posts, id) + if p.id == id then 1 else 0
  {
    assert (posts + [p])[..|posts + [p]| - 1] == posts;
  }

  lemma BackoffGrows(attempts: nat)
    requires attempts < MAX_ATTEMPTS
    ensures BackoffSum(attempts) + RetryAfter(attempts) == BackoffSum(attempts + 1)
    ensures 0 <= BackoffSum(attempts)
    ensures BackoffSum(MAX_ATTEMPTS) <= DAY
  {
    EarlyRetries(attempts);
    Pow2Rises(0, attempts);
    Pow2Values();
  }

  lemma DeliverKeeps(w: World, answer: Answer)
    requires Inv(w) && Next(w, Deliver(answer)).Some?
    ensures Inv(Next(w, Deliver(answer)).value)
  {
    DeliverBatch(w, answer);
    DeliverTimes(w, answer);
    DeliverCounts(w, answer);
  }

  lemma DeliverBatch(w: World, answer: Answer)
    requires BatchOk(w) && Next(w, Deliver(answer)).Some?
    ensures BatchOk(Next(w, Deliver(answer)).value)
  {
  }

  lemma DeliverTimes(w: World, answer: Answer)
    requires BatchOk(w) && TimesOk(w) && Next(w, Deliver(answer)).Some?
    ensures TimesOk(Next(w, Deliver(answer)).value)
  {
    assert BackoffSum(0) == 0;
    hide BackoffSum, DueItems, RetryAfter, Capped;
    var item := w.batch[0];
    assert w.rows[item.id] == item.row && item.row.nextAt <= w.now;
  }

  lemma DeliverCounts(w: World, answer: Answer)
    requires BatchOk(w) && CountsOk(w) && Next(w, Deliver(answer)).Some?
    ensures CountsOk(Next(w, Deliver(answer)).value)
  {
    var item := w.batch[0];
    PostAppended(w.posts, Post(item.id, item.row.attempts, w.now));
    hide PostsOf, RetryAfter, DueItems;
  }

  lemma RecordKeeps(w: World)
    requires Inv(w) && Next(w, Record).Some?
    ensures Inv(Next(w, Record).value)
  {
    RecordBatch(w);
    RecordTimes(w);
    RecordCounts(w);
  }

  lemma RecordBatch(w: World)
    requires BatchOk(w) && Next(w, Record).Some?
    ensures BatchOk(Next(w, Record).value)
  {
    hide Recorded;
  }

  /** What an update leaves in the row of its item. */
  lemma RecordedRow(w: World)
    requires BatchOk(w) && TimesOk(w) && w.batch != [] && w.phase != Between
    ensures var item := w.batch[0];
            var r := Recorded(w);
            && r.attempts == item.row.attempts + 1
            && (r.status != Sent ==> r.nextAt >= w.first[item.id] + BackoffSum(Capped(r.attempts)))
  {
    var item := w.batch[0];
    assert item.row == w.rows[item.id] && item.row.nextAt <= w.now && item.row.status != Sent;
    assert BackoffSum(0) == 0;
    if item.row.attempts < MAX_ATTEMPTS {
      BackoffGrows(item.row.attempts);
    } else {
      BackoffGrows(0);
    }
    hide BackoffSum, RetryAfter;
  }

  lemma RecordTimes(w: World)
    requires BatchOk(w) && TimesOk(w) && Next(w, Record).Some?
    ensures TimesOk(Next(w, Record).value)
  {
    RecordedRow(w);
    hide BackoffSum, Recorded, Capped;
  }

  lemma RecordCounts(w: World)
    requires BatchOk(w) && TimesOk(w) && CountsOk(w) && Next(w, Record).Some?
    ensures CountsOk(Next(w, Record).value)
  {
    RecordedRow(w);
    hide BackoffSum, Recorded, PostsOf, TimesOk;
    var to := Next(w, Record).value;
    var x := w.batch[0].id;
    assert InHand(to, x) == 0;
    forall id: nat | id < |to.rows|
      ensures PostsOf(to.posts, id) <= Capped(to.rows[id].attempts) + LostOf(to, id) + InHand(to, id)
    {
      assert InHand(to, id) == 0;
    }
  }

  lemma NextKeeps(w: World, step: Step)
    requires Inv(w) && Next(w, step).Some?
    ensures Inv(Next(w, step).value)
  {
    match step
    case Deliver(answer) => DeliverKeeps(w, answer);
    case Record => RecordKeeps(w);
    case _ => OtherKeeps(w, step);
  }

  lemma OtherKeeps(w: World, step: Step)
    requires Inv(w) && Next(w, step).Some? && !step.Deliver? && !step.Record?
    ensures Inv(Next(w, step).value)
  {
    OtherBatch(w, step);
    OtherTimes(w, step);
    OtherCounts(w, step);
  }

  lemma OtherBatch(w: World, step: Step)
    requires BatchOk(w) && Next(w, step).Some? && !step.Deliver? && !step.Record?
    ensures BatchOk(Next(w, step).value)
  {
  }

  lemma OtherTimes(w: World, step: Step)
    requires TimesOk(w) && Next(w, step).Some? && !step.Deliver? && !step.Record?
    ensures TimesOk(Next(w, step).value)
  {
    hide BackoffSum, Capped, DueItems;
  }

  lemma OtherCounts(w: World, step: Step)
    requires BatchOk(w) && CountsOk(w) && Next(w, step).Some? && !step.Deliver? && !step.Record?
    ensures CountsOk(Next(w, step).value)
  {
    hide PostsOf, DueItems, BatchOk;
  }

  lemma {:induction false} ExecKeeps(w: World, steps: seq<Step>)
    requires Inv(w) && Exec(w, steps).Some?
    ensures Inv(Exec(w, steps).value)
    decreases |steps|
  {
    hide Inv, Next;
    if steps != [] {
      NextKeeps(w, steps[0]);
      ExecKeeps(Next(w, steps[0]).value, steps[1..]);
    }
  }

  lemma ReachableIsOk(w: World)
    requires Reachable(w)
    ensures Inv(w)
  {
    var now: int, steps: seq<Step> :| Exec(Start(now), steps) == Option.Some(w);
    ExecKeeps(Start(now), steps);
  }

  // ----- guarantees -----

  /** In every run each row is posted at most eight times, plus once for each outcome that was never
      recorded. With no lost record, eight is the bound. */
  lemma AtMostEightPosts(w: World, id: nat)
    requires Reachable(w)
    ensures PostsOf(w.posts, id) <= 8 + LostOf(w, id)
    ensures LostOf(w, id) == 0 ==> PostsOf(w.posts, id) <= 8
  {
    ReachableIsOk(w);
  }

  /** No request is made for a row that is SENT, however stale the batch, and SENT rows never change. */
  lemma SentStaysSent(w: World, step: Step, id: nat)
    requires Reachable(w) && Next(w, step).Some? && id < |w.rows| && w.rows[id].status == Sent
    ensures var to := Next(w, step).value;
            && id < |to.rows| && to.rows[id] == w.rows[id]
            && PostsOf(to.posts, id) == PostsOf(w.posts, id)
  {
    hide TimesOk, CountsOk, Reachable, DueItems, RetryAfter;
    ReachableIsOk(w);
    if step.Deliver? {
      var item := w.batch[0];
      PostAppended(w.posts, Post(item.id, item.row.attempts, w.now));
    }
  }

  /** Every request made with k attempts behind it came at least 5 * (2^k - 1) seconds after the row was
      first looked at, and k was below eight. */
  lemma PostsBackOff(w: World, i: nat)
    requires Reachable(w) && i < |w.posts|
    ensures w.posts[i].id in w.first
    ensures w.posts[i].at >= w.first[w.posts[i].id] + 5 * (Pow2(w.posts[i].attempts) - 1)
    ensures w.posts[i].attempts < 8
  {
    ReachableIsOk(w);
  }

  // ----- what becomes of an item -----

  /** A new row is due at once. */
  lemma EnqueuedIsDue(w: World)
    ensures var to := Next(w, Enqueue).value;
            && to.rows == w.rows + [Row(Unsent, 0, w.now)]
            && to.batch == w.batch && to.posts == w.posts
  {
  }

  /** A tick takes up the due rows, and if there are more than twenty, those with the lowest ids. */
  lemma TicksTakeTheDue(w: World, id: nat)
    requires Next(w, List).Some? && id < |w.rows| && w.rows[id].status != Sent && w.rows[id].nextAt <= w.now
    ensures var batch := Next(w, List).value.batch;
            && |batch| <= 20
            && (Item(id, w.rows[id]) in batch
                || (|batch| == 20 && forall i | 0 <= i < |batch| :: batch[i].id < id))
  {
    DueItemsLeaveOutTheLast(w.rows, w.now, 0, BATCH, id);
  }

  /** An item below eight attempts is posted, unless no request can be built; one with eight is not. */
  lemma BelowEightIsPosted(w: World, answer: Answer)
    requires Reachable(w) && w.batch != [] && w.phase == Between
    ensures var item := w.batch[0];
            var to := Next(w, Deliver(answer)).value;
            && Next(w, Deliver(answer)).Some?
            && to.rows == w.rows && to.batch == w.batch
            && (item.row.attempts < 8 ==>
                  && to.phase == Answered(answer)
                  && to.posts == (if answer == NoRequest then w.posts
                                  else w.posts + [Post(item.id, item.row.attempts, w.now)]))
            && (item.row.attempts >= 8 ==> to.phase == GivingUp && to.posts == w.posts)
  {
  }

  /** What a recorded outcome leaves in the row: an accepted item is SENT, a refused one with k attempts is
      due again after exactly 5 * 2^k seconds, one that is given up after exactly a day; each has one more
      attempt, and no other row changes. */
  lemma RecordedAsAnswered(w: World)
    requires Reachable(w) && w.phase != Between
    ensures w.batch != [] && Next(w, Record).Some?
    ensures var item := w.batch[0];
            var to := Next(w, Record).value;
            && item.id < |w.rows| == |to.rows| && item.row == w.rows[item.id]
            && to.batch == w.batch[1..] && to.phase == Between && to.posts == w.posts
            && (forall id | 0 <= id < |w.rows| && id != item.id :: to.rows[id] == w.rows[id])
            && to.rows[item.id].attempts == item.row.attempts + 1
            && (w.phase == Answered(Accepted) ==> to.rows[item.id].status == Sent)
            && (w.phase == GivingUp ==>
                  to.rows[item.id].status == Retrying && to.rows[item.id].nextAt == w.now + 86400)
            && (w.phase.Answered? && w.phase != Answered(Accepted) ==>
                  && item.row.attempts < 8
                  && to.rows[item.id].status == Retrying
                  && to.rows[item.id].nextAt == w.now + 5 * Pow2(item.row.attempts))
  {
    hide Reachable, TimesOk, CountsOk, RetryAfter;
    ReachableIsOk(w);
    if w.phase.Answered? {
      EarlyRetries(w.batch[0].row.attempts);
    }
  }

  /** A row becomes SENT by the record of an accepted request and by nothing else. */
  lemma SentByAcceptanceOnly(w: World, step: Step, id: nat)
    requires Reachable(w) && Next(w, step).Some? && id < |w.rows| && w.rows[id].status != Sent
    ensures var to := Next(w, step).value;
            && id < |to.rows|
            && (to.rows[id].status == Sent
                <==> step == Record && w.batch != [] && w.batch[0].id == id && w.phase == Answered(Accepted))
  {
    hide Reachable, TimesOk, CountsOk, DueItems, RetryAfter;
    ReachableIsOk(w);
  }

  /** Once SENT, a row stays as it is, and no further request is made for it, in any run. */
  lemma {:induction false} SentForGood(w: World, steps: seq<Step>, id: nat)
    requires Reachable(w) && Exec(w, steps).Some? && id < |w.rows| && w.rows[id].status == Sent
    ensures var to := Exec(w, steps).value;
            && id < |to.rows| && to.rows[id] == w.rows[id]
            && PostsOf(to.posts, id) == PostsOf(w.posts, id)
    decreases |steps|
  {
    hide Reachable, Next, PostsOf;
    if steps != [] {
      SentStaysSent(w, steps[0], id);
      ReachableOn(w, steps[0]);
      SentForGood(Next(w, steps[0]).value, steps[1..], id);
    }
  }

  predicate OnlyOthers(steps: seq<Step>) {
    forall i | 0 <= i < |steps| :: steps[i].Enqueue? || steps[i].Pass?
  }

  /** What others do between two statements of the dispatcher leaves its item as it is. */
  lemma {:induction false} OthersLeaveTheItem(w: World, steps: seq<Step>)
    requires OnlyOthers(steps) && Exec(w, steps).Some?
    ensures var to := Exec(w, steps).value;
            && to.batch == w.batch && to.phase == w.phase && to.posts == w.posts
            && w.rows <= to.rows && to.now >= w.now
    decreases |steps|
  {
    if steps != [] {
      OthersLeaveTheItem(Next(w, steps[0]).value, steps[1..]);
    }
  }

  /** A webhook that is accepted at a request and recorded, whatever others do in between, is SENT, and never
      requested again in any later run. */
  lemma AcceptedIsNeverPostedAgain(w: World, between: seq<Step>, after: seq<Step>)
    requires Reachable(w) && w.batch != [] && w.phase == Between && w.batch[0].row.attempts < 8
    requires OnlyOthers(between) && Exec(w, [Deliver(Accepted)] + between + [Record] + after).Some?
    ensures var id := w.batch[0].id;
            var to := Exec(w, [Deliver(Accepted)] + between + [Record] + after).value;
            && id < |to.rows| && to.rows[id].status == Sent
            && to.rows[id].attempts == w.batch[0].row.attempts + 1
            && PostsOf(to.posts, id) == PostsOf(w.posts, id) + 1
  {
    hide Reachable, Next, PostsOf;
    var id := w.batch[0].id;
    BelowEightIsPosted(w, Accepted);
    ReachableOn(w, Deliver(Accepted));
    var posted := Next(w, Deliver(Accepted)).value;
    PostAppended(w.posts, Post(id, w.batch[0].row.attempts, w.now));
    var rest := between + [Record] + after;
    assert [Deliver(Accepted)] + between + [Record] + after == [Deliver(Accepted)] + rest;
    assert ([Deliver(Accepted)] + rest)[1..] == rest;
    assert rest == between + ([Record] + after);
    ExecInTwo(posted, between, [Record] + after);
    OthersLeaveTheItem(posted, between);
    ReachesOn(posted, between);
    var waiting := Exec(posted, between).value;
    RecordedAsAnswered(waiting);
    ReachableOn(waiting, Record);
    assert ([Record] + after)[1..] == after;
    SentForGood(Next(waiting, Record).value, after, id);
  }

  lemma {:induction false} ExecInTwo(w: World, a: seq<Step>, b: seq<Step>)
    requires Exec(w, a + b).Some?
    ensures Exec(w, a).Some? && Exec(w, a + b) == Exec(Exec(w, a).value, b)
    decreases |a|
  {
    if a == [] {
      assert a + b == b;
    } else {
      assert (a + b)[0] == a[0] && (a + b)[1..] == a[1..] + b;
      ExecInTwo(Next(w, a[0]).value, a[1..], b);
    }
  }

  lemma {:induction false} ReachesOn(w: World, steps: seq<Step>)
    requires Reachable(w) && Exec(w, steps).Some?
    ensures Reachable(Exec(w, steps).value)
    decreases |steps|
  {
    hide Reachable, Next;
    if steps != [] {
      ReachableOn(w, steps[0]);
      ReachesOn(Next(w, steps[0]).value, steps[1..]);
    }
  }

  // ----- where the bound ends -----

  lemma {:induction false} ExecThen(w: World, steps: seq<Step>, last: Step)
    requires Exec(w, steps).Some?
    ensures Exec(w, steps + [last]) == Next(Exec(w, steps).value, last)
    decreases |steps|
  {
    if steps == [] {
      assert steps + [last] == [last] && [last][1..] == [];
    } else {
      assert (steps + [last])[1..] == steps[1..] + [last];
      ExecThen(Next(w, steps[0]).value, steps[1..], last);
    }
  }

  lemma ReachableOn(w: World, step: Step)
    requires Reachable(w) && Next(w, step).Some?
    ensures Reachable(Next(w, step).value)
  {
    var now: int, steps: seq<Step> :| Exec(Start(now), steps) == Option.Some(w);
    ExecThen(Start(now), steps, step);
  }

  /** One row that has been accepted and not recorded k times. */
  ghost predicate AcceptedInVain(w: World, k: nat) {
    && Reachable(w) && w.rows == [Row(Unsent, 0, 0)] && w.batch == [] && w.phase == Between && w.now == 0
    && PostsOf(w.posts, 0) == k && LostOf(w, 0) == k
  }

  /** The eight-request bound needs the records: an accepted row whose outcome is lost k times is requested
      k times, for every k. */
  lemma {:induction false} LostRecordsRepeat(k: nat)
    ensures exists w :: AcceptedInVain(w, k)
  {
    hide Reachable;
    if k == 0 {
      StartIsReachable();
      var start := Next(Start(0), Enqueue).value;
      ReachableOn(Start(0), Enqueue);
      assert AcceptedInVain(start, 0);
    } else {
      LostRecordsRepeat(k - 1);
      var w :| AcceptedInVain(w, k - 1);
      var listed := Next(w, List).value;
      assert DueItems(w.rows, 0, 1, 19) == [];
      assert listed.batch == [Item(0, w.rows[0])];
      ReachableOn(w, List);
      var posted := Next(listed, Deliver(Accepted)).value;
      ReachableOn(listed, Deliver(Accepted));
      PostAppended(w.posts, Post(0, 0, 0));
      var lost := Next(posted, RecordFails).value;
      ReachableOn(posted, RecordFails);
      assert AcceptedInVain(lost, k);
    }
  }

  /** One row whose outcome has been lost l times and which has then been refused, and recorded, k times. */
  ghost predicate RefusedAfterLosses(w: World, l: nat, k: nat) {
    && Reachable(w) && w.batch == [] && w.phase == Between
    && |w.rows| == 1 && w.rows[0].attempts == k && IsDue(w.rows[0], w.now)
    && PostsOf(w.posts, 0) == l + k && LostOf(w, 0) == l
  }

  ghost predicate RefusalsReached(l: nat, k: nat) {
    exists w :: RefusedAfterLosses(w, l, k)
  }

  lemma OneMoreRefusal(w: World, l: nat, k: nat)
    requires RefusedAfterLosses(w, l, k) && k < MAX_ATTEMPTS
    ensures RefusalsReached(l, k + 1)
  {
    hide Reachable, PostsOf, RetryAfter;
    EarlyRetries(k);
    OnlyItemIsDue(w.rows, w.now);
    var listed := Next(w, List).value;
    ReachableOn(w, List);
    var posted := Next(listed, Deliver(Refused)).value;
    ReachableOn(listed, Deliver(Refused));
    PostAppended(w.posts, Post(0, k, w.now));
    var recorded := Next(posted, Record).value;
    ReachableOn(posted, Record);
    var pause: nat := RetryAfter(k);
    var to := Next(recorded, Pass(pause)).value;
    ReachableOn(recorded, Pass(pause));
    var refusals := k + 1;
    assert RefusedAfterLosses(to, l, refusals);
  }

  lemma OnlyItemIsDue(rows: seq<Row>, now: int)
    requires |rows| == 1 && IsDue(rows[0], now)
    ensures DueItems(rows, now, 0, BATCH) == [Item(0, rows[0])]
  {
    assert DueItems(rows, now, 1, 19) == [];
  }

  lemma {:induction false} RefusedAgain(l: nat, k: nat)
    requires k <= MAX_ATTEMPTS
    ensures RefusalsReached(l, k)
  {
    if k == 0 {
      LostRecordsRepeat(l);
      var w :| AcceptedInVain(w, l);
      assert RefusedAfterLosses(w, l, 0);
    } else {
      var fewer := k - 1;
      RefusedAgain(l, fewer);
      var w :| RefusedAfterLosses(w, l, fewer);
      OneMoreRefusal(w, l, fewer);
    }
  }

  ghost predicate Attained(w: World, lost: nat) {
    Reachable(w) && LostOf(w, 0) == lost && PostsOf(w.posts, 0) == 8 + lost
  }

  /** The bound of AtMostEightPosts is attained, for every number of lost records. */
  lemma EightPostsAndTheLostOnes(lost: nat)
    ensures exists w :: Attained(w, lost)
  {
    hide Reachable;
    RefusedAgain(lost, MAX_ATTEMPTS);
    var w :| RefusedAfterLosses(w, lost, MAX_ATTEMPTS);
    assert Attained(w, lost);
  }

  /** Eight requests are the bound if and only if no record is lost. */
  lemma EightIsTheBoundWithoutLossOnly(lost: nat)
    ensures (forall w | Reachable(w) && LostOf(w, 0) <= lost :: PostsOf(w.posts, 0) <= 8) <==> lost == 0
  {
    hide Reachable;
    forall w | Reachable(w) && LostOf(w, 0) == 0 ensures PostsOf(w.posts, 0) <= MAX_ATTEMPTS {
      AtMostEightPosts(w, 0);
    }
    EightPostsAndTheLostOnes(lost);
    var w :| Attained(w, lost);
  }

  lemma StartIsReachable()
    ensures Reachable(Start(0))
  {
    assert Exec(Start(0), []) == Option.Some(Start(0));
  }

  // ----- the dispatcher's code -----

  /** No restart, and a failed record only if a fault was counted. */
  function Fits(): (Step, bool) -> bool {
    (step: Step, clean: bool) => step != Restart && (clean ==> step != RecordFails)
  }

  ghost predicate Went(h: History<Step>, k: History<Step>) {
    Continues(h, k, Fits())
  }

  lemma WentOn(h: History<Step>, k: History<Step>, l: History<Step>)
    requires Went(h, k) && Went(k, l)
    ensures Went(h, l) && h.run <= k.run <= l.run && h.faults <= k.faults <= l.faults
  {
    ContinuesOn(h, k, l, Fits());
  }

  /** The dispatcher over the outbox rows that it updates in place. Between its statements others enqueue
      rows and time passes; each method is a run of the transition system. */
  class Dispatcher {
    var rows: seq<Row>
    var now: int

    ghost var batch: seq<Item>
    ghost var phase: Phase
    ghost var posts: seq<Post>
    ghost var first: map<nat, int>
    ghost var lost: map<nat, nat>
    ghost var origin: World
    ghost var run: seq<Step>
    ghost var faults: nat

    constructor (now: int)
      ensures Valid() && W() == Start(now) && origin == Start(now)
    {
      rows, this.now := [], now;
      batch, phase, posts, first, lost := [], Between, [], map[], map[];
      origin, run, faults := Start(now), [], 0;
    }

    ghost function W(): World
      reads this
    {
      World(rows, batch, phase, now, posts, first, lost)
    }

    ghost function H(): History<Step>
      reads `run, `faults
    {
      History(run, faults)
    }

    ghost predicate Valid()
      reads this
    {
      Exec(origin, run) == Option.Some(W())
    }

    ghost method Did(before: World, step: Step, h: History<Step>)
      requires Exec(origin, run) == Option.Some(before) && Next(before, step) == Option.Some(W())
      requires Went(h, H()) && step != Restart && (step == RecordFails ==> faults > h.faults)
      modifies `run
      ensures Valid() && Went(h, H()) && Took(h, H(), step)
    {
      ExecThen(origin, run, step);
      run := run + [step];
      assert run[|run| - 1] == step;
    }

    /** Counts a fault. */
    ghost method Struck(h: History<Step>)
      requires Went(h, H())
      modifies `faults
      ensures faults > old(faults) && Went(h, H())
    {
      faults := faults + 1;
    }

    /** Others enqueue events, and time passes. */
    method Others()
      requires Valid()
      modifies this
      ensures Valid() && origin == old(origin) && Went(old(H()), H()) && faults == old(faults)
      ensures forall i | |old(run)| <= i < |run| :: run[i].Enqueue? || run[i].Pass?
      ensures batch == old(batch) && phase == old(phase) && posts == old(posts)
      ensures first == old(first) && lost == old(lost)
      ensures now >= old(now) && old(rows) <= rows
    {
    }

    method ListDueWebhookOutbox(limit: int) returns (items: seq<Item>)
      ensures items == DueItems(rows, now, 0, if limit <= 0 then 50 else limit)
    {
      hide IsDue, DueItems;
      var atMost: nat := if limit <= 0 then 50 else limit;
      items := [];
      var i := 0;
      while i < |rows| && |items| < atMost
        invariant 0 <= i <= |rows| && |items| <= atMost
        invariant items + DueItems(rows, now, i, atMost - |items|) == DueItems(rows, now, 0, atMost)
      {
        DueItemsFrom(rows, now, i, atMost - |items|);
        if IsDue(rows[i], now) {
          items := items + [Item(i, rows[i])];
        }
        i := i + 1;
      }
      NoMoreItems(rows, now, i, atMost - |items|);
    }

    /** One tick: every due item of the list is delivered once or given up for a day. When the query fails,
        nothing is. */
    method ProcessBatch()
      requires Valid() && phase == Between && batch == []
      modifies this
      ensures Valid() && phase == Between && batch == [] && origin == old(origin) && Went(old(H()), H())
      ensures faults == old(faults) ==> Took(old(H()), H(), List)
    {
      hide Went, Took, Exec, Next;
      ghost var start := H();
      var items := QueryDue();
      if items == None {
        return;
      }
      var i := 0;
      while i < |items.value|
        invariant 0 <= i <= |items.value| && batch == items.value[i..]
        invariant Valid() && phase == Between && origin == old(origin)
        invariant Went(start, H()) && Took(start, H(), List)
        invariant forall j | i <= j < |items.value| :: items.value[j].id < |rows|
      {
        ghost var h := H();
        var _ := DeliverOne(items.value[i]);
        WentOn(start, h, H());
        TookOn(start, h, H(), List);
        assert items.value[i..][1..] == items.value[i + 1..];
        i := i + 1;
      }
    }

    method QueryDue() returns (items: Option<seq<Item>>)
      requires Valid() && phase == Between && batch == []
      modifies this
      ensures Valid() && phase == Between && origin == old(origin) && Went(old(H()), H())
      ensures items.Some? ==> batch == items.value && Took(old(H()), H(), List)
      ensures items.Some? ==> forall j | 0 <= j < |items.value| :: items.value[j].id < |rows|
      ensures items == None ==> batch == [] && faults > old(faults)
    {
      hide Went, Took, Exec;
      Others();
      var fails: bool := *;
      if fails {
        Struck(old(H()));
        return None;
      }
      ghost var before := W();
      var due := ListDueWebhookOutbox(BATCH);
      batch := due;
      Did(before, List, old(H()));
      return Option.Some(due);
    }

    /** Delivers one item, or gives it up, and records the outcome; the answer is NoRequest when there was no
        request. */
    method DeliverOne(item: Item) returns (answer: Answer)
      requires Valid() && phase == Between && batch != [] && batch[0] == item && item.id < |rows|
      modifies this
      ensures Valid() && phase == Between && batch == old(batch)[1..] && |rows| >= |old(rows)|
      ensures origin == old(origin) && Went(old(H()), H())
      ensures faults == old(faults) ==>
                && rows[item.id].attempts == old(rows)[item.id].attempts + 1
                && (item.row.attempts < 8 && answer == Accepted ==> rows[item.id].status == Sent)
                && (item.row.attempts >= 8 || answer != Accepted ==> rows[item.id].status == Retrying)
    {
      hide Went, Took, Exec, Next;
      ghost var start := H();
      answer := PostItem(item);
      ghost var h := H();
      if item.row.attempts >= MAX_ATTEMPTS {
        MarkWebhook(item, Retrying, DAY);
      } else if answer == Accepted {
        MarkWebhook(item, Sent, 0);
      } else {
        MarkWebhook(item, Retrying, RetryAfter(item.row.attempts));
      }
      WentOn(start, h, H());
    }

    /** Makes the request, unless the item has used up its attempts. */
    method PostItem(item: Item) returns (answer: Answer)
      requires Valid() && phase == Between && batch != [] && batch[0] == item && item.id < |rows|
      modifies this
      ensures Valid() && batch == old(batch) && old(rows) <= rows
      ensures phase == if item.row.attempts >= MAX_ATTEMPTS then GivingUp else Answered(answer)
      ensures origin == old(origin) && Went(old(H()), H()) && Took(old(H()), H(), Deliver(answer))
    {
      hide Went, Took, Exec;
      Others();
      ghost var before := W();
      first := Looked(before, item.id);
      answer := NoRequest;
      if item.row.attempts >= MAX_ATTEMPTS {
        phase := GivingUp;
      } else {
        answer := *;
        phase := Answered(answer);
        if answer != NoRequest {
          posts := posts + [Post(item.id, item.row.attempts, now)];
        }
      }
      Did(before, Deliver(answer), old(H()));
    }

    /** MarkWebhookSent or MarkWebhookRetry; the write may fail. */
    method MarkWebhook(item: Item, status: Delivery, delay: int)
      requires Valid() && batch != [] && batch[0] == item && item.id < |rows|
      requires match phase
               case Answered(Accepted) => status == Sent
               case GivingUp => status == Retrying && delay == DAY
               case Answered(_) => status == Retrying && delay == RetryAfter(item.row.attempts)
               case Between => false
      modifies this
      ensures Valid() && phase == Between && batch == old(batch)[1..] && |rows| >= |old(rows)|
      ensures origin == old(origin) && Went(old(H()), H())
      ensures Took(old(H()), H(), if faults == old(faults) then Record else RecordFails)
      ensures faults == old(faults) ==>
                && rows[item.id].attempts == old(rows)[item.id].attempts + 1
                && rows[item.id].status == (if status == Sent then Sent else Retrying)
                && (status != Sent ==> rows[item.id].nextAt == now + delay)
    {
      hide Went, Took, Exec;
      Others();
      ghost var before := W();
      var fails: bool := *;
      if fails {
        lost := Unrecorded(before);
        Struck(old(H()));
      } else {
        var r := rows[item.id];
        rows := rows[item.id := if status == Sent then MarkSent(r) else MarkRetry(r, now + delay)];
      }
      batch, phase := batch[1..], Between;
      Did(before, if fails then RecordFails else Record, old(H()));
    }
  }

  lemma DispatcherStatesAreReachable(d: Dispatcher, now: int, id: nat)
    requires d.Valid() && d.origin == Start(now)
    ensures Reachable(d.W())
    ensures d.lost == map[] ==> PostsOf(d.posts, id) <= 8
  {
    AtMostEightPosts(d.W(), id);
  }
}

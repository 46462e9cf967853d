/** Witnesses: an infinite fair run in which a waiting payment is expired and the engine ticks on for ever,
    and a run that strands a payment. */
module Witnesses {
  import opened Types
  import opened Database
  import opened Machine
  import opened Safety
  import opened Guarantees
  import opened Liveness
  import opened DoubleRelease

  /** An idle engine with nothing to do: the clock moves, the engine ticks, and so on. */
  function Idling(base: State, k: nat): State {
    if k == 0 then base
    else
      var s := Idling(base, k - 1);
      if k % 2 == 1 then s.(now := s.now + 1) else s.(engine := s.engine.(tickNow := s.now))
  }

  lemma {:induction false} IdlingStays(base: State, k: nat)
    requires Idle(base) && base.engine.tickNow <= base.now
    ensures var s := Idling(base, k);
            && Idle(s) && s.db == base.db && s.tasks == base.tasks
            && s.engine.tickNow <= s.now && (k % 2 == 1 ==> s.engine.tickNow < s.now)
  {
    if k > 0 {
      IdlingStays(base, k - 1);
    }
  }

  /** The run from a state in which the engine is about to expire its only payment. */
  function AfterExpiry(s: State): State
    requires s.engine.batch != [] && Writes(s).Some? && Writes(s).value.engine.pc.Announcing?
  {
    var told := Announced(Writes(s).value);
    told.(engine := told.engine.(pc := Ready, dueAt := told.engine.dueAt - {s.engine.batch[0].id}, batch := []))
  }

  function StateAt(s: State, i: nat): State
    requires s.engine.batch != [] && Writes(s).Some? && Writes(s).value.engine.pc.Announcing?
  {
    if i == 0 then s
    else if i == 1 then Writes(s).value
    else if i == 2 then Announced(Writes(s).value)
    else Idling(AfterExpiry(s), i - 3)
  }

  function ActionAt(i: nat): Action {
    if i == 0 then EngineDoes(Write)
    else if i == 1 then EngineDoes(Announce)
    else if i == 2 then EngineDoes(Clear)
    else if i % 2 == 1 then Advance(1)
    else EngineDoes(Tick([]))
  }

  /** The engine is about to expire the only payment there is. */
  ghost predicate AboutToExpire(s: State, x: PaymentId) {
    && Reachable(s) && s.engine.pc == Expiring && |s.engine.batch| == 1 && s.engine.batch[0].id == x
    && s.db.payments.Keys == {x} && HasStatus(s.db, x, AwaitingTransfer)
  }

  lemma ItExpires(s: State, x: PaymentId)
    requires AboutToExpire(s, x)
    ensures Writes(s).Some? && Writes(s).value.engine == s.engine.(pc := Announcing(PaymentExpired(x), false))
    ensures Writes(s).value.now == s.now && AwaitingIds(Writes(s).value.db) == {}
    ensures s.engine.tickNow <= s.now && |s.engine.batch| == 1 && s.engine.pc == Expiring
  {
    ReachableIsOk(s);
    HeadWaits(s);
    var to := Writes(s).value;
    assert to.db.payments.Keys == {x} && to.db.payments[x].status == Expired;
    assert AwaitingIds(to.db) == {} by {
      assert forall id | id in to.db.payments :: id == x;
    }
  }

  lemma EachStepIsFair(s: State, x: PaymentId, i: nat)
    requires AboutToExpire(s, x)
    requires Writes(s).Some? && Writes(s).value.engine.pc.Announcing?
    ensures Next(StateAt(s, i), ActionAt(i)) == Option.Some(StateAt(s, i + 1))
    ensures Smooth(StateAt(s, i), ActionAt(i))
  {
    hide Writes, AboutToExpire;
    ItExpires(s, x);
    if i >= 3 {
      hide Announced;
      IdleStepIsFair(AfterExpiry(s), i - 3);
    } else {
      hide Idling, Oldest;
      IdlingBegins(AfterExpiry(s));
      FirstStepsAreFair(s, x, i);
    }
  }

  lemma FirstStepsAreFair(s: State, x: PaymentId, i: nat)
    requires |s.engine.batch| == 1 && s.engine.pc == Expiring && i < 3
    requires Writes(s).Some? && Writes(s).value.engine == s.engine.(pc := Announcing(PaymentExpired(x), false))
    requires Idling(AfterExpiry(s), 0) == AfterExpiry(s)
    ensures Next(StateAt(s, i), ActionAt(i)) == Option.Some(StateAt(s, i + 1))
    ensures Smooth(StateAt(s, i), ActionAt(i))
  {
    hide Writes, Idling, Oldest;
    assert s.engine.batch[1..] == [];
  }

  lemma IdlingBegins(base: State)
    ensures Idling(base, 0) == base
  {
  }

  lemma IdleStepIsFair(base: State, k: nat)
    requires Idle(base) && base.engine.tickNow <= base.now && AwaitingIds(base.db) == {}
    ensures Next(Idling(base, k), ActionAt(k + 3)) == Option.Some(Idling(base, k + 1))
    ensures Smooth(Idling(base, k), ActionAt(k + 3))
  {
    IdlingStays(base, k);
    assert Oldest(base.db, []);
    hide Oldest;
  }

  /** There are fair runs with a payment that awaits its transfer, so NoStarvation speaks of something. */
  lemma FairRunsExist()
    ensures exists run: nat -> State, acts: nat -> Action, x: PaymentId :: FairRun(run, acts) && Awaits(run(0), x)
  {
    hide Reachable, AwaitingIds;
    var x := PaymentId("a");
    StartIsReachable();
    var confirmed := CreateAndConfirm(Start(0), x, 5, 100);
    OneAwaits(confirmed, x);
    ReachableOn(confirmed, Advance(100));
    var late := Next(confirmed, Advance(100)).value;
    var started := StartOn(late, [x]);
    ReachableOn(started, EngineDoes(CheckDate));
    var s := Next(started, EngineDoes(CheckDate)).value;
    assert AboutToExpire(s, x);
    ItExpires(s, x);
    RunsFairly(s, x);
  }

  lemma RunsFairly(s: State, x: PaymentId)
    requires AboutToExpire(s, x)
    ensures exists run: nat -> State, acts: nat -> Action :: FairRun(run, acts) && Awaits(run(0), x)
  {
    hide Writes, Reachable, Next, Smooth;
    ItExpires(s, x);
    var run: nat -> State := (i: nat) => StateAt(s, i);
    var acts: nat -> Action := (i: nat) => ActionAt(i);
    forall i: nat ensures StepAt(run, acts, i) {
      EachStepIsFair(s, x, i);
    }
    forall i: nat ensures EngineLater(acts, i) {
      var j: nat := 2 * i + 4;
      assert acts(j).EngineDoes?;
    }
    assert FairRun(run, acts) && Awaits(run(0), x);
  }

  /** A crash between counting a decline and requeueing the payment strands it with retries left. */
  lemma CrashesStrandPayments()
    ensures exists s: State, x: PaymentId ::
              Reachable(s) && Stranded(s, x) && s.db.payments[x].retry < 3
  {
    hide Reachable, Inv;
    var x := PaymentId("a");
    StartIsReachable();
    var confirmed := CreateAndConfirm(Start(0), x, 5, 100);
    OneAwaits(confirmed, x);
    var started := StartOn(confirmed, [x]);
    ReachableOn(started, EngineDoes(CheckDate));
    var calling := Next(started, EngineDoes(CheckDate)).value;
    ReachableOn(calling, EngineDoes(CallRail(Declined)));
    var declining := Next(calling, EngineDoes(CallRail(Declined))).value;
    ReachableOn(declining, EngineDoes(Write));
    var counted := Next(declining, EngineDoes(Write)).value;
    ReachableOn(counted, Crash);
    var s := Next(counted, Crash).value;
    assert Reachable(s) && Stranded(s, x) && s.db.payments[x].retry < 3;
  }
}

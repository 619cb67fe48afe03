/** The on-chain settlement of an order, by the payout or by a node's report. */
module PayoutSettlement {
  import opened Prelude
  import opened PayoutWebhook
  import opened PayoutExecution
  import opened PayoutClaims
  import opened PayoutConfirmation

  /** The task will settle the order on chain. */
  predicate InFlight(s: State, x: Executor, id: Id) {
    Holds(s, x, Settling(id)) || Holds(s, x, Reporting(id))
  }

  /** What the task checked still holds: a confirmed payout of a processing order, or an
      order that a node may report on. */
  predicate Ready(order: Order, phase: Phase) {
    if phase.Settling? then order.status == Processing && order.payout == PayoutSuccess else Open(order)
  }

  /** The settlement in flight is the only one, and what it checked still holds. */
  ghost predicate SoleSettler(s: State, id: Id) {
    && id in s.orders
    && (forall x, y :: InFlight(s, x, id) && InFlight(s, y, id) ==> x == y)
    && (forall x :: InFlight(s, x, id) ==> Ready(s.orders[id], s.running[x]))
  }

  /** A settlement of the order starts. */
  predicate Starts(s: State, e: Event, id: Id)
    requires id in s.orders
  {
    match e
    case SettleStarted(x, i) => i == id && x !in s.running && Ready(s.orders[id], Settling(id))
    case ReportStarted(x, i, of) => i == id && x !in s.running && of in s.orders && s.orders[of].status == Fulfilled
    case _ => false
  }

  /** The order is taken away from its provider: handed back, cancelled, found valid,
      reassigned, or settled or refunded on chain. */
  predicate Withdraws(s: State, e: Event, id: Id)
    requires id in s.orders
  {
    match e
    case Declined(x, _) => Holds(s, x, Loaded(id))
    case Returned(x, result) => HoldsClaim(s, x, id) && result.Refused?
    case CancelWritten(x) => Holds(s, x, Cancelling(id))
    case RecheckWritten(x, valid) => Holds(s, x, Rechecking(id)) && valid
    case Unassigned(i) => i == id && Reassignable(s.orders[id])
    case ChainSettled(i) => i == id
    case ChainRefunded(i) => i == id
    case _ => false
  }

  /** The order is marked fulfilled by a node or by the validation task. */
  predicate Fulfils(s: State, e: Event, id: Id) {
    match e
    case NodeFulfilled(i) => i == id
    case RecheckWritten(x, valid) => Holds(s, x, Rechecking(id)) && !valid
    case _ => false
  }

  /** A second settlement starts while one is in flight, or one starts for an order that is
      not open, or what the one in flight checked is changed. */
  ghost predicate Disturbs(env: Env, s: State, e: Event, id: Id)
    requires id in s.orders
  {
    || (Starts(s, e, id) && (!Open(s.orders[id]) || exists y :: InFlight(s, y, id)))
    || (Withdraws(s, e, id) && exists y :: InFlight(s, y, id))
    || ((Undoes(env, s, e, id) || Fulfils(s, e, id)) && exists y :: Holds(s, y, Settling(id)))
  }

  lemma StepKeepsSoleSettlerIff(env: Env, s: State, e: Event, id: Id)
    requires SoleSettler(s, id)
    ensures SoleSettler(Step(env, s, e), id) <==> !Disturbs(env, s, e, id)
  {
    if Disturbs(env, s, e, id) {
      DisturbedSettler(env, s, e, id);
    } else {
      UndisturbedSettler(env, s, e, id);
    }
  }

  lemma DisturbedSettler(env: Env, s: State, e: Event, id: Id)
    requires SoleSettler(s, id) && Disturbs(env, s, e, id)
    ensures !SoleSettler(Step(env, s, e), id)
  {
    if Starts(s, e, id) {
      SecondStart(env, s, e, id);
    } else {
      var y :| InFlight(s, y, id) && (Withdraws(s, e, id) || Holds(s, y, Settling(id)));
      SettlerSurvives(env, s, e, id, y);
      if Withdraws(s, e, id) {
        Withdrawn(env, s, e, id);
      } else if Undoes(env, s, e, id) {
        StepKeepsSuccessIff(env, s, e, id);
      } else {
        MarkedFulfilled(env, s, e, id);
      }
    }
  }

  lemma SecondStart(env: Env, s: State, e: Event, id: Id)
    requires id in s.orders && Starts(s, e, id) && (!Open(s.orders[id]) || exists y :: InFlight(s, y, id))
    ensures !SoleSettler(Step(env, s, e), id)
  {
    var s' := if e.SettleStarted? then OnSettleStart(s, e.x, id) else OnReportStart(s, e.x, id, e.of);
    assert s' == Step(env, s, e) && InFlight(s', e.x, id);
    if y :| InFlight(s, y, id) {
      assert InFlight(s', y, id) && y != e.x;
    }
  }

  lemma SettlerSurvives(env: Env, s: State, e: Event, id: Id, y: Executor)
    requires id in s.orders && InFlight(s, y, id)
    requires Withdraws(s, e, id) || Undoes(env, s, e, id) || Fulfils(s, e, id)
    ensures Step(env, s, e).running.Keys >= {y} && Step(env, s, e).running[y] == s.running[y]
  {
  }

  lemma Withdrawn(env: Env, s: State, e: Event, id: Id)
    requires id in s.orders && Withdraws(s, e, id)
    ensures id in Step(env, s, e).orders && !Open(Step(env, s, e).orders[id])
  {
  }

  lemma MarkedFulfilled(env: Env, s: State, e: Event, id: Id)
    requires id in s.orders && Open(s.orders[id]) && Fulfils(s, e, id)
    ensures id in Step(env, s, e).orders && Step(env, s, e).orders[id].status == Fulfilled
  {
  }

  lemma UndisturbedSettler(env: Env, s: State, e: Event, id: Id)
    requires SoleSettler(s, id) && !Disturbs(env, s, e, id)
    ensures SoleSettler(Step(env, s, e), id)
  {
    var s' := Step(env, s, e);
    OrderStays(env, s, e, id);
    forall x | InFlight(s', x, id) ensures Ready(s'.orders[id], s'.running[x]) {
      if InFlight(s, x, id) {
        SettlerKept(env, s, e, id, x);
      } else {
        SettlerStarts(env, s, e, id, x);
      }
    }
    forall x, y | InFlight(s', x, id) && InFlight(s', y, id) ensures x == y {
      if !InFlight(s, x, id) {
        SettlerStarts(env, s, e, id, x);
      }
      if !InFlight(s, y, id) {
        SettlerStarts(env, s, e, id, y);
      }
    }
  }

  lemma SettlerStarts(env: Env, s: State, e: Event, id: Id, x: Executor)
    requires id in s.orders && InFlight(Step(env, s, e), x, id) && !InFlight(s, x, id)
    ensures Starts(s, e, id) && x == e.x && x !in s.running && Step(env, s, e).orders == s.orders
    ensures Step(env, s, e).running == s.running[x := if e.SettleStarted? then Settling(id) else Reporting(id)]
  {
    if OfExecute(e) {
      ExecuteStartsNone(s, e, id, x);
    } else if OfSchedule(e) {
      ScheduleStartsNone(s, e, id, x);
    } else if OfNode(e) {
      NodeStarts(s, e, id, x);
    }
  }

  lemma ExecuteStartsNone(s: State, e: Event, id: Id, x: Executor)
    requires OfExecute(e)
    ensures InFlight(ExecuteStep(s, e), x, id) <==> InFlight(s, x, id)
  {
  }

  lemma ScheduleStartsNone(s: State, e: Event, id: Id, x: Executor)
    requires OfSchedule(e)
    ensures InFlight(ScheduleStep(s, e), x, id) <==> InFlight(s, x, id)
  {
  }

  lemma NodeStarts(s: State, e: Event, id: Id, x: Executor)
    requires OfNode(e) && id in s.orders && InFlight(NodeStep(s, e), x, id) && !InFlight(s, x, id)
    ensures e.ReportStarted? && Starts(s, e, id) && x == e.x && x !in s.running && NodeStep(s, e).orders == s.orders
    ensures NodeStep(s, e).running == s.running[x := Reporting(id)]
  {
  }

  lemma SettlerKept(env: Env, s: State, e: Event, id: Id, x: Executor)
    requires SoleSettler(s, id) && !Disturbs(env, s, e, id)
    requires InFlight(s, x, id) && InFlight(Step(env, s, e), x, id)
    ensures id in Step(env, s, e).orders && Ready(Step(env, s, e).orders[id], Step(env, s, e).running[x])
  {
    StaysOpen(env, s, e, id, x);
    if Holds(s, x, Settling(id)) {
      StepKeepsSuccessIff(env, s, e, id);
    }
  }

  /** An order that is not withdrawn stays open, and processing unless it is marked fulfilled. */
  predicate RemainsOpen(s: State, s': State, e: Event, id: Id)
    requires id in s.orders
  {
    && id in s'.orders && Open(s'.orders[id])
    && (s.orders[id].status == Processing && !Fulfils(s, e, id) ==> s'.orders[id].status == Processing)
  }

  lemma StaysOpen(env: Env, s: State, e: Event, id: Id, x: Executor)
    requires SoleSettler(s, id) && InFlight(s, x, id) && InFlight(Step(env, s, e), x, id) && !Withdraws(s, e, id)
    ensures RemainsOpen(s, Step(env, s, e), e, id)
    ensures Step(env, s, e).running[x] == s.running[x]
  {
    if OfExecute(e) {
      ExecuteStaysOpen(s, e, id);
      ExecuteKeepsSettler(s, e, id, x);
    } else if e.CalledBack? {
      CallbackOnOrder(env, s.orders, e.callback, id);
    } else if OfPayout(e) {
      PayoutStaysOpen(s, e, id, x);
    } else if OfNode(e) {
      NodeStaysOpen(s, e, id, x);
    } else {
      ScheduleStaysOpen(s, e, id);
      ScheduleKeepsSettler(s, e, id, x);
    }
  }

  lemma ExecuteStaysOpen(s: State, e: Event, id: Id)
    requires id in s.orders && Open(s.orders[id]) && OfExecute(e) && !Withdraws(s, e, id)
    ensures RemainsOpen(s, ExecuteStep(s, e), e, id)
  {
    if e.Returned? && Runs(s, e.x) && !(s.running[e.x].id == id && e.result.Refused?) {
      ReturnKeepsStatus(s, e.x, s.running[e.x].id, e.result, id);
    }
  }

  lemma ReturnKeepsStatus(s: State, x: Executor, i: Id, result: TransferResult, id: Id)
    requires i in s.orders && id in s.orders && !(i == id && result.Refused?)
    ensures var orders := OnReturn(s, x, i, result).orders;
            id in orders && orders[id].status == s.orders[id].status
  {
  }

  lemma ExecuteKeepsSettler(s: State, e: Event, id: Id, x: Executor)
    requires InFlight(s, x, id) && OfExecute(e)
    ensures x in ExecuteStep(s, e).running && ExecuteStep(s, e).running[x] == s.running[x]
  {
  }

  lemma PayoutStaysOpen(s: State, e: Event, id: Id, x: Executor)
    requires SoleSettler(s, id) && OfPayout(e) && InFlight(s, x, id) && InFlight(PayoutStep(s, e), x, id)
    ensures RemainsOpen(s, PayoutStep(s, e), e, id)
    ensures PayoutStep(s, e).running[x] == s.running[x]
  {
    if e.Reconciled? && Runs(s, e.x) {
      ReconcileKeepsStatus(s, e.x, s.running[e.x].id, e.result, id);
    }
    assert e.SettleWritten? && InFlight(s, e.x, id) ==> e.x == x;
  }

  lemma ReconcileKeepsStatus(s: State, x: Executor, i: Id, result: TransferResult, id: Id)
    requires i in s.orders && id in s.orders
    ensures var orders := OnReconcile(s, x, i, result).orders;
            id in orders && orders[id].status == s.orders[id].status
  {
  }

  lemma NodeStaysOpen(s: State, e: Event, id: Id, x: Executor)
    requires SoleSettler(s, id) && OfNode(e) && !Withdraws(s, e, id)
    requires InFlight(s, x, id) && InFlight(NodeStep(s, e), x, id)
    ensures RemainsOpen(s, NodeStep(s, e), e, id)
    ensures NodeStep(s, e).running[x] == s.running[x]
  {
    NodeKeepsPayout(s, e, id);
    assert e.ReportWritten? && InFlight(s, e.x, id) ==> e.x == x;
  }

  lemma ScheduleStaysOpen(s: State, e: Event, id: Id)
    requires id in s.orders && Open(s.orders[id]) && OfSchedule(e) && !Withdraws(s, e, id)
    ensures RemainsOpen(s, ScheduleStep(s, e), e, id)
  {
  }

  lemma ScheduleKeepsSettler(s: State, e: Event, id: Id, x: Executor)
    requires InFlight(s, x, id) && OfSchedule(e)
    ensures x in ScheduleStep(s, e).running && ScheduleStep(s, e).running[x] == s.running[x]
  {
  }

  /** Over every run, whatever else writes to the order: there is at most one settlement in
      flight, of an order that still is as it was checked, throughout exactly when no step
      disturbs it. */
  lemma SoleSettlerIff(env: Env, s: State, events: seq<Event>, id: Id)
    requires SoleSettler(s, id)
    ensures (forall k: nat :: k <= |events| ==> SoleSettler(At(env, s, events, k), id))
            <==> Undisturbed(env, s, events, id)
  {
    forall t, e | SoleSettler(t, id)
      ensures SoleSettler(Step(env, t, e), id) <==> !(id in t.orders && Disturbs(env, t, e, id))
    {
      StepKeepsSoleSettlerIff(env, t, e, id);
    }
    ThroughoutIff(env, s, events, t => SoleSettler(t, id),
                  (t: State, e: Event) => id in t.orders && Disturbs(env, t, e, id));
    assert forall k: nat :: k < |events| ==> id in At(env, s, events, k).orders by {
      forall k: nat | k < |events| ensures id in At(env, s, events, k).orders {
        OrderStaysInRun(env, s, events[..k], id);
      }
    }
  }

  ghost predicate Undisturbed(env: Env, s: State, events: seq<Event>, id: Id) {
    forall k: nat :: k < |events| ==>
      id in At(env, s, events, k).orders && !Disturbs(env, At(env, s, events, k), events[k], id)
  }

  /** Each settlement uses up an open order. Only a claim, an accept and a return to
      fulfilled open one. */
  ghost predicate Balanced(s: State, id: Id)
    requires id in s.orders
  {
    s.settles[id] + (if Open(s.orders[id]) then 1 else 0) <= s.claims[id] + s.accepts[id] + s.reopened[id]
  }

  lemma StepKeepsBalance(env: Env, s: State, e: Event, id: Id)
    requires SoleSettler(s, id) && Balanced(s, id)
    ensures id in Step(env, s, e).orders && Balanced(Step(env, s, e), id)
  {
    if OfExecute(e) {
      ExecuteKeepsBalance(s, e, id);
    } else if e.CalledBack? {
      CallbackOnOrder(env, s.orders, e.callback, id);
    } else if OfPayout(e) {
      PayoutKeepsBalance(s, e, id);
    } else if OfNode(e) {
      NodeKeepsBalance(s, e, id);
    } else {
      ScheduleKeepsBalance(s, e, id);
    }
  }

  lemma ExecuteKeepsBalance(s: State, e: Event, id: Id)
    requires id in s.orders && Balanced(s, id) && OfExecute(e)
    ensures id in ExecuteStep(s, e).orders && Balanced(ExecuteStep(s, e), id)
  {
  }

  lemma PayoutKeepsBalance(s: State, e: Event, id: Id)
    requires SoleSettler(s, id) && Balanced(s, id) && OfPayout(e)
    ensures id in PayoutStep(s, e).orders && Balanced(PayoutStep(s, e), id)
  {
    assert e.SettleWritten? && InFlight(s, e.x, id) ==> Open(s.orders[id]);
  }

  lemma NodeKeepsBalance(s: State, e: Event, id: Id)
    requires SoleSettler(s, id) && Balanced(s, id) && OfNode(e)
    ensures id in NodeStep(s, e).orders && Balanced(NodeStep(s, e), id)
  {
    assert e.ReportWritten? && InFlight(s, e.x, id) ==> Open(s.orders[id]);
  }

  lemma ScheduleKeepsBalance(s: State, e: Event, id: Id)
    requires id in s.orders && Balanced(s, id) && OfSchedule(e)
    ensures id in ScheduleStep(s, e).orders && Balanced(ScheduleStep(s, e), id)
  {
  }

  /** Over every run in which no settlement is disturbed, an order is settled on chain at
      most once per claim, accept or return to fulfilled. */
  lemma SettledOncePerOpening(env: Env, s: State, events: seq<Event>, id: Id, k: nat)
    requires SoleSettler(s, id) && Balanced(s, id) && Undisturbed(env, s, events, id) && k <= |events|
    ensures id in At(env, s, events, k).orders && Balanced(At(env, s, events, k), id)
  {
    forall t: State, e | SoleSettler(t, id) && Balanced(t, id)
      ensures (SoleSettler(Step(env, t, e), id) && Balanced(Step(env, t, e), id))
              <==> !(id in t.orders && Disturbs(env, t, e, id))
    {
      StepKeepsSoleSettlerIff(env, t, e, id);
      StepKeepsBalance(env, t, e, id);
    }
    ThroughoutIff(env, s, events, (t: State) => SoleSettler(t, id) && Balanced(t, id),
                  (t: State, e: Event) => id in t.orders && Disturbs(env, t, e, id));
  }

  /** Two settlements that load the same confirmed order both settle it, on one claim. */
  lemma TwoSettlementsCanOverlap(env: Env, s: State, id: Id, x: Executor, y: Executor)
    requires id in s.orders && s.orders[id].status == Processing && s.orders[id].payout == PayoutSuccess
    requires x !in s.running && y !in s.running && x != y
    ensures var s' := Run(env, s, [SettleStarted(x, id), SettleStarted(y, id), SettleWritten(x), SettleWritten(y)]);
            s' == WithStatus(s, id, Validated).(settles := s.settles + multiset{id} + multiset{id})
  {
    var e := [SettleStarted(x, id), SettleStarted(y, id), SettleWritten(x), SettleWritten(y)];
    FourSteps(env, s, e);
    var s2 := Step(env, Step(env, s, e[0]), e[1]);
    assert s2 == s.(running := s.running[x := Settling(id)][y := Settling(id)]);
    BothSettle(env, s2, id, x, y);
    assert s2.running - {x} - {y} == s.running;
  }

  lemma BothSettle(env: Env, s: State, id: Id, x: Executor, y: Executor)
    requires id in s.orders && Holds(s, x, Settling(id)) && Holds(s, y, Settling(id)) && x != y
    ensures Step(env, Step(env, s, SettleWritten(x)), SettleWritten(y))
            == WithStatus(s, id, Validated).(running := s.running - {x} - {y},
                                             settles := s.settles + multiset{id} + multiset{id})
  {
    var s1 := Step(env, s, SettleWritten(x));
    assert s1 == OnSettleWrite(s, x, id) && Holds(s1, y, Settling(id));
    assert s.orders[id := s1.orders[id]] == s1.orders;
    assert s1.orders[id := s1.orders[id]] == s1.orders;
  }

  /** An accept after the settlement opens the paid order again, and the redelivered
      confirmation settles it a second time: one after the other, on one claim, and with
      nothing disturbed. */
  lemma AcceptReopens(env: Env, s: State, id: Id, x: Executor, lp: string)
    requires id in s.orders && s.orders[id].status == Processing && s.orders[id].payout == PayoutSuccess
    requires x !in s.running && forall y :: !InFlight(s, y, id)
    ensures var once := [SettleStarted(x, id), SettleWritten(x)];
            var events := once + [NodeAccepted(id, lp)] + once;
            var s' := Run(env, s, events);
            && s'.settles[id] == s.settles[id] + 2 && s'.claims == s.claims
            && s'.accepts[id] == s.accepts[id] + 1 && s'.reopened == s.reopened
            && Undisturbed(env, s, events, id)
  {
    var once, accept := [SettleStarted(x, id), SettleWritten(x)], [NodeAccepted(id, lp)];
    SettleOnce(env, s, id, x);
    var s1 := Run(env, s, once);
    AcceptedAgain(env, s1, id, lp);
    var s2 := Run(env, s1, accept);
    assert s2.orders[id] == s.orders[id].(provider := Some(lp)) && s2.running == s.running;
    assert forall y :: InFlight(s2, y, id) <==> InFlight(s, y, id);
    SettleOnce(env, s2, id, x);
    RunAppend(env, s, once, accept);
    RunAppend(env, s, once + accept, once);
    UndisturbedAppend(env, s, once, accept, id);
    UndisturbedAppend(env, s, once + accept, once, id);
  }

  /** A settlement of its own. */
  lemma SettleOnce(env: Env, s: State, id: Id, x: Executor)
    requires id in s.orders && s.orders[id].status == Processing && s.orders[id].payout == PayoutSuccess
    requires x !in s.running && forall y :: !InFlight(s, y, id)
    ensures var once := [SettleStarted(x, id), SettleWritten(x)];
            && Run(env, s, once) == WithStatus(s, id, Validated).(settles := s.settles + multiset{id})
            && Undisturbed(env, s, once, id)
  {
    var once := [SettleStarted(x, id), SettleWritten(x)];
    var t := s.(running := s.running[x := Settling(id)]);
    TwoSteps(env, s, once);
    SettledAlone(env, s, id, x);
    NextState(env, s, once, 0);
    assert At(env, s, once, 0) == s && At(env, s, once, 1) == t;
    assert !Disturbs(env, s, once[0], id) && !Disturbs(env, t, once[1], id);
  }

  lemma SettledAlone(env: Env, s: State, id: Id, x: Executor)
    requires id in s.orders && s.orders[id].status == Processing && s.orders[id].payout == PayoutSuccess
    requires x !in s.running
    ensures var t := Step(env, s, SettleStarted(x, id));
            && t == s.(running := s.running[x := Settling(id)])
            && Step(env, t, SettleWritten(x)) == WithStatus(s, id, Validated).(settles := s.settles + multiset{id})
  {
    assert s.running[x := Settling(id)] - {x} == s.running;
  }

  lemma AcceptedAgain(env: Env, s: State, id: Id, lp: string)
    requires id in s.orders
    ensures Run(env, s, [NodeAccepted(id, lp)]) == OnAccept(s, id, lp)
    ensures Undisturbed(env, s, [NodeAccepted(id, lp)], id)
  {
    OneStep(env, s, NodeAccepted(id, lp));
    assert At(env, s, [NodeAccepted(id, lp)], 0) == s;
  }

  lemma UndisturbedAppend(env: Env, s: State, a: seq<Event>, b: seq<Event>, id: Id)
    requires Undisturbed(env, s, a, id) && Undisturbed(env, Run(env, s, a), b, id)
    ensures Undisturbed(env, s, a + b, id)
  {
    forall k: nat | k < |a + b|
      ensures id in At(env, s, a + b, k).orders && !Disturbs(env, At(env, s, a + b, k), (a + b)[k], id)
    {
      if k < |a| {
        assert (a + b)[..k] == a[..k];
        assert id in At(env, s, a, k).orders && !Disturbs(env, At(env, s, a, k), a[k], id);
      } else {
        assert (a + b)[..k] == a + b[..k - |a|];
        RunAppend(env, s, a, b[..k - |a|]);
        var t := Run(env, s, a);
        assert id in At(env, t, b, k - |a|).orders && !Disturbs(env, At(env, t, b, k - |a|), b[k - |a|], id);
      }
    }
  }

  /** From orders that nobody has touched: every run keeps the invariants, transfers are
      bounded by claims and hand-backs, and without a disturbed settlement the settlements
      are bounded by what opened the order. */
  lemma FreshRuns(env: Env, s: State, events: seq<Event>, id: Id)
    requires Fresh(s) && id in s.orders
    ensures var s' := Run(env, s, events);
            && id in s'.orders && OrderInv(s', id)
            && s'.transfers[id] <= s'.claims[id] <= 1 + s'.resets[id]
            && (Undisturbed(env, s, events, id)
                ==> s'.settles[id] <= s'.claims[id] + s'.accepts[id] + s'.reopened[id])
  {
    assert Waiting(s, id) == {};
    TransfersAreBounded(env, s, events, id);
    if Undisturbed(env, s, events, id) {
      SettledOncePerOpening(env, s, events, id, |events|);
      assert events[..|events|] == events;
    }
  }
}

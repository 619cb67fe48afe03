/** Confirmed payouts, and what takes them away. */
module PayoutConfirmation {
  import opened Prelude
  import opened PayoutWebhook
  import opened PayoutExecution

  /** The steps that take a confirmed payout away: a matching failure callback, an executor
      of the same order that hands it back or gives it up, and a refused transfer. */
  ghost predicate Undoes(env: Env, s: State, e: Event, id: Id) {
    match e
    case CalledBack(c) => Hits(env, s.orders, c, id) && Classify(env, c.rawStatus) == Some(PayoutFailed)
    case Declined(x, _) => Holds(s, x, Loaded(id))
    case GaveUp(x, _) => Holds(s, x, Loaded(id))
    case Returned(x, result) => HoldsClaim(s, x, id) && result.Refused?
    case Reconciled(x, result) => Holds(s, x, Polling(id)) && result.Refused?
    case _ => false
  }

  predicate IsConfirmed(s: State, id: Id) {
    id in s.orders && s.orders[id].payout == PayoutSuccess
  }

  lemma StepKeepsSuccessIff(env: Env, s: State, e: Event, id: Id)
    requires IsConfirmed(s, id)
    ensures IsConfirmed(Step(env, s, e), id) <==> !Undoes(env, s, e, id)
  {
    if OfExecute(e) {
      ExecuteKeepsSuccessIff(env, s, e, id);
    } else if e.CalledBack? {
      CallbackOnOrder(env, s.orders, e.callback, id);
    } else if OfPayout(e) {
      PayoutKeepsSuccessIff(env, s, e, id);
    } else if OfNode(e) {
      NodeKeepsPayout(s, e, id);
    } else {
      ScheduleKeepsPayout(s, e, id);
    }
  }

  lemma ExecuteKeepsSuccessIff(env: Env, s: State, e: Event, id: Id)
    requires IsConfirmed(s, id) && OfExecute(e)
    ensures IsConfirmed(ExecuteStep(s, e), id) <==> !Undoes(env, s, e, id)
  {
    if e.Returned? && Runs(s, e.x) {
      ReturnKeepsSuccessIff(s, e.x, s.running[e.x].id, e.result, id);
    }
  }

  lemma ReturnKeepsSuccessIff(s: State, x: Executor, i: Id, result: TransferResult, id: Id)
    requires i in s.orders && IsConfirmed(s, id)
    ensures IsConfirmed(OnReturn(s, x, i, result), id) <==> !(i == id && result.Refused?)
  {
  }

  lemma PayoutKeepsSuccessIff(env: Env, s: State, e: Event, id: Id)
    requires IsConfirmed(s, id) && OfPayout(e)
    ensures IsConfirmed(PayoutStep(s, e), id) <==> !Undoes(env, s, e, id)
  {
    if e.Reconciled? && Runs(s, e.x) {
      ReconcileKeepsSuccessIff(s, e.x, s.running[e.x].id, e.result, id);
    }
  }

  lemma ReconcileKeepsSuccessIff(s: State, x: Executor, i: Id, result: TransferResult, id: Id)
    requires i in s.orders && IsConfirmed(s, id)
    ensures IsConfirmed(OnReconcile(s, x, i, result), id) <==> !(i == id && result.Refused?)
  {
  }

  /** Over every run, whatever else writes to the order: a confirmed payout stays confirmed
      throughout exactly when no step undoes it. */
  lemma SuccessKeptIff(env: Env, s: State, events: seq<Event>, id: Id)
    requires IsConfirmed(s, id)
    ensures (forall k: nat :: k <= |events| ==> IsConfirmed(At(env, s, events, k), id))
            <==> (forall k: nat :: k < |events| ==> !Undoes(env, At(env, s, events, k), events[k], id))
  {
    forall t, e | IsConfirmed(t, id) ensures IsConfirmed(Step(env, t, e), id) <==> !Undoes(env, t, e, id) {
      StepKeepsSuccessIff(env, t, e, id);
    }
    ThroughoutIff(env, s, events, t => IsConfirmed(t, id), (t, e) => Undoes(env, t, e, id));
  }

  /** Four of the five ways are open in one reachable state: two executors load the order,
      one claims it, and a success callback confirms the payout before the transfer call of
      the first returns. */
  lemma ConfirmedIsNotFinal(env: Env, s: State, id: Id, x: Executor, y: Executor, lp: string,
                            ok: Callback, bad: Callback)
    requires id in s.orders && s.orders[id].payout == NoPayout && x !in s.running && y !in s.running && x != y
    requires OwnCallback(env, ok, id) && Classify(env, ok.rawStatus) == Some(PayoutSuccess)
    requires OwnCallback(env, bad, id) && Classify(env, bad.rawStatus) == Some(PayoutFailed)
    ensures var s5 := Run(env, s, [Started(x, id), Started(y, id), ClaimTried(x, lp), TransferAsked(x)]
                                  + [CalledBack(ok)]);
            && IsConfirmed(s5, id)
            && !IsConfirmed(Step(env, s5, CalledBack(bad)), id)
            && !IsConfirmed(Step(env, s5, Declined(y, "low float")), id)
            && !IsConfirmed(Step(env, s5, GaveUp(y, "no recipient")), id)
            && !IsConfirmed(Step(env, s5, Returned(x, Refused("timeout"))), id)
  {
    var e := [Started(x, id), Started(y, id), ClaimTried(x, lp), TransferAsked(x)];
    RunAppend(env, s, e, [CalledBack(ok)]);
    PayingAndLoaded(env, s, x, y, id, lp);
    var s4 := Run(env, s, e);
    OneStep(env, s4, CalledBack(ok));
    CanonicalReferences(env, id);
    ConfirmedWhilePaying(env, s4, id, ok);
    FourWays(env, Step(env, s4, CalledBack(ok)), id, x, y, bad);
  }

  lemma PayingAndLoaded(env: Env, s: State, x: Executor, y: Executor, id: Id, lp: string)
    requires id in s.orders && s.orders[id].payout == NoPayout && x !in s.running && y !in s.running && x != y
    ensures var s4 := Run(env, s, [Started(x, id), Started(y, id), ClaimTried(x, lp), TransferAsked(x)]);
            && s4.orders == s.orders[id := Claim(s.orders[id], id, lp)]
            && Holds(s4, x, Paying(id)) && Holds(s4, y, Loaded(id))
  {
    FourSteps(env, s, [Started(x, id), Started(y, id), ClaimTried(x, lp), TransferAsked(x)]);
    ClaimedAndLoaded(env, s, x, y, id, lp);
    Asked(env, Step(env, Step(env, Step(env, s, Started(x, id)), Started(y, id)), ClaimTried(x, lp)), id, x);
  }

  lemma ConfirmedWhilePaying(env: Env, s: State, id: Id, ok: Callback)
    requires id in s.orders && Hits(env, s.orders, ok, id) && Classify(env, ok.rawStatus) == Some(PayoutSuccess)
    ensures var t := Step(env, s, CalledBack(ok));
            IsConfirmed(t, id) && t.running == s.running && t.orders[id].reference == s.orders[id].reference
  {
    CallbackOnOrder(env, s.orders, ok, id);
  }

  lemma FourWays(env: Env, s: State, id: Id, x: Executor, y: Executor, bad: Callback)
    requires IsConfirmed(s, id) && Holds(s, x, Paying(id)) && Holds(s, y, Loaded(id))
    requires Hits(env, s.orders, bad, id) && Classify(env, bad.rawStatus) == Some(PayoutFailed)
    ensures !IsConfirmed(Step(env, s, CalledBack(bad)), id)
    ensures !IsConfirmed(Step(env, s, Declined(y, "low float")), id)
    ensures !IsConfirmed(Step(env, s, GaveUp(y, "no recipient")), id)
    ensures !IsConfirmed(Step(env, s, Returned(x, Refused("timeout"))), id)
  {
    StepKeepsSuccessIff(env, s, CalledBack(bad), id);
    StepKeepsSuccessIff(env, s, Declined(y, "low float"), id);
    StepKeepsSuccessIff(env, s, GaveUp(y, "no recipient"), id);
    StepKeepsSuccessIff(env, s, Returned(x, Refused("timeout")), id);
  }

  /** The fifth: the reconciliation has loaded the pending order when the success arrives,
      and then reports a refusal. */
  lemma ReconciliationCanUndo(env: Env, s: State, id: Id, x: Executor, z: Executor, lp: string,
                              session: string, ok: Callback)
    requires id in s.orders && s.orders[id].payout == NoPayout && x !in s.running && z !in s.running && session != ""
    requires OwnCallback(env, ok, id) && Classify(env, ok.rawStatus) == Some(PayoutSuccess)
    ensures var s6 := Run(env, s, Executes(x, id, lp, Accepted(session)) + [Polled(z, id), CalledBack(ok)]);
            && IsConfirmed(s6, id)
            && !IsConfirmed(Step(env, s6, Reconciled(z, Refused("not found"))), id)
  {
    var a := Executes(x, id, lp, Accepted(session));
    RunAppend(env, s, a, [Polled(z, id), CalledBack(ok)]);
    ExecutedAlone(env, s, id, x, lp, Accepted(session));
    var s4 := Run(env, s, a);
    TwoSteps(env, s4, [Polled(z, id), CalledBack(ok)]);
    CanonicalReferences(env, id);
    assert Step(env, s4, Polled(z, id)) == s4.(running := s4.running[z := Polling(id)]);
    ConfirmedWhilePolled(env, Step(env, s4, Polled(z, id)), id, z, ok);
  }

  lemma ConfirmedWhilePolled(env: Env, s: State, id: Id, z: Executor, ok: Callback)
    requires Holds(s, z, Polling(id))
    requires Hits(env, s.orders, ok, id) && Classify(env, ok.rawStatus) == Some(PayoutSuccess)
    ensures var t := Step(env, s, CalledBack(ok));
            IsConfirmed(t, id) && !IsConfirmed(Step(env, t, Reconciled(z, Refused("not found"))), id)
  {
    CallbackOnOrder(env, s.orders, ok, id);
    var t := s.(orders := OnCallback(env, s.orders, ok));
    assert t == Step(env, s, CalledBack(ok)) && Holds(t, z, Polling(id));
    StepKeepsSuccessIff(env, t, Reconciled(z, Refused("not found")), id);
  }
}

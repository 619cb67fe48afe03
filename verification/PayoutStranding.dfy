/** Orders that wait for an executor although none will take them. */
module PayoutStranding {
  import opened Prelude
  import opened PayoutWebhook
  import opened PayoutExecution
  import opened PayoutConfirmation

  /** The order waits for an executor, and `Execute` turns every executor away. */
  predicate Stuck(s: State, id: Id) {
    id in s.orders && s.orders[id].status == Pending && s.orders[id].payout != NoPayout
  }

  /** The steps that get an order stuck: a terminal payout result for an order that is
      pending again, giving up a pending order, and returning an order to pending whose
      payout has failed. */
  predicate Sticks(env: Env, s: State, e: Event, id: Id)
    requires id in s.orders
  {
    match e
    case CalledBack(c) => s.orders[id].status == Pending && Hits(env, s.orders, c, id)
    case GaveUp(x, _) => s.orders[id].status == Pending && Holds(s, x, Loaded(id))
    case Returned(x, result) => s.orders[id].status == Pending && Holds(s, x, Paying(id)) && result.Confirmed?
    case Reconciled(x, result) => s.orders[id].status == Pending && Holds(s, x, Polling(id)) && !result.Accepted?
    case Unassigned(i) => i == id && Reassignable(s.orders[id]) && s.orders[id].payout == PayoutFailed
    case _ => false
  }

  lemma StepKeepsFreeIff(env: Env, s: State, e: Event, id: Id)
    requires id in s.orders && !Stuck(s, id)
    ensures Stuck(Step(env, s, e), id) <==> Sticks(env, s, e, id)
  {
    if OfExecute(e) {
      ExecuteKeepsFreeIff(env, s, e, id);
    } else if e.CalledBack? {
      CallbackOnOrder(env, s.orders, e.callback, id);
    } else if OfPayout(e) {
      PayoutKeepsFreeIff(env, s, e, id);
    } else if OfNode(e) {
      NodeKeepsFree(s, e, id);
    } else {
      ScheduleKeepsFreeIff(env, s, e, id);
    }
  }

  lemma ExecuteKeepsFreeIff(env: Env, s: State, e: Event, id: Id)
    requires id in s.orders && !Stuck(s, id) && OfExecute(e)
    ensures Stuck(ExecuteStep(s, e), id) <==> Sticks(env, s, e, id)
  {
  }

  lemma PayoutKeepsFreeIff(env: Env, s: State, e: Event, id: Id)
    requires id in s.orders && !Stuck(s, id) && OfPayout(e)
    ensures Stuck(PayoutStep(s, e), id) <==> Sticks(env, s, e, id)
  {
  }

  lemma NodeKeepsFree(s: State, e: Event, id: Id)
    requires id in s.orders && !Stuck(s, id) && OfNode(e)
    ensures !Stuck(NodeStep(s, e), id)
  {
  }

  lemma ScheduleKeepsFreeIff(env: Env, s: State, e: Event, id: Id)
    requires id in s.orders && !Stuck(s, id) && OfSchedule(e)
    ensures Stuck(ScheduleStep(s, e), id) <==> Sticks(env, s, e, id)
  {
  }

  /** Over every run, whatever else writes to the order: it is never stuck exactly when no
      step gets it stuck. */
  lemma NeverStuckIff(env: Env, s: State, events: seq<Event>, id: Id)
    requires id in s.orders && !Stuck(s, id)
    ensures (forall k: nat :: k <= |events| ==> !Stuck(At(env, s, events, k), id))
            <==> NeverSticks(env, s, events, id)
  {
    forall t: State, e | id in t.orders && !Stuck(t, id)
      ensures (id in Step(env, t, e).orders && !Stuck(Step(env, t, e), id))
              <==> !(id in t.orders && Sticks(env, t, e, id))
    {
      OrderStays(env, t, e, id);
      StepKeepsFreeIff(env, t, e, id);
    }
    ThroughoutIff(env, s, events, (t: State) => id in t.orders && !Stuck(t, id),
                  (t: State, e: Event) => id in t.orders && Sticks(env, t, e, id));
    forall k: nat | k <= |events| ensures id in At(env, s, events, k).orders {
      OrderStaysInRun(env, s, events[..k], id);
    }
  }

  ghost predicate NeverSticks(env: Env, s: State, events: seq<Event>, id: Id) {
    forall k: nat :: k < |events| ==>
      id in At(env, s, events, k).orders && !Sticks(env, At(env, s, events, k), events[k], id)
  }

  /** Stuck, with no task on the order that could change its status or hand it back. */
  ghost predicate Stranded(s: State, id: Id) {
    && Stuck(s, id)
    && forall x :: x in s.running && s.running[x].id == id ==>
         s.running[x].Polling? || s.running[x].Reporting? || s.running[x].Cancelling?
  }

  /** A node accepts or cancels the order, or the chain settles or refunds it. */
  predicate Releases(s: State, e: Event, id: Id) {
    match e
    case NodeAccepted(i, _) => i == id
    case CancelWritten(x) => Holds(s, x, Cancelling(id))
    case ChainSettled(i) => i == id
    case ChainRefunded(i) => i == id
    case _ => false
  }

  lemma StepKeepsStrandedIff(env: Env, s: State, e: Event, id: Id)
    requires Stranded(s, id)
    ensures Stranded(Step(env, s, e), id) <==> !Releases(s, e, id)
    ensures Step(env, s, e).claims[id] == s.claims[id]
  {
    if OfExecute(e) {
      StrandedExecute(s, e, id);
    } else if e.CalledBack? {
      CallbackOnOrder(env, s.orders, e.callback, id);
    } else if OfPayout(e) {
      StrandedPayout(s, e, id);
    } else if OfNode(e) {
      StrandedNode(s, e, id);
    } else if OfSchedule(e) {
      StrandedSchedule(s, e, id);
    }
  }

  lemma StrandedExecute(s: State, e: Event, id: Id)
    requires Stranded(s, id) && OfExecute(e)
    ensures Stranded(ExecuteStep(s, e), id) && ExecuteStep(s, e).claims[id] == s.claims[id]
  {
    assert !Executing(s, e.x, id);
    UntouchedOrder(s, e, id);
    var s' := ExecuteStep(s, e);
    forall x | x in s'.running && s'.running[x].id == id
      ensures s'.running[x].Polling? || s'.running[x].Reporting? || s'.running[x].Cancelling?
    {
      UntouchedTask(s, e, id, x);
    }
  }

  predicate Executing(s: State, x: Executor, id: Id) {
    Holds(s, x, Loaded(id)) || HoldsClaim(s, x, id)
  }

  /** An executor without a task on the order does not write to it. */
  lemma UntouchedOrder(s: State, e: Event, id: Id)
    requires Stuck(s, id) && OfExecute(e) && !Executing(s, e.x, id)
    ensures var s' := ExecuteStep(s, e);
            id in s'.orders && s'.orders[id] == s.orders[id] && s'.claims[id] == s.claims[id]
  {
  }

  lemma UntouchedTask(s: State, e: Event, id: Id, x: Executor)
    requires Stuck(s, id) && OfExecute(e) && !Executing(s, e.x, id) && x in ExecuteStep(s, e).running
    requires ExecuteStep(s, e).running[x].id == id
    ensures x in s.running && s.running[x] == ExecuteStep(s, e).running[x]
  {
  }

  lemma StrandedPayout(s: State, e: Event, id: Id)
    requires Stranded(s, id) && OfPayout(e)
    ensures Stranded(PayoutStep(s, e), id) && PayoutStep(s, e).claims == s.claims
  {
    PayoutStaysClosed(s, e, id);
  }

  lemma StrandedNode(s: State, e: Event, id: Id)
    requires Stranded(s, id) && OfNode(e)
    ensures Stranded(NodeStep(s, e), id) <==> !Releases(s, e, id)
    ensures NodeStep(s, e).claims == s.claims
  {
  }

  lemma StrandedSchedule(s: State, e: Event, id: Id)
    requires Stranded(s, id) && OfSchedule(e)
    ensures Stranded(ScheduleStep(s, e), id) <==> !Releases(s, e, id)
    ensures ScheduleStep(s, e).claims == s.claims
  {
  }

  /** Such an order stays stranded, whatever else is delivered, exactly until a node accepts
      or cancels it or the chain settles or refunds it; no executor claims it before that. */
  lemma StrandedUntilReleased(env: Env, s: State, events: seq<Event>, id: Id)
    requires Stranded(s, id)
    ensures (forall k: nat :: k <= |events| ==> Stranded(At(env, s, events, k), id))
            <==> (forall k: nat :: k < |events| ==> !Releases(At(env, s, events, k), events[k], id))
    ensures (forall k: nat :: k < |events| ==> !Releases(At(env, s, events, k), events[k], id))
            ==> Run(env, s, events).claims[id] == s.claims[id]
  {
    forall t, e | Stranded(t, id)
      ensures (Stranded(Step(env, t, e), id) <==> !Releases(t, e, id)) && Step(env, t, e).claims[id] == t.claims[id]
    {
      StepKeepsStrandedIff(env, t, e, id);
    }
    ThroughoutIff(env, s, events, t => Stranded(t, id), (t, e) => Releases(t, e, id));
    var claims := s.claims[id];
    ThroughoutIff(env, s, events, t => Stranded(t, id) && t.claims[id] == claims, (t, e) => Releases(t, e, id));
    assert At(env, s, events, |events|) == Run(env, s, events) by {
      assert events[..|events|] == events;
    }
  }

  // ---- Runs that strand an order -----------------------------------------------------------------

  /** A claim, a transfer call that fails although the transfer goes out, and the callback
      that confirms it: the recipient is paid and the order waits. */
  lemma PaidOrderCanStrand(env: Env, s: State, id: Id, x: Executor, lp: string, ok: Callback)
    requires Fresh(s) && id in s.orders
    requires OwnCallback(env, ok, id) && Classify(env, ok.rawStatus) == Some(PayoutSuccess)
    ensures var s' := Run(env, s, Executes(x, id, lp, Refused("timeout")) + [CalledBack(ok)]);
            Stranded(s', id) && IsConfirmed(s', id)
  {
    var a := Executes(x, id, lp, Refused("timeout"));
    RunAppend(env, s, a, [CalledBack(ok)]);
    ExecutedAlone(env, s, id, x, lp, Refused("timeout"));
    OneStep(env, Run(env, s, a), CalledBack(ok));
    CanonicalReferences(env, id);
    ConfirmedWhilePaying(env, Run(env, s, a), id, ok);
    CallbackOnOrder(env, Run(env, s, a).orders, ok, id);
  }

  /** No late callback is needed: an accepted transfer fails, and the task that returns
      unfulfilled orders to pending leaves the payout failed, so nobody claims it again. */
  lemma FailedOrderCanStrand(env: Env, s: State, id: Id, x: Executor, lp: string, session: string, bad: Callback)
    requires Fresh(s) && id in s.orders
    requires OwnCallback(env, bad, id) && Classify(env, bad.rawStatus) == Some(PayoutFailed)
    ensures var s' := Run(env, s, Executes(x, id, lp, Accepted(session)) + [CalledBack(bad), Unassigned(id)]);
            Stranded(s', id) && s'.orders[id].payout == PayoutFailed
  {
    var a := Executes(x, id, lp, Accepted(session));
    RunAppend(env, s, a, [CalledBack(bad), Unassigned(id)]);
    ExecutedAlone(env, s, id, x, lp, Accepted(session));
    TwoSteps(env, Run(env, s, a), [CalledBack(bad), Unassigned(id)]);
    CanonicalReferences(env, id);
    FailedThenUnassigned(env, Run(env, s, a), id, bad);
  }

  lemma FailedThenUnassigned(env: Env, s: State, id: Id, bad: Callback)
    requires Hits(env, s.orders, bad, id) && Classify(env, bad.rawStatus) == Some(PayoutFailed)
    requires s.orders[id].status == Processing && s.running == map[]
    ensures var s' := Step(env, Step(env, s, CalledBack(bad)), Unassigned(id));
            Stranded(s', id) && s'.orders[id].payout == PayoutFailed
  {
    CallbackOnOrder(env, s.orders, bad, id);
    var t := s.(orders := OnCallback(env, s.orders, bad));
    assert t == Step(env, s, CalledBack(bad)) && Reassignable(t.orders[id]);
    assert Step(env, t, Unassigned(id)) == OnUnassign(t, id);
  }

  /** An order that the executor finds unpayable, such as one without bank details. */
  lemma GivenUpOrderStrands(env: Env, s: State, id: Id, x: Executor, reason: string)
    requires Fresh(s) && id in s.orders
    ensures Stranded(Run(env, s, [Started(x, id), GaveUp(x, reason)]), id)
  {
    TwoSteps(env, s, [Started(x, id), GaveUp(x, reason)]);
    assert Step(env, s, Started(x, id)) == s.(running := map[x := Loaded(id)]);
  }
}

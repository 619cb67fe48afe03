/** The claim of an order by an executor, and the transfers that follow it. */
module PayoutClaims {
  import opened Prelude
  import opened PayoutWebhook
  import opened PayoutExecution

  /** The claim of an order is exclusive: at most one executor holds it, and while one does
      the order is not open to another claim. */
  ghost predicate Exclusive(s: State, id: Id) {
    && OneHolder(s, id)
    && (forall x :: HoldsClaim(s, x, id) ==> s.orders[id].payout != NoPayout)
  }

  ghost predicate OneHolder(s: State, id: Id) {
    id in s.orders && forall x, y :: HoldsClaim(s, x, id) && HoldsClaim(s, y, id) ==> x == y
  }

  /** An executor hands the order back before its own claim while another one holds it. */
  ghost predicate StrayReset(s: State, e: Event, id: Id) {
    e.Declined? && Holds(s, e.x, Loaded(id)) && exists y :: HoldsClaim(s, y, id)
  }

  /** An executor claims an order that another one still holds. */
  ghost predicate SecondClaim(s: State, e: Event, id: Id) {
    && id in s.orders && s.orders[id].payout == NoPayout
    && e.ClaimTried? && Holds(s, e.x, Loaded(id)) && exists y :: HoldsClaim(s, y, id)
  }

  lemma StepKeepsExclusiveIff(env: Env, s: State, e: Event, id: Id)
    requires Exclusive(s, id)
    ensures Exclusive(Step(env, s, e), id) <==> !StrayReset(s, e, id)
  {
    if StrayReset(s, e, id) {
      var y :| HoldsClaim(s, y, id);
      assert HoldsClaim(ExecuteStep(s, e), y, id) && ExecuteStep(s, e).orders[id].payout == NoPayout;
    } else {
      StepKeepsOneHolderIff(env, s, e, id);
      if OfExecute(e) {
        ExecuteStaysClosed(s, e, id);
      } else {
        OthersStayClosed(env, s, e, id);
      }
    }
  }

  lemma StepKeepsOneHolderIff(env: Env, s: State, e: Event, id: Id)
    requires OneHolder(s, id)
    ensures OneHolder(Step(env, s, e), id) <==> !SecondClaim(s, e, id)
  {
    OrderStays(env, s, e, id);
    if OfExecute(e) {
      ExecuteKeepsOneHolderIff(s, e, id);
    } else {
      OthersClaimNone(env, s, e, id);
    }
  }

  lemma ExecuteKeepsOneHolderIff(s: State, e: Event, id: Id)
    requires OneHolder(s, id) && OfExecute(e)
    ensures OneHolder(ExecuteStep(s, e), id) <==> !SecondClaim(s, e, id)
  {
    var s' := ExecuteStep(s, e);
    ExecuteKeepsOrder(s, e, id);
    if SecondClaim(s, e, id) {
      var y :| HoldsClaim(s, y, id);
      assert s' == OnClaim(s, e.x, id, e.lp) && HoldsClaim(s', y, id) && HoldsClaim(s', e.x, id);
    } else {
      forall x | HoldsClaim(s', x, id) && !HoldsClaim(s, x, id) ensures e.ClaimTried? && x == e.x {
        NewHolder(s, e, id, x);
      }
      forall x | HoldsClaim(s', x, id) && !HoldsClaim(s, x, id) ensures forall y :: !HoldsClaim(s, y, id) {
        NewHolder(s, e, id, x);
      }
    }
  }

  lemma NewHolder(s: State, e: Event, id: Id, x: Executor)
    requires id in s.orders && OfExecute(e) && HoldsClaim(ExecuteStep(s, e), x, id) && !HoldsClaim(s, x, id)
    ensures e.ClaimTried? && x == e.x && Holds(s, x, Loaded(id)) && s.orders[id].payout == NoPayout
  {
  }

  lemma OthersClaimNone(env: Env, s: State, e: Event, id: Id)
    requires !OfExecute(e)
    ensures forall x :: Holds(Step(env, s, e), x, Claimed(id)) ==> Holds(s, x, Claimed(id))
    ensures forall x :: HoldsClaim(Step(env, s, e), x, id) ==> HoldsClaim(s, x, id)
  {
    if e.CalledBack? {
    } else if OfPayout(e) {
      PayoutClaimsNone(s, e, id);
    } else if OfNode(e) {
      NodeClaimsNone(s, e, id);
    } else {
      ScheduleClaimsNone(s, e, id);
    }
  }

  lemma PayoutClaimsNone(s: State, e: Event, id: Id)
    requires OfPayout(e)
    ensures forall x :: Holds(PayoutStep(s, e), x, Claimed(id)) ==> Holds(s, x, Claimed(id))
    ensures forall x :: HoldsClaim(PayoutStep(s, e), x, id) ==> HoldsClaim(s, x, id)
  {
  }

  lemma NodeClaimsNone(s: State, e: Event, id: Id)
    requires OfNode(e)
    ensures forall x :: Holds(NodeStep(s, e), x, Claimed(id)) ==> Holds(s, x, Claimed(id))
    ensures forall x :: HoldsClaim(NodeStep(s, e), x, id) ==> HoldsClaim(s, x, id)
  {
  }

  lemma ScheduleClaimsNone(s: State, e: Event, id: Id)
    requires OfSchedule(e)
    ensures forall x :: Holds(ScheduleStep(s, e), x, Claimed(id)) ==> Holds(s, x, Claimed(id))
    ensures forall x :: HoldsClaim(ScheduleStep(s, e), x, id) ==> HoldsClaim(s, x, id)
  {
  }

  lemma OthersStayClosed(env: Env, s: State, e: Event, id: Id)
    requires Exclusive(s, id) && !OfExecute(e)
    ensures var s' := Step(env, s, e);
            id in s'.orders && forall x :: HoldsClaim(s', x, id) ==> s'.orders[id].payout != NoPayout
  {
    OthersClaimNone(env, s, e, id);
    if e.CalledBack? {
      CallbackOnOrder(env, s.orders, e.callback, id);
    } else if OfPayout(e) {
      PayoutStaysClosed(s, e, id);
    } else if OfNode(e) {
      NodeKeepsPayout(s, e, id);
    } else {
      ScheduleKeepsPayout(s, e, id);
    }
  }

  lemma ExecuteStaysClosed(s: State, e: Event, id: Id)
    requires Exclusive(s, id) && !StrayReset(s, e, id) && OfExecute(e)
    ensures var s' := ExecuteStep(s, e);
            id in s'.orders && forall x :: HoldsClaim(s', x, id) ==> s'.orders[id].payout != NoPayout
  {
    ExecuteKeepsOrder(s, e, id);
    forall x | HoldsClaim(ExecuteStep(s, e), x, id) ensures ExecuteStep(s, e).orders[id].payout != NoPayout {
      HeldOrderStaysClosed(s, e, id, x);
    }
  }

  lemma HeldOrderStaysClosed(s: State, e: Event, id: Id, x: Executor)
    requires Exclusive(s, id) && !StrayReset(s, e, id) && OfExecute(e)
    requires HoldsClaim(ExecuteStep(s, e), x, id)
    ensures id in ExecuteStep(s, e).orders && ExecuteStep(s, e).orders[id].payout != NoPayout
  {
    if HoldsClaim(s, x, id) {
      HolderKept(s, e, id, x);
    } else {
      NewHolder(s, e, id, x);
    }
  }

  lemma HolderKept(s: State, e: Event, id: Id, x: Executor)
    requires Exclusive(s, id) && !StrayReset(s, e, id) && OfExecute(e)
    requires HoldsClaim(s, x, id) && HoldsClaim(ExecuteStep(s, e), x, id)
    ensures id in ExecuteStep(s, e).orders && ExecuteStep(s, e).orders[id].payout != NoPayout
  {
    if e.Returned? && HoldsClaim(s, e.x, id) {
      assert e.x == x;
    }
  }

  /** Over every run, whatever else writes to the order: the claim is exclusive throughout
      exactly when nobody hands the order back before a claim while another one holds it. */
  lemma ClaimIsExclusiveIff(env: Env, s: State, events: seq<Event>, id: Id)
    requires Exclusive(s, id)
    ensures (forall k: nat :: k <= |events| ==> Exclusive(At(env, s, events, k), id))
            <==> (forall k: nat :: k < |events| ==> !StrayReset(At(env, s, events, k), events[k], id))
  {
    forall t, e | Exclusive(t, id) ensures Exclusive(Step(env, t, e), id) <==> !StrayReset(t, e, id) {
      StepKeepsExclusiveIff(env, t, e, id);
    }
    ThroughoutIff(env, s, events, t => Exclusive(t, id), (t, e) => StrayReset(t, e, id));
  }

  /** At most one executor holds the order throughout exactly when none claims it while
      another one holds it; and that takes an earlier stray reset. */
  lemma OneHolderIff(env: Env, s: State, events: seq<Event>, id: Id)
    requires Exclusive(s, id)
    ensures (forall k: nat :: k <= |events| ==> OneHolder(At(env, s, events, k), id))
            <==> (forall k: nat :: k < |events| ==> !SecondClaim(At(env, s, events, k), events[k], id))
    ensures forall k: nat :: k < |events| && SecondClaim(At(env, s, events, k), events[k], id)
              ==> exists j: nat :: j < k && StrayReset(At(env, s, events, j), events[j], id)
  {
    forall t, e | OneHolder(t, id) ensures OneHolder(Step(env, t, e), id) <==> !SecondClaim(t, e, id) {
      StepKeepsOneHolderIff(env, t, e, id);
    }
    ThroughoutIff(env, s, events, t => OneHolder(t, id), (t, e) => SecondClaim(t, e, id));
    forall k: nat | k < |events| && SecondClaim(At(env, s, events, k), events[k], id)
      ensures exists j: nat :: j < k && StrayReset(At(env, s, events, j), events[j], id)
    {
      SecondClaimNeedsStrayReset(env, s, events, id, k);
    }
  }

  lemma SecondClaimNeedsStrayReset(env: Env, s: State, events: seq<Event>, id: Id, k: nat)
    requires Exclusive(s, id) && k < |events| && SecondClaim(At(env, s, events, k), events[k], id)
    ensures exists j: nat :: j < k && StrayReset(At(env, s, events, j), events[j], id)
  {
    var past := events[..k];
    assert forall j: nat :: j <= k ==> past[..j] == events[..j];
    ClaimIsExclusiveIff(env, s, past, id);
    assert !Exclusive(At(env, s, past, k), id);
    var j: nat :| j < |past| && StrayReset(At(env, s, past, j), past[j], id);
    assert StrayReset(At(env, s, events, j), events[j], id);
  }

  /** Conversely every stray reset lets the next executor become a second holder. */
  lemma StrayResetAdmitsSecond(env: Env, s: State, e: Event, id: Id, z: Executor, lp: string)
    requires Exclusive(s, id) && StrayReset(s, e, id) && z !in s.running
    ensures !OneHolder(Run(env, s, [e] + [Started(z, id), ClaimTried(z, lp)]), id)
  {
    var y :| HoldsClaim(s, y, id);
    var t := Step(env, s, e);
    assert t == ResetBy(s, e.x, id, e.reason);
    OneStep(env, s, e);
    RunAppend(env, s, [e], [Started(z, id), ClaimTried(z, lp)]);
    TwoSteps(env, t, [Started(z, id), ClaimTried(z, lp)]);
    ClaimedWhileHeld(env, t, y, z, id, lp);
  }

  /** Such a run from any state in which the order is open: one claims it, a second that
      loaded it earlier hands it back, and a third claims it again. */
  lemma TwoExecutorsCanHoldOneOrder(env: Env, s: State, id: Id, x: Executor, y: Executor, z: Executor)
    requires id in s.orders && s.orders[id].payout == NoPayout
    requires x !in s.running && y !in s.running && z !in s.running && x != y && x != z
    ensures var s' := Run(env, s, [Started(x, id), Started(y, id), ClaimTried(x, "a"), Declined(y, "low float")]
                                  + [Started(z, id), ClaimTried(z, "b")]);
            HoldsClaim(s', x, id) && HoldsClaim(s', z, id)
  {
    var a, b := [Started(x, id), Started(y, id), ClaimTried(x, "a"), Declined(y, "low float")],
                [Started(z, id), ClaimTried(z, "b")];
    RunAppend(env, s, a, b);
    FourSteps(env, s, a);
    HandedBackWhileHeld(env, s, x, y, id, "a", "low float");
    TwoSteps(env, Run(env, s, a), b);
    ClaimedWhileHeld(env, Run(env, s, a), x, z, id, "b");
  }

  /** The first four steps: a claim, then another executor's hand-back. */
  lemma HandedBackWhileHeld(env: Env, s: State, x: Executor, y: Executor, id: Id, lp: string, reason: string)
    requires id in s.orders && s.orders[id].payout == NoPayout && x !in s.running && y !in s.running && x != y
    ensures var s4 := Step(env, Step(env, Step(env, Step(env, s, Started(x, id)), Started(y, id)),
                                     ClaimTried(x, lp)), Declined(y, reason));
            && id in s4.orders && s4.orders[id].payout == NoPayout
            && s4.running == s.running[x := Claimed(id)]
  {
    ClaimedAndLoaded(env, s, x, y, id, lp);
    assert s.running[x := Claimed(id)][y := Loaded(id)] - {y} == s.running[x := Claimed(id)];
  }

  /** The last two: an executor claims an open order that another one still holds. */
  lemma ClaimedWhileHeld(env: Env, s: State, x: Executor, z: Executor, id: Id, lp: string)
    requires id in s.orders && s.orders[id].payout == NoPayout && HoldsClaim(s, x, id) && z !in s.running
    ensures var s' := Step(env, Step(env, s, Started(z, id)), ClaimTried(z, lp));
            x != z && HoldsClaim(s', x, id) && HoldsClaim(s', z, id)
  {
    ClaimedAlone(env, s, id, z, lp);
  }

  // ---- Transfers --------------------------------------------------------------------------------

  /** The executors that hold the claim and have not asked for the transfer yet. */
  ghost function Waiting(s: State, id: Id): set<Executor> {
    set x | x in s.running && Holds(s, x, Claimed(id))
  }

  /** Each claim makes room for one transfer. */
  ghost predicate TransferInv(s: State, id: Id) {
    s.transfers[id] + |Waiting(s, id)| <= s.claims[id]
  }

  lemma StepKeepsTransferInv(env: Env, s: State, e: Event, id: Id)
    requires id in s.orders && TransferInv(s, id)
    ensures TransferInv(Step(env, s, e), id)
  {
    var s' := Step(env, s, e);
    if OfExecute(e) {
      ExecuteKeepsTransferInv(s, e, id);
    } else {
      OthersClaimNone(env, s, e, id);
      OthersCountNothing(env, s, e, id);
      Smaller(Waiting(s', id), Waiting(s, id));
    }
  }

  lemma OthersCountNothing(env: Env, s: State, e: Event, id: Id)
    requires id in s.orders && !OfExecute(e)
    ensures Step(env, s, e).transfers == s.transfers && Step(env, s, e).claims == s.claims
  {
    if OfNode(e) {
      NodeKeepsPayout(s, e, id);
    } else if OfSchedule(e) {
      ScheduleKeepsPayout(s, e, id);
    }
  }

  lemma {:induction false} Smaller<T>(a: set<T>, b: set<T>)
    requires a <= b
    ensures |a| <= |b|
  {
    if x :| x in a {
      Smaller(a - {x}, b - {x});
    }
  }

  lemma ExecuteKeepsTransferInv(s: State, e: Event, id: Id)
    requires id in s.orders && TransferInv(s, id) && OfExecute(e)
    ensures TransferInv(ExecuteStep(s, e), id)
  {
    var s' := ExecuteStep(s, e);
    if e.TransferAsked? && Holds(s, e.x, Claimed(id)) {
      assert s' == OnAsk(s, e.x, id);
      assert e.x in Waiting(s, id) && Waiting(s', id) == Waiting(s, id) - {e.x};
    } else if e.ClaimTried? && Holds(s, e.x, Loaded(id)) && s.orders[id].payout == NoPayout {
      assert s' == OnClaim(s, e.x, id, e.lp);
      assert e.x !in Waiting(s, id) && Waiting(s', id) == Waiting(s, id) + {e.x};
    } else {
      NothingAsked(s, e, id);
      Smaller(Waiting(s', id), Waiting(s, id));
    }
  }

  lemma NothingAsked(s: State, e: Event, id: Id)
    requires id in s.orders && OfExecute(e) && !(e.TransferAsked? && Holds(s, e.x, Claimed(id)))
    requires !(e.ClaimTried? && Holds(s, e.x, Loaded(id)) && s.orders[id].payout == NoPayout)
    ensures var s' := ExecuteStep(s, e);
            && s'.transfers[id] == s.transfers[id] && s'.claims[id] == s.claims[id]
            && forall x :: Holds(s', x, Claimed(id)) ==> Holds(s, x, Claimed(id))
  {
  }

  /** Over every run the rail is asked to pay an order at most once per claim, and so at most
      once more than the order is handed back. */
  lemma {:induction false} TransfersAreBounded(env: Env, s: State, events: seq<Event>, id: Id)
    requires id in s.orders && OrderInv(s, id) && TransferInv(s, id)
    ensures var s' := Run(env, s, events);
            && id in s'.orders && OrderInv(s', id) && TransferInv(s', id)
            && s'.transfers[id] <= s'.claims[id] <= 1 + s'.resets[id]
    decreases |events|
  {
    if events != [] {
      StepKeepsOrderInv(env, s, events[0], id);
      StepKeepsTransferInv(env, s, events[0], id);
      TransfersAreBounded(env, Step(env, s, events[0]), events[1..], id);
    }
  }

  /** Two transfers of one order: the call of the first fails although the transfer goes out,
      the order is handed back, and the next executor pays again. */
  lemma OrderCanBePaidTwice(env: Env, s: State, id: Id, x: Executor, y: Executor)
    requires id in s.orders && s.orders[id].payout == NoPayout && x !in s.running && y !in s.running
    ensures var s' := Run(env, s, Executes(x, id, "a", Refused("timeout")) + Executes(y, id, "b", Confirmed));
            && s'.transfers[id] == s.transfers[id] + 2 && s'.resets[id] == s.resets[id] + 1
            && id in s'.orders && s'.orders[id].payout == PayoutSuccess && s'.orders[id].provider == Some("b")
  {
    RunAppend(env, s, Executes(x, id, "a", Refused("timeout")), Executes(y, id, "b", Confirmed));
    ExecutedAlone(env, s, id, x, "a", Refused("timeout"));
    ExecutedAlone(env, Run(env, s, Executes(x, id, "a", Refused("timeout"))), id, y, "b", Confirmed);
  }
}

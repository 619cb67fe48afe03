/** The platform-operated payout of a lock order (`ExecuteOrderService`), as a protocol
    between concurrent executors, the transfer webhook, the reconciliation task, the
    settlement step, and everything else that writes the status of an order: provider
    nodes, the scheduled reassignments and the chain indexer. Every database update is
    one atomic step; what a task loads and what it later writes are two. */
module PayoutExecution {
  import opened Prelude
  import opened PayoutWebhook

  /** Identifies one running handler, task or goroutine. */
  type Executor = nat

  /** Where a running task stands with its order. */
  datatype Phase =
    | Loaded(id: Id)     // Execute has loaded it
    | Claimed(id: Id)    // Execute holds the claim
    | Paying(id: Id)     // and has asked the rail for the transfer
    | Polling(id: Id)    // the reconciliation found it pending
    | Settling(id: Id)   // the settlement found it confirmed
    | Reporting(id: Id)  // a node's report of a valid payment passed its check
    | Cancelling(id: Id) // a node that owned it cancels it
    | Rechecking(id: Id) // the validation task selected it

  /** The stored orders and the running tasks. The multisets are history variables that
      count what has happened to each order: claims, transfers asked of the rail, resets by
      an executor, accepts by a node, returns to fulfilled by the validation task, and
      calls of the on-chain settlement. */
  datatype State = State(
    orders: map<Id, Order>,
    running: map<Executor, Phase>,
    claims: multiset<Id>,
    transfers: multiset<Id>,
    resets: multiset<Id>,
    accepts: multiset<Id>,
    reopened: multiset<Id>,
    settles: multiset<Id>)

  datatype TransferResult = Confirmed | Refused(reason: string) | Accepted(session: string)

  datatype Event =
    | Started(x: Executor, id: Id)          // Execute loads the order
    | Declined(x: Executor, reason: string) // before the claim: hand the order back
    | GaveUp(x: Executor, reason: string)   // before the claim: the order itself is unpayable
    | ClaimTried(x: Executor, lp: string)
    | TransferAsked(x: Executor)            // after the name enquiry
    | Returned(x: Executor, result: TransferResult)
    | CalledBack(callback: Callback)
    | Polled(x: Executor, id: Id)           // the reconciliation loads a pending order
    | Reconciled(x: Executor, result: TransferResult)
    | SettleStarted(x: Executor, id: Id)    // the settlement loads a confirmed order
    | SettleWritten(x: Executor)
    | Left(x: Executor)                     // the task ends without an update
    | NodeAccepted(id: Id, lp: string)      // AcceptOrder
    | NodeFulfilled(id: Id)                 // FulfillOrder, payment not yet valid
    | ReportStarted(x: Executor, id: Id, of: Id) // FulfillOrder, valid: loads the payment and its order
    | ReportWritten(x: Executor)
    | CancelStarted(x: Executor, id: Id, lp: string) // CancelOrder loads the order of its provider
    | CancelWritten(x: Executor)
    | RecheckStarted(x: Executor, id: Id)   // ReassignUnvalidatedLockOrders selects it
    | RecheckWritten(x: Executor, valid: bool)
    | Unassigned(id: Id)                    // ReassignUnfulfilledLockOrders
    | ProviderCleared(id: Id)               // ReassignPendingOrders
    | ChainSettled(id: Id)                  // the indexer sees the settlement
    | ChainRefunded(id: Id)                 // the indexer sees the refund

  function Reference(id: Id): string {
    "routeB-" + id
  }

  // ---- The steps ----------------------------------------------------------------------------

  /** `reassign`: back to pending, whatever the order has become in the meantime. */
  function Reset(order: Order, reason: string): Order {
    order.(status := Pending, provider := None, payout := NoPayout, error := Some(reason), session := None)
  }

  /** `setPayoutSuccess`. */
  function Confirm(order: Order): Order {
    order.(payout := PayoutSuccess, session := None, error := None)
  }

  function Fail(order: Order, reason: string): Order {
    order.(payout := PayoutFailed, error := Some(reason), session := None)
  }

  function Claim(order: Order, id: Id, lp: string): Order {
    order.(provider := Some(lp), status := Processing, payout := PayoutPending,
           reference := Some(Reference(id)), error := None)
  }

  predicate Runs(s: State, x: Executor) {
    x in s.running && s.running[x].id in s.orders
  }

  predicate Holds(s: State, x: Executor, phase: Phase) {
    x in s.running && s.running[x] == phase
  }

  /** The executor `x` holds the claim of the order. */
  predicate HoldsClaim(s: State, x: Executor, id: Id) {
    Holds(s, x, Claimed(id)) || Holds(s, x, Paying(id))
  }

  /** The executor `x` is done. */
  function Ended(s: State, x: Executor): State {
    s.(running := s.running - {x})
  }

  function ResetBy(s: State, x: Executor, id: Id, reason: string): State
    requires id in s.orders
  {
    Ended(s, x).(orders := s.orders[id := Reset(s.orders[id], reason)], resets := s.resets + multiset{id})
  }

  function OnStart(s: State, x: Executor, id: Id): State {
    if x !in s.running && id in s.orders && s.orders[id].payout == NoPayout
    then s.(running := s.running[x := Loaded(id)]) else s
  }

  function OnClaim(s: State, x: Executor, id: Id, lp: string): State
    requires id in s.orders
  {
    if s.orders[id].payout != NoPayout then Ended(s, x)
    else s.(orders := s.orders[id := Claim(s.orders[id], id, lp)],
            running := s.running[x := Claimed(id)],
            claims := s.claims + multiset{id})
  }

  function OnAsk(s: State, x: Executor, id: Id): State {
    s.(running := s.running[x := Paying(id)], transfers := s.transfers + multiset{id})
  }

  function OnReturn(s: State, x: Executor, id: Id, result: TransferResult): State
    requires id in s.orders
  {
    match result
    case Confirmed => Ended(s, x).(orders := s.orders[id := Confirm(s.orders[id])])
    case Refused(reason) => ResetBy(s, x, id, reason)
    case Accepted(session) => Ended(s, x).(orders := s.orders[id := s.orders[id].(session := Some(session))])
  }

  /** `ReconcileFiatPayouts` selects an order that is pending and has a session. */
  function OnPoll(s: State, x: Executor, id: Id): State {
    if x !in s.running && id in s.orders && s.orders[id].payout == PayoutPending
       && s.orders[id].session.GetOr("") != ""
    then s.(running := s.running[x := Polling(id)]) else s
  }

  /** Its update goes by id alone. */
  function OnReconcile(s: State, x: Executor, id: Id, result: TransferResult): State
    requires id in s.orders
  {
    match result
    case Confirmed => Ended(s, x).(orders := s.orders[id := Confirm(s.orders[id])])
    case Refused(reason) => Ended(s, x).(orders := s.orders[id := Fail(s.orders[id], reason)])
    case Accepted(_) => Ended(s, x)
  }

  /** `SettleAfterPayout` goes on only with a processing order whose payout is confirmed. */
  function OnSettleStart(s: State, x: Executor, id: Id): State {
    if x !in s.running && id in s.orders && s.orders[id].status == Processing && s.orders[id].payout == PayoutSuccess
    then s.(running := s.running[x := Settling(id)]) else s
  }

  /** Its update goes by id alone. */
  function OnSettleWrite(s: State, x: Executor, id: Id): State
    requires id in s.orders
  {
    Ended(s, x).(orders := s.orders[id := s.orders[id].(status := Validated)],
                 settles := s.settles + multiset{id})
  }

  /** A node may still report on the order. */
  predicate Open(order: Order) {
    order.status in {Processing, Fulfilled}
  }

  /** The executor's own payout is not in flight and not done. */
  predicate Unpaid(order: Order) {
    order.payout !in {PayoutPending, PayoutSuccess}
  }

  function WithStatus(s: State, id: Id, status: OrderStatus): State
    requires id in s.orders
  {
    s.(orders := s.orders[id := s.orders[id].(status := status)])
  }

  /** `AcceptOrder` looks neither at the status nor at the payout. */
  function OnAccept(s: State, id: Id, lp: string): State
    requires id in s.orders
  {
    s.(orders := s.orders[id := s.orders[id].(status := Processing, provider := Some(lp))],
       accepts := s.accepts + multiset{id})
  }

  /** `FulfillOrder` checks the order that the reported payment was recorded for. */
  function OnReportStart(s: State, x: Executor, id: Id, of: Id): State {
    if x !in s.running && id in s.orders && of in s.orders && s.orders[of].status == Fulfilled
    then s.(running := s.running[x := Reporting(id)]) else s
  }

  /** Its update goes by id and status, and it settles whether or not a row was updated. */
  function OnReportWrite(s: State, x: Executor, id: Id): State
    requires id in s.orders
  {
    var s1 := if Open(s.orders[id]) then WithStatus(s, id, Validated) else s;
    Ended(s1, x).(settles := s.settles + multiset{id})
  }

  /** `CancelOrder` loads the order of its provider and later updates it by id alone. */
  function OnCancelStart(s: State, x: Executor, id: Id, lp: string): State {
    if x !in s.running && id in s.orders && s.orders[id].provider == Some(lp)
    then s.(running := s.running[x := Cancelling(id)]) else s
  }

  /** `ReassignUnvalidatedLockOrders` selects orders without a payout of their own. */
  function OnRecheckStart(s: State, x: Executor, id: Id): State {
    if x !in s.running && id in s.orders && Unpaid(s.orders[id]) && s.orders[id].status in {Fulfilled, Cancelled}
    then s.(running := s.running[x := Rechecking(id)]) else s
  }

  /** It writes once per recorded payment, by id alone, and goes on. */
  function OnRecheckWrite(s: State, id: Id, valid: bool): State
    requires id in s.orders
  {
    if valid then WithStatus(s, id, Validated)
    else WithStatus(s, id, Fulfilled).(reopened := s.reopened + multiset{id})
  }

  /** `ReassignUnfulfilledLockOrders` takes unpaid orders that are processing or cancelled. */
  predicate Reassignable(order: Order) {
    Unpaid(order) && order.status in {Processing, Cancelled}
  }

  function OnUnassign(s: State, id: Id): State
    requires id in s.orders
  {
    s.(orders := s.orders[id := s.orders[id].(status := Pending, provider := None)])
  }

  /** An event of a running `Execute`. */
  predicate OfExecute(e: Event) {
    e.Started? || e.Declined? || e.GaveUp? || e.ClaimTried? || e.TransferAsked? || e.Returned?
  }

  function ExecuteStep(s: State, e: Event): State
    requires OfExecute(e)
  {
    match e
    case Started(x, id) => OnStart(s, x, id)
    case Declined(x, reason) =>
      if Runs(s, x) && s.running[x].Loaded? then ResetBy(s, x, s.running[x].id, reason) else s
    case GaveUp(x, reason) =>
      if Runs(s, x) && s.running[x].Loaded?
      then Ended(s, x).(orders := s.orders[s.running[x].id := Fail(s.orders[s.running[x].id], reason)]) else s
    case ClaimTried(x, lp) =>
      if Runs(s, x) && s.running[x].Loaded? then OnClaim(s, x, s.running[x].id, lp) else s
    case TransferAsked(x) =>
      if Runs(s, x) && s.running[x].Claimed? then OnAsk(s, x, s.running[x].id) else s
    case Returned(x, result) =>
      // before the transfer only the name enquiry can fail
      if Runs(s, x) && (s.running[x].Paying? || (s.running[x].Claimed? && result.Refused?))
      then OnReturn(s, x, s.running[x].id, result) else s
  }

  /** An event of the payout after `Execute`. */
  predicate OfPayout(e: Event) {
    e.Polled? || e.Reconciled? || e.SettleStarted? || e.SettleWritten? || e.Left?
  }

  function PayoutStep(s: State, e: Event): State
    requires OfPayout(e)
  {
    match e
    case Polled(x, id) => OnPoll(s, x, id)
    case Reconciled(x, result) =>
      if Runs(s, x) && s.running[x].Polling? then OnReconcile(s, x, s.running[x].id, result) else s
    case SettleStarted(x, id) => OnSettleStart(s, x, id)
    case SettleWritten(x) =>
      if Runs(s, x) && s.running[x].Settling? then OnSettleWrite(s, x, s.running[x].id) else s
    case Left(x) => Ended(s, x)
  }

  /** An event of a provider's node. */
  predicate OfNode(e: Event) {
    e.NodeAccepted? || e.NodeFulfilled? || e.ReportStarted? || e.ReportWritten? || e.CancelStarted? || e.CancelWritten?
  }

  function NodeStep(s: State, e: Event): State
    requires OfNode(e)
  {
    match e
    case NodeAccepted(id, lp) => if id in s.orders then OnAccept(s, id, lp) else s
    case NodeFulfilled(id) => if id in s.orders && Open(s.orders[id]) then WithStatus(s, id, Fulfilled) else s
    case ReportStarted(x, id, of) => OnReportStart(s, x, id, of)
    case ReportWritten(x) =>
      if Runs(s, x) && s.running[x].Reporting? then OnReportWrite(s, x, s.running[x].id) else s
    case CancelStarted(x, id, lp) => OnCancelStart(s, x, id, lp)
    case CancelWritten(x) =>
      if Runs(s, x) && s.running[x].Cancelling?
      then Ended(WithStatus(s, s.running[x].id, Cancelled), x) else s
  }

  /** An event of a scheduled task or of the chain indexer. */
  predicate OfSchedule(e: Event) {
    !OfExecute(e) && !e.CalledBack? && !OfPayout(e) && !OfNode(e)
  }

  function ScheduleStep(s: State, e: Event): State
    requires OfSchedule(e)
  {
    match e
    case RecheckStarted(x, id) => OnRecheckStart(s, x, id)
    case RecheckWritten(x, valid) =>
      if Runs(s, x) && s.running[x].Rechecking? then OnRecheckWrite(s, s.running[x].id, valid) else s
    case Unassigned(id) => if id in s.orders && Reassignable(s.orders[id]) then OnUnassign(s, id) else s
    case ProviderCleared(id) => if id in s.orders && s.orders[id].status == Pending then OnUnassign(s, id) else s
    case ChainSettled(id) => if id in s.orders then WithStatus(s, id, Settled) else s
    case ChainRefunded(id) => if id in s.orders then WithStatus(s, id, Refunded) else s
  }

  function Step(env: Env, s: State, e: Event): State {
    if OfExecute(e) then ExecuteStep(s, e)
    else if e.CalledBack? then s.(orders := OnCallback(env, s.orders, e.callback))
    else if OfPayout(e) then PayoutStep(s, e)
    else if OfNode(e) then NodeStep(s, e)
    else ScheduleStep(s, e)
  }

  function Run(env: Env, s: State, events: seq<Event>): State
    decreases |events|
  {
    if events == [] then s else Run(env, Step(env, s, events[0]), events[1..])
  }

  /** The state that the first `k` events lead to. */
  function At(env: Env, s: State, events: seq<Event>, k: nat): State
    requires k <= |events|
  {
    Run(env, s, events[..k])
  }

  /** Nothing has been done to any order yet. */
  ghost predicate Fresh(s: State) {
    && s.running == map[] && s.claims == multiset{} && s.transfers == multiset{} && s.resets == multiset{}
    && s.accepts == multiset{} && s.reopened == multiset{} && s.settles == multiset{}
    && forall id :: id in s.orders ==>
         s.orders[id].payout == NoPayout && s.orders[id].reference.None? && s.orders[id].status == Pending
  }

  // ---- Runs -------------------------------------------------------------------------------------

  lemma {:induction false} RunAppend(env: Env, s: State, a: seq<Event>, b: seq<Event>)
    ensures Run(env, s, a + b) == Run(env, Run(env, s, a), b)
    decreases |a|
  {
    if a == [] {
      assert a + b == b;
    } else {
      assert (a + b)[1..] == a[1..] + b;
      RunAppend(env, Step(env, s, a[0]), a[1..], b);
    }
  }

  lemma OneStep(env: Env, s: State, e: Event)
    ensures Run(env, s, [e]) == Step(env, s, e)
  {
    assert [e][1..] == [];
    assert Run(env, s, [e]) == Run(env, Step(env, s, e), []);
  }

  lemma TwoSteps(env: Env, s: State, e: seq<Event>)
    requires |e| == 2
    ensures Run(env, s, e) == Step(env, Step(env, s, e[0]), e[1])
  {
    OneStep(env, Step(env, s, e[0]), e[1]);
    assert e[1..] == [e[1]];
  }

  lemma FourSteps(env: Env, s: State, e: seq<Event>)
    requires |e| == 4
    ensures Run(env, s, e) == Step(env, Step(env, Step(env, Step(env, s, e[0]), e[1]), e[2]), e[3])
  {
    TwoSteps(env, s, e[..2]);
    TwoSteps(env, Run(env, s, e[..2]), e[2..]);
    RunAppend(env, s, e[..2], e[2..]);
    assert e[..2] + e[2..] == e;
  }

  lemma NextState(env: Env, s: State, events: seq<Event>, k: nat)
    requires k < |events|
    ensures At(env, s, events, k + 1) == Step(env, At(env, s, events, k), events[k])
  {
    assert events[..k + 1] == events[..k] + [events[k]];
    RunAppend(env, s, events[..k], [events[k]]);
    OneStep(env, Run(env, s, events[..k]), events[k]);
  }

  /** What a single step keeps exactly when it is not a bad one, a run keeps throughout
      exactly when it has no bad one. */
  lemma ThroughoutIff(env: Env, s: State, events: seq<Event>, good: State -> bool, bad: (State, Event) -> bool)
    requires good(s) && forall t, e :: good(t) ==> (good(Step(env, t, e)) <==> !bad(t, e))
    ensures (forall k: nat :: k <= |events| ==> good(At(env, s, events, k)))
            <==> (forall k: nat :: k < |events| ==> !bad(At(env, s, events, k), events[k]))
  {
    if forall k: nat :: k <= |events| ==> good(At(env, s, events, k)) {
      forall k: nat | k < |events| ensures !bad(At(env, s, events, k), events[k]) {
        NextState(env, s, events, k);
        assert good(At(env, s, events, k)) && good(At(env, s, events, k + 1));
      }
    }
    if forall k: nat :: k < |events| ==> !bad(At(env, s, events, k), events[k]) {
      forall k: nat | k <= |events| ensures good(At(env, s, events, k)) {
        GoodUntil(env, s, events, good, bad, k);
      }
    }
  }

  lemma {:induction false} GoodUntil(
    env: Env, s: State, events: seq<Event>, good: State -> bool, bad: (State, Event) -> bool, k: nat)
    requires good(s) && forall t, e :: good(t) ==> (good(Step(env, t, e)) <==> !bad(t, e))
    requires k <= |events| && forall j: nat :: j < k ==> !bad(At(env, s, events, j), events[j])
    ensures good(At(env, s, events, k))
  {
    if k > 0 {
      GoodUntil(env, s, events, good, bad, k - 1);
      NextState(env, s, events, k - 1);
      assert !bad(At(env, s, events, k - 1), events[k - 1]);
    }
  }

  // ---- What every run keeps -----------------------------------------------------------------

  ghost predicate OrderInv(s: State, id: Id)
    requires id in s.orders
  {
    var order := s.orders[id];
    && (order.payout == PayoutPending || order.payout == PayoutSuccess ==> order.error.None?)
    && (order.reference == None || order.reference == Some(Reference(id)))
    && (order.payout == PayoutPending ==> order.reference.Some? && order.provider.Some? && order.status != Pending)
    // each reset makes room for one more claim, and only an unclaimed order has room
    && s.claims[id] + (if order.payout == NoPayout then 1 else 0) <= 1 + s.resets[id]
  }

  lemma StepKeepsOrderInv(env: Env, s: State, e: Event, id: Id)
    requires id in s.orders && OrderInv(s, id)
    ensures id in Step(env, s, e).orders && OrderInv(Step(env, s, e), id)
  {
    if OfExecute(e) {
      ExecuteKeepsOrderInv(s, e, id);
    } else if e.CalledBack? {
      CallbackOnOrder(env, s.orders, e.callback, id);
    } else if OfPayout(e) {
      PayoutKeepsOrderInv(s, e, id);
    } else if OfNode(e) {
      NodeKeepsPayout(s, e, id);
    } else {
      ScheduleKeepsPayout(s, e, id);
    }
  }

  lemma PayoutKeepsOrderInv(s: State, e: Event, id: Id)
    requires id in s.orders && OrderInv(s, id) && OfPayout(e)
    ensures id in PayoutStep(s, e).orders && OrderInv(PayoutStep(s, e), id)
  {
    if e.Reconciled? && Runs(s, e.x) {
      ReconcileKeepsOrderInv(s, e.x, s.running[e.x].id, e.result, id);
    }
  }

  lemma ReconcileKeepsOrderInv(s: State, x: Executor, i: Id, result: TransferResult, id: Id)
    requires i in s.orders && id in s.orders && OrderInv(s, id)
    ensures var s' := OnReconcile(s, x, i, result);
            id in s'.orders && OrderInv(s', id)
  {
  }

  lemma CallbackOnOrder(env: Env, orders: map<Id, Order>, c: Callback, id: Id)
    requires id in orders
    ensures id in OnCallback(env, orders, c)
    ensures OnCallback(env, orders, c)[id]
            == if Hits(env, orders, c, id) then Converged(orders[id], Classify(env, c.rawStatus).value) else orders[id]
    ensures Hits(env, orders, c, id) ==> Classify(env, c.rawStatus).value in {PayoutSuccess, PayoutFailed}
  {
  }

  /** Neither a node nor a scheduled task nor the indexer touches the payout. */
  ghost predicate SamePayout(s: State, s': State, id: Id)
    requires id in s.orders
  {
    && id in s'.orders && s'.claims == s.claims && s'.transfers == s.transfers && s'.resets == s.resets
    && s'.orders[id] == s.orders[id].(status := s'.orders[id].status, provider := s'.orders[id].provider)
    && (s.orders[id].payout == PayoutPending && s.orders[id].provider.Some? && s.orders[id].status != Pending
        ==> s'.orders[id].provider.Some? && s'.orders[id].status != Pending)
  }

  lemma NodeKeepsPayout(s: State, e: Event, id: Id)
    requires id in s.orders && OfNode(e)
    ensures SamePayout(s, NodeStep(s, e), id)
  {
  }

  lemma ScheduleKeepsPayout(s: State, e: Event, id: Id)
    requires id in s.orders && OfSchedule(e)
    ensures SamePayout(s, ScheduleStep(s, e), id)
  {
  }

  lemma ExecuteKeepsOrderInv(s: State, e: Event, id: Id)
    requires id in s.orders && OrderInv(s, id) && OfExecute(e)
    ensures id in ExecuteStep(s, e).orders && OrderInv(ExecuteStep(s, e), id)
  {
    if e.Returned? && Runs(s, e.x) {
      ReturnKeepsOrderInv(s, e.x, s.running[e.x].id, e.result, id);
    }
  }

  lemma ReturnKeepsOrderInv(s: State, x: Executor, i: Id, result: TransferResult, id: Id)
    requires i in s.orders && id in s.orders && OrderInv(s, id)
    ensures var s' := OnReturn(s, x, i, result);
            id in s'.orders && OrderInv(s', id)
  {
  }

  /** Over every run, interleaved in any way: a pending or confirmed payout carries no
      error, a pending one has its provider and its own reference and is not open to matching,
      no other reference is ever stored, and an order is claimed at most once more than it is
      reset. */
  lemma {:induction false} RunKeepsOrderInv(env: Env, s: State, events: seq<Event>, id: Id)
    requires id in s.orders && OrderInv(s, id)
    ensures id in Run(env, s, events).orders && OrderInv(Run(env, s, events), id)
    decreases |events|
  {
    if events != [] {
      StepKeepsOrderInv(env, s, events[0], id);
      RunKeepsOrderInv(env, Step(env, s, events[0]), events[1..], id);
    }
  }

  lemma ExecuteKeepsOrder(s: State, e: Event, id: Id)
    requires id in s.orders && OfExecute(e)
    ensures id in ExecuteStep(s, e).orders
  {
  }

  lemma PayoutStaysClosed(s: State, e: Event, id: Id)
    requires OfPayout(e) && id in s.orders
    ensures id in PayoutStep(s, e).orders
    ensures s.orders[id].payout != NoPayout ==> PayoutStep(s, e).orders[id].payout != NoPayout
  {
  }

  /** No order is removed. */
  lemma OrderStays(env: Env, s: State, e: Event, id: Id)
    requires id in s.orders
    ensures id in Step(env, s, e).orders
  {
    if OfExecute(e) {
      ExecuteKeepsOrder(s, e, id);
    } else if e.CalledBack? {
      CallbackOnOrder(env, s.orders, e.callback, id);
    } else if OfPayout(e) {
      PayoutStaysClosed(s, e, id);
    } else if OfNode(e) {
      NodeKeepsPayout(s, e, id);
    } else {
      ScheduleKeepsPayout(s, e, id);
    }
  }

  lemma {:induction false} OrderStaysInRun(env: Env, s: State, events: seq<Event>, id: Id)
    requires id in s.orders
    ensures id in Run(env, s, events).orders
    decreases |events|
  {
    if events != [] {
      OrderStays(env, s, events[0], id);
      OrderStaysInRun(env, Step(env, s, events[0]), events[1..], id);
    }
  }

  // ---- Callbacks and whole executions --------------------------------------------------------------

  /** A callback with the reference that a claim stores, for an id that the parser reads back. */
  predicate OwnCallback(env: Env, c: Callback, id: Id) {
    c.saves && c.reference == Reference(id) && env.parse(id) == Some(id) && !HasPrefix(id, "routeC-")
  }

  /** A pending payout is converged by any terminal callback with its own reference, for
      every id that the parser reads back. */
  lemma PendingPayoutIsHit(env: Env, s: State, c: Callback, id: Id)
    requires id in s.orders && OrderInv(s, id) && s.orders[id].payout == PayoutPending
    requires OwnCallback(env, c, id)
    ensures var s' := Step(env, s, CalledBack(c));
            match Classify(env, c.rawStatus)
            case None => s' == s
            case Some(status) => id in s'.orders && s'.orders[id] == Converged(s.orders[id], status)
  {
    CanonicalReferences(env, id);
  }

  /** A whole `Execute`. */
  function Executes(x: Executor, id: Id, lp: string, result: TransferResult): seq<Event> {
    [Started(x, id), ClaimTried(x, lp), TransferAsked(x), Returned(x, result)]
  }

  /** The order after a claim and the answer of the rail. */
  function Answered(order: Order, id: Id, lp: string, result: TransferResult): Order {
    var claimed := Claim(order, id, lp);
    match result
    case Confirmed => Confirm(claimed)
    case Refused(reason) => Reset(claimed, reason)
    case Accepted(session) => claimed.(session := Some(session))
  }

  lemma ClaimedAlone(env: Env, s: State, id: Id, x: Executor, lp: string)
    requires id in s.orders && s.orders[id].payout == NoPayout && x !in s.running
    ensures Step(env, Step(env, s, Started(x, id)), ClaimTried(x, lp))
            == s.(orders := s.orders[id := Claim(s.orders[id], id, lp)], running := s.running[x := Claimed(id)],
                  claims := s.claims + multiset{id})
  {
    var s1 := Step(env, s, Started(x, id));
    assert s1 == s.(running := s.running[x := Loaded(id)]);
    assert s1.running[x := Claimed(id)] == s.running[x := Claimed(id)];
  }

  lemma Asked(env: Env, s: State, id: Id, x: Executor)
    requires id in s.orders && Holds(s, x, Claimed(id))
    ensures Step(env, s, TransferAsked(x)) == OnAsk(s, x, id)
  {
  }

  lemma AskedAndAnswered(env: Env, s: State, id: Id, x: Executor, result: TransferResult)
    requires id in s.orders && Holds(s, x, Claimed(id))
    ensures Step(env, Step(env, s, TransferAsked(x)), Returned(x, result))
            == OnReturn(s, x, id, result).(transfers := s.transfers + multiset{id})
  {
    Asked(env, s, id, x);
    var t := OnAsk(s, x, id);
    assert t.running - {x} == s.running - {x};
  }

  lemma AnswerOf(s: State, id: Id, x: Executor, lp: string, result: TransferResult)
    requires id in s.orders && x !in s.running
    ensures OnReturn(s.(orders := s.orders[id := Claim(s.orders[id], id, lp)], running := s.running[x := Claimed(id)],
                        claims := s.claims + multiset{id}), x, id, result)
            == s.(orders := s.orders[id := Answered(s.orders[id], id, lp, result)],
                  claims := s.claims + multiset{id},
                  resets := if result.Refused? then s.resets + multiset{id} else s.resets)
  {
    var claimed := s.orders[id := Claim(s.orders[id], id, lp)];
    assert s.running[x := Claimed(id)] - {x} == s.running;
    assert claimed[id := Answered(s.orders[id], id, lp, result)]
        == s.orders[id := Answered(s.orders[id], id, lp, result)];
  }

  lemma ExecutedAlone(env: Env, s: State, id: Id, x: Executor, lp: string, result: TransferResult)
    requires id in s.orders && s.orders[id].payout == NoPayout && x !in s.running
    ensures Run(env, s, Executes(x, id, lp, result))
            == s.(orders := s.orders[id := Answered(s.orders[id], id, lp, result)],
                  claims := s.claims + multiset{id}, transfers := s.transfers + multiset{id},
                  resets := if result.Refused? then s.resets + multiset{id} else s.resets)
  {
    FourSteps(env, s, Executes(x, id, lp, result));
    ClaimedAlone(env, s, id, x, lp);
    AskedAndAnswered(env, Step(env, Step(env, s, Started(x, id)), ClaimTried(x, lp)), id, x, result);
    AnswerOf(s, id, x, lp, result);
  }

  /** After two loads and one claim. */
  lemma ClaimedAndLoaded(env: Env, s: State, x: Executor, y: Executor, id: Id, lp: string)
    requires id in s.orders && s.orders[id].payout == NoPayout && x !in s.running && y !in s.running && x != y
    ensures var s3 := Step(env, Step(env, Step(env, s, Started(x, id)), Started(y, id)), ClaimTried(x, lp));
            && s3.orders == s.orders[id := Claim(s.orders[id], id, lp)]
            && s3.running == s.running[x := Claimed(id)][y := Loaded(id)]
  {
    var s2 := Step(env, Step(env, s, Started(x, id)), Started(y, id));
    assert s2 == s.(running := s.running[x := Loaded(id)][y := Loaded(id)]);
    assert s2.running[x := Claimed(id)] == s.running[x := Claimed(id)][y := Loaded(id)];
  }
}

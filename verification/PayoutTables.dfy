/** The payout protocol as one order and one task see it: what each event does to them, in
    plain fields, and nothing else. */
module PayoutTables {
  import opened Prelude
  import opened PayoutWebhook
  import opened PayoutExecution

  function Task(s: State, x: Executor): Option<Phase> {
    if x in s.running then Some(s.running[x]) else None
  }

  // ---- One order --------------------------------------------------------------------------------

  /** The order after an event of its executors. */
  function AfterExecute(order: Order, task: Option<Phase>, e: Event, id: Id): Order
    requires OfExecute(e)
  {
    match e
    case Started(_, _) => order
    case Declined(_, reason) =>
      if task == Some(Loaded(id))
      then Order(Pending, None, NoPayout, order.reference, None, Some(reason)) else order
    case GaveUp(_, reason) =>
      if task == Some(Loaded(id))
      then Order(order.status, order.provider, PayoutFailed, order.reference, None, Some(reason)) else order
    case ClaimTried(_, lp) =>
      if task == Some(Loaded(id)) && order.payout == NoPayout
      then Order(Processing, Some(lp), PayoutPending, Some("routeB-" + id), order.session, None) else order
    case TransferAsked(_) => order
    case Returned(_, Confirmed) =>
      if task == Some(Paying(id))
      then Order(order.status, order.provider, PayoutSuccess, order.reference, None, None) else order
    case Returned(_, Refused(reason)) =>
      if task == Some(Paying(id)) || task == Some(Claimed(id))
      then Order(Pending, None, NoPayout, order.reference, None, Some(reason)) else order
    case Returned(_, Accepted(session)) =>
      if task == Some(Paying(id))
      then Order(order.status, order.provider, order.payout, order.reference, Some(session), order.error) else order
  }

  lemma ExecuteOrderTable(s: State, e: Event, id: Id)
    requires id in s.orders && OfExecute(e)
    ensures var s' := ExecuteStep(s, e);
            id in s'.orders && s'.orders[id] == AfterExecute(s.orders[id], Task(s, e.x), e, id)
  {
  }

  /** The order after an event of the reconciliation or the settlement. */
  function AfterPayout(order: Order, task: Option<Phase>, e: Event, id: Id): Order
    requires OfPayout(e)
  {
    match e
    case Reconciled(_, Confirmed) =>
      if task == Some(Polling(id))
      then Order(order.status, order.provider, PayoutSuccess, order.reference, None, None) else order
    case Reconciled(_, Refused(reason)) =>
      if task == Some(Polling(id))
      then Order(order.status, order.provider, PayoutFailed, order.reference, None, Some(reason)) else order
    case SettleWritten(_) =>
      if task == Some(Settling(id)) then order.(status := Validated) else order
    case _ => order
  }

  lemma PayoutOrderTable(s: State, e: Event, id: Id)
    requires id in s.orders && OfPayout(e)
    ensures var s' := PayoutStep(s, e);
            id in s'.orders && s'.orders[id] == AfterPayout(s.orders[id], Task(s, e.x), e, id)
  {
  }

  /** The order after an event of a provider's node; `task` is that of the acting one, if any. */
  function AfterNode(order: Order, task: Option<Phase>, e: Event, id: Id): Order
    requires OfNode(e)
  {
    match e
    case NodeAccepted(i, lp) => if i == id then order.(status := Processing, provider := Some(lp)) else order
    case NodeFulfilled(i) =>
      if i == id && (order.status == Processing || order.status == Fulfilled)
      then order.(status := Fulfilled) else order
    case ReportWritten(_) =>
      if task == Some(Reporting(id)) && (order.status == Processing || order.status == Fulfilled)
      then order.(status := Validated) else order
    case CancelWritten(_) => if task == Some(Cancelling(id)) then order.(status := Cancelled) else order
    case _ => order
  }

  function Acting(s: State, e: Event): Option<Phase> {
    match e
    case ReportWritten(x) => Task(s, x)
    case CancelWritten(x) => Task(s, x)
    case RecheckWritten(x, _) => Task(s, x)
    case _ => None
  }

  lemma NodeOrderTable(s: State, e: Event, id: Id)
    requires id in s.orders && OfNode(e)
    ensures var s' := NodeStep(s, e);
            id in s'.orders && s'.orders[id] == AfterNode(s.orders[id], Acting(s, e), e, id)
  {
    match e
    case NodeAccepted(_, _) =>
    case NodeFulfilled(_) =>
    case ReportStarted(_, _, _) =>
    case ReportWritten(_) => ReportOrderTable(s, e, id);
    case CancelStarted(_, _, _) =>
    case CancelWritten(_) => CancelOrderTable(s, e, id);
  }

  lemma ReportOrderTable(s: State, e: Event, id: Id)
    requires id in s.orders && e.ReportWritten?
    ensures var s' := NodeStep(s, e);
            id in s'.orders && s'.orders[id] == AfterNode(s.orders[id], Acting(s, e), e, id)
  {
  }

  lemma CancelOrderTable(s: State, e: Event, id: Id)
    requires id in s.orders && e.CancelWritten?
    ensures var s' := NodeStep(s, e);
            id in s'.orders && s'.orders[id] == AfterNode(s.orders[id], Acting(s, e), e, id)
  {
  }

  /** The order after an event of a scheduled task or the indexer. */
  function AfterSchedule(order: Order, task: Option<Phase>, e: Event, id: Id): Order
    requires OfSchedule(e)
  {
    match e
    case RecheckStarted(_, _) => order
    case RecheckWritten(_, valid) =>
      if task == Some(Rechecking(id)) then order.(status := if valid then Validated else Fulfilled) else order
    case Unassigned(i) =>
      if i == id && order.payout != PayoutPending && order.payout != PayoutSuccess
         && (order.status == Processing || order.status == Cancelled)
      then order.(status := Pending, provider := None) else order
    case ProviderCleared(i) => if i == id && order.status == Pending then order.(provider := None) else order
    case ChainSettled(i) => if i == id then order.(status := Settled) else order
    case ChainRefunded(i) => if i == id then order.(status := Refunded) else order
  }

  lemma ScheduleOrderTable(s: State, e: Event, id: Id)
    requires id in s.orders && OfSchedule(e)
    ensures var s' := ScheduleStep(s, e);
            id in s'.orders && s'.orders[id] == AfterSchedule(s.orders[id], Acting(s, e), e, id)
  {
  }

  /** Every order after any event. */
  lemma OrderTable(env: Env, s: State, e: Event, id: Id)
    requires id in s.orders
    ensures id in Step(env, s, e).orders
    ensures Step(env, s, e).orders[id]
            == if OfExecute(e) then AfterExecute(s.orders[id], Task(s, e.x), e, id)
               else if e.CalledBack? then OnCallback(env, s.orders, e.callback)[id]
               else if OfPayout(e) then AfterPayout(s.orders[id], Task(s, e.x), e, id)
               else if OfNode(e) then AfterNode(s.orders[id], Acting(s, e), e, id)
               else AfterSchedule(s.orders[id], Acting(s, e), e, id)
  {
    if OfExecute(e) {
      ExecuteOrderTable(s, e, id);
    } else if e.CalledBack? {
      CallbackOnOrder(env, s.orders, e.callback, id);
    } else if OfPayout(e) {
      PayoutOrderTable(s, e, id);
    } else if OfNode(e) {
      NodeOrderTable(s, e, id);
    } else {
      ScheduleOrderTable(s, e, id);
    }
  }

  /** No event adds or removes an order. */
  lemma OrdersStay(env: Env, s: State, e: Event, id: Id)
    ensures id in Step(env, s, e).orders <==> id in s.orders
  {
    if id in s.orders {
      OrderStays(env, s, e, id);
    } else if OfExecute(e) {
      ExecuteAddsNone(s, e, id);
    } else if OfPayout(e) {
      PayoutAddsNone(s, e, id);
    } else if OfNode(e) {
      NodeAddsNone(s, e, id);
    } else if OfSchedule(e) {
      ScheduleAddsNone(s, e, id);
    }
  }

  lemma ExecuteAddsNone(s: State, e: Event, id: Id)
    requires id !in s.orders && OfExecute(e)
    ensures id !in ExecuteStep(s, e).orders
  {
  }

  lemma PayoutAddsNone(s: State, e: Event, id: Id)
    requires id !in s.orders && OfPayout(e)
    ensures id !in PayoutStep(s, e).orders
  {
  }

  lemma NodeAddsNone(s: State, e: Event, id: Id)
    requires id !in s.orders && OfNode(e)
    ensures id !in NodeStep(s, e).orders
  {
  }

  lemma ScheduleAddsNone(s: State, e: Event, id: Id)
    requires id !in s.orders && OfSchedule(e)
    ensures id !in ScheduleStep(s, e).orders
  {
  }

  // ---- One task ------------------------------------------------------------------------------------

  /** The executor's own task after its event; `None` is no task. `order` is that of the task,
      or the one to be loaded. */
  function TaskAfterExecute(order: Order, task: Option<Phase>, e: Event): Option<Phase>
    requires OfExecute(e)
  {
    match e
    case Started(_, id) => if task.None? && order.payout == NoPayout then Some(Loaded(id)) else task
    case Declined(_, _) => if task.Some? && task.value.Loaded? then None else task
    case GaveUp(_, _) => if task.Some? && task.value.Loaded? then None else task
    case ClaimTried(_, _) =>
      if task.Some? && task.value.Loaded?
      then if order.payout == NoPayout then Some(Claimed(task.value.id)) else None
      else task
    case TransferAsked(_) => if task.Some? && task.value.Claimed? then Some(Paying(task.value.id)) else task
    case Returned(_, result) =>
      if task.Some? && (task.value.Paying? || (task.value.Claimed? && result.Refused?)) then None else task
  }

  lemma ExecuteTaskTable(s: State, e: Event)
    requires OfExecute(e)
    requires e.x in s.running ==> s.running[e.x].id in s.orders
    requires e.Started? ==> e.id in s.orders
    ensures var s' := ExecuteStep(s, e);
            && (e.x in s.running ==>
                  Task(s', e.x) == TaskAfterExecute(s.orders[s.running[e.x].id], Task(s, e.x), e))
            && (e.x !in s.running && e.Started? ==> Task(s', e.x) == TaskAfterExecute(s.orders[e.id], None, e))
            && (e.x !in s.running && !e.Started? ==> Task(s', e.x) == None)
  {
  }

  lemma OtherTasksStay(s: State, e: Event, y: Executor)
    requires OfExecute(e) && y != e.x
    ensures Task(ExecuteStep(s, e), y) == Task(s, y)
  {
  }

  /** Which task an event of the payout, a node or a schedule starts. */
  function StartedBy(orders: map<Id, Order>, e: Event): Option<Phase> {
    match e
    case Polled(_, id) =>
      if id in orders && orders[id].payout == PayoutPending && orders[id].session.GetOr("") != ""
      then Some(Polling(id)) else None
    case SettleStarted(_, id) =>
      if id in orders && orders[id].status == Processing && orders[id].payout == PayoutSuccess
      then Some(Settling(id)) else None
    case ReportStarted(_, id, of) =>
      if id in orders && of in orders && orders[of].status == Fulfilled then Some(Reporting(id)) else None
    case CancelStarted(_, id, lp) =>
      if id in orders && orders[id].provider == Some(lp) then Some(Cancelling(id)) else None
    case RecheckStarted(_, id) =>
      if id in orders && (orders[id].payout == NoPayout || orders[id].payout == PayoutFailed)
         && (orders[id].status == Fulfilled || orders[id].status == Cancelled)
      then Some(Rechecking(id)) else None
    case _ => None
  }

  /** The events that may start a task, by themselves. */
  predicate Starting(e: Event) {
    e.Polled? || e.SettleStarted? || e.ReportStarted? || e.CancelStarted? || e.RecheckStarted?
  }

  lemma StartTable(env: Env, s: State, e: Event, y: Executor)
    requires Starting(e)
    ensures var s' := Step(env, s, e);
            && s' == s.(running := s'.running) && (y != e.x ==> Task(s', y) == Task(s, y))
            && Task(s', e.x) == if e.x in s.running then Task(s, e.x) else StartedBy(s.orders, e)
  {
  }

  /** The events that end a task; the validation task alone goes on after its write. */
  predicate Ending(e: Event) {
    e.Reconciled? || e.SettleWritten? || e.Left? || e.ReportWritten? || e.CancelWritten?
  }

  predicate Ends(e: Event, phase: Phase) {
    match e
    case Reconciled(_, _) => phase.Polling?
    case SettleWritten(_) => phase.Settling?
    case ReportWritten(_) => phase.Reporting?
    case CancelWritten(_) => phase.Cancelling?
    case Left(_) => true
    case _ => false
  }

  lemma EndTable(env: Env, s: State, e: Event, y: Executor)
    requires Ending(e) && (e.x in s.running ==> s.running[e.x].id in s.orders)
    ensures Task(Step(env, s, e), y)
            == if y == e.x && e.x in s.running && Ends(e, s.running[e.x]) then None else Task(s, y)
  {
    if OfPayout(e) {
      PayoutEndTable(s, e, y);
    } else {
      NodeEndTable(s, e, y);
    }
  }

  lemma PayoutEndTable(s: State, e: Event, y: Executor)
    requires Ending(e) && OfPayout(e) && (e.x in s.running ==> s.running[e.x].id in s.orders)
    ensures Task(PayoutStep(s, e), y)
            == if y == e.x && e.x in s.running && Ends(e, s.running[e.x]) then None else Task(s, y)
  {
  }

  lemma NodeEndTable(s: State, e: Event, y: Executor)
    requires Ending(e) && OfNode(e) && (e.x in s.running ==> s.running[e.x].id in s.orders)
    ensures Task(NodeStep(s, e), y)
            == if y == e.x && e.x in s.running && Ends(e, s.running[e.x]) then None else Task(s, y)
  {
  }

  /** No other event starts or ends a task. */
  lemma TasksStay(env: Env, s: State, e: Event)
    requires !OfExecute(e) && !Starting(e) && !Ending(e)
    ensures Step(env, s, e).running == s.running
  {
  }

  // ---- The counters ----------------------------------------------------------------------------------

  /** What each counter counts. */
  ghost predicate Counted(s: State, e: Event, id: Id, s': State) {
    && s'.claims[id] == s.claims[id]
       + (if e.ClaimTried? && Task(s, e.x) == Some(Loaded(id)) && id in s.orders && s.orders[id].payout == NoPayout
          then 1 else 0)
    && s'.transfers[id] == s.transfers[id]
       + (if e.TransferAsked? && Task(s, e.x) == Some(Claimed(id)) then 1 else 0)
    && s'.resets[id] == s.resets[id]
       + (if (e.Declined? && Task(s, e.x) == Some(Loaded(id)))
             || (e.Returned? && e.result.Refused?
                 && (Task(s, e.x) == Some(Claimed(id)) || Task(s, e.x) == Some(Paying(id)))) then 1 else 0)
    && s'.accepts[id] == s.accepts[id] + (if e.NodeAccepted? && e.id == id then 1 else 0)
    && s'.reopened[id] == s.reopened[id]
       + (if e.RecheckWritten? && !e.valid && Task(s, e.x) == Some(Rechecking(id)) then 1 else 0)
    && s'.settles[id] == s.settles[id]
       + (if (e.SettleWritten? && Task(s, e.x) == Some(Settling(id)))
             || (e.ReportWritten? && Task(s, e.x) == Some(Reporting(id))) then 1 else 0)
  }

  lemma CounterTable(env: Env, s: State, e: Event, id: Id)
    requires id in s.orders
    ensures Counted(s, e, id, Step(env, s, e))
  {
    if OfExecute(e) {
      ExecuteCounts(s, e, id);
    } else if e.CalledBack? {
    } else if OfPayout(e) {
      PayoutCounts(s, e, id);
    } else if OfNode(e) {
      NodeCounts(s, e, id);
    } else {
      ScheduleCounts(s, e, id);
    }
  }

  lemma ExecuteCounts(s: State, e: Event, id: Id)
    requires id in s.orders && OfExecute(e)
    ensures Counted(s, e, id, ExecuteStep(s, e))
  {
  }

  lemma PayoutCounts(s: State, e: Event, id: Id)
    requires id in s.orders && OfPayout(e)
    ensures Counted(s, e, id, PayoutStep(s, e))
  {
  }

  lemma NodeCounts(s: State, e: Event, id: Id)
    requires id in s.orders && OfNode(e)
    ensures Counted(s, e, id, NodeStep(s, e))
  {
  }

  lemma ScheduleCounts(s: State, e: Event, id: Id)
    requires id in s.orders && OfSchedule(e)
    ensures Counted(s, e, id, ScheduleStep(s, e))
  {
  }
}

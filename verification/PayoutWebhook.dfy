/** The BaaS webhook: dispatch by reference prefix, and the convergence of an order's fiat
    payout status from transfer callbacks. */
module PayoutWebhook {
  import opened Prelude

  type Id = string

  datatype PayoutStatus = NoPayout | PayoutPending | PayoutSuccess | PayoutFailed

  datatype OrderStatus = Pending | Processing | Cancelled | Fulfilled | Validated | Settled | Refunded

  /** The stored fields of a lock order that a payout touches. */
  datatype Order = Order(
    status: OrderStatus, provider: Option<string>, payout: PayoutStatus,
    reference: Option<string>, session: Option<string>, error: Option<string>)

  /** Foreign code: the UUID parser, and trimming and lower-casing of a raw status. */
  datatype Env = Env(parse: string -> Option<Id>, normalize: string -> string)

  /** A callback; `saves` says that the database accepts the update. */
  datatype Callback = Callback(reference: string, rawStatus: string, saves: bool)

  // ---- Values ------------------------------------------------------------------------------

  const SUCCESS_WORDS: set<string> := {"success", "successful", "completed", "00", "approved"}

  const FAILED_WORDS: set<string> :=
    {"failed", "rejected", "cancelled", "canceled", "reversed", "declined", "error"}

  /** The terminal status a raw status stands for, if any. */
  function Classify(env: Env, rawStatus: string): Option<PayoutStatus> {
    var word := env.normalize(rawStatus);
    if word in SUCCESS_WORDS then Some(PayoutSuccess)
    else if word in FAILED_WORDS then Some(PayoutFailed)
    else None
  }

  /** The order id that a reference carries once both route prefixes are trimmed. */
  function OrderId(env: Env, reference: string): Option<Id> {
    env.parse(TrimPrefix(TrimPrefix(reference, "routeB-"), "routeC-"))
  }

  /** The webhook hands only these references to the payout handler. */
  predicate Routed(reference: string) {
    !HasPrefix(reference, "routeA-") && (HasPrefix(reference, "routeB-") || HasPrefix(reference, "routeC-"))
  }

  /** A reference of either route carries the id that follows the prefix, except that a
      route B id must not itself begin with the other prefix, which would be trimmed too. */
  lemma CanonicalReferences(env: Env, id: string)
    ensures Routed("routeB-" + id) && Routed("routeC-" + id) && !Routed("routeA-" + id)
    ensures OrderId(env, "routeC-" + id) == env.parse(id)
    ensures !HasPrefix(id, "routeC-") ==> OrderId(env, "routeB-" + id) == env.parse(id)
    ensures OrderId(env, "routeB-" + ("routeC-" + id)) == env.parse(id)
  {
    assert ("routeA-" + id)[5] == 'A' && ("routeB-" + id)[5] == 'B' && ("routeC-" + id)[5] == 'C';
    assert ("routeB-" + id)[7..] == id && ("routeC-" + id)[7..] == id;
    assert ("routeB-" + ("routeC-" + id))[7..] == "routeC-" + id;
  }

  // ---- The handler as a state function -------------------------------------------------------

  /** The callback is terminal and finds its order. */
  predicate Hits(env: Env, orders: map<Id, Order>, c: Callback, id: Id) {
    && Routed(c.reference) && c.saves && Classify(env, c.rawStatus).Some?
    && OrderId(env, c.reference) == Some(id)
    && id in orders && orders[id].reference == Some(c.reference)
  }

  function Converged(order: Order, status: PayoutStatus): Order {
    order.(payout := status, session := None, error := if status == PayoutSuccess then None else order.error)
  }

  function OnCallback(env: Env, orders: map<Id, Order>, c: Callback): map<Id, Order> {
    var id := OrderId(env, c.reference);
    if id.Some? && Hits(env, orders, c, id.value)
    then orders[id.value := Converged(orders[id.value], Classify(env, c.rawStatus).value)]
    else orders
  }

  function OnCallbacks(env: Env, orders: map<Id, Order>, cs: seq<Callback>): map<Id, Order> {
    if cs == [] then orders else OnCallback(env, OnCallbacks(env, orders, cs[..|cs| - 1]), cs[|cs| - 1])
  }

  /** The settlement that one callback dispatches, if any. */
  function Dispatch(env: Env, orders: map<Id, Order>, c: Callback): seq<Id> {
    var id := OrderId(env, c.reference);
    if id.Some? && Hits(env, orders, c, id.value) && Classify(env, c.rawStatus) == Some(PayoutSuccess)
    then [id.value] else []
  }

  /** The settlements that a sequence of callbacks dispatches. */
  function Dispatches(env: Env, orders: map<Id, Order>, cs: seq<Callback>): seq<Id> {
    if cs == [] then []
    else
      var front := cs[..|cs| - 1];
      Dispatches(env, orders, front) + Dispatch(env, OnCallbacks(env, orders, front), cs[|cs| - 1])
  }

  // ---- What one callback does --------------------------------------------------------------------

  /** The callback is for this order: it is of route B or C, the rest of its reference is the
      order's id, and the order stores this very reference. */
  predicate IsFor(env: Env, c: Callback, id: Id, order: Order) {
    var rest := if "routeB-" <= c.reference then c.reference[7..] else c.reference;
    && ("routeB-" <= c.reference || "routeC-" <= c.reference)
    && env.parse(if "routeC-" <= rest then rest[7..] else rest) == Some(id)
    && order.reference == Some(c.reference)
  }

  predicate Succeeded(word: string) {
    word == "success" || word == "successful" || word == "completed" || word == "00" || word == "approved"
  }

  predicate HasFailed(word: string) {
    || word == "failed" || word == "rejected" || word == "cancelled" || word == "canceled"
    || word == "reversed" || word == "declined" || word == "error"
  }

  /** Every order after a callback, and the settlement it dispatches, from its words alone:
      only the order it is for changes, and only by a terminal word that is stored. */
  lemma CallbackTable(env: Env, orders: map<Id, Order>, c: Callback, id: Id)
    requires id in orders
    ensures var word := env.normalize(c.rawStatus);
            var paid := IsFor(env, c, id, orders[id]) && c.saves && Succeeded(word);
            var failed := IsFor(env, c, id, orders[id]) && c.saves && HasFailed(word);
            && OnCallback(env, orders, c).Keys == orders.Keys
            && OnCallback(env, orders, c)[id]
               == (if paid then orders[id].(payout := PayoutSuccess, session := None, error := None)
                   else if failed then orders[id].(payout := PayoutFailed, session := None)
                   else orders[id])
            && (id in Dispatch(env, orders, c) <==> paid)
  {
    if "routeA-" <= c.reference {
      assert c.reference[5] == 'A';
    }
  }

  /** An order whose stored reference none of the callbacks carries ends as it was and is
      never settled, whatever ids the references parse to. */
  lemma {:induction false} ForeignCallbacksDoNothing(env: Env, orders: map<Id, Order>, cs: seq<Callback>, id: Id)
    requires id in orders && forall c <- cs :: orders[id].reference != Some(c.reference)
    ensures id in OnCallbacks(env, orders, cs) && OnCallbacks(env, orders, cs)[id] == orders[id]
    ensures id !in Dispatches(env, orders, cs)
  {
    if cs != [] {
      var front, c := cs[..|cs| - 1], cs[|cs| - 1];
      assert c in cs;
      ForeignCallbacksDoNothing(env, orders, front, id);
      CallbackTable(env, OnCallbacks(env, orders, front), c, id);
    }
  }

  // ---- The handler over the store -----------------------------------------------------------

  datatype Signature = Missing | Wrong | Good

  /** A request body: the callback, if it parses. */
  datatype Body = Body(callback: Option<Callback>, signature: Signature)

  class Controller {
    const env: Env
    const secret: string
    const environment: string
    var orders: map<Id, Order>
    var settlements: seq<Id> // dispatched settlements
    var published: seq<Id>   // payout events on the live feed

    constructor (env: Env, secret: string, environment: string, orders: map<Id, Order>)
      ensures this.env == env && this.secret == secret && this.environment == environment
      ensures this.orders == orders && settlements == [] && published == []
    {
      this.env, this.secret, this.environment, this.orders := env, secret, environment, orders;
      settlements, published := [], [];
    }

    /** Rejects before reading the payload unless the body is signed, or no secret is
        configured in a local environment. */
    method BaaSWebhook(body: Body) returns (httpStatus: int)
      modifies this
      ensures httpStatus ==
              if secret == "" && environment != "local" && environment != "" then 503
              else if secret != "" && body.signature != Good then 401
              else if body.callback.None? then 400
              else 200
      ensures httpStatus != 200 ==> unchanged(this)
      ensures httpStatus == 200 ==>
                var c := body.callback.value;
                && orders == OnCallback(env, old(orders), c)
                && settlements == old(settlements) + Dispatch(env, old(orders), c)
                && var hit := OrderId(env, c.reference);
                   published == old(published)
                     + if hit.Some? && Hits(env, old(orders), c, hit.value) then [hit.value] else []
    {
      if secret == "" {
        if environment != "local" && environment != "" {
          return 503;
        }
      } else if body.signature != Good {
        return 401;
      }
      if body.callback.None? {
        return 400;
      }
      var c := body.callback.value;
      if HasPrefix(c.reference, "routeA-") {
        // Route A transfers are only logged.
      } else if HasPrefix(c.reference, "routeB-") || HasPrefix(c.reference, "routeC-") {
        ApplyFiatPayout(c);
      }
      return 200;
    }

    method ApplyFiatPayout(c: Callback)
      requires Routed(c.reference)
      modifies this
      ensures orders == OnCallback(env, old(orders), c)
      ensures var hit := OrderId(env, c.reference);
              published == old(published)
                + if hit.Some? && Hits(env, old(orders), c, hit.value) then [hit.value] else []
      ensures settlements == old(settlements) + Dispatch(env, old(orders), c)
    {
      var idStr := TrimPrefix(c.reference, "routeB-");
      idStr := TrimPrefix(idStr, "routeC-");
      var id := env.parse(idStr);
      if id.None? {
        return;
      }
      var status := PayoutPending;
      var word := env.normalize(c.rawStatus);
      if word in SUCCESS_WORDS {
        status := PayoutSuccess;
      } else if word in FAILED_WORDS {
        status := PayoutFailed;
      } else {
        return;
      }
      if !c.saves {
        return;
      }
      var n := 0;
      if id.value in orders && orders[id.value].reference == Some(c.reference) {
        var order := orders[id.value];
        order := order.(payout := status, session := None);
        if status == PayoutSuccess {
          order := order.(error := None);
        }
        orders := orders[id.value := order];
        n := 1;
      }
      if n == 0 {
        return;
      }
      published := published + [id.value];
      if status == PayoutSuccess {
        settlements := settlements + [id.value];
      }
    }
  }

  // ---- What a sequence of callbacks does -------------------------------------------------------

  /** The statuses that the callbacks bring to an order, in order. */
  function Brought(env: Env, orders: map<Id, Order>, cs: seq<Callback>, id: Id): seq<PayoutStatus> {
    if cs == [] then []
    else
      var c := cs[|cs| - 1];
      Brought(env, orders, cs[..|cs| - 1], id)
        + if Hits(env, orders, c, id) then [Classify(env, c.rawStatus).value] else []
  }

  /** An order after the statuses brought to it: the last one counts, any of them clears
      the session id, and a success clears the error. */
  function Outcome(order: Order, brought: seq<PayoutStatus>): Order {
    if brought == [] then order
    else order.(payout := brought[|brought| - 1], session := None,
                error := if PayoutSuccess in brought then None else order.error)
  }

  /** Every order ends as the statuses brought to it say, and no order's reference changes. */
  lemma {:induction false} CallbacksConverge(env: Env, orders: map<Id, Order>, cs: seq<Callback>)
    ensures var after := OnCallbacks(env, orders, cs);
            && after.Keys == orders.Keys
            && forall id :: id in orders ==>
                 && after[id].reference == orders[id].reference
                 && after[id] == Outcome(orders[id], Brought(env, orders, cs, id))
  {
    if cs != [] {
      var front, c := cs[..|cs| - 1], cs[|cs| - 1];
      CallbacksConverge(env, orders, front);
      var mid, after := OnCallbacks(env, orders, front), OnCallbacks(env, orders, cs);
      forall id | id in orders
        ensures after[id].reference == orders[id].reference
        ensures after[id] == Outcome(orders[id], Brought(env, orders, cs, id))
      {
        assert Hits(env, mid, c, id) <==> Hits(env, orders, c, id);
        OutcomeStep(orders[id], Brought(env, orders, front, id),
                    if Hits(env, orders, c, id) then [Classify(env, c.rawStatus).value] else []);
      }
    }
  }

  lemma OutcomeStep(order: Order, brought: seq<PayoutStatus>, more: seq<PayoutStatus>)
    requires |more| <= 1
    ensures Outcome(order, brought + more)
            == if more == [] then Outcome(order, brought) else Converged(Outcome(order, brought), more[0])
  {
  }

  /** Every order is settled once for each success that was brought to it. */
  lemma {:induction false} OneSettlementPerSuccess(env: Env, orders: map<Id, Order>, cs: seq<Callback>, id: Id)
    ensures multiset(Dispatches(env, orders, cs))[id] == multiset(Brought(env, orders, cs, id))[PayoutSuccess]
  {
    if cs != [] {
      var front, c := cs[..|cs| - 1], cs[|cs| - 1];
      OneSettlementPerSuccess(env, orders, front, id);
      CallbacksConverge(env, orders, front);
      assert Hits(env, OnCallbacks(env, orders, front), c, id) <==> Hits(env, orders, c, id);
    }
  }

  /** Redelivering a whole history, once more and in the same order, changes nothing. */
  lemma RedeliveryIsIdempotent(env: Env, orders: map<Id, Order>, cs: seq<Callback>)
    ensures OnCallbacks(env, orders, cs + cs) == OnCallbacks(env, orders, cs)
  {
    CallbacksConverge(env, orders, cs);
    CallbacksConverge(env, orders, cs + cs);
    forall id | id in orders
      ensures Outcome(orders[id], Brought(env, orders, cs + cs, id))
              == Outcome(orders[id], Brought(env, orders, cs, id))
    {
      BroughtAppend(env, orders, cs, cs, id);
    }
  }

  lemma {:induction false} BroughtAppend(env: Env, orders: map<Id, Order>, a: seq<Callback>, b: seq<Callback>, id: Id)
    ensures Brought(env, orders, a + b, id) == Brought(env, orders, a, id) + Brought(env, orders, b, id)
  {
    if b == [] {
      assert a + b == a;
    } else {
      assert (a + b)[..|a + b| - 1] == a + b[..|b| - 1];
      BroughtAppend(env, orders, a, b[..|b| - 1], id);
    }
  }

  /** Two callbacks may be swapped exactly when they hit different orders, or bring the same
      status, or one of them hits none. */
  lemma SwapIff(env: Env, orders: map<Id, Order>, c: Callback, d: Callback)
    ensures OnCallback(env, OnCallback(env, orders, c), d) == OnCallback(env, OnCallback(env, orders, d), c)
            <==> forall id :: Hits(env, orders, c, id) && Hits(env, orders, d, id)
                              ==> Classify(env, c.rawStatus) == Classify(env, d.rawStatus)
  {
    var cd, dc := OnCallback(env, OnCallback(env, orders, c), d), OnCallback(env, OnCallback(env, orders, d), c);
    if id :| Hits(env, orders, c, id) && Hits(env, orders, d, id) {
      assert cd[id].payout == Classify(env, d.rawStatus).value;
      assert dc[id].payout == Classify(env, c.rawStatus).value;
      if Classify(env, c.rawStatus) == Classify(env, d.rawStatus) {
        assert cd == dc;
        assert forall j :: Hits(env, orders, c, j) ==> j == id;
      }
    } else {
      forall id | id in orders ensures cd[id] == dc[id] {
        assert Hits(env, OnCallback(env, orders, c), d, id) <==> Hits(env, orders, d, id);
        assert Hits(env, OnCallback(env, orders, d), c, id) <==> Hits(env, orders, c, id);
      }
      assert cd.Keys == orders.Keys == dc.Keys;
      assert cd == dc;
    }
  }

  /** A successful payout with a leftover error is not reachable from orders without one. */
  ghost predicate NoErrorAfterSuccess(orders: map<Id, Order>) {
    forall id :: id in orders && orders[id].payout == PayoutSuccess ==> orders[id].error.None?
  }

  lemma {:induction false} CallbacksLeaveNoError(env: Env, orders: map<Id, Order>, cs: seq<Callback>)
    requires NoErrorAfterSuccess(orders)
    ensures NoErrorAfterSuccess(OnCallbacks(env, orders, cs))
  {
    if cs != [] {
      CallbacksLeaveNoError(env, orders, cs[..|cs| - 1]);
    }
  }

  /** Success is not final: it survives a sequence of callbacks exactly when the sequence
      brings the order nothing or ends with a success. */
  lemma SuccessSurvivesIff(env: Env, orders: map<Id, Order>, cs: seq<Callback>, id: Id)
    requires id in orders && orders[id].payout == PayoutSuccess
    ensures id in OnCallbacks(env, orders, cs)
    ensures var brought := Brought(env, orders, cs, id);
            OnCallbacks(env, orders, cs)[id].payout == PayoutSuccess
            <==> brought == [] || brought[|brought| - 1] == PayoutSuccess
  {
    CallbacksConverge(env, orders, cs);
  }

  /** A paid order that a late failure callback turns into a failed one. */
  lemma SuccessCanBeLost()
    ensures var env := Env(s => if s == "7" then Some("7") else None, s => s);
            var paid := Order(Processing, Some("lp"), PayoutSuccess, Some("routeB-7"), None, None);
            var c := Callback("routeB-7", "reversed", true);
            && Brought(env, map["7" := paid], [c], "7") == [PayoutFailed]
            && OnCallbacks(env, map["7" := paid], [c])["7"].payout == PayoutFailed
  {
    var env := Env(s => if s == "7" then Some("7") else None, s => s);
    var orders := map["7" := Order(Processing, Some("lp"), PayoutSuccess, Some("routeB-7"), None, None)];
    var c := Callback("routeB-7", "reversed", true);
    CanonicalReferences(env, "7");
    assert "routeB-" + "7" == "routeB-7" && "7"[0] == '7';
    assert Hits(env, orders, c, "7");
    assert [c][..0] == [];
    CallbacksConverge(env, orders, [c]);
  }
}

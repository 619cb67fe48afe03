/** `GetLockPaymentOrderStatus`: split orders aggregated into one status, with their
    transaction receipts newest first. */
module OrderStatus {
  import opened Prelude

  datatype Transaction = Transaction(status: string, txHash: string, createdAt: int)

  datatype LockOrder = LockOrder(
    id: string, amount: real, rate: real, orderPercent: real, status: string, transactions: seq<Transaction>)

  datatype Receipt = Receipt(status: string, txHash: string, timestamp: int)

  datatype SplitOrder = SplitOrder(id: string, amount: real, rate: real, orderPercent: real)

  datatype Response = Response(
    amount: real, settlePercent: real, status: string, txHash: string,
    settlements: seq<SplitOrder>, receipts: seq<Receipt>)

  // ---- Scanning ------------------------------------------------------------------------------

  const QUALIFYING: seq<string> := ["order_settled", "order_created", "order_refunded"]

  function ReceiptOf(t: Transaction): Receipt {
    Receipt(if t.status == "order_created" then "pending" else TrimPrefix(t.status, "order_"), t.txHash, t.createdAt)
  }

  /** The three qualifying statuses and what a receipt shows for them. */
  lemma ReceiptStatuses(t: Transaction)
    requires t.status in QUALIFYING
    ensures ReceiptOf(t).status == if t.status == "order_created" then "pending"
                                   else if t.status == "order_settled" then "settled" else "refunded"
  {
    assert "order_settled"[6..] == "settled" && "order_refunded"[6..] == "refunded";
    assert "order_settled"[..6] == "order_" == "order_refunded"[..6];
  }

  /** The receipts of the qualifying transactions, in scan order. */
  function Receipts(ts: seq<Transaction>): seq<Receipt> {
    if ts == [] then []
    else
      var t := ts[|ts| - 1];
      Receipts(ts[..|ts| - 1]) + if t.status in QUALIFYING then [ReceiptOf(t)] else []
  }

  function AllTransactions(orders: seq<LockOrder>): seq<Transaction> {
    if orders == [] then []
    else AllTransactions(orders[..|orders| - 1]) + orders[|orders| - 1].transactions
  }

  lemma {:induction false} ReceiptsAppend(a: seq<Transaction>, b: seq<Transaction>)
    ensures Receipts(a + b) == Receipts(a) + Receipts(b)
  {
    if b == [] {
      assert a + b == a;
    } else {
      assert (a + b)[..|a + b| - 1] == a + b[..|b| - 1];
      ReceiptsAppend(a, b[..|b| - 1]);
    }
  }

  /** One transaction at a time: three statuses qualify, and their receipts show them, the
      hash and the time. */
  lemma ReceiptsOfOne(ts: seq<Transaction>, t: Transaction)
    ensures Receipts([]) == []
    ensures Receipts(ts + [t])
            == Receipts(ts) + if t.status == "order_created" then [Receipt("pending", t.txHash, t.createdAt)]
                              else if t.status == "order_settled" then [Receipt("settled", t.txHash, t.createdAt)]
                              else if t.status == "order_refunded" then [Receipt("refunded", t.txHash, t.createdAt)]
                              else []
  {
    assert (ts + [t])[..|ts|] == ts;
    if t.status in QUALIFYING {
      ReceiptStatuses(t);
    }
  }

  /** The transactions of all orders, in order. */
  lemma TransactionsOfOne(orders: seq<LockOrder>, order: LockOrder)
    ensures AllTransactions([]) == []
    ensures AllTransactions(orders + [order]) == AllTransactions(orders) + order.transactions
  {
    assert (orders + [order])[..|orders|] == orders;
  }

  // ---- Sorting ---------------------------------------------------------------------------------

  /** Puts a receipt before the first one that is not newer. */
  function Insert(r: Receipt, sorted: seq<Receipt>): seq<Receipt> {
    if sorted == [] || sorted[0].timestamp <= r.timestamp then [r] + sorted
    else [sorted[0]] + Insert(r, sorted[1..])
  }

  /** The stable sort by descending timestamp that `slices.SortStableFunc` performs. */
  function NewestFirst(rs: seq<Receipt>): seq<Receipt> {
    if rs == [] then [] else Insert(rs[0], NewestFirst(rs[1..]))
  }

  ghost predicate Descending(rs: seq<Receipt>) {
    forall i, j :: 0 <= i < j < |rs| ==> rs[i].timestamp >= rs[j].timestamp
  }

  /** The receipts of one instant, in order. */
  function At(rs: seq<Receipt>, time: int): seq<Receipt> {
    if rs == [] then [] else (if rs[0].timestamp == time then [rs[0]] else []) + At(rs[1..], time)
  }

  lemma {:induction false} InsertPermutes(r: Receipt, sorted: seq<Receipt>)
    ensures multiset(Insert(r, sorted)) == multiset([r]) + multiset(sorted)
  {
    if sorted != [] && sorted[0].timestamp > r.timestamp {
      InsertPermutes(r, sorted[1..]);
      assert sorted == [sorted[0]] + sorted[1..];
    }
  }

  lemma {:induction false} InsertKeepsOrder(r: Receipt, sorted: seq<Receipt>)
    requires Descending(sorted)
    ensures Descending(Insert(r, sorted))
  {
    if sorted != [] && sorted[0].timestamp > r.timestamp {
      var tail := Insert(r, sorted[1..]);
      InsertKeepsOrder(r, sorted[1..]);
      InsertPermutes(r, sorted[1..]);
      forall x <- tail ensures x.timestamp <= sorted[0].timestamp {
        assert x in multiset(tail);
        assert x == r || x in sorted[1..];
      }
    }
  }

  lemma {:induction false} InsertIsStable(r: Receipt, sorted: seq<Receipt>, time: int)
    ensures At(Insert(r, sorted), time) == (if r.timestamp == time then [r] else []) + At(sorted, time)
  {
    var rs := Insert(r, sorted);
    if sorted == [] || sorted[0].timestamp <= r.timestamp {
      assert rs[1..] == sorted;
    } else {
      InsertIsStable(r, sorted[1..], time);
      assert rs[1..] == Insert(r, sorted[1..]) && rs[0] == sorted[0];
      if r.timestamp == time {
        assert At(rs, time) == [] + At(rs[1..], time) == At(rs[1..], time);
        assert At(sorted, time) == [] + At(sorted[1..], time) == At(sorted[1..], time);
      } else {
        assert At(rs[1..], time) == At(sorted[1..], time);
        assert [] + At(sorted, time) == At(sorted, time);
      }
    }
  }

  /** The sorted receipts are a permutation, newest first, with ties in scan order. */
  lemma {:induction false} NewestFirstIsStable(rs: seq<Receipt>, time: int)
    ensures var s := NewestFirst(rs);
            Descending(s) && multiset(s) == multiset(rs) && At(s, time) == At(rs, time)
  {
    if rs != [] {
      NewestFirstIsStable(rs[1..], time);
      InsertKeepsOrder(rs[0], NewestFirst(rs[1..]));
      InsertPermutes(rs[0], NewestFirst(rs[1..]));
      InsertIsStable(rs[0], NewestFirst(rs[1..]), time);
      assert rs == [rs[0]] + rs[1..];
    }
  }

  /** These properties leave one list only, so any stable sort gives the same answer. */
  lemma {:induction false} StableSortIsUnique(a: seq<Receipt>, b: seq<Receipt>)
    requires Descending(a) && Descending(b) && forall time :: At(a, time) == At(b, time)
    ensures a == b
  {
    if a == [] {
      assert forall time :: At(a, time) == [];
      HeadAt(b);
    } else if b == [] {
      assert forall time :: At(b, time) == [];
      HeadAt(a);
    } else {
      assert At(a, a[0].timestamp) == At(b, a[0].timestamp) && At(a, b[0].timestamp) == At(b, b[0].timestamp);
      SameHead(a, b);
      forall time ensures At(a[1..], time) == At(b[1..], time) {
        assert At(a, time) == At(b, time);
        TailAt(a, time);
        TailAt(b, time);
      }
      StableSortIsUnique(a[1..], b[1..]);
      assert a == [a[0]] + a[1..] && b == [b[0]] + b[1..];
    }
  }

  lemma HeadAt(rs: seq<Receipt>)
    ensures rs != [] ==> At(rs, rs[0].timestamp) != [] && At(rs, rs[0].timestamp)[0] == rs[0]
  {
  }

  lemma SameHead(a: seq<Receipt>, b: seq<Receipt>)
    requires a != [] && b != [] && Descending(a) && Descending(b)
    requires At(a, a[0].timestamp) == At(b, a[0].timestamp) && At(a, b[0].timestamp) == At(b, b[0].timestamp)
    ensures a[0] == b[0]
  {
    HeadAt(a);
    HeadAt(b);
    HeadBounds(a, b[0].timestamp);
    HeadBounds(b, a[0].timestamp);
  }

  lemma HeadBounds(rs: seq<Receipt>, time: int)
    requires rs != [] && Descending(rs) && At(rs, time) != []
    ensures time <= rs[0].timestamp
  {
  }

  lemma TailAt(rs: seq<Receipt>, time: int)
    requires rs != []
    ensures At(rs[1..], time) == if rs[0].timestamp == time then At(rs, time)[1..] else At(rs, time)
  {
  }

  /** Receipt `k` is the first-scanned one of the greatest timestamp. */
  ghost predicate FirstNewest(rs: seq<Receipt>, k: int) {
    && 0 <= k < |rs|
    && (forall j :: 0 <= j < |rs| ==> rs[j].timestamp <= rs[k].timestamp)
    && (forall j :: 0 <= j < k ==> rs[j].timestamp < rs[k].timestamp)
  }

  lemma {:induction false} HeadIsFirstNewest(rs: seq<Receipt>, k: int)
    requires FirstNewest(rs, k)
    ensures NewestFirst(rs) != [] && NewestFirst(rs)[0] == rs[k]
  {
    if k == 0 {
      NewestFirstIsStable(rs[1..], 0);
      if |rs| > 1 {
        var s := NewestFirst(rs[1..]);
        assert |multiset(s)| == |multiset(rs[1..])|;
        assert s[0] in multiset(rs[1..]);
        var j :| 0 <= j < |rs[1..]| && rs[1..][j] == s[0];
        assert rs[j + 1].timestamp <= rs[0].timestamp;
      }
    } else {
      assert FirstNewest(rs[1..], k - 1);
      HeadIsFirstNewest(rs[1..], k - 1);
      assert rs[0].timestamp < rs[k].timestamp;
    }
  }

  lemma {:induction false} FirstNewestExists(rs: seq<Receipt>) returns (k: int)
    requires rs != []
    ensures FirstNewest(rs, k)
  {
    if |rs| == 1 {
      k := 0;
    } else {
      k := FirstNewestExists(rs[1..]);
      var m := rs[1..][k];
      assert forall j :: 1 <= j < |rs| ==> rs[j] == rs[1..][j - 1];
      k := if rs[0].timestamp >= m.timestamp then 0 else k + 1;
    }
  }

  // ---- Aggregating --------------------------------------------------------------------------

  function Sum(xs: seq<real>): real {
    if xs == [] then 0.0 else Sum(xs[..|xs| - 1]) + xs[|xs| - 1]
  }

  /** What an empty and a longer list add up to. */
  lemma SumOf(xs: seq<real>, x: real)
    ensures Sum([]) == 0.0 && Sum(xs + [x]) == Sum(xs) + x
  {
    assert (xs + [x])[..|xs|] == xs;
  }

  /** The split orders tell the orders' own figures. */
  predicate Splits(orders: seq<LockOrder>, settlements: seq<SplitOrder>) {
    && |settlements| == |orders|
    && forall i :: 0 <= i < |orders| ==>
         && settlements[i].id == orders[i].id
         && settlements[i].amount == orders[i].amount
         && settlements[i].rate == orders[i].rate
         && settlements[i].orderPercent == orders[i].orderPercent
  }

  function Amounts(orders: seq<LockOrder>): (r: seq<real>)
    ensures |r| == |orders| && forall i :: 0 <= i < |r| ==> r[i] == orders[i].amount
  {
    seq(|orders|, i requires 0 <= i < |orders| => orders[i].amount)
  }

  function Percents(orders: seq<LockOrder>): (r: seq<real>)
    ensures |r| == |orders| && forall i :: 0 <= i < |r| ==> r[i] == orders[i].orderPercent
  {
    seq(|orders|, i requires 0 <= i < |orders| => orders[i].orderPercent)
  }

  /** The receipts, newest first, that the response must carry. */
  ghost predicate Lists(orders: seq<LockOrder>, r: Response) {
    && r.receipts == NewestFirst(Receipts(AllTransactions(orders)))
    && r.txHash == (if r.receipts == [] then "" else r.receipts[0].txHash)
  }

  /** The inner loop over one order's transactions. */
  method AppendReceipts(receipts0: seq<Receipt>, ts: seq<Transaction>) returns (receipts: seq<Receipt>)
    ensures receipts == receipts0 + Receipts(ts)
  {
    receipts := receipts0;
    var i := 0;
    while i < |ts|
      invariant 0 <= i <= |ts| && receipts == receipts0 + Receipts(ts[..i])
    {
      var transaction := ts[i];
      assert ts[..i + 1] == ts[..i] + [transaction] && ts[..i + 1][..i] == ts[..i];
      if transaction.status in QUALIFYING {
        var status;
        if transaction.status == "order_created" {
          status := "pending";
        } else {
          status := TrimPrefix(transaction.status, "order_");
        }
        receipts := receipts + [Receipt(status, transaction.txHash, transaction.createdAt)];
      }
      i := i + 1;
    }
    assert ts[..i] == ts;
  }

  /** The loop over the orders: receipts as scanned, split orders, and the two totals. */
  method Aggregate(orders: seq<LockOrder>)
    returns (receipts: seq<Receipt>, settlements: seq<SplitOrder>, settlePercent: real, totalAmount: real)
    ensures receipts == Receipts(AllTransactions(orders))
    ensures Splits(orders, settlements)
    ensures totalAmount == Sum(Amounts(orders)) && settlePercent == Sum(Percents(orders))
  {
    receipts, settlements, settlePercent, totalAmount := [], [], 0.0, 0.0;
    var i := 0;
    while i < |orders|
      invariant 0 <= i <= |orders|
      invariant receipts == Receipts(AllTransactions(orders[..i]))
      invariant Splits(orders[..i], settlements)
      invariant totalAmount == Sum(Amounts(orders[..i])) && settlePercent == Sum(Percents(orders[..i]))
    {
      var order := orders[i];
      OneMoreOrder(orders, i);
      receipts := AppendReceipts(receipts, order.transactions);
      var split := SplitOrder(order.id, order.amount, order.rate, order.orderPercent);
      SumSteps(orders, i);
      SplitsStep(orders, i, settlements, split);
      settlements := settlements + [split];
      settlePercent := settlePercent + order.orderPercent;
      totalAmount := totalAmount + order.amount;
      i := i + 1;
    }
    assert orders[..i] == orders;
  }

  lemma SplitsStep(orders: seq<LockOrder>, i: nat, settlements: seq<SplitOrder>, split: SplitOrder)
    requires i < |orders| && Splits(orders[..i], settlements)
    requires split == SplitOrder(orders[i].id, orders[i].amount, orders[i].rate, orders[i].orderPercent)
    ensures Splits(orders[..i + 1], settlements + [split])
  {
  }

  lemma OneMoreOrder(orders: seq<LockOrder>, i: nat)
    requires i < |orders|
    ensures Receipts(AllTransactions(orders[..i + 1]))
         == Receipts(AllTransactions(orders[..i])) + Receipts(orders[i].transactions)
  {
    assert orders[..i + 1][..i] == orders[..i];
    ReceiptsAppend(AllTransactions(orders[..i]), orders[i].transactions);
  }

  /** The branch for stored lock orders. */
  method LockOrderStatus(orders: seq<LockOrder>) returns (r: Response)
    requires orders != []
    ensures Splits(orders, r.settlements)
    ensures r.amount == Sum(Amounts(orders)) && r.settlePercent == Sum(Percents(orders))
    ensures r.status == if orders[0].status == "cancelled" then "processing" else orders[0].status
    ensures Lists(orders, r)
    ensures r.receipts == [] ==> r.txHash == ""
    ensures r.receipts != [] ==> r.txHash == r.receipts[0].txHash
  {
    var receipts, settlements, settlePercent, totalAmount := Aggregate(orders);
    receipts := NewestFirst(receipts);
    var status := orders[0].status;
    if status == "cancelled" {
      status := "processing";
    }
    var txHash := "";
    if |receipts| > 0 {
      txHash := receipts[0].txHash;
    }
    r := Response(totalAmount, settlePercent, status, txHash, settlements, receipts);
  }

  lemma SumSteps(orders: seq<LockOrder>, i: nat)
    requires i < |orders|
    ensures Sum(Amounts(orders[..i + 1])) == Sum(Amounts(orders[..i])) + orders[i].amount
    ensures Sum(Percents(orders[..i + 1])) == Sum(Percents(orders[..i])) + orders[i].orderPercent
  {
    assert Amounts(orders[..i + 1])[..i] == Amounts(orders[..i]);
    assert Percents(orders[..i + 1])[..i] == Percents(orders[..i]);
  }

  /** For any lock orders the receipts are a permutation of the qualifying transactions'
      receipts, newest first and with ties in scan order, and the reported hash belongs to
      the first-scanned receipt of the greatest timestamp. */
  lemma ReceiptsReport(orders: seq<LockOrder>, r: Response, time: int)
    requires Lists(orders, r)
    ensures var scanned := Receipts(AllTransactions(orders));
            && multiset(r.receipts) == multiset(scanned) && Descending(r.receipts)
            && At(r.receipts, time) == At(scanned, time)
            && (if scanned == [] then r.txHash == ""
                else exists k :: FirstNewest(scanned, k) && r.txHash == scanned[k].txHash)
  {
    var scanned := Receipts(AllTransactions(orders));
    NewestFirstIsStable(scanned, time);
    if scanned != [] {
      var k := FirstNewestExists(scanned);
      HeadIsFirstNewest(scanned, k);
    }
  }

  /** Totals do not depend on the order in which the split orders are read. */
  lemma {:induction false} SumOfPermutation(a: seq<real>, b: seq<real>)
    requires multiset(a) == multiset(b)
    ensures Sum(a) == Sum(b)
    decreases |a|
  {
    if a == [] {
      assert |multiset(b)| == 0;
    } else {
      var n := |a| - 1;
      var i := Matching(a, b);
      SumOfPermutation(a[..n], b[..i] + b[i + 1..]);
      SumWithout(b, i);
    }
  }

  /** The position in `b` of the last element of `a`. */
  lemma Matching(a: seq<real>, b: seq<real>) returns (i: nat)
    requires multiset(a) == multiset(b) && a != []
    ensures i < |b| && b[i] == a[|a| - 1]
    ensures multiset(a[..|a| - 1]) == multiset(b[..i] + b[i + 1..])
  {
    var x := a[|a| - 1];
    assert a == a[..|a| - 1] + [x];
    assert x in multiset(b);
    i :| 0 <= i < |b| && b[i] == x;
    assert b == b[..i] + [x] + b[i + 1..];
    var rest := b[..i] + b[i + 1..];
    assert multiset(b) == multiset(rest) + multiset{x};
    assert multiset(a) == multiset(a[..|a| - 1]) + multiset{x};
    assert multiset(rest) == multiset(b) - multiset{x} == multiset(a[..|a| - 1]);
  }

  lemma {:induction false} SumWithout(b: seq<real>, i: nat)
    requires i < |b|
    ensures Sum(b) == Sum(b[..i] + b[i + 1..]) + b[i]
    decreases |b|
  {
    var n := |b| - 1;
    if i == n {
      assert b[..i] + b[i + 1..] == b[..n];
    } else {
      SumWithout(b[..n], i);
      var rest := b[..i] + b[i + 1..];
      assert rest[..|rest| - 1] == b[..n][..i] + b[..n][i + 1..];
    }
  }

  // ---- The branch without lock orders ---------------------------------------------------------

  /** A payment order's receipts are listed as scanned; they are not sorted. */
  method PaymentOrderReceipts(ts: seq<Transaction>) returns (receipts: seq<Receipt>, txHash: string)
    ensures receipts == Receipts(ts) && txHash == if receipts == [] then "" else receipts[0].txHash
  {
    receipts := AppendReceipts([], ts);
    txHash := "";
    if |receipts| > 0 {
      txHash := receipts[0].txHash;
    }
  }

  /** Without lock orders the first listed receipt is the one the sorted list would start
      with exactly when no later receipt is newer. */
  lemma FallbackIsNewestIff(ts: seq<Transaction>)
    requires Receipts(ts) != []
    ensures NewestFirst(Receipts(ts)) != []
    ensures Receipts(ts)[0] == NewestFirst(Receipts(ts))[0]
            <==> forall r <- Receipts(ts) :: r.timestamp <= Receipts(ts)[0].timestamp
  {
    var rs := Receipts(ts);
    var k := FirstNewestExists(rs);
    HeadIsFirstNewest(rs, k);
  }

  /** Two receipts, the newer one listed second. */
  lemma StaleReceiptIsListedFirst()
    ensures var ts := [Transaction("order_created", "0x1", 1), Transaction("order_settled", "0x2", 2)];
            && Receipts(ts) != [] && Receipts(ts)[0].txHash == "0x1"
            && NewestFirst(Receipts(ts)) != [] && NewestFirst(Receipts(ts))[0].txHash == "0x2"
  {
    var ts := [Transaction("order_created", "0x1", 1), Transaction("order_settled", "0x2", 2)];
    assert ts[..1] == [ts[0]] && ts[..1][..0] == [];
    assert Receipts(ts[..1]) == [ReceiptOf(ts[0])];
    assert Receipts(ts) == [ReceiptOf(ts[0]), ReceiptOf(ts[1])];
    HeadIsFirstNewest(Receipts(ts), 1);
  }
}

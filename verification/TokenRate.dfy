/** The provider-rate scan of `GetTokenRate`: nested loops over provision buckets
    and their priority lists, a running ceiling, and an answer that later buckets
    may overwrite. */
module TokenRate {

  /** One parsed provider entry of a bucket's priority list. */
  datatype Entry = Entry(token: string, rate: real)

  /** One provision bucket: its fiat range and its priority list, topmost first. */
  datatype Bucket = Bucket(min: real, max: real, entries: seq<Entry>)

  /** What the caller asks for: a token and an amount of it. */
  datatype Quote = Quote(token: string, amount: real)

  // ---- What a bucket can say -------------------------------------------------

  predicate InRange(b: Bucket, q: Quote, rate: real) {
    b.min <= q.amount * rate <= b.max
  }

  predicate Lists(b: Bucket, q: Quote, k: int) {
    0 <= k < |b.entries| && b.entries[k].token == q.token
  }

  predicate Fits(b: Bucket, q: Quote, k: int) {
    Lists(b, q, k) && InRange(b, q, b.entries[k].rate)
  }

  /** Entry `k` is the topmost entry of the token whose fiat value is in range. */
  ghost predicate Hit(b: Bucket, q: Quote, k: int) {
    Fits(b, q, k) && forall j :: 0 <= j < k ==> !Fits(b, q, j)
  }

  /** Entry `k` is the topmost entry of the token. */
  ghost predicate Topmost(b: Bucket, q: Quote, k: int) {
    Lists(b, q, k) && forall j :: 0 <= j < k ==> !Lists(b, q, j)
  }

  ghost predicate HasHit(b: Bucket, q: Quote) {
    exists k :: Fits(b, q, k)
  }

  /** The token's topmost entry is out of range: the scan reaches the `else if`. */
  ghost predicate Misses(b: Bucket, q: Quote) {
    exists k :: Topmost(b, q, k) && !Fits(b, q, k)
  }

  // ---- What the list of buckets says ------------------------------------------

  /** The largest maximum, above zero, of the first `n` buckets that missed. */
  ghost function Ceiling(bs: seq<Bucket>, q: Quote, n: nat): (c: real)
    requires n <= |bs|
    ensures c >= 0.0
    ensures forall i :: 0 <= i < n && Misses(bs[i], q) ==> bs[i].max <= c
    ensures c == 0.0 || exists i :: 0 <= i < n && Misses(bs[i], q) && bs[i].max == c
  {
    if n == 0 then 0.0
    else
      var c := Ceiling(bs, q, n - 1);
      if Misses(bs[n - 1], q) && bs[n - 1].max > c then bs[n - 1].max else c
  }

  /** Bucket `i` missed, and its maximum exceeds zero and every earlier missed maximum. */
  ghost predicate Raises(bs: seq<Bucket>, q: Quote, i: int) {
    0 <= i < |bs| && Misses(bs[i], q) && bs[i].max > Ceiling(bs, q, i)
  }

  ghost predicate Decides(bs: seq<Bucket>, q: Quote, i: int) {
    0 <= i < |bs| && (HasHit(bs[i], q) || Raises(bs, q, i))
  }

  /** `rate` is what deciding bucket `i` leaves behind. */
  ghost predicate Writes(bs: seq<Bucket>, q: Quote, i: int, rate: real)
    requires 0 <= i < |bs|
  {
    if HasHit(bs[i], q)
    then exists k :: Hit(bs[i], q, k) && rate == bs[i].entries[k].rate
    else exists k :: Topmost(bs[i], q, k) && rate == bs[i].entries[k].rate
  }

  /** Bucket `i` is the last one that decides among the first `n`. */
  ghost predicate LastDecider(bs: seq<Bucket>, q: Quote, n: int, i: int) {
    Decides(bs, q, i) && i < n && forall j :: i < j < n ==> !Decides(bs, q, j)
  }

  /** `rate` answers the scan of the first `n` buckets. */
  ghost predicate Answers(bs: seq<Bucket>, q: Quote, market: real, n: int, rate: real)
    requires 0 <= n <= |bs|
  {
    || (rate == market && forall i :: 0 <= i < n ==> !Decides(bs, q, i))
    || (exists i :: LastDecider(bs, q, n, i) && Writes(bs, q, i, rate))
  }

  // ---- The scan ---------------------------------------------------------------

  /** Reads the priority list of one bucket until it ends or an entry fits. */
  method ScanBucket(b: Bucket, q: Quote, rate0: real, highest0: real)
    returns (rate: real, highest: real)
    ensures highest == if Misses(b, q) && b.max > highest0 then b.max else highest0
    ensures HasHit(b, q) ==> exists k :: Hit(b, q, k) && rate == b.entries[k].rate
    ensures !HasHit(b, q) && Misses(b, q) && b.max > highest0
            ==> exists k :: Topmost(b, q, k) && rate == b.entries[k].rate
    ensures !HasHit(b, q) && !(Misses(b, q) && b.max > highest0) ==> rate == rate0
  {
    rate, highest := rate0, highest0;
    var index := 0;
    ghost var top := -1;
    while true
      invariant 0 <= index <= |b.entries|
      invariant forall j :: 0 <= j < index ==> !Fits(b, q, j)
      invariant top == -1 ==> forall j :: 0 <= j < index ==> !Lists(b, q, j)
      invariant top != -1 ==> top < index && Topmost(b, q, top)
      invariant top == -1 ==> rate == rate0 && highest == highest0
      invariant top != -1 ==>
                  if b.max > highest0 then highest == b.max && rate == b.entries[top].rate
                  else highest == highest0 && rate == rate0
      decreases |b.entries| - index
    {
      if index >= |b.entries| {
        break;
      }
      var entry := b.entries[index];
      if entry.token == q.token {
        assert Lists(b, q, index);
        if top == -1 {
          top := index;
          assert Topmost(b, q, top);
        }
        if b.min <= q.amount * entry.rate <= b.max {
          rate := entry.rate;
          assert Hit(b, q, index);
          assert forall k :: Topmost(b, q, k) ==> k == top;
          return;
        } else if b.max > highest {
          highest := b.max;
          rate := entry.rate;
        }
      }
      index := index + 1;
    }
    assert forall k :: Topmost(b, q, k) ==> k == top;
  }

  /** The scan over all buckets, from the market rate and a zero ceiling. */
  method ScanBuckets(bs: seq<Bucket>, q: Quote, market: real) returns (rate: real)
    ensures Answers(bs, q, market, |bs|, rate)
  {
    rate := market;
    var highest := 0.0;
    var n := 0;
    while n < |bs|
      invariant 0 <= n <= |bs|
      invariant highest == Ceiling(bs, q, n)
      invariant Answers(bs, q, market, n, rate)
    {
      ghost var before := rate;
      rate, highest := ScanBucket(bs[n], q, rate, highest);
      if Decides(bs, q, n) {
        assert LastDecider(bs, q, n + 1, n);
        assert Writes(bs, q, n, rate);
      } else if i :| LastDecider(bs, q, n, i) && Writes(bs, q, i, before) {
        assert LastDecider(bs, q, n + 1, i);
      }
      n := n + 1;
    }
  }

  // ---- One bucket in plain terms ---------------------------------------------------------

  /** Entry `k` is of the token, and its fiat equivalent lies between the bounds, both included. */
  predicate Prices(b: Bucket, q: Quote, k: int) {
    && 0 <= k < |b.entries| && b.entries[k].token == q.token
    && b.min <= q.amount * b.entries[k].rate && q.amount * b.entries[k].rate <= b.max
  }

  predicate OfToken(b: Bucket, q: Quote, k: int) {
    0 <= k < |b.entries| && b.entries[k].token == q.token
  }

  /** What a bucket can say: it has a hit exactly when some entry of the token prices the
      amount into its range, and the hit is the topmost such entry; it misses exactly when
      its topmost entry of the token does not. */
  lemma BucketSays(b: Bucket, q: Quote, k: int)
    ensures HasHit(b, q) <==> exists j :: Prices(b, q, j)
    ensures Hit(b, q, k) <==> Prices(b, q, k) && forall j :: 0 <= j < k ==> !Prices(b, q, j)
    ensures Topmost(b, q, k) <==> OfToken(b, q, k) && forall j :: 0 <= j < k ==> !OfToken(b, q, j)
    ensures Misses(b, q) <==>
              exists t :: OfToken(b, q, t) && (forall j :: 0 <= j < t ==> !OfToken(b, q, j)) && !Prices(b, q, t)
  {
    assert forall j :: Prices(b, q, j) <==> Fits(b, q, j);
    assert forall j :: OfToken(b, q, j) <==> Lists(b, q, j);
    if t :| Topmost(b, q, t) && !Fits(b, q, t) {
      assert OfToken(b, q, t) && !Prices(b, q, t);
    }
    if t :| OfToken(b, q, t) && (forall j :: 0 <= j < t ==> !OfToken(b, q, j)) && !Prices(b, q, t) {
      assert Topmost(b, q, t) && !Fits(b, q, t);
    }
  }

  /** Ten tokens at 1500 are worth 15000: too little for the first bucket, and in the range of
      the second only once the amount is multiplied by the rate. */
  lemma RangeIsInFiat()
    ensures var bs := [Bucket(50000.0, 100000.0, [Entry("USDC", 1490.0)]),
                       Bucket(1000.0, 50000.0, [Entry("DAI", 2000.0), Entry("USDC", 1500.0)])];
            var q := Quote("USDC", 10.0);
            && Answers(bs, q, 1400.0, 2, 1500.0)
            && !Answers(bs, q, 1400.0, 2, 1490.0) && !Answers(bs, q, 1400.0, 2, 2000.0)
  {
    var bs := [Bucket(50000.0, 100000.0, [Entry("USDC", 1490.0)]),
               Bucket(1000.0, 50000.0, [Entry("DAI", 2000.0), Entry("USDC", 1500.0)])];
    var q := Quote("USDC", 10.0);
    assert Hit(bs[1], q, 1);
    assert LastDecider(bs, q, 2, 1) && Writes(bs, q, 1, 1500.0);
    if Answers(bs, q, 1400.0, 2, 1490.0) {
      AnswerIsUnique(bs, q, 1400.0, 1490.0, 1500.0);
    }
    if Answers(bs, q, 1400.0, 2, 2000.0) {
      AnswerIsUnique(bs, q, 1400.0, 2000.0, 1500.0);
    }
  }

  // ---- What the answer is -----------------------------------------------------

  /** The specification of the scan leaves no freedom. */
  lemma AnswerIsUnique(bs: seq<Bucket>, q: Quote, market: real, r1: real, r2: real)
    requires Answers(bs, q, market, |bs|, r1) && Answers(bs, q, market, |bs|, r2)
    ensures r1 == r2
  {
  }

  ghost predicate LeftmostHighestMiss(bs: seq<Bucket>, q: Quote, i: int) {
    && 0 <= i < |bs| && Misses(bs[i], q) && bs[i].max > 0.0
    && (forall j :: 0 <= j < |bs| && Misses(bs[j], q) ==> bs[j].max <= bs[i].max)
    && (forall j :: 0 <= j < i && Misses(bs[j], q) ==> bs[j].max < bs[i].max)
  }

  /** With nothing in range, the answer is the topmost rate of the leftmost bucket
      of largest positive maximum among those listing the token, else the market rate. */
  lemma OutOfRangeAnswer(bs: seq<Bucket>, q: Quote, market: real, rate: real)
    requires Answers(bs, q, market, |bs|, rate)
    requires forall i :: 0 <= i < |bs| ==> !HasHit(bs[i], q)
    ensures if exists i :: 0 <= i < |bs| && bs[i].max > 0.0 && exists k :: Lists(bs[i], q, k)
            then exists i, k :: LeftmostHighestMiss(bs, q, i) && Topmost(bs[i], q, k)
                                && rate == bs[i].entries[k].rate
            else rate == market
  {
    if Ceiling(bs, q, |bs|) == 0.0 {
      assert forall i :: 0 <= i < |bs| ==> !Decides(bs, q, i);
      forall i, k | 0 <= i < |bs| && bs[i].max > 0.0 && Lists(bs[i], q, k) ensures false {
        TopmostExists(bs[i], q, k);
      }
    } else {
      var i := LeftmostAt(bs, q, |bs|);
      LaterMissesStayBelow(bs, q, i);
      assert LastDecider(bs, q, |bs|, i);
      AnswerComesFrom(bs, q, market, i, rate);
      var k :| Topmost(bs[i], q, k) && rate == bs[i].entries[k].rate;
      assert LeftmostHighestMiss(bs, q, i);
    }
  }

  lemma AnswerComesFrom(bs: seq<Bucket>, q: Quote, market: real, i: int, rate: real)
    requires Answers(bs, q, market, |bs|, rate) && LastDecider(bs, q, |bs|, i)
    ensures Writes(bs, q, i, rate)
  {
  }

  lemma LaterMissesStayBelow(bs: seq<Bucket>, q: Quote, i: int)
    requires Raises(bs, q, i) && bs[i].max == Ceiling(bs, q, |bs|)
    ensures forall j :: i < j < |bs| ==> !Raises(bs, q, j)
  {
  }

  lemma {:induction false} TopmostExists(b: Bucket, q: Quote, k: int)
    requires Lists(b, q, k)
    ensures exists t :: Topmost(b, q, t)
  {
    if j :| 0 <= j < k && Lists(b, q, j) {
      TopmostExists(b, q, j);
    } else {
      assert Topmost(b, q, k);
    }
  }

  lemma {:induction false} LeftmostAt(bs: seq<Bucket>, q: Quote, n: nat) returns (i: int)
    requires n <= |bs| && Ceiling(bs, q, n) > 0.0
    ensures 0 <= i < n && Raises(bs, q, i) && bs[i].max == Ceiling(bs, q, n)
  {
    if Ceiling(bs, q, n - 1) == Ceiling(bs, q, n) {
      i := LeftmostAt(bs, q, n - 1);
    } else {
      i := n - 1;
    }
  }

  lemma {:induction false} CeilingGrows(bs: seq<Bucket>, q: Quote, m: nat, n: nat)
    requires m <= n <= |bs|
    ensures Ceiling(bs, q, m) <= Ceiling(bs, q, n)
    ensures Ceiling(bs, q, m) < Ceiling(bs, q, n) <==> exists j :: m <= j < n && Raises(bs, q, j)
  {
    if m < n {
      CeilingGrows(bs, q, m, n - 1);
      if Ceiling(bs, q, n - 1) < Ceiling(bs, q, n) {
        assert Raises(bs, q, n - 1);
      }
    }
  }

  lemma {:induction false} LastDeciderOf(bs: seq<Bucket>, q: Quote, n: nat, j: int) returns (i: int)
    requires n <= |bs| && j < n && Decides(bs, q, j)
    ensures j <= i && LastDecider(bs, q, n, i)
  {
    if Decides(bs, q, n - 1) {
      i := n - 1;
    } else {
      i := LastDeciderOf(bs, q, n - 1, j);
    }
  }

  /** The last bucket with a hit decides exactly when the ceiling is not lifted after it. */
  lemma HitDecidesIff(bs: seq<Bucket>, q: Quote, h: int)
    requires 0 <= h < |bs| && HasHit(bs[h], q)
    requires forall j :: h < j < |bs| ==> !HasHit(bs[j], q)
    ensures LastDecider(bs, q, |bs|, h) <==> Ceiling(bs, q, |bs|) == Ceiling(bs, q, h + 1)
  {
    CeilingGrows(bs, q, h + 1, |bs|);
    assert forall j :: h < j < |bs| ==> (Decides(bs, q, j) <==> Raises(bs, q, j));
    assert Decides(bs, q, h);
    assert LastDecider(bs, q, |bs|, h) <==> forall j :: h < j < |bs| ==> !Raises(bs, q, j);
  }

  /** The rate of the bucket's topmost in-range entry. */
  ghost predicate TakesHit(b: Bucket, q: Quote, rate: real) {
    exists k :: Hit(b, q, k) && rate == b.entries[k].rate
  }

  /** The rate of the bucket's topmost entry, which is out of range. */
  ghost predicate TakesMiss(b: Bucket, q: Quote, rate: real) {
    !InRange(b, q, rate) && exists k :: Topmost(b, q, k) && rate == b.entries[k].rate
  }

  /** The rate found in range in bucket `h`, the last bucket holding one, is the answer exactly
      when no later missed bucket lifts the ceiling; if one does, the answer is the topmost
      rate of a later bucket, which is out of that bucket's range. */
  lemma HitSurvivesIff(bs: seq<Bucket>, q: Quote, market: real, rate: real, h: int)
    requires Answers(bs, q, market, |bs|, rate) && 0 <= h < |bs| && HasHit(bs[h], q)
    requires forall j :: h < j < |bs| ==> !HasHit(bs[j], q)
    ensures if Ceiling(bs, q, |bs|) == Ceiling(bs, q, h + 1) then TakesHit(bs[h], q, rate)
            else exists i :: h < i < |bs| && TakesMiss(bs[i], q, rate)
  {
    HitDecidesIff(bs, q, h);
    var i := LastDeciderOf(bs, q, |bs|, h);
    AnswerComesFrom(bs, q, market, i, rate);
    if i != h {
      assert Raises(bs, q, i);
      assert TakesMiss(bs[i], q, rate);
    }
  }

  /** An in-range quote of the first bucket loses to a wider, out-of-range second one. */
  lemma HitCanBeOverwritten()
    ensures var bs := [Bucket(0.0, 10.0, [Entry("T", 1.0)]), Bucket(50.0, 100.0, [Entry("T", 9.0)])];
            var q := Quote("T", 5.0);
            Hit(bs[0], q, 0) && Answers(bs, q, 2.0, 2, 9.0) && !Answers(bs, q, 2.0, 2, 1.0)
  {
    var bs := [Bucket(0.0, 10.0, [Entry("T", 1.0)]), Bucket(50.0, 100.0, [Entry("T", 9.0)])];
    var q := Quote("T", 5.0);
    assert Topmost(bs[1], q, 0) && !Fits(bs[1], q, 0);
    assert Topmost(bs[0], q, 0) && Fits(bs[0], q, 0);
    assert !Misses(bs[0], q);
    assert Ceiling(bs, q, 1) == Ceiling(bs, q, 0) == 0.0;
    assert Raises(bs, q, 1);
    assert LastDecider(bs, q, 2, 1) && Writes(bs, q, 1, 9.0);
    if Answers(bs, q, 2.0, 2, 1.0) {
      AnswerIsUnique(bs, q, 2.0, 1.0, 9.0);
    }
  }
}

/** Candles described bucket by bucket, without reference to any order of processing. */
module CandleSafety {
  import opened Prelude
  import opened Fractions
  import opened Sorting
  import opened Sums
  import opened Candles

  predicate In(t: MarketTrade, start: int, interval: int)
    requires interval > 0
  {
    StartOf(t, interval) == start
  }

  function BaseIn(start: int, interval: int): MarketTrade -> int
    requires interval > 0
  {
    (t: MarketTrade) => if In(t, start, interval) then t.baseAmount else 0
  }

  function QuoteIn(start: int, interval: int): MarketTrade -> int
    requires interval > 0
  {
    (t: MarketTrade) => if In(t, start, interval) then t.quoteAmount else 0
  }

  function CountIn(start: int, interval: int): MarketTrade -> int
    requires interval > 0
  {
    (t: MarketTrade) => if In(t, start, interval) then 1 else 0
  }

  predicate AllValid(all: seq<MarketTrade>) {
    forall i | 0 <= i < |all| :: Refusal(all[i]) == None
  }

  /** `t` is the first trade of its bucket in execution order. */
  predicate IsFirst(t: MarketTrade, all: seq<MarketTrade>, start: int, interval: int)
    requires interval > 0
  {
    && t in all && In(t, start, interval)
    && forall u | u in all :: In(u, start, interval) ==> u == t || Before(t, u)
  }

  predicate IsLast(t: MarketTrade, all: seq<MarketTrade>, start: int, interval: int)
    requires interval > 0
  {
    && t in all && In(t, start, interval)
    && forall u | u in all :: In(u, start, interval) ==> u == t || Before(u, t)
  }

  /** No trade of the bucket is priced above (`sign` 1) or below (`sign` -1) `t`. */
  predicate IsExtreme(t: MarketTrade, all: seq<MarketTrade>, start: int, interval: int, sign: int)
    requires interval > 0
  {
    && t in all && In(t, start, interval)
    && forall u | u in all :: In(u, start, interval) ==> sign * Compare(u.price, t.price) <= 0
  }

  predicate PriceIs(r: Rational, t: MarketTrade) {
    Positive(t.price) && r == Canonical(t.price)
  }

  ghost predicate OpensAt(r: Rational, all: seq<MarketTrade>, start: int, interval: int)
    requires interval > 0
  {
    exists t :: IsFirst(t, all, start, interval) && PriceIs(r, t)
  }

  ghost predicate ClosesAt(r: Rational, all: seq<MarketTrade>, start: int, interval: int)
    requires interval > 0
  {
    exists t :: IsLast(t, all, start, interval) && PriceIs(r, t)
  }

  ghost predicate ReachesAt(r: Rational, all: seq<MarketTrade>, start: int, interval: int, sign: int)
    requires interval > 0
  {
    exists t :: IsExtreme(t, all, start, interval, sign) && PriceIs(r, t)
  }

  ghost predicate IsCandle(c: Candle, all: seq<MarketTrade>, interval: int)
    requires interval > 0
  {
    && c.end == c.start + interval
    && OpensAt(c.open, all, c.start, interval)
    && ClosesAt(c.close, all, c.start, interval)
    && ReachesAt(c.high, all, c.start, interval, 1)
    && ReachesAt(c.low, all, c.start, interval, -1)
    && c.baseVolume == SumBy(all, BaseIn(c.start, interval))
    && c.quoteVolume == SumBy(all, QuoteIn(c.start, interval))
    && c.trades == SumBy(all, CountIn(c.start, interval))
  }

  predicate HasStart(out: seq<Candle>, start: int) {
    exists k | 0 <= k < |out| :: out[k].start == start
  }

  predicate StartsIncrease(out: seq<Candle>) {
    forall j, k | 0 <= j < k < |out| :: out[j].start < out[k].start
  }

  /** The specification: one candle per non-empty bucket, in order of start. */
  ghost predicate Summarises(out: seq<Candle>, all: seq<MarketTrade>, interval: int)
    requires interval > 0
  {
    && StartsIncrease(out)
    && (forall t :: t in all ==> HasStart(out, StartOf(t, interval)))
    && (forall k :: 0 <= k < |out| ==> IsCandle(out[k], all, interval))
  }

  // ---------------------------------------------------------------- one more trade

  ghost predicate InOrder(all: seq<MarketTrade>) {
    Sorted(all, Before)
  }

  lemma StartsAreMonotone(t: MarketTrade, u: MarketTrade, interval: int)
    requires interval > 0 && t.timestamp <= u.timestamp
    ensures StartOf(t, interval) <= StartOf(u, interval)
  {
    var a, b := t.timestamp / interval, u.timestamp / interval;
    assert a <= b by {
      assert interval * a <= t.timestamp;
      assert u.timestamp < interval * b + interval;
      assert a > b ==> interval * a >= interval * (b + 1);
    }
  }

  /** The last candle is the bucket of the last trade. */
  lemma {:induction false} LastCandleIsLastTrade(all: seq<MarketTrade>, interval: int)
    requires interval > 0 && all != [] && Fold(all, interval).Ok?
    ensures var out := Fold(all, interval).value;
      out != [] && out[|out| - 1].start == StartOf(all[|all| - 1], interval)
  {
  }

  lemma SumsOfOne(all: seq<MarketTrade>, t: MarketTrade, start: int, interval: int)
    requires interval > 0
    ensures SumBy(all + [t], BaseIn(start, interval))
      == SumBy(all, BaseIn(start, interval)) + BaseIn(start, interval)(t)
    ensures SumBy(all + [t], QuoteIn(start, interval))
      == SumBy(all, QuoteIn(start, interval)) + QuoteIn(start, interval)(t)
    ensures SumBy(all + [t], CountIn(start, interval))
      == SumBy(all, CountIn(start, interval)) + CountIn(start, interval)(t)
  {
    assert (all + [t])[..|all|] == all;
  }

  lemma {:induction false} EmptyBucketSumsToZero(all: seq<MarketTrade>, start: int, interval: int)
    requires interval > 0 && forall t :: t in all ==> !In(t, start, interval)
    ensures SumBy(all, BaseIn(start, interval)) == 0
    ensures SumBy(all, QuoteIn(start, interval)) == 0
    ensures SumBy(all, CountIn(start, interval)) == 0
  {
    if all != [] {
      EmptyBucketSumsToZero(all[..|all| - 1], start, interval);
    }
  }

  /** A trade of another bucket leaves a candle as it was. */
  lemma OtherCandle(c: Candle, all: seq<MarketTrade>, t: MarketTrade, interval: int)
    requires interval > 0 && IsCandle(c, all, interval) && !In(t, c.start, interval)
    ensures IsCandle(c, all + [t], interval)
  {
    SumsOfOne(all, t, c.start, interval);
    var first :| IsFirst(first, all, c.start, interval) && PriceIs(c.open, first);
    assert IsFirst(first, all + [t], c.start, interval);
    var last :| IsLast(last, all, c.start, interval) && PriceIs(c.close, last);
    assert IsLast(last, all + [t], c.start, interval);
    var top :| IsExtreme(top, all, c.start, interval, 1) && PriceIs(c.high, top);
    assert IsExtreme(top, all + [t], c.start, interval, 1);
    var bottom :| IsExtreme(bottom, all, c.start, interval, -1) && PriceIs(c.low, bottom);
    assert IsExtreme(bottom, all + [t], c.start, interval, -1);
  }

  lemma ExtremeGrows(c: Rational, t: MarketTrade, all: seq<MarketTrade>, start: int, interval: int, sign: int)
    requires interval > 0 && (sign == 1 || sign == -1) && AllValid(all) && Refusal(t) == None && In(t, start, interval)
    requires ReachesAt(c, all, start, interval, sign)
    ensures var p := Canonical(t.price);
      ReachesAt(if sign * Compare(p, c) > 0 then p else c, all + [t], start, interval, sign)
  {
    var p := Canonical(t.price);
    var prior :| IsExtreme(prior, all, start, interval, sign) && PriceIs(c, prior);
    SameOrderAsCanonical(t.price, prior.price);
    if sign * Compare(p, c) > 0 {
      forall u | u in all + [t] && In(u, start, interval)
        ensures sign * Compare(u.price, t.price) <= 0
      {
        if u in all {
          SignedChain(u.price, prior.price, t.price, sign);
        }
      }
      assert IsExtreme(t, all + [t], start, interval, sign) && PriceIs(p, t);
    } else {
      assert IsExtreme(prior, all + [t], start, interval, sign) && PriceIs(c, prior);
    }
  }

  lemma SameOrderAsCanonical(a: Rational, b: Rational)
    requires Positive(a) && Positive(b)
    ensures Compare(Canonical(a), Canonical(b)) <= 0 <==> Compare(a, b) <= 0
    ensures Compare(Canonical(a), Canonical(b)) >= 0 <==> Compare(a, b) >= 0
    ensures Compare(a, Canonical(b)) <= 0 <==> Compare(a, b) <= 0
    ensures Compare(a, Canonical(b)) >= 0 <==> Compare(a, b) >= 0
  {
    SameOrderOneWay(a, b);
    SameOrderOneWay(b, a);
    CompareFlips(a, b);
    CompareFlips(Canonical(a), Canonical(b));
    CompareFlips(a, Canonical(b));
  }

  lemma SameOrderOneWay(a: Rational, b: Rational)
    requires Positive(a) && Positive(b)
    ensures Compare(Canonical(a), Canonical(b)) <= 0 <==> Compare(a, b) <= 0
    ensures Compare(a, Canonical(b)) <= 0 <==> Compare(a, b) <= 0
    ensures Compare(Canonical(a), b) <= 0 <==> Compare(a, b) <= 0
  {
    CanonicalSamePrice(a);
    CanonicalSamePrice(b);
    var ca, cb := Canonical(a), Canonical(b);
    if Compare(a, b) <= 0 {
      CompareChain(ca, a, b);
      CompareChain(a, b, cb);
      CompareChain(ca, a, cb);
    }
    if Compare(a, cb) <= 0 {
      CompareChain(a, cb, b);
    }
    if Compare(ca, b) <= 0 {
      CompareChain(a, ca, b);
    }
    if Compare(ca, cb) <= 0 {
      CompareChain(a, ca, cb);
      CompareChain(a, cb, b);
    }
  }

  lemma SignedChain(a: Rational, b: Rational, c: Rational, sign: int)
    requires a.denominator > 0 && b.denominator > 0 && c.denominator > 0 && (sign == 1 || sign == -1)
    requires sign * Compare(a, b) <= 0 && sign * Compare(b, c) <= 0
    ensures sign * Compare(a, c) <= 0
  {
    if sign == 1 {
      CompareChain(a, b, c);
    } else {
      CompareFlips(a, b);
      CompareFlips(b, c);
      CompareFlips(a, c);
      CompareChain(c, b, a);
    }
  }

  lemma EndsMove(open: Rational, all: seq<MarketTrade>, t: MarketTrade, start: int, interval: int)
    requires interval > 0 && In(t, start, interval) && Positive(t.price) && forall u :: u in all ==> Before(u, t)
    requires OpensAt(open, all, start, interval)
    ensures OpensAt(open, all + [t], start, interval) && ClosesAt(Canonical(t.price), all + [t], start, interval)
  {
    var first :| IsFirst(first, all, start, interval) && PriceIs(open, first);
    assert IsFirst(first, all + [t], start, interval);
    assert IsLast(t, all + [t], start, interval) && PriceIs(Canonical(t.price), t);
  }

  /** A further trade of the same bucket, later than all of them. */
  lemma SameCandle(c: Candle, all: seq<MarketTrade>, t: MarketTrade, interval: int)
    requires interval > 0 && IsCandle(c, all, interval) && In(t, c.start, interval)
    requires AllValid(all) && Refusal(t) == None && forall u :: u in all ==> Before(u, t)
    ensures IsCandle(Extend(c, t, Canonical(t.price)), all + [t], interval)
  {
    SumsOfOne(all, t, c.start, interval);
    var c' := Extend(c, t, Canonical(t.price));
    EndsMove(c.open, all, t, c.start, interval);
    ExtremeGrows(c.high, t, all, c.start, interval, 1);
    ExtremeGrows(c.low, t, all, c.start, interval, -1);
    CompareFlips(Canonical(t.price), c.low);
  }

  lemma LoneTrade(all: seq<MarketTrade>, t: MarketTrade, start: int, interval: int)
    requires interval > 0 && In(t, start, interval) && Positive(t.price)
      && forall u :: u in all ==> !In(u, start, interval)
    ensures OpensAt(Canonical(t.price), all + [t], start, interval)
      && ClosesAt(Canonical(t.price), all + [t], start, interval)
    ensures ReachesAt(Canonical(t.price), all + [t], start, interval, 1)
    ensures ReachesAt(Canonical(t.price), all + [t], start, interval, -1)
  {
    assert PriceIs(Canonical(t.price), t);
    assert Compare(t.price, t.price) == 0;
    assert IsFirst(t, all + [t], start, interval) && IsLast(t, all + [t], start, interval);
    assert IsExtreme(t, all + [t], start, interval, 1) && IsExtreme(t, all + [t], start, interval, -1);
  }

  lemma FirstOfCandle(start: int, interval: int, t: MarketTrade, p: Rational)
    ensures Extend(Candle(start, start + interval, p, p, p, p, 0, 0, 0), t, p)
         == Candle(start, start + interval, p, p, p, p, t.baseAmount, t.quoteAmount, 1)
  {
  }

  lemma FreshCandleAt(all: seq<MarketTrade>, t: MarketTrade, start: int, interval: int, p: Rational)
    requires interval > 0 && Positive(t.price) && p == Canonical(t.price) && In(t, start, interval)
    requires forall u :: u in all ==> !In(u, start, interval)
    ensures IsCandle(Candle(start, start + interval, p, p, p, p, t.baseAmount, t.quoteAmount, 1), all + [t], interval)
  {
    LoneTrade(all, t, start, interval);
    LoneSums(all, t, start, interval);
  }

  lemma LoneSums(all: seq<MarketTrade>, t: MarketTrade, start: int, interval: int)
    requires interval > 0 && In(t, start, interval) && forall u :: u in all ==> !In(u, start, interval)
    ensures SumBy(all + [t], BaseIn(start, interval)) == t.baseAmount
    ensures SumBy(all + [t], QuoteIn(start, interval)) == t.quoteAmount
    ensures SumBy(all + [t], CountIn(start, interval)) == 1
  {
    EmptyBucketSumsToZero(all, start, interval);
    SumsOfOne(all, t, start, interval);
  }

  lemma FreshCandle(all: seq<MarketTrade>, t: MarketTrade, interval: int)
    requires interval > 0 && Refusal(t) == None
    requires forall u :: u in all ==> !In(u, StartOf(t, interval), interval)
    ensures var start, p := StartOf(t, interval), Canonical(t.price);
      IsCandle(Extend(Candle(start, start + interval, p, p, p, p, 0, 0, 0), t, p), all + [t], interval)
  {
    FreshCandleAt(all, t, StartOf(t, interval), interval, Canonical(t.price));
    FirstOfCandle(StartOf(t, interval), interval, t, Canonical(t.price));
  }

  lemma StartsAfter(out: seq<Candle>, t: MarketTrade, interval: int)
    requires interval > 0 && Positive(t.price) && StartsIncrease(out)
    requires out != [] ==> out[|out| - 1].start <= StartOf(t, interval)
    ensures var out' := AddTrade(out, t, interval);
      && StartsIncrease(out')
      && out' != [] && out'[|out'| - 1].start == StartOf(t, interval)
      && |out'| - 1 <= |out|
      && (forall k :: 0 <= k < |out'| - 1 ==> out'[k] == out[k] && out[k].start < StartOf(t, interval))
      && (forall start :: HasStart(out', start) <==> HasStart(out, start) || start == StartOf(t, interval))
  {
    var out' := AddTrade(out, t, interval);
    var n := |out'| - 1;
    assert forall k :: 0 <= k < n ==> out'[k] == out[k];
    assert out'[n].start == StartOf(t, interval);
    forall start | HasStart(out, start)
      ensures HasStart(out', start)
    {
      var k :| 0 <= k < |out| && out[k].start == start;
      assert out'[k].start == start;
    }
  }

  lemma LastCandleAfter(out: seq<Candle>, all: seq<MarketTrade>, t: MarketTrade, interval: int)
    requires interval > 0 && Summarises(out, all, interval) && AllValid(all) && Refusal(t) == None
    requires forall u :: u in all ==> Before(u, t)
    requires out != [] ==> out[|out| - 1].start <= StartOf(t, interval)
    ensures var out' := AddTrade(out, t, interval);
      IsCandle(out'[|out'| - 1], all + [t], interval)
  {
    var start, n := StartOf(t, interval), |out| - 1;
    if out == [] || out[n].start != start {
      forall u | u in all
        ensures !In(u, start, interval)
      {
        assert HasStart(out, StartOf(u, interval));
      }
      FreshCandle(all, t, interval);
    } else {
      assert IsCandle(out[n], all, interval);
      SameCandle(out[n], all, t, interval);
    }
  }

  lemma OlderCandles(out: seq<Candle>, out': seq<Candle>, all: seq<MarketTrade>, t: MarketTrade, interval: int)
    requires interval > 0 && forall k :: 0 <= k < |out| ==> IsCandle(out[k], all, interval)
    requires |out'| - 1 <= |out|
    requires forall k :: 0 <= k < |out'| - 1 ==> out'[k] == out[k] && out[k].start < StartOf(t, interval)
    ensures forall k :: 0 <= k < |out'| - 1 ==> IsCandle(out'[k], all + [t], interval)
  {
    forall k | 0 <= k < |out'| - 1
      ensures IsCandle(out'[k], all + [t], interval)
    {
      assert IsCandle(out[k], all, interval);
      OtherCandle(out[k], all, t, interval);
    }
  }

  lemma StartsCover(out: seq<Candle>, out': seq<Candle>, all: seq<MarketTrade>, t: MarketTrade, interval: int)
    requires interval > 0 && forall u :: u in all ==> HasStart(out, StartOf(u, interval))
    requires forall start :: HasStart(out', start) <==> HasStart(out, start) || start == StartOf(t, interval)
    ensures forall u :: u in all + [t] ==> HasStart(out', StartOf(u, interval))
  {
    forall u | u in all + [t]
      ensures HasStart(out', StartOf(u, interval))
    {
      assert u in all ==> HasStart(out, StartOf(u, interval));
    }
  }

  lemma AllCandles(out: seq<Candle>, all: seq<MarketTrade>, interval: int)
    requires interval > 0 && out != [] && IsCandle(out[|out| - 1], all, interval)
    requires forall k :: 0 <= k < |out| - 1 ==> IsCandle(out[k], all, interval)
    ensures forall k :: 0 <= k < |out| ==> IsCandle(out[k], all, interval)
  {
    forall k | 0 <= k < |out|
      ensures IsCandle(out[k], all, interval)
    {
      assert k < |out| - 1 || out[k] == out[|out| - 1];
    }
  }

  lemma AddTradeSummarises(out: seq<Candle>, all: seq<MarketTrade>, t: MarketTrade, interval: int)
    requires interval > 0 && Summarises(out, all, interval) && AllValid(all) && Refusal(t) == None
    requires forall u :: u in all ==> Before(u, t)
    requires out != [] ==> out[|out| - 1].start <= StartOf(t, interval)
    ensures Summarises(AddTrade(out, t, interval), all + [t], interval)
  {
    StartsAfter(out, t, interval);
    LastCandleAfter(out, all, t, interval);
    OlderCandles(out, AddTrade(out, t, interval), all, t, interval);
    AllCandles(AddTrade(out, t, interval), all + [t], interval);
    StartsCover(out, AddTrade(out, t, interval), all, t, interval);
  }

  lemma FoldSummarisesNext(all: seq<MarketTrade>, t: MarketTrade, interval: int)
    requires interval > 0 && Fold(all, interval).Ok? && AllValid(all) && Refusal(t) == None
    requires Summarises(Fold(all, interval).value, all, interval) && forall u :: u in all ==> Before(u, t)
    ensures Summarises(AddTrade(Fold(all, interval).value, t, interval), all + [t], interval)
  {
    if all != [] {
      LastCandleIsLastTrade(all, interval);
      StartsAreMonotone(all[|all| - 1], t, interval);
    }
    AddTradeSummarises(Fold(all, interval).value, all, t, interval);
  }

  lemma LastIsLatest(all: seq<MarketTrade>, before: seq<MarketTrade>, t: MarketTrade)
    requires InOrder(all) && all == before + [t]
    ensures InOrder(before) && forall u :: u in before ==> Before(u, t)
  {
    assert all[|before|] == t;
    assert forall i :: 0 <= i < |before| ==> all[i] == before[i];
  }

  lemma {:induction false} FoldSummarises(all: seq<MarketTrade>, interval: int)
    requires interval > 0 && InOrder(all) && Fold(all, interval).Ok?
    ensures AllValid(all) && Summarises(Fold(all, interval).value, all, interval)
  {
    FoldAccepts(all, interval);
    if all != [] {
      var before, t := all[..|all| - 1], all[|all| - 1];
      assert all == before + [t];
      LastIsLatest(all, before, t);
      FoldAccepts(before, interval);
      FoldSummarises(before, interval);
      FoldSummarisesNext(before, t, interval);
      assert Fold(all, interval).value == AddTrade(Fold(before, interval).value, t, interval);
    }
  }

  // ---------------------------------------------------------------- any order of the input

  lemma BeforeIsStrictOrder()
    ensures StrictOrder(Before)
  {
    forall a
      ensures !Before(a, a)
    {
      LexIsIrreflexive(a.id, CharBefore);
    }
    forall a, b, c | Before(a, b) && Before(b, c)
      ensures Before(a, c)
    {
      if Less(a.id, b.id) && Less(b.id, c.id) {
        LexIsTransitive(a.id, b.id, c.id, CharBefore);
      }
    }
  }

  lemma {:induction false} DedupeIsFaithful(input: seq<MarketTrade>)
    ensures forall t :: t in Dedupe(input) ==> t in input
    ensures forall id :: HasId(Dedupe(input), id) <==> HasId(input, id)
    ensures forall i, j :: 0 <= i < j < |Dedupe(input)| ==> Dedupe(input)[i].id != Dedupe(input)[j].id
  {
    if input != [] {
      var n := |input| - 1;
      DedupeIsFaithful(input[..n]);
      IdsAfter(input, n);
      assert input[..n + 1] == input;
      var d, d0 := Dedupe(input), Dedupe(input[..n]);
      if !HasId(input[..n], input[n].id) {
        assert d[..|d0|] == d0;
        IdsAfter(d, |d0|);
        assert d[..|d0| + 1] == d && d[|d0|] == input[n];
        forall id
          ensures HasId(d, id) <==> HasId(input, id)
        {
          assert HasId(d, id) <==> HasId(d0, id) || id == input[n].id;
        }
        assert forall i :: 0 <= i < |d0| ==> d0[i].id != input[n].id by {
          assert forall i :: 0 <= i < |d0| ==> HasId(d0, d0[i].id);
        }
      }
    }
  }

  lemma DedupedAreDistinct(input: seq<MarketTrade>)
    ensures StrictOrder(Before) && Sorting.Distinct(Dedupe(input), Before)
    ensures InOrder(Sort(Dedupe(input), Before))
    ensures multiset(Sort(Dedupe(input), Before)) == multiset(Dedupe(input))
  {
    var d := Dedupe(input);
    BeforeIsStrictOrder();
    DedupeIsFaithful(input);
    forall i, j | 0 <= i < j < |d|
      ensures Before(d[i], d[j]) || Before(d[j], d[i])
    {
      LexIsTotal(d[i].id, d[j].id, CharBefore);
    }
    SortIsSorted(d, Before);
    SortIsPermutation(d, Before);
  }

  lemma CandlePermutes(c: Candle, a: seq<MarketTrade>, b: seq<MarketTrade>, interval: int)
    requires interval > 0 && IsCandle(c, a, interval) && multiset(a) == multiset(b)
    ensures IsCandle(c, b, interval)
  {
    SameElements(a, b);
    SumByPermutation(a, b, BaseIn(c.start, interval));
    SumByPermutation(a, b, QuoteIn(c.start, interval));
    SumByPermutation(a, b, CountIn(c.start, interval));
    var first :| IsFirst(first, a, c.start, interval) && PriceIs(c.open, first);
    assert IsFirst(first, b, c.start, interval);
    var last :| IsLast(last, a, c.start, interval) && PriceIs(c.close, last);
    assert IsLast(last, b, c.start, interval);
    var top :| IsExtreme(top, a, c.start, interval, 1) && PriceIs(c.high, top);
    assert IsExtreme(top, b, c.start, interval, 1);
    var bottom :| IsExtreme(bottom, a, c.start, interval, -1) && PriceIs(c.low, bottom);
    assert IsExtreme(bottom, b, c.start, interval, -1);
  }

  lemma SameElements<T>(a: seq<T>, b: seq<T>)
    requires multiset(a) == multiset(b)
    ensures forall x :: x in a <==> x in b
  {
    forall x
      ensures x in a <==> x in b
    {
      assert x in a <==> x in multiset(a);
      assert x in b <==> x in multiset(b);
    }
  }

  /** Every accepted input yields exactly the candles of its buckets, whatever order the trades came in. */
  lemma AggregateSummarises(input: seq<MarketTrade>, interval: int)
    requires Aggregate(input, interval).Ok?
    ensures interval > 0 && AllValid(Dedupe(input))
    ensures Summarises(Aggregate(input, interval).value, Dedupe(input), interval)
  {
    var d := Dedupe(input);
    var s := Sort(d, Before);
    DedupedAreDistinct(input);
    FoldSummarises(s, interval);
    SameElements(s, d);
    forall i | 0 <= i < |d|
      ensures Refusal(d[i]) == None
    {
      assert d[i] in s;
    }
    var out := Aggregate(input, interval).value;
    forall k | 0 <= k < |out|
      ensures IsCandle(out[k], d, interval)
    {
      CandlePermutes(out[k], s, d, interval);
    }
  }

  function Earlier(): (int, int) -> bool {
    (a: int, b: int) => a < b
  }

  function Starts(out: seq<Candle>): seq<int> {
    seq(|out|, k requires 0 <= k < |out| => out[k].start)
  }

  lemma StartsMembers(out: seq<Candle>, start: int)
    ensures start in Starts(out) <==> HasStart(out, start)
  {
    if HasStart(out, start) {
      var k :| 0 <= k < |out| && out[k].start == start;
      assert Starts(out)[k] == start;
    }
  }

  lemma StartIsShared(c: Candle, b: seq<Candle>, d: seq<MarketTrade>, interval: int)
    requires interval > 0 && IsCandle(c, d, interval) && forall t :: t in d ==> HasStart(b, StartOf(t, interval))
    ensures HasStart(b, c.start)
  {
    var t :| IsFirst(t, d, c.start, interval) && PriceIs(c.open, t);
  }

  lemma StartsAgree(a: seq<Candle>, b: seq<Candle>, d: seq<MarketTrade>, interval: int, start: int)
    requires interval > 0 && Summarises(a, d, interval) && Summarises(b, d, interval) && start in Starts(a)
    ensures start in Starts(b)
  {
    StartsMembers(a, start);
    StartsMembers(b, start);
    var k :| 0 <= k < |a| && a[k].start == start;
    StartIsShared(a[k], b, d, interval);
  }

  lemma ReachedOnce(r: Rational, s: Rational, d: seq<MarketTrade>, start: int, interval: int, sign: int)
    requires interval > 0 && (sign == 1 || sign == -1)
    requires ReachesAt(r, d, start, interval, sign) && ReachesAt(s, d, start, interval, sign)
    ensures r == s
  {
    var t :| IsExtreme(t, d, start, interval, sign) && PriceIs(r, t);
    var u :| IsExtreme(u, d, start, interval, sign) && PriceIs(s, u);
    CompareFlips(t.price, u.price);
    EqualPricesReduceAlike(t.price, u.price);
  }

  lemma CandleIsUnique(c: Candle, e: Candle, d: seq<MarketTrade>, interval: int)
    requires interval > 0 && IsCandle(c, d, interval) && IsCandle(e, d, interval) && c.start == e.start
    ensures c == e
  {
    BeforeIsStrictOrder();
    var t :| IsFirst(t, d, c.start, interval) && PriceIs(c.open, t);
    var u :| IsFirst(u, d, c.start, interval) && PriceIs(e.open, u);
    assert t == u || (Before(t, u) && Before(u, t) && Before(t, t));
    var v :| IsLast(v, d, c.start, interval) && PriceIs(c.close, v);
    var w :| IsLast(w, d, c.start, interval) && PriceIs(e.close, w);
    assert v == w || (Before(v, w) && Before(w, v) && Before(v, v));
    ReachedOnce(c.high, e.high, d, c.start, interval, 1);
    ReachedOnce(c.low, e.low, d, c.start, interval, -1);
  }

  lemma StartsAreSorted(out: seq<Candle>)
    requires StartsIncrease(out)
    ensures Sorted(Starts(out), Earlier())
  {
  }

  lemma SameStarts(a: seq<Candle>, b: seq<Candle>, d: seq<MarketTrade>, interval: int)
    requires interval > 0 && Summarises(a, d, interval) && Summarises(b, d, interval)
    ensures Starts(a) == Starts(b)
  {
    StartsAreSorted(a);
    StartsAreSorted(b);
    forall start | start in Starts(a)
      ensures start in Starts(b)
    {
      StartsAgree(a, b, d, interval, start);
    }
    forall start | start in Starts(b)
      ensures start in Starts(a)
    {
      StartsAgree(b, a, d, interval, start);
    }
    SortedIsUnique(Starts(a), Starts(b), Earlier());
  }

  /** The bucket specification leaves no freedom: there is one list of candles for a set of trades. */
  lemma SummaryIsUnique(a: seq<Candle>, b: seq<Candle>, d: seq<MarketTrade>, interval: int)
    requires interval > 0 && Summarises(a, d, interval) && Summarises(b, d, interval)
    ensures a == b
  {
    SameStarts(a, b, d, interval);
    assert |a| == |Starts(a)| == |b|;
    forall k | 0 <= k < |a|
      ensures a[k] == b[k]
    {
      assert Starts(a)[k] == Starts(b)[k];
      assert IsCandle(a[k], d, interval) && IsCandle(b[k], d, interval);
      CandleIsUnique(a[k], b[k], d, interval);
    }
  }

  lemma {:induction false} FoldAccepts(all: seq<MarketTrade>, interval: int)
    requires interval > 0
    ensures Fold(all, interval).Ok? <==> AllValid(all)
  {
    if all != [] {
      var n := |all| - 1;
      FoldAccepts(all[..n], interval);
      assert all == all[..n] + [all[n]];
      assert AllValid(all) <==> AllValid(all[..n]) && Refusal(all[n]) == None;
    }
  }

  /** ... and exactly the inputs with a good interval and good first occurrences are accepted. */
  lemma AggregateAccepts(input: seq<MarketTrade>, interval: int)
    ensures Aggregate(input, interval).Ok? <==> 0 < interval <= MAX_SAFE && AllValid(Dedupe(input))
  {
    if 0 < interval <= MAX_SAFE {
      var d := Dedupe(input);
      FoldAccepts(Sort(d, Before), interval);
      SortIsPermutation(d, Before);
      assert AllValid(d) <==> forall t :: t in d ==> Refusal(t) == None;
      assert AllValid(Sort(d, Before)) <==> forall t :: t in Sort(d, Before) ==> Refusal(t) == None;
    }
  }

  predicate IdsAgree(s: seq<MarketTrade>) {
    forall i, j | 0 <= i < |s| && 0 <= j < |s| && s[i].id == s[j].id :: s[i] == s[j]
  }

  lemma DedupeKeepsEveryTrade(s: seq<MarketTrade>)
    requires IdsAgree(s)
    ensures forall t :: t in Dedupe(s) <==> t in s
  {
    DedupeIsFaithful(s);
    forall t | t in s
      ensures t in Dedupe(s)
    {
      var i :| 0 <= i < |s| && s[i] == t;
      assert HasId(s, t.id);
      assert HasId(Dedupe(s), t.id);
      var k :| 0 <= k < |Dedupe(s)| && Dedupe(s)[k].id == t.id;
      assert Dedupe(s)[k] in s;
      var j :| 0 <= j < |s| && s[j] == Dedupe(s)[k];
      assert s[i] == s[j];
    }
  }

  /** Same trades in any order, any number of times each: the same candles, or the same error. */
  lemma InputOrderAndRepetitionAreIrrelevant(a: seq<MarketTrade>, b: seq<MarketTrade>, interval: int)
    requires IdsAgree(a) && IdsAgree(b) && forall t :: t in a <==> t in b
    ensures Aggregate(a, interval) == Aggregate(b, interval)
  {
    DedupeKeepsEveryTrade(a);
    DedupeKeepsEveryTrade(b);
    DedupedAreDistinct(a);
    DedupedAreDistinct(b);
    SameElements(Sort(Dedupe(a), Before), Dedupe(a));
    SameElements(Sort(Dedupe(b), Before), Dedupe(b));
    SortedIsUnique(Sort(Dedupe(a), Before), Sort(Dedupe(b), Before), Before);
  }

  lemma SecondIsDropped(a: MarketTrade, b: MarketTrade)
    requires a.id == b.id
    ensures Dedupe([a, b]) == [a] == Dedupe([a])
  {
    assert [a, b][..1] == [a] && [a][..0] == [];
    assert Dedupe([a]) == Dedupe([]) + [a];
    assert [a][0].id == b.id;
  }

  lemma OneTradeOpens(out: seq<Candle>, a: MarketTrade, interval: int)
    requires interval > 0 && Summarises(out, [a], interval)
    ensures out != [] && out[0].open == Canonical(a.price)
  {
    assert a in [a];
    assert HasStart(out, StartOf(a, interval));
    assert IsCandle(out[0], [a], interval);
    var t :| IsFirst(t, [a], out[0].start, interval) && PriceIs(out[0].open, t);
  }

  lemma LoneTradeOpens(a: MarketTrade, b: MarketTrade, interval: int)
    requires a.id == b.id && Refusal(a) == None && 0 < interval <= MAX_SAFE
    ensures Aggregate([a, b], interval).Ok?
    ensures var out := Aggregate([a, b], interval).value;
      out != [] && out[0].open == Canonical(a.price)
  {
    SecondIsDropped(a, b);
    AggregateAccepts([a, b], interval);
    AggregateSummarises([a, b], interval);
    OneTradeOpens(Aggregate([a, b], interval).value, a, interval);
  }

  /** The condition on ids is needed: of two trades with one id the first wins, so any difference in price shows. */
  lemma ConflictingIdsDependOnOrder(a: MarketTrade, b: MarketTrade, interval: int)
    requires a.id == b.id && Refusal(a) == None && Refusal(b) == None && 0 < interval <= MAX_SAFE
    requires Compare(a.price, b.price) != 0
    ensures Aggregate([a, b], interval) != Aggregate([b, a], interval)
  {
    LoneTradeOpens(a, b, interval);
    LoneTradeOpens(b, a, interval);
    EqualPricesReduceAlike(a.price, b.price);
  }

  // ---------------------------------------------------------------- the summary agrees with the candles

  function BaseVolumeOf(): Candle -> int {
    (c: Candle) => c.baseVolume
  }

  function QuoteVolumeOf(): Candle -> int {
    (c: Candle) => c.quoteVolume
  }

  function TradesOf(): Candle -> int {
    (c: Candle) => c.trades
  }

  lemma ReplaceLast(out: seq<Candle>, c: Candle, value: Candle -> int)
    requires out != []
    ensures SumBy(out[..|out| - 1] + [c], value) == SumBy(out, value) - value(out[|out| - 1]) + value(c)
  {
    assert (out[..|out| - 1] + [c])[..|out| - 1] == out[..|out| - 1];
  }

  lemma AddTradeConserves(out: seq<Candle>, t: MarketTrade, interval: int)
    requires interval > 0 && Positive(t.price)
    ensures var out' := AddTrade(out, t, interval);
      && SumBy(out', BaseVolumeOf()) == SumBy(out, BaseVolumeOf()) + t.baseAmount
      && SumBy(out', QuoteVolumeOf()) == SumBy(out, QuoteVolumeOf()) + t.quoteAmount
      && SumBy(out', TradesOf()) == SumBy(out, TradesOf()) + 1
  {
    var out' := AddTrade(out, t, interval);
    var c := out'[|out'| - 1];
    if out == [] || out[|out| - 1].start != StartOf(t, interval) {
      assert out'[..|out'| - 1] == out;
    } else {
      ReplaceLast(out, c, BaseVolumeOf());
      ReplaceLast(out, c, QuoteVolumeOf());
      ReplaceLast(out, c, TradesOf());
    }
  }

  lemma {:induction false} FoldConserves(all: seq<MarketTrade>, interval: int)
    requires interval > 0 && Fold(all, interval).Ok?
    ensures var out := Fold(all, interval).value;
      && SumBy(out, BaseVolumeOf()) == SumBy(all, BaseOf())
      && SumBy(out, QuoteVolumeOf()) == SumBy(all, QuoteOf())
      && SumBy(out, TradesOf()) == |all|
  {
    if all != [] {
      var n := |all| - 1;
      FoldConserves(all[..n], interval);
      AddTradeConserves(Fold(all[..n], interval).value, all[n], interval);
    }
  }

  lemma {:induction false} ExtremeIsReached(s: seq<MarketTrade>, sign: int)
    requires AllPriced(s) && (sign == 1 || sign == -1)
    ensures Extreme(s, sign).None? <==> s == []
    ensures Extreme(s, sign).Some? ==>
      && (exists t :: t in s && PriceIs(Extreme(s, sign).value, t))
      && (forall u :: u in s ==> sign * Compare(u.price, Extreme(s, sign).value) <= 0)
  {
    if s != [] {
      var n := |s| - 1;
      var p, before := s[n].price, Extreme(s[..n], sign);
      ExtremeIsReached(s[..n], sign);
      assert s == s[..n] + [s[n]];
      CanonicalSamePrice(p);
      if before.None? || sign * Compare(p, before.value) > 0 {
        assert PriceIs(Canonical(p), s[n]);
        forall u | u in s
          ensures sign * Compare(u.price, Canonical(p)) <= 0
        {
          if u in s[..n] {
            var t :| t in s[..n] && PriceIs(before.value, t);
            CanonicalSamePrice(t.price);
            CompareFlips(p, before.value);
            SignedChain(u.price, before.value, p, sign);
            SignedChain(u.price, p, Canonical(p), sign);
          }
        }
      }
    }
  }

  /** `r` occurs among the values and none is beyond it. */
  predicate IsBest(r: Rational, values: seq<Rational>, sign: int) {
    r in values && forall v | v in values :: sign * Compare(v, r) <= 0
  }

  function Highs(out: seq<Candle>): seq<Rational> {
    seq(|out|, k requires 0 <= k < |out| => out[k].high)
  }

  function Lows(out: seq<Candle>): seq<Rational> {
    seq(|out|, k requires 0 <= k < |out| => out[k].low)
  }

  lemma AttainedTogether(best: Rational, t: MarketTrade, r: Rational, u: MarketTrade, sign: int)
    requires sign == 1 || sign == -1
    requires PriceIs(best, t) && PriceIs(r, u)
    requires sign * Compare(t.price, u.price) <= 0 && sign * Compare(u.price, best) <= 0
    ensures r == best
  {
    CanonicalSamePrice(t.price);
    SignedChain(u.price, best, t.price, sign);
    CompareFlips(t.price, u.price);
    EqualPricesReduceAlike(t.price, u.price);
  }

  /** The candle that holds the overall extreme holds it as the identical fraction ... */
  lemma ExtremeIsAttained(out: seq<Candle>, d: seq<MarketTrade>, values: seq<Rational>, interval: int, sign: int)
    requires interval > 0 && AllPriced(d) && (sign == 1 || sign == -1) && d != []
    requires forall t :: t in d ==> HasStart(out, StartOf(t, interval))
    requires |values| == |out| && forall k :: 0 <= k < |out| ==> ReachesAt(values[k], d, out[k].start, interval, sign)
    ensures Extreme(d, sign).Some? && Extreme(d, sign).value in values
  {
    ExtremeIsReached(d, sign);
    var best := Extreme(d, sign).value;
    var t :| t in d && PriceIs(best, t);
    assert HasStart(out, StartOf(t, interval));
    var k :| 0 <= k < |out| && out[k].start == StartOf(t, interval);
    var u :| IsExtreme(u, d, out[k].start, interval, sign) && PriceIs(values[k], u);
    AttainedTogether(best, t, values[k], u, sign);
  }

  /** ... and no candle goes beyond it. */
  lemma ExtremeIsBound(v: Rational, d: seq<MarketTrade>, start: int, interval: int, sign: int)
    requires interval > 0 && AllPriced(d) && (sign == 1 || sign == -1) && d != []
    requires ReachesAt(v, d, start, interval, sign)
    ensures Extreme(d, sign).Some? && sign * Compare(v, Extreme(d, sign).value) <= 0
  {
    ExtremeIsReached(d, sign);
    var best := Extreme(d, sign).value;
    var w :| IsExtreme(w, d, start, interval, sign) && PriceIs(v, w);
    var t :| t in d && PriceIs(best, t);
    CanonicalSamePrice(t.price);
    CanonicalSamePrice(w.price);
    SignedChain(v, w.price, best, sign);
  }

  lemma ExtremeIsBest(out: seq<Candle>, d: seq<MarketTrade>, values: seq<Rational>, interval: int, sign: int)
    requires interval > 0 && AllPriced(d) && (sign == 1 || sign == -1) && d != []
    requires forall t :: t in d ==> HasStart(out, StartOf(t, interval))
    requires |values| == |out| && forall k :: 0 <= k < |out| ==> ReachesAt(values[k], d, out[k].start, interval, sign)
    ensures Extreme(d, sign).Some? && IsBest(Extreme(d, sign).value, values, sign)
  {
    ExtremeIsAttained(out, d, values, interval, sign);
    forall k | 0 <= k < |values|
      ensures sign * Compare(values[k], Extreme(d, sign).value) <= 0
    {
      ExtremeIsBound(values[k], d, out[k].start, interval, sign);
    }
  }

  lemma TotalsAgree(trades: seq<MarketTrade>, interval: int)
    requires Aggregate(trades, interval).Ok?
    ensures var out, d := Aggregate(trades, interval).value, Dedupe(trades);
      && SumBy(d, BaseOf()) == SumBy(out, BaseVolumeOf())
      && SumBy(d, QuoteOf()) == SumBy(out, QuoteVolumeOf())
      && |d| == SumBy(out, TradesOf())
  {
    var d := Dedupe(trades);
    var s := Sort(d, Before);
    DedupedAreDistinct(trades);
    FoldConserves(s, interval);
    SumByPermutation(s, d, BaseOf());
    SumByPermutation(s, d, QuoteOf());
    assert |s| == |multiset(s)| == |multiset(d)| == |d|;
  }

  /** The bounds of every candle are reached in its bucket; there are candles as soon as there are trades. */
  lemma CandlesReach(trades: seq<MarketTrade>, interval: int)
    requires Aggregate(trades, interval).Ok?
    ensures var out, d := Aggregate(trades, interval).value, Dedupe(trades);
      && interval > 0 && AllPriced(d) && (d == [] <==> out == [])
      && (forall t :: t in d ==> HasStart(out, StartOf(t, interval)))
      && (forall k :: 0 <= k < |out| ==> ReachesAt(out[k].high, d, out[k].start, interval, 1))
      && (forall k :: 0 <= k < |out| ==> ReachesAt(out[k].low, d, out[k].start, interval, -1))
  {
    var d, out := Dedupe(trades), Aggregate(trades, interval).value;
    AggregateSummarises(trades, interval);
    forall k | 0 <= k < |out|
      ensures ReachesAt(out[k].high, d, out[k].start, interval, 1)
      ensures ReachesAt(out[k].low, d, out[k].start, interval, -1)
      ensures d != []
    {
      assert IsCandle(out[k], d, interval);
    }
    if d != [] {
      assert HasStart(out, StartOf(d[0], interval));
    }
  }

  lemma HighsAgree(trades: seq<MarketTrade>, interval: int)
    requires Aggregate(trades, interval).Ok?
    ensures var out, d := Aggregate(trades, interval).value, Dedupe(trades);
      && AllPriced(d) && (Extreme(d, 1).None? <==> out == [])
      && (out != [] ==> IsBest(Extreme(d, 1).value, Highs(out), 1))
  {
    var d, out := Dedupe(trades), Aggregate(trades, interval).value;
    CandlesReach(trades, interval);
    if d != [] {
      ExtremeIsBest(out, d, Highs(out), interval, 1);
    }
  }

  lemma LowsAgree(trades: seq<MarketTrade>, interval: int)
    requires Aggregate(trades, interval).Ok?
    ensures var out, d := Aggregate(trades, interval).value, Dedupe(trades);
      && AllPriced(d) && (Extreme(d, -1).None? <==> out == [])
      && (out != [] ==> IsBest(Extreme(d, -1).value, Lows(out), -1))
  {
    var d, out := Dedupe(trades), Aggregate(trades, interval).value;
    CandlesReach(trades, interval);
    if d != [] {
      ExtremeIsBest(out, d, Lows(out), interval, -1);
    }
  }

  /** Volumes, trade count, high and low of the summary are the sums, maximum and minimum of the candles, as identical
      values. */
  lemma AnalyticsAgreeWithCandles(trades: seq<MarketTrade>, interval: int, activeLiquidity: int)
    requires Aggregate(trades, interval).Ok? && activeLiquidity >= 0
    ensures Analytics(trades, activeLiquidity).Ok?
    ensures var out, m := Aggregate(trades, interval).value, Analytics(trades, activeLiquidity).value;
      && m.baseVolume == SumBy(out, BaseVolumeOf())
      && m.quoteVolume == SumBy(out, QuoteVolumeOf())
      && m.tradeCount == SumBy(out, TradesOf())
      && (m.high.None? <==> out == []) && (m.low.None? <==> out == [])
      && (out != [] ==> IsBest(m.high.value, Highs(out), 1) && IsBest(m.low.value, Lows(out), -1))
      && (m.vwap.None? <==> m.baseVolume == 0)
      && (m.vwap.Some? ==> m.vwap.value.numerator * m.baseVolume == m.quoteVolume * m.vwap.value.denominator)
  {
    var d := Dedupe(trades);
    AggregateSummarises(trades, interval);
    TotalsAgree(trades, interval);
    HighsAgree(trades, interval);
    LowsAgree(trades, interval);
    BaseIsNonNegative(d);
    if SumBy(d, BaseOf()) > 0 {
      ReducedIsLowestTerms(SumBy(d, QuoteOf()), SumBy(d, BaseOf()));
    }
  }

  lemma {:induction false} BaseIsNonNegative(d: seq<MarketTrade>)
    requires AllValid(d)
    ensures SumBy(d, BaseOf()) >= 0
  {
    if d != [] {
      BaseIsNonNegative(d[..|d| - 1]);
      assert Refusal(d[|d| - 1]) == None;
    }
  }

  /** The best of a list of reduced prices is a single value. */
  lemma BestIsUnique(r: Rational, s: Rational, values: seq<Rational>, sign: int)
    requires (sign == 1 || sign == -1) && IsBest(r, values, sign) && IsBest(s, values, sign)
    requires forall v :: v in values ==> IsReduced(v)
    ensures r == s
  {
    CompareFlips(r, s);
    LowestTermsAreUnique(r, s);
  }
}

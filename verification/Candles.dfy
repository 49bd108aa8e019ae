/** Aggregation of executed trades into candles, and the one-pass market summary. */
module Candles {
  import opened Prelude
  import opened Fractions
  import opened Sorting
  import opened Sums

  const MAX_SAFE := 9_007_199_254_740_991
  const BAD_INTERVAL := "interval must be a positive integer"
  const BAD_TIMESTAMP := "timestamp must be non-negative"
  const BAD_PRICE := "price must be positive"
  const BAD_VOLUME := "volumes must be non-negative"
  const BAD_LIQUIDITY := "liquidity must be non-negative"

  datatype MarketTrade = MarketTrade(
    id: string, timestamp: int, price: Rational, baseAmount: int, quoteAmount: int, slot: int, sequence: int)

  datatype Candle = Candle(
    start: int, end: int, open: Rational, high: Rational, low: Rational, close: Rational,
    baseVolume: int, quoteVolume: int, trades: int)

  /** Execution order: time, then slot, then position in the slot, then id. */
  predicate Before(a: MarketTrade, b: MarketTrade) {
    if a.timestamp != b.timestamp then a.timestamp < b.timestamp
    else if a.slot != b.slot then a.slot < b.slot
    else if a.sequence != b.sequence then a.sequence < b.sequence
    else Less(a.id, b.id)
  }

  predicate HasId(s: seq<MarketTrade>, id: string) {
    exists i | 0 <= i < |s| :: s[i].id == id
  }

  /** The first trade of every id, in input order. */
  function Dedupe(input: seq<MarketTrade>): seq<MarketTrade> {
    if input == [] then []
    else
      var n := |input| - 1;
      if HasId(input[..n], input[n].id) then Dedupe(input[..n]) else Dedupe(input[..n]) + [input[n]]
  }

  function Refusal(t: MarketTrade): Option<string> {
    if t.timestamp > MAX_SAFE || t.timestamp < 0 then Some(BAD_TIMESTAMP)
    else if !Positive(t.price) then Some(BAD_PRICE)
    else if t.baseAmount < 0 || t.quoteAmount < 0 then Some(BAD_VOLUME)
    else None
  }

  function StartOf(t: MarketTrade, interval: int): int
    requires interval > 0
  {
    t.timestamp / interval * interval
  }

  function Extend(c: Candle, t: MarketTrade, p: Rational): Candle {
    c.(high := if Compare(p, c.high) > 0 then p else c.high,
       low := if Compare(p, c.low) < 0 then p else c.low,
       close := p,
       baseVolume := c.baseVolume + t.baseAmount,
       quoteVolume := c.quoteVolume + t.quoteAmount,
       trades := c.trades + 1)
  }

  function AddTrade(out: seq<Candle>, t: MarketTrade, interval: int): seq<Candle>
    requires interval > 0 && Positive(t.price)
  {
    var start, p := StartOf(t, interval), Canonical(t.price);
    if out == [] || out[|out| - 1].start != start then
      out + [Extend(Candle(start, start + interval, p, p, p, p, 0, 0, 0), t, p)]
    else
      out[..|out| - 1] + [Extend(out[|out| - 1], t, p)]
  }

  function Fold(trades: seq<MarketTrade>, interval: int): Result<seq<Candle>, string>
    requires interval > 0
  {
    if trades == [] then Ok([])
    else
      match Fold(trades[..|trades| - 1], interval)
      case Err(e) => Err(e)
      case Ok(out) =>
        var t := trades[|trades| - 1];
        if Refusal(t).Some? then Err(Refusal(t).value) else Ok(AddTrade(out, t, interval))
  }

  function Aggregate(input: seq<MarketTrade>, interval: int): Result<seq<Candle>, string> {
    if interval > MAX_SAFE || interval <= 0 then Err(BAD_INTERVAL)
    else Fold(Sort(Dedupe(input), Before), interval)
  }

  lemma IdsAfter(trades: seq<MarketTrade>, i: nat)
    requires i < |trades|
    ensures trades[..i + 1][..i] == trades[..i]
    ensures forall id :: HasId(trades[..i + 1], id) <==> HasId(trades[..i], id) || id == trades[i].id
  {
    assert trades[..i + 1] == trades[..i] + [trades[i]];
    forall id
      ensures HasId(trades[..i + 1], id) <==> HasId(trades[..i], id) || id == trades[i].id
    {
      if HasId(trades[..i], id) {
        var k :| 0 <= k < i && trades[..i][k].id == id;
        assert trades[..i + 1][k].id == id;
      }
      assert trades[..i + 1][i].id == trades[i].id;
      if HasId(trades[..i + 1], id) && id != trades[i].id {
        var k :| 0 <= k < i + 1 && trades[..i + 1][k].id == id;
        assert trades[..i][k].id == id;
      }
    }
  }

  method DropRepeats(input: seq<MarketTrade>) returns (kept: seq<MarketTrade>)
    ensures kept == Dedupe(input)
  {
    var seen: set<string> := {};
    kept := [];
    for i := 0 to |input|
      invariant kept == Dedupe(input[..i])
      invariant forall id :: id in seen <==> HasId(input[..i], id)
    {
      var id := input[i].id;
      IdsAfter(input, i);
      if id !in seen {
        seen := seen + {id};
        kept := kept + [input[i]];
      }
    }
    assert input[..|input|] == input;
  }

  method Record(out: seq<Candle>, t: MarketTrade, interval: int) returns (r: seq<Candle>)
    requires interval > 0 && Positive(t.price)
    ensures r == AddTrade(out, t, interval)
  {
    r := out;
    var start := t.timestamp / interval * interval;
    var price := MakeRational(t.price.numerator, t.price.denominator);
    var p := price.value;
    if out == [] || out[|out| - 1].start != start {
      r := out + [Candle(start, start + interval, p, p, p, p, 0, 0, 0)];
    }
    var c := r[|r| - 1];
    if Compare(p, c.high) > 0 {
      c := c.(high := p);
    }
    if Compare(p, c.low) < 0 {
      c := c.(low := p);
    }
    c := c.(close := p, baseVolume := c.baseVolume + t.baseAmount, quoteVolume := c.quoteVolume + t.quoteAmount,
            trades := c.trades + 1);
    r := r[|r| - 1 := c];
  }

  method AggregateCandles(input: seq<MarketTrade>, interval: int) returns (r: Result<seq<Candle>, string>)
    ensures r == Aggregate(input, interval)
  {
    if interval > MAX_SAFE || interval <= 0 {
      return Err(BAD_INTERVAL);
    }
    var kept := DropRepeats(input);
    var trades := Sort(kept, Before);
    var out: seq<Candle> := [];
    for i := 0 to |trades|
      invariant Fold(trades[..i], interval) == Ok(out)
    {
      assert trades[..i + 1][..i] == trades[..i];
      var t := trades[i];
      var refused := Refusal(t);
      if refused.Some? {
        FoldStopsAtError(trades, interval, i + 1);
        return Err(refused.value);
      }
      out := Record(out, t, interval);
    }
    assert trades[..|trades|] == trades;
    r := Ok(out);
  }

  lemma {:induction false} FoldStopsAtError(trades: seq<MarketTrade>, interval: int, n: nat)
    requires interval > 0 && n <= |trades| && Fold(trades[..n], interval).Err?
    ensures Fold(trades, interval) == Fold(trades[..n], interval)
    decreases |trades|
  {
    if n == |trades| {
      assert trades[..n] == trades;
    } else {
      assert trades[..|trades| - 1][..n] == trades[..n];
      FoldStopsAtError(trades[..|trades| - 1], interval, n);
    }
  }

  // ---------------------------------------------------------------- the market summary

  datatype Summary = Summary(
    tradeCount: nat, baseVolume: int, quoteVolume: int, vwap: Option<Rational>, low: Option<Rational>,
    high: Option<Rational>, activeLiquidity: int, quotePerLiquidity: Option<Rational>)

  function BaseOf(): MarketTrade -> int {
    (t: MarketTrade) => t.baseAmount
  }

  function QuoteOf(): MarketTrade -> int {
    (t: MarketTrade) => t.quoteAmount
  }

  predicate AllPriced(s: seq<MarketTrade>) {
    forall i | 0 <= i < |s| :: Positive(s[i].price)
  }

  function Better(best: Option<Rational>, p: Rational, sign: int): Option<Rational>
    requires Positive(p)
  {
    if best.None? || sign * Compare(p, best.value) > 0 then Some(Canonical(p)) else best
  }

  /** The running extreme: replaced only by a strictly better price. `sign` is 1 for the high, -1 for the low. */
  function Extreme(s: seq<MarketTrade>, sign: int): Option<Rational>
    requires AllPriced(s)
  {
    if s == [] then None
    else
      Better(Extreme(s[..|s| - 1], sign), s[|s| - 1].price, sign)
  }

  function Ratio(n: int, d: int): Result<Option<Rational>, string> {
    if d == 0 then Ok(None)
    else match Reduced(n, d) case Ok(r) => Ok(Some(r)) case Err(e) => Err(e)
  }

  function Analytics(trades: seq<MarketTrade>, activeLiquidity: int): Result<Summary, string> {
    var s := Dedupe(trades);
    if activeLiquidity < 0 then Err(BAD_LIQUIDITY)
    else if !AllPriced(s) then Err(BAD_PRICE)
    else
      var base, quote := SumBy(s, BaseOf()), SumBy(s, QuoteOf());
      match Ratio(quote, base)
      case Err(e) => Err(e)
      case Ok(vwap) =>
        match Ratio(quote, activeLiquidity)
        case Err(e) => Err(e)
        case Ok(perLiquidity) =>
          Ok(Summary(|s|, base, quote, vwap, Extreme(s, -1), Extreme(s, 1), activeLiquidity, perLiquidity))
  }

  lemma {:induction false} DedupePrefix(trades: seq<MarketTrade>, n: nat)
    requires n <= |trades|
    ensures Dedupe(trades[..n]) <= Dedupe(trades)
    decreases |trades| - n
  {
    if n == |trades| {
      assert trades[..n] == trades;
    } else {
      DedupePrefix(trades, n + 1);
      assert trades[..n + 1][..n] == trades[..n];
    }
  }

  lemma UnpricedTradeIsKept(trades: seq<MarketTrade>, i: nat)
    requires i < |trades| && !HasId(trades[..i], trades[i].id) && !Positive(trades[i].price)
    ensures !AllPriced(Dedupe(trades))
  {
    IdsAfter(trades, i);
    DedupePrefix(trades, i + 1);
    assert Dedupe(trades[..i + 1]) == Dedupe(trades[..i]) + [trades[i]];
    assert Dedupe(trades)[|Dedupe(trades[..i])|] == trades[i];
  }

  lemma KeptNext(kept: seq<MarketTrade>, t: MarketTrade)
    requires AllPriced(kept) && Positive(t.price)
    ensures AllPriced(kept + [t])
    ensures SumBy(kept + [t], BaseOf()) == SumBy(kept, BaseOf()) + t.baseAmount
    ensures SumBy(kept + [t], QuoteOf()) == SumBy(kept, QuoteOf()) + t.quoteAmount
    ensures forall sign :: Extreme(kept + [t], sign) == Better(Extreme(kept, sign), t.price, sign)
  {
    assert (kept + [t])[..|kept|] == kept;
  }

  method MakeRatio(n: int, d: int) returns (r: Result<Option<Rational>, string>)
    ensures r == Ratio(n, d)
  {
    if d == 0 {
      return Ok(None);
    }
    var reduced := MakeRational(n, d);
    r := if reduced.Ok? then Ok(Some(reduced.value)) else Err(reduced.error);
  }

  method MarketAnalytics(trades: seq<MarketTrade>, activeLiquidity: int) returns (r: Result<Summary, string>)
    ensures r == Analytics(trades, activeLiquidity)
  {
    if activeLiquidity < 0 {
      return Err(BAD_LIQUIDITY);
    }
    var baseVolume, quoteVolume, tradeCount := 0, 0, 0;
    var low: Option<Rational>, high: Option<Rational> := None, None;
    var seen: set<string> := {};
    ghost var kept: seq<MarketTrade> := [];
    for i := 0 to |trades|
      invariant kept == Dedupe(trades[..i]) && AllPriced(kept)
      invariant forall id :: id in seen <==> HasId(trades[..i], id)
      invariant tradeCount == |kept| && baseVolume == SumBy(kept, BaseOf()) && quoteVolume == SumBy(kept, QuoteOf())
      invariant low == Extreme(kept, -1) && high == Extreme(kept, 1)
    {
      var t := trades[i];
      IdsAfter(trades, i);
      if t.id !in seen {
        seen := seen + {t.id};
        if !Positive(t.price) {
          UnpricedTradeIsKept(trades, i);
          return Err(BAD_PRICE);
        }
        KeptNext(kept, t);
        kept := kept + [t];
        baseVolume := baseVolume + t.baseAmount;
        quoteVolume := quoteVolume + t.quoteAmount;
        tradeCount := tradeCount + 1;
        var p := MakeRational(t.price.numerator, t.price.denominator);
        if low.None? || Compare(t.price, low.value) < 0 {
          low := Some(p.value);
        }
        if high.None? || Compare(t.price, high.value) > 0 {
          high := Some(p.value);
        }
      }
    }
    assert trades[..|trades|] == trades;
    var vwap := MakeRatio(quoteVolume, baseVolume);
    if vwap.Err? {
      return Err(vwap.error);
    }
    var perLiquidity := MakeRatio(quoteVolume, activeLiquidity);
    if perLiquidity.Err? {
      return Err(perLiquidity.error);
    }
    r := Ok(Summary(tradeCount, baseVolume, quoteVolume, vwap.value, low, high, activeLiquidity, perLiquidity.value));
  }
}

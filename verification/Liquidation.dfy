/** Liquidation arithmetic, over the reals. */
module Liquidation {
  import opened Prelude

  datatype Side = Long | Short

  datatype Source = FromVenue | FromModel

  /** `distanceBps` is None exactly when no estimate was usable. */
  datatype Reconciled = Reconciled(
    liquidationPrice: Option<real>, distanceBps: Option<int>, source: Source, disagreementBps: Option<int>,
    disagrees: bool)

  predicate Usable(price: real) {
    price > 0.0
  }

  function ModelPrice(side: Side, entry: real, leverage: real, m: real): Option<real> {
    if !Usable(entry) || leverage <= 0.0 || m < 0.0 || m >= 1.0 then None
    else
      var price := if side.Long? then entry * (1.0 - 1.0 / leverage) / (1.0 - m)
        else entry * (1.0 + 1.0 / leverage) / (1.0 + m);
      if price < 0.0 then None else Some(price)
  }

  function DistanceBps(side: Side, reference: real, liquidation: real): Option<int> {
    if !Usable(reference) || liquidation < 0.0 then None
    else
      var gap := if side.Long? then reference - liquidation else liquidation - reference;
      if gap < 0.0 then None else Some((gap / reference * 10000.0).Floor)
  }

  function MaxLeverage(minBps: real, side: Side, m: real): Option<real> {
    if minBps < 0.0 || minBps >= 10000.0 || m < 0.0 || m >= 1.0 then None
    else
      var denom := Denominator(minBps / 10000.0, side, m);
      if denom <= 0.0 then None else Some(1.0 / denom)
  }

  function Denominator(d: real, side: Side, m: real): real {
    if side.Long? then 1.0 - (1.0 - d) * (1.0 - m) else (1.0 + d) * (1.0 + m) - 1.0
  }

  function DistanceOf(side: Side, reference: real, price: Option<real>): Option<int> {
    if price.None? then None else DistanceBps(side, reference, price.value)
  }

  const UNKNOWN := Reconciled(None, None, FromModel, None, false)

  function Reconcile(side: Side, reference: real, venue: Option<real>, model: Option<real>,
      toleranceBps: real): Reconciled {
    if !Usable(reference) then UNKNOWN
    else
      var v, m := DistanceOf(side, reference, venue), DistanceOf(side, reference, model);
      if v.None? && m.None? then UNKNOWN
      else if v.Some? && m.Some? then
        var gap := if v.value >= m.value then v.value - m.value else m.value - v.value;
        if v.value <= m.value then Reconciled(venue, v, FromVenue, Some(gap), gap as real > toleranceBps)
        else Reconciled(model, m, FromModel, Some(gap), gap as real > toleranceBps)
      else if v.Some? then Reconciled(venue, v, FromVenue, None, false)
      else Reconciled(model, m, FromModel, None, false)
  }

  function AbsReal(x: real): real {
    if x < 0.0 then -x else x
  }

  function OracleDivergenceBps(mark: real, oracle: real): Option<int> {
    if !Usable(mark) || !Usable(oracle) then None else Some((AbsReal(mark - oracle) / oracle * 10000.0).Floor)
  }

  // ---------------------------------------------------------------- what reconciling does

  /** The smaller distance wins, and an estimate that is there is never lost. */
  lemma ReconcileTakesTheCloser(side: Side, reference: real, venue: Option<real>, model: Option<real>,
      toleranceBps: real)
    requires Usable(reference)
    ensures var r := Reconcile(side, reference, venue, model, toleranceBps);
      var v, m := DistanceOf(side, reference, venue), DistanceOf(side, reference, model);
      && (r.distanceBps.None? <==> v.None? && m.None?)
      && (v.Some? ==> r.distanceBps.Some? && r.distanceBps.value <= v.value)
      && (m.Some? ==> r.distanceBps.Some? && r.distanceBps.value <= m.value)
      && (r.distanceBps.Some? ==>
        r.liquidationPrice.Some? && r.distanceBps == DistanceOf(side, reference, r.liquidationPrice))
      && (r.distanceBps.Some? ==> r.liquidationPrice == (if r.source.FromVenue? then venue else model))
      && (r.disagreementBps.Some? <==> v.Some? && m.Some?)
  {
  }

  // ---------------------------------------------------------------- the model's distance in closed form

  /** One minus the margin ratio for a long, one plus it for a short. */
  function Margin(side: Side, m: real): real {
    if side.Long? then 1.0 - m else 1.0 + m
  }

  function Gap(side: Side, reference: real, price: real): real {
    if side.Long? then reference - price else price - reference
  }

  lemma Quotient(a: real, b: real, c: real)
    requires b > 0.0 && a == b * c
    ensures a / b == c
  {
  }

  lemma CompareProducts(a: real, b: real, c: real)
    requires c > 0.0
    ensures a * c <= b * c <==> a <= b
    ensures a * c < b * c <==> a < b
  {
    assert a < b ==> (b - a) * c > 0.0;
    assert a > b ==> (a - b) * c > 0.0;
  }

  function RawPrice(side: Side, entry: real, leverage: real, m: real): real
    requires leverage > 0.0 && 0.0 <= m < 1.0
  {
    if side.Long? then entry * (1.0 - 1.0 / leverage) / (1.0 - m) else entry * (1.0 + 1.0 / leverage) / (1.0 + m)
  }

  /** Before rounding, the model's distance is 10000 (1/L - m) / (1 -+ m), whatever the entry price. */
  lemma ModelGap(side: Side, entry: real, leverage: real, m: real)
    requires Usable(entry) && leverage > 0.0 && 0.0 <= m < 1.0
    ensures var price := RawPrice(side, entry, leverage, m);
      && Gap(side, entry, price) * Margin(side, m) == entry * (1.0 / leverage - m)
      && Gap(side, entry, price) / entry * 10000.0 * Margin(side, m) == 10000.0 * (1.0 / leverage - m)
  {
    var inverse, q := 1.0 / leverage, Margin(side, m);
    var top := if side.Long? then entry * (1.0 - inverse) else entry * (1.0 + inverse);
    var price := top / q;
    assert price * q == top;
    var gap := Gap(side, entry, price);
    assert gap * q == entry * (inverse - m);
    ScaleDown(gap, q, entry, inverse - m);
  }

  lemma ScaleDown(gap: real, q: real, entry: real, x: real)
    requires entry > 0.0 && gap * q == entry * x
    ensures gap / entry * 10000.0 * q == 10000.0 * x
  {
    var ratio := gap / entry;
    assert ratio * entry == gap;
    assert ratio * q * entry == x * entry;
    CompareProducts(ratio * q, x, entry);
  }

  lemma InverseCompares(leverage: real, x: real)
    requires leverage > 0.0
    ensures x <= 1.0 / leverage <==> leverage * x <= 1.0
    ensures x >= 1.0 / leverage <==> leverage * x >= 1.0
  {
    var inverse := 1.0 / leverage;
    assert inverse * leverage == 1.0;
    CompareProducts(x, inverse, leverage);
    CompareProducts(inverse, x, leverage);
  }

  lemma SignOfProduct(a: real, c: real)
    requires c > 0.0
    ensures a * c >= 0.0 <==> a >= 0.0
  {
    CompareProducts(0.0, a, c);
  }

  lemma RawPriceSign(side: Side, entry: real, leverage: real, m: real)
    requires Usable(entry) && leverage > 0.0 && 0.0 <= m < 1.0
    ensures RawPrice(side, entry, leverage, m) >= 0.0 <==> (side.Long? ==> leverage >= 1.0)
  {
    var inverse, price, q := 1.0 / leverage, RawPrice(side, entry, leverage, m), Margin(side, m);
    InverseCompares(leverage, 0.0);
    InverseCompares(leverage, 1.0);
    SignOfProduct(price, q);
    if side.Long? {
      assert price * q == entry * (1.0 - inverse);
      SignOfProduct(1.0 - inverse, entry);
    } else {
      assert price * q == entry * (1.0 + inverse);
      SignOfProduct(1.0 + inverse, entry);
    }
  }

  lemma GapSign(side: Side, entry: real, leverage: real, m: real)
    requires Usable(entry) && leverage > 0.0 && 0.0 <= m < 1.0
    ensures Gap(side, entry, RawPrice(side, entry, leverage, m)) >= 0.0 <==> leverage * m <= 1.0
  {
    ModelGap(side, entry, leverage, m);
    InverseCompares(leverage, m);
    SignOfProduct(Gap(side, entry, RawPrice(side, entry, leverage, m)), Margin(side, m));
    SignOfProduct(1.0 / leverage - m, entry);
  }

  /** The model has a distance exactly while leverage times the margin ratio is at most one (and a long has leverage
      one). */
  lemma ModelDistanceExists(side: Side, entry: real, leverage: real, m: real)
    requires Usable(entry) && leverage > 0.0 && 0.0 <= m < 1.0
    ensures DistanceOf(side, entry, ModelPrice(side, entry, leverage, m)).Some?
       <==> leverage * m <= 1.0 && (side.Long? ==> leverage >= 1.0)
  {
    RawPriceSign(side, entry, leverage, m);
    GapSign(side, entry, leverage, m);
  }

  function Ceiling(x: real): int {
    -((-x).Floor)
  }

  lemma FloorMeets(x: real, k: real)
    ensures x.Floor as real >= k <==> x >= Ceiling(k) as real
  {
    var c, f := Ceiling(k), x.Floor;
    assert (c as real) - 1.0 < k <= c as real;
    assert f as real <= x < f as real + 1.0;
    if f >= c {
      assert f as real >= c as real;
    } else {
      assert f as real + 1.0 <= c as real;
    }
  }

  lemma DenominatorInClosedForm(d: real, side: Side, m: real)
    ensures Denominator(d, side, m) == m + d * Margin(side, m)
  {
  }

  /** The leverage limit in closed form: the inverse of m + d (1 -+ m). */
  lemma LimitInClosedForm(minBps: real, side: Side, m: real, leverage: real)
    requires 0.0 <= minBps < 10000.0 && 0.0 <= m < 1.0 && leverage > 0.0
    ensures WithinLimit(leverage, MaxLeverage(minBps, side, m))
       <==> 1.0 / leverage >= m + minBps / 10000.0 * Margin(side, m)
  {
    var denom := Denominator(minBps / 10000.0, side, m);
    DenominatorInClosedForm(minBps / 10000.0, side, m);
    InverseCompares(leverage, denom);
    if denom > 0.0 {
      InverseCompares(denom, leverage);
    } else {
      InverseCompares(leverage, 0.0);
    }
  }

  /** No limit means every leverage is far enough. */
  predicate WithinLimit(leverage: real, limit: Option<real>) {
    limit.None? || leverage <= limit.value
  }

  lemma Rescale(bps: real, k: real, q: real, inverse: real, m: real)
    requires q > 0.0 && bps * q == 10000.0 * (inverse - m)
    ensures bps >= k <==> inverse >= m + k / 10000.0 * q
  {
    CompareProducts(k, bps, q);
    var d := k / 10000.0;
    assert k == 10000.0 * d;
    assert k * q == 10000.0 * (d * q);
  }

  /** Wherever the model has a distance, the floored distance meets the floor exactly when leverage is within the
      limit. */
  lemma FlooredDistanceMeetsFloor(side: Side, entry: real, leverage: real, m: real, minBps: real)
    requires Usable(entry) && leverage > 0.0 && 0.0 <= m < 1.0 && 0.0 <= minBps <= 9999.0
    requires leverage * m <= 1.0 && (side.Long? ==> leverage >= 1.0)
    ensures var distance := DistanceOf(side, entry, ModelPrice(side, entry, leverage, m));
      && distance.Some?
      && (distance.value as real >= minBps <==> WithinLimit(leverage, MaxLeverage(Ceiling(minBps) as real, side, m)))
  {
    var bps := Gap(side, entry, RawPrice(side, entry, leverage, m)) / entry * 10000.0;
    ModelDistanceIs(side, entry, leverage, m);
    FloorMeets(bps, minBps);
    BpsMeetLimit(side, entry, leverage, m, Ceiling(minBps) as real);
  }

  lemma ModelDistanceIs(side: Side, entry: real, leverage: real, m: real)
    requires Usable(entry) && leverage > 0.0 && 0.0 <= m < 1.0
    requires leverage * m <= 1.0 && (side.Long? ==> leverage >= 1.0)
    ensures DistanceOf(side, entry, ModelPrice(side, entry, leverage, m))
         == Some((Gap(side, entry, RawPrice(side, entry, leverage, m)) / entry * 10000.0).Floor)
  {
    RawPriceSign(side, entry, leverage, m);
    GapSign(side, entry, leverage, m);
  }

  lemma BpsMeetLimit(side: Side, entry: real, leverage: real, m: real, k: real)
    requires Usable(entry) && leverage > 0.0 && 0.0 <= m < 1.0 && 0.0 <= k < 10000.0
    ensures Gap(side, entry, RawPrice(side, entry, leverage, m)) / entry * 10000.0 >= k
       <==> WithinLimit(leverage, MaxLeverage(k, side, m))
  {
    ModelGap(side, entry, leverage, m);
    LimitInClosedForm(k, side, m, leverage);
    Rescale(Gap(side, entry, RawPrice(side, entry, leverage, m)) / entry * 10000.0, k, Margin(side, m), 1.0 / leverage,
      m);
  }

  // ---------------------------------------------------------------- the admission rule

  datatype Verdict = Accept | Unknown | TooClose

  /** `liquidationDistanceOk`, for an opening intent. */
  function LiquidationVerdict(side: Side, entry: real, leverage: real, m: real, venue: Option<real>,
      toleranceBps: real, minBps: real)
    : Verdict
  {
    var r := Reconcile(side, entry, venue, ModelPrice(side, entry, leverage, m), toleranceBps);
    if r.distanceBps.None? then Unknown
    else if (r.distanceBps.value as real) < minBps then TooClose
    else Accept
  }

  /** Inside the model's range no venue price buys leverage above the limit; the venue can only refuse. */
  lemma VenueCannotBuyLeverage(
    side: Side, entry: real, leverage: real, m: real, venue: Option<real>, toleranceBps: real, minBps: real)
    requires Usable(entry) && leverage > 0.0 && 0.0 <= m < 1.0 && 0.0 <= minBps <= 9999.0
    requires leverage * m <= 1.0 && (side.Long? ==> leverage >= 1.0)
    ensures var v := DistanceOf(side, entry, venue);
      LiquidationVerdict(side, entry, leverage, m, venue, toleranceBps, minBps) == Accept
      <==> WithinLimit(leverage, MaxLeverage(Ceiling(minBps) as real, side, m))
           && (v.None? || v.value as real >= minBps)
  {
    FlooredDistanceMeetsFloor(side, entry, leverage, m, minBps);
    ReconcileTakesTheCloser(side, entry, venue, ModelPrice(side, entry, leverage, m), toleranceBps);
  }

  /** Outside it the venue's number alone decides ... */
  lemma VenueAloneDecidesOutsideTheModel(
    side: Side, entry: real, leverage: real, m: real, venue: Option<real>, toleranceBps: real, minBps: real)
    requires Usable(entry) && leverage > 0.0 && 0.0 <= m < 1.0
    requires leverage * m > 1.0 || (side.Long? && leverage < 1.0)
    ensures var v := DistanceOf(side, entry, venue);
      LiquidationVerdict(side, entry, leverage, m, venue, toleranceBps, minBps) == Accept
      <==> v.Some? && v.value as real >= minBps
  {
    ModelDistanceExists(side, entry, leverage, m);
    ReconcileTakesTheCloser(side, entry, venue, ModelPrice(side, entry, leverage, m), toleranceBps);
  }

  /** ... and some venue price accepts any leverage there. */
  lemma SomeVenuePriceAccepts(side: Side, entry: real, leverage: real, m: real, toleranceBps: real, minBps: real)
    requires Usable(entry) && leverage > 0.0 && 0.0 <= m < 1.0 && minBps <= 10000.0
    requires leverage * m > 1.0 || (side.Long? && leverage < 1.0)
    ensures var venue := if side.Long? then 0.0 else 2.0 * entry;
      LiquidationVerdict(side, entry, leverage, m, Some(venue), toleranceBps, minBps) == Accept
  {
    var venue := if side.Long? then 0.0 else 2.0 * entry;
    assert Gap(side, entry, venue) == entry;
    Quotient(entry, entry, 1.0);
    assert DistanceBps(side, entry, venue) == Some(10000);
    VenueAloneDecidesOutsideTheModel(side, entry, leverage, m, Some(venue), toleranceBps, minBps);
  }
}

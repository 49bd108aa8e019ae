/** What the perp rules add up to over any sequence of accepted openings and of shrinking positions. */
module Portfolio {
  import opened Prelude
  import opened Kernel
  import opened PolicyEngine
  import opened Sums
  import opened PerpGuards
  import L = Liquidation

  // ---------------------------------------------------------------- one accepted intent

  /** Everything an accepted opening is bounded by, at once. */
  lemma AcceptedOpeningIsBounded(i: PerpIntent, c: Context)
    requires Verdict(i, c) == [] && IsOpening(i.kind)
    ensures BucketOf(i).Some?
    ensures var caps := CapsFor(c.policy, BucketOf(i).value);
      && 0 <= i.collateral.amount <= Max(caps.maxCollateralPerPosition, 0)
      && 0 <= i.notional.amount <= EffectiveNotional(i) <= caps.maxNotionalPerPosition
      && !c.exposure.stale
      && c.exposure.notional.At(BucketOf(i).value) + EffectiveNotional(i) <= caps.maxPortfolioNotional
    ensures !c.killSwitch && c.policy.perpsEnabled && !c.policy.windDownOnly && i.leverage <= c.policy.maxLeverage
    ensures i.kind == PerpOpen && c.position.None? ==> c.exposure.openPositions < c.policy.maxOpenPositions
    ensures i.kind == PerpIncrease ==> c.position.Some? && c.position.value.side == i.side
  {
    NoViolationsExactly(PerpRules(), i, c);
    var r := PerpRules();
    assert r[0](i, c) == None && r[5](i, c) == None && r[8](i, c) == None && r[9](i, c) == None;
    assert r[10](i, c) == None && r[11](i, c) == None && r[12](i, c) == None && r[13](i, c) == None;
  }

  /** An accepted opening inside the liquidation model is within the leverage limit, whatever the venue reported. */
  lemma AcceptedLeverageKeepsItsDistance(i: PerpIntent, c: Context)
    requires Verdict(i, c) == [] && IsOpening(i.kind) && 0.0 <= c.policy.minLiquidationDistanceBps <= 9999.0
    requires i.leverage * i.maintenanceMarginRatio <= 1.0 && (i.side.Long? ==> i.leverage >= 1.0)
    ensures L.WithinLimit(
      i.leverage, L.MaxLeverage(L.Ceiling(c.policy.minLiquidationDistanceBps) as real, i.side,
        i.maintenanceMarginRatio))
  {
    NoViolationsExactly(PerpRules(), i, c);
    assert PerpRules()[14](i, c) == None;
    L.VenueCannotBuyLeverage(
      i.side, i.entryPrice, i.leverage, i.maintenanceMarginRatio, i.venueLiquidationPrice,
        c.policy.liquidationToleranceBps,
      c.policy.minLiquidationDistanceBps);
  }

  /** An accepted exit never exceeds the position it faces, and never enlarges it. */
  lemma AcceptedExitIsAReduction(i: PerpIntent, c: Context)
    requires Verdict(i, c) == [] && IsReducing(i.kind)
    ensures c.position.Some? && c.position.value.side != i.side
      && 0 < i.expectedBaseAmount <= c.position.value.baseAmount
    ensures c.upper(c.position.value.symbol) == c.upper(i.market)
  {
    NoViolationsExactly(PerpRules(), i, c);
    assert PerpRules()[7](i, c) == None;
  }

  // ---------------------------------------------------------------- sequences of fills

  /** `Opened` is the fill of an accepted opening; `position` is what the venue then reports. */
  datatype Event =
    | Opened(intent: PerpIntent, context: Context, position: Position)
    | Shrunk(at: nat, position: Position)
    | Removed(at: nat)

  /** The position already held in a market. */
  function Held(positions: seq<Position>, market: string, upper: string -> string): Option<nat> {
    if positions == [] then None
    else
      var before := Held(positions[..|positions| - 1], market, upper);
      if before.Some? then before
      else if upper(positions[|positions| - 1].symbol) == upper(market) then Some(|positions| - 1)
      else None
  }

  lemma {:induction false} HeldIsAnIndex(positions: seq<Position>, market: string, upper: string -> string)
    ensures Held(positions, market, upper).Some? ==> Held(positions, market, upper).value < |positions|
  {
    if positions != [] {
      HeldIsAnIndex(positions[..|positions| - 1], market, upper);
    }
  }

  function PositionAt(positions: seq<Position>, k: Option<nat>): Option<Position> {
    if k.Some? && k.value < |positions| then Some(positions[k.value]) else None
  }

  function Next(positions: seq<Position>, e: Event): seq<Position> {
    match e
    case Opened(i, c, p) =>
      var k := Held(positions, i.market, c.upper);
      if k.Some? && k.value < |positions| then positions[k.value := p] else positions + [p]
    case Shrunk(k, p) => if k < |positions| then positions[k := p] else positions
    case Removed(k) => if k < |positions| then positions[..k] + positions[k + 1..] else positions
  }

  predicate SameMints(p: Position, q: Position) {
    p.notional.mint == q.notional.mint && p.collateral.mint == q.collateral.mint
  }

  /** A fill adds no more than the effective notional, in the bucket of the margin. */
  predicate FillsAtMost(before: Option<Position>, i: PerpIntent, p: Position) {
    && Bucketed(p) && QuoteBucketFor(p.notional.mint) == BucketOf(i)
    && (before.Some? ==> SameMints(before.value, p))
    && Magnitude(p.notional.amount)
       <= (if before.Some? then Magnitude(before.value.notional.amount) else 0) + EffectiveNotional(i)
  }

  /** The guards saw the portfolio as it was. */
  predicate Enabled(positions: seq<Position>, e: Event) {
    match e
    case Opened(i, c, p) =>
      var before := PositionAt(positions, Held(positions, i.market, c.upper));
      && IsOpening(i.kind) && Verdict(i, c) == []
      && IsExposureOf(c.exposure, positions) && c.position == before
      && FillsAtMost(before, i, p)
    case Shrunk(k, p) =>
      k < |positions| && SameMints(positions[k], p)
        && Magnitude(p.notional.amount) <= Magnitude(positions[k].notional.amount)
    case Removed(k) => k < |positions|
  }

  function Play(events: seq<Event>): seq<Position> {
    if events == [] then [] else Next(Play(events[..|events| - 1]), events[|events| - 1])
  }

  predicate Legal(events: seq<Event>) {
    events == [] || (Legal(events[..|events| - 1]) && Enabled(Play(events[..|events| - 1]), events[|events| - 1]))
  }

  /** The portfolio cap in force when an opening was last accepted in this bucket; zero before that. */
  function CapInForce(events: seq<Event>, b: Bucket): int {
    if events == [] then 0
    else
      match events[|events| - 1]
      case Opened(i, c, p) =>
        if BucketOf(i) == Some(b) then CapsFor(c.policy, b).maxPortfolioNotional
          else CapInForce(events[..|events| - 1], b)
      case _ => CapInForce(events[..|events| - 1], b)
  }

  /** The position limit in force when a new market was last entered. */
  function CountInForce(events: seq<Event>): int {
    if events == [] then 0
    else
      match events[|events| - 1]
      case Opened(i, c, p) =>
        if c.position.None? then c.policy.maxOpenPositions else CountInForce(events[..|events| - 1])
      case _ => CountInForce(events[..|events| - 1])
  }

  predicate AllBucketed(positions: seq<Position>) {
    forall k | 0 <= k < |positions| :: Bucketed(positions[k])
  }

  lemma SumByUpdate(positions: seq<Position>, k: nat, p: Position, f: Position -> int)
    requires k < |positions|
    ensures SumBy(positions[k := p], f) == SumBy(positions, f) - f(positions[k]) + f(p)
  {
    SumByRemove(positions, k, f);
    SumByRemove(positions[k := p], k, f);
    assert positions[k := p][..k] + positions[k := p][k + 1..] == positions[..k] + positions[k + 1..];
  }

  lemma OpenedTotal(positions: seq<Position>, i: PerpIntent, c: Context, p: Position, b: Bucket)
    requires Enabled(positions, Opened(i, c, p)) && AllBucketed(positions)
    ensures BucketOf(i).Some?
    ensures var total := SumBy(Next(positions, Opened(i, c, p)), NotionalIn(b));
      if BucketOf(i) == Some(b) then total <= CapsFor(c.policy, b).maxPortfolioNotional
      else total == SumBy(positions, NotionalIn(b))
  {
    AcceptedOpeningIsBounded(i, c);
    HeldIsAnIndex(positions, i.market, c.upper);
    var k := Held(positions, i.market, c.upper);
    if k.Some? {
      SumByUpdate(positions, k.value, p, NotionalIn(b));
    } else {
      assert (positions + [p])[..|positions|] == positions;
    }
  }

  lemma OtherTotal(positions: seq<Position>, e: Event, b: Bucket)
    requires Enabled(positions, e) && !e.Opened? && AllBucketed(positions)
    ensures SumBy(Next(positions, e), NotionalIn(b)) <= SumBy(positions, NotionalIn(b))
  {
    match e
    case Shrunk(k, p) => SumByUpdate(positions, k, p, NotionalIn(b));
    case Removed(k) => SumByRemove(positions, k, NotionalIn(b));
  }

  /** Over any sequence of fills, each bucket's notional stays within the cap in force at its last accepted opening,
      the number of positions within the limit in force at the last new market, and no position escapes the buckets. */
  lemma {:induction false} PortfolioStaysWithinCaps(events: seq<Event>)
    requires Legal(events)
    ensures AllBucketed(Play(events))
    ensures forall b :: SumBy(Play(events), NotionalIn(b)) <= CapInForce(events, b)
    ensures |Play(events)| <= Max(CountInForce(events), 0)
  {
    if events != [] {
      var n := |events| - 1;
      var before, e := Play(events[..n]), events[n];
      PortfolioStaysWithinCaps(events[..n]);
      BucketedStays(before, e);
      CountStays(events[..n], before, e);
      forall b
        ensures SumBy(Play(events), NotionalIn(b)) <= CapInForce(events, b)
      {
        if e.Opened? {
          OpenedTotal(before, e.intent, e.context, e.position, b);
        } else {
          OtherTotal(before, e, b);
        }
      }
    }
  }

  lemma BucketedStays(positions: seq<Position>, e: Event)
    requires Enabled(positions, e) && AllBucketed(positions)
    ensures AllBucketed(Next(positions, e))
  {
  }

  lemma CountStays(events: seq<Event>, positions: seq<Position>, e: Event)
    requires Enabled(positions, e) && |positions| <= Max(CountInForce(events), 0)
    ensures |Next(positions, e)| <= Max(CountInForce(events + [e]), 0)
  {
    assert (events + [e])[..|events|] == events;
    if e.Opened? {
      AcceptedOpeningIsBounded(e.intent, e.context);
      HeldIsAnIndex(positions, e.intent.market, e.context.upper);
    }
  }
}

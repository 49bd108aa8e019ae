/** Perp admission: portfolio exposure and the ordered rule list behind both the throwing and the advisory check. */
module PerpGuards {
  import opened Prelude
  import opened Kernel
  import opened PolicyEngine
  import opened Sums
  import L = Liquidation

  datatype Kind = PerpOpen | PerpIncrease | PerpReduce | PerpClose

  datatype Money = Money(mint: string, amount: int)

  /** `limit` is None for a market order. */
  datatype PerpIntent = PerpIntent(
    kind: Kind, market: string, side: L.Side, limit: Option<Option<real>>, reduceOnly: bool, leverage: real,
    slippageBps: int,
    expectedBaseAmount: int, minBaseAmount: int, collateral: Money, notional: Money, entryPrice: real, markPrice: real,
    oraclePrice: real, maintenanceMarginRatio: real, marketStatus: string, venueLiquidationPrice: Option<real>,
    fundingBpsPerHour: Option<real>)

  datatype Position = Position(symbol: string, side: L.Side, baseAmount: int, notional: Money, collateral: Money)

  datatype PerpsCaps = PerpsCaps(maxCollateralPerPosition: int, maxNotionalPerPosition: int, maxPortfolioNotional: int)

  datatype PerpsPolicy = PerpsPolicy(
    perpsEnabled: bool, windDownOnly: bool, maxLeverage: real, minLiquidationDistanceBps: real,
    maxFundingRateBpsPerHour: real, maxAdverseFundingBpsPerHour: real, maxSlippageBps: int,
    maxOracleDivergenceBps: real,
    liquidationToleranceBps: real, maxOpenPositions: int, capsSol: PerpsCaps, capsUsdc: PerpsCaps,
    marketAllowlist: Option<seq<string>>, marketDenylist: seq<string>, allowedCollateralMints: seq<string>)

  datatype PerBucket = PerBucket(sol: int, usdc: int) {
    function At(b: Bucket): int {
      if b == Sol then sol else usdc
    }

    function Plus(b: Bucket, n: int): PerBucket {
      if b == Sol then PerBucket(sol + n, usdc) else PerBucket(sol, usdc + n)
    }
  }

  datatype PortfolioExposure = PortfolioExposure(
    openPositions: nat, notional: PerBucket, collateral: PerBucket, stale: bool, unbucketed: nat)

  /** `upper` is the upper-casing of symbols. */
  datatype Context = Context(
    policy: PerpsPolicy, killSwitch: bool, executionEnabled: bool, exposure: PortfolioExposure,
    position: Option<Position>,
    accountInitialized: bool, dryRun: bool, upper: string -> string)

  function CapsFor(p: PerpsPolicy, b: Bucket): PerpsCaps {
    if b == Sol then p.capsSol else p.capsUsdc
  }

  predicate IsReducing(k: Kind) { k == PerpReduce || k == PerpClose }

  predicate IsOpening(k: Kind) { k == PerpOpen || k == PerpIncrease }

  // ---------------------------------------------------------------- exposure

  function Magnitude(n: int): nat {
    if n < 0 then -n else n
  }

  predicate Bucketed(p: Position) {
    QuoteBucketFor(p.notional.mint).Some? && QuoteBucketFor(p.collateral.mint).Some?
  }

  function NotionalIn(b: Bucket): Position -> int {
    (p: Position) => if Bucketed(p) && QuoteBucketFor(p.notional.mint) == Some(b) then Magnitude(p.notional.amount)
      else 0
  }

  function CollateralIn(b: Bucket): Position -> int {
    (p: Position) => if Bucketed(p) && QuoteBucketFor(p.collateral.mint) == Some(b) then Magnitude(p.collateral.amount)
      else 0
  }

  function Unbucketed(): Position -> int {
    (p: Position) => if Bucketed(p) then 0 else 1
  }

  /** What the snapshot has to say about a list of positions. */
  predicate IsExposureOf(e: PortfolioExposure, positions: seq<Position>) {
    && e.openPositions == |positions|
    && (forall b :: e.notional.At(b) == SumBy(positions, NotionalIn(b)))
    && (forall b :: e.collateral.At(b) == SumBy(positions, CollateralIn(b)))
    && e.unbucketed == SumBy(positions, Unbucketed())
    && (e.stale <==> exists i :: 0 <= i < |positions| && !Bucketed(positions[i]))
  }

  /** The loop's running totals after the first `n` positions. */
  ghost predicate Tallied(positions: seq<Position>, n: nat, notional: PerBucket, collateral: PerBucket, unbucketed: int)
    requires n <= |positions|
  {
    && (forall b :: notional.At(b) == SumBy(positions[..n], NotionalIn(b)))
    && (forall b :: collateral.At(b) == SumBy(positions[..n], CollateralIn(b)))
    && unbucketed >= 0 && unbucketed == SumBy(positions[..n], Unbucketed())
    && (unbucketed > 0 <==> exists k :: 0 <= k < n && !Bucketed(positions[k]))
  }

  lemma PrefixSum(positions: seq<Position>, n: nat, f: Position -> int)
    requires n < |positions|
    ensures SumBy(positions[..n + 1], f) == SumBy(positions[..n], f) + f(positions[n])
  {
    assert positions[..n + 1][..n] == positions[..n];
  }

  lemma TalliedNext(
    positions: seq<Position>, n: nat, notional: PerBucket, collateral: PerBucket, unbucketed: int,
    notional': PerBucket, collateral': PerBucket, unbucketed': int)
    requires n < |positions| && Tallied(positions, n, notional, collateral, unbucketed)
    requires forall b :: notional'.At(b) == notional.At(b) + NotionalIn(b)(positions[n])
    requires forall b :: collateral'.At(b) == collateral.At(b) + CollateralIn(b)(positions[n])
    requires unbucketed' == unbucketed + Unbucketed()(positions[n])
    ensures Tallied(positions, n + 1, notional', collateral', unbucketed')
  {
    forall b
      ensures notional'.At(b) == SumBy(positions[..n + 1], NotionalIn(b))
      ensures collateral'.At(b) == SumBy(positions[..n + 1], CollateralIn(b))
    {
      PrefixSum(positions, n, NotionalIn(b));
      PrefixSum(positions, n, CollateralIn(b));
    }
    PrefixSum(positions, n, Unbucketed());
    assert Bucketed(positions[n]) || exists k :: 0 <= k < n + 1 && !Bucketed(positions[k]);
  }

  method ExposureFrom(positions: seq<Position>) returns (e: PortfolioExposure)
    ensures IsExposureOf(e, positions)
  {
    var notional, collateral, unbucketed := PerBucket(0, 0), PerBucket(0, 0), 0;
    for i := 0 to |positions|
      invariant Tallied(positions, i, notional, collateral, unbucketed)
    {
      ghost var n, c, u := notional, collateral, unbucketed;
      var p := positions[i];
      var bucket, collateralBucket := QuoteBucketFor(p.notional.mint), QuoteBucketFor(p.collateral.mint);
      if bucket.None? || collateralBucket.None? {
        unbucketed := unbucketed + 1;
        TalliedNext(positions, i, n, c, u, notional, collateral, unbucketed);
        continue;
      }
      notional := notional.Plus(bucket.value, if p.notional.amount < 0 then -p.notional.amount else p.notional.amount);
      var posted := if p.collateral.amount < 0 then -p.collateral.amount else p.collateral.amount;
      collateral := collateral.Plus(collateralBucket.value, posted);
      TalliedNext(positions, i, n, c, u, notional, collateral, unbucketed);
    }
    assert positions[..|positions|] == positions;
    e := PortfolioExposure(|positions|, notional, collateral, unbucketed > 0, unbucketed);
  }

  // ---------------------------------------------------------------- notional of the input leg

  function LeverageToBps(leverage: real): Option<int> {
    if leverage <= 0.0 then None
    else
      var bps := (leverage * 10000.0 + 0.5).Floor;
      if bps > 0 then Some(bps) else None
  }

  function NotionalFromCollateral(collateral: int, leverage: real): Option<int> {
    if LeverageToBps(leverage).None? || collateral < 0 then None
    else Some(TruncDiv(collateral * LeverageToBps(leverage).value, 10_000))
  }

  function Max(a: int, b: int): int {
    if a > b then a else b
  }

  /** The larger of what the venue claims and what the margin allows. */
  function EffectiveNotional(i: PerpIntent): int {
    var derived := NotionalFromCollateral(i.collateral.amount, i.leverage);
    Max(i.notional.amount, if derived.Some? then derived.value else i.notional.amount)
  }

  // ---------------------------------------------------------------- the rules

  predicate ShapeOk(i: PerpIntent) {
    && i.collateral.mint != "" && i.collateral.amount >= 0 && i.market != ""
    && i.leverage > 0.0 && i.slippageBps >= 0 && i.expectedBaseAmount > 0
      && 0 <= i.minBaseAmount <= i.expectedBaseAmount
    && i.notional.amount >= 0 && i.notional.mint == i.collateral.mint
    && i.entryPrice > 0.0 && i.markPrice > 0.0 && i.oraclePrice > 0.0 && 0.0 <= i.maintenanceMarginRatio < 1.0
    && (i.limit.Some? ==> i.limit.value.Some? && i.limit.value.value > 0.0)
    && (i.reduceOnly <==> IsReducing(i.kind))
  }

  type Code = string
  type Rule = (PerpIntent, Context) -> Option<Code>

  function BucketOf(i: PerpIntent): Option<Bucket> {
    QuoteBucketFor(i.collateral.mint)
  }

  function ArmState(i: PerpIntent, c: Context): Option<Code> {
    if c.killSwitch && IsOpening(i.kind) then Some("KILL_SWITCH")
    else if !c.dryRun && !c.executionEnabled then Some("PERPS_DISABLED")
    else if !c.policy.perpsEnabled && IsOpening(i.kind) then Some("PERPS_DISABLED")
    else if c.policy.windDownOnly && IsOpening(i.kind) then Some("WIND_DOWN_ONLY")
    else None
  }

  function AccountReady(i: PerpIntent, c: Context): Option<Code> {
    if c.accountInitialized then None else Some("ACCOUNT_NOT_INITIALIZED")
  }

  predicate Listed(markets: seq<string>, market: string, upper: string -> string) {
    exists m | m in markets :: upper(m) == upper(market)
  }

  function MarketAllowed(i: PerpIntent, c: Context): Option<Code> {
    if Listed(c.policy.marketDenylist, i.market, c.upper) then Some("MARKET_DENIED")
    else if c.policy.marketAllowlist.Some?
      && !Listed(c.policy.marketAllowlist.value, i.market, c.upper) then Some("MARKET_DENIED")
    else None
  }

  function MarketTradeable(i: PerpIntent, c: Context): Option<Code> {
    if i.marketStatus == "active" || (i.marketStatus == "reduce-only" && IsReducing(i.kind)) then None
    else Some("MARKET_NOT_TRADEABLE")
  }

  function CollateralAllowed(i: PerpIntent, c: Context): Option<Code> {
    if i.collateral.mint in c.policy.allowedCollateralMints then None else Some("COLLATERAL_MINT_DENIED")
  }

  function CollateralCappable(i: PerpIntent, c: Context): Option<Code> {
    if BucketOf(i).Some? then None else Some("COLLATERAL_NOT_CAPPABLE")
  }

  function SlippageWithinClamp(i: PerpIntent, c: Context): Option<Code> {
    if i.slippageBps <= c.policy.maxSlippageBps then None else Some("SLIPPAGE_EXCEEDED")
  }

  function ReduceIsAReduction(i: PerpIntent, c: Context): Option<Code> {
    if !IsReducing(i.kind) then None
    else if c.position.None? then Some("NO_POSITION")
    else if c.upper(c.position.value.symbol) != c.upper(i.market) then Some("POSITION_SIDE_MISMATCH")
    else if c.position.value.side == i.side then Some("POSITION_SIDE_MISMATCH")
    else if i.expectedBaseAmount > c.position.value.baseAmount then Some("SIZE_EXCEEDS_POSITION")
    else None
  }

  function IncreaseMatchesPosition(i: PerpIntent, c: Context): Option<Code> {
    if i.kind != PerpIncrease then None
    else if c.position.None? then Some("NO_POSITION")
    else if c.position.value.side != i.side then Some("POSITION_SIDE_MISMATCH")
    else None
  }

  function LeverageWithinCap(i: PerpIntent, c: Context): Option<Code> {
    if IsOpening(i.kind) && i.leverage > c.policy.maxLeverage then Some("LEVERAGE_EXCEEDED") else None
  }

  function CollateralWithinCap(i: PerpIntent, c: Context): Option<Code> {
    if BucketOf(i).None? || i.collateral.amount == 0 then None
    else if i.collateral.amount > CapsFor(c.policy, BucketOf(i).value).maxCollateralPerPosition then
      Some("COLLATERAL_CAP_EXCEEDED")
    else None
  }

  function NotionalWithinCap(i: PerpIntent, c: Context): Option<Code> {
    if !IsOpening(i.kind) || BucketOf(i).None? then None
    else if NotionalFromCollateral(i.collateral.amount, i.leverage).None? then Some("NOTIONAL_CAP_EXCEEDED")
    else if EffectiveNotional(i) > CapsFor(c.policy, BucketOf(i).value).maxNotionalPerPosition then
      Some("NOTIONAL_CAP_EXCEEDED")
    else None
  }

  function PortfolioWithinCap(i: PerpIntent, c: Context): Option<Code> {
    if !IsOpening(i.kind) || BucketOf(i).None? then None
    else if c.exposure.stale then Some("EXPOSURE_UNKNOWN")
    else
      var b := BucketOf(i).value;
      if c.exposure.notional.At(b) + EffectiveNotional(i) > CapsFor(c.policy, b).maxPortfolioNotional
      then Some("PORTFOLIO_EXPOSURE_EXCEEDED") else None
  }

  function PositionCountWithinCap(i: PerpIntent, c: Context): Option<Code> {
    if i.kind != PerpOpen then None
    else if c.exposure.stale then Some("EXPOSURE_UNKNOWN")
    else if c.position.Some? then None
    else if c.exposure.openPositions >= c.policy.maxOpenPositions then Some("POSITION_COUNT_EXCEEDED")
    else None
  }

  function LiquidationDistanceOk(i: PerpIntent, c: Context): Option<Code> {
    if !IsOpening(i.kind) then None
    else
      match L.LiquidationVerdict(i.side, i.entryPrice, i.leverage, i.maintenanceMarginRatio, i.venueLiquidationPrice,
                                 c.policy.liquidationToleranceBps, c.policy.minLiquidationDistanceBps)
      case Unknown => Some("LIQUIDATION_UNKNOWN")
      case TooClose => Some("LIQUIDATION_TOO_CLOSE")
      case Accept => None
  }

  function OracleAgreesWithMark(i: PerpIntent, c: Context): Option<Code> {
    if !IsOpening(i.kind) then None
    else
      var divergence := L.OracleDivergenceBps(i.markPrice, i.oraclePrice);
      if divergence.None? || divergence.value as real > c.policy.maxOracleDivergenceBps then Some("ORACLE_DIVERGENCE")
        else None
  }

  function FundingSane(i: PerpIntent, c: Context): Option<Code> {
    if !IsOpening(i.kind) then None
    else if i.fundingBpsPerHour.None? then Some("FUNDING_RATE_UNKNOWN")
    else
      var f := i.fundingBpsPerHour.value;
      if L.AbsReal(f) > c.policy.maxFundingRateBpsPerHour then Some("FUNDING_RATE_UNSANE")
      else if (if i.side.Long? then f else -f) > c.policy.maxAdverseFundingBpsPerHour then Some("FUNDING_RATE_ADVERSE")
      else None
  }

  /** Reporting order and throw order. */
  function PerpRules(): seq<Rule> {
    [ArmState, AccountReady, MarketAllowed, MarketTradeable, CollateralAllowed, CollateralCappable, SlippageWithinClamp,
     ReduceIsAReduction, IncreaseMatchesPosition, LeverageWithinCap, CollateralWithinCap, NotionalWithinCap,
     PortfolioWithinCap, PositionCountWithinCap, LiquidationDistanceOk, OracleAgreesWithMark, FundingSane]
  }

  // ---------------------------------------------------------------- enforcement and advice

  /** What the rules say, in order, about an intent. */
  function Violations(rules: seq<Rule>, i: PerpIntent, c: Context): seq<Code> {
    if rules == [] then []
    else
      var before, last := Violations(rules[..|rules| - 1], i, c), rules[|rules| - 1](i, c);
      if last.Some? then before + [last.value] else before
  }

  function Verdict(i: PerpIntent, c: Context): seq<Code> {
    if ShapeOk(i) then Violations(PerpRules(), i, c) else ["INVALID_PERP_INTENT"]
  }

  lemma {:induction false} ViolationsOfPrefix(rules: seq<Rule>, i: PerpIntent, c: Context, n: nat)
    requires n <= |rules|
    ensures Violations(rules[..n], i, c) <= Violations(rules, i, c)
    decreases |rules|
  {
    if n == |rules| {
      assert rules[..n] == rules;
    } else {
      assert rules[..|rules| - 1][..n] == rules[..n];
      ViolationsOfPrefix(rules[..|rules| - 1], i, c, n);
    }
  }

  lemma {:induction false} NoViolationsExactly(rules: seq<Rule>, i: PerpIntent, c: Context)
    ensures Violations(rules, i, c) == [] <==> forall k :: 0 <= k < |rules| ==> rules[k](i, c) == None
  {
    if rules != [] {
      var n := |rules| - 1;
      NoViolationsExactly(rules[..n], i, c);
      assert forall k :: 0 <= k < n ==> rules[..n][k] == rules[k];
    }
  }

  /** The throwing check: `thrown` is the code of the error, if any. */
  method Enforce(i: PerpIntent, c: Context) returns (thrown: Option<Code>)
    ensures thrown.None? <==> Verdict(i, c) == []
    ensures thrown.Some? ==> thrown.value == Verdict(i, c)[0]
  {
    if !ShapeOk(i) {
      return Some("INVALID_PERP_INTENT");
    }
    var rules := PerpRules();
    for k := 0 to |rules|
      invariant Violations(rules[..k], i, c) == []
    {
      assert rules[..k + 1][..k] == rules[..k];
      var violation := rules[k](i, c);
      if violation.Some? {
        ViolationsOfPrefix(rules, i, c, k + 1);
        return violation;
      }
    }
    assert rules[..|rules|] == rules;
    thrown := None;
  }

  /** The advisory check: every violation. */
  method Evaluate(i: PerpIntent, c: Context) returns (ok: bool, violations: seq<Code>)
    ensures violations == Verdict(i, c)
    ensures ok <==> violations == []
  {
    if !ShapeOk(i) {
      return false, ["INVALID_PERP_INTENT"];
    }
    var rules := PerpRules();
    violations := [];
    for k := 0 to |rules|
      invariant violations == Violations(rules[..k], i, c)
    {
      assert rules[..k + 1][..k] == rules[..k];
      var violation := rules[k](i, c);
      if violation.Some? {
        violations := violations + [violation.value];
      }
    }
    assert rules[..|rules|] == rules;
    ok := violations == [];
  }
}

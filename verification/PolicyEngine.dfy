/** The kernel's static guards: the admission checks that need no I/O. */
module PolicyEngine {
  import opened Prelude
  import opened Kernel

  const MIN_OUT_TOLERANCE_BPS := 50
  const WSOL_MINT := "So11111111111111111111111111111111111111112"
  const USDC_MINT := "EPjFWdd5AufqSSqeM2qN1xzybapC8G4wEGGkZwyTDt1v"
  const USDT_MINT := "Es9vMFrzaCERmJfrF4H2FYD4KCoNkY11McCe8BenwNYB"

  const PERP_KINDS := {"perp_open", "perp_increase", "perp_reduce", "perp_close"}
  const POOL_KINDS := {"lp_open", "lp_add", "lp_remove", "lp_close", "lp_claim", "lp_rebalance", "curve_buy",
    "curve_sell"}
  const INTENT_KINDS := {"swap"} + PERP_KINDS + POOL_KINDS

  datatype PerpLeg = PerpLeg(expectedBaseAmount: int, minBaseAmount: int)

  datatype Quote = Quote(outAmount: int, minOutAmount: int, slippageBps: int)

  /** `priorityFeeLamports` is None when the number is not finite. */
  datatype Intent = Intent(
    kind: string, inputMint: string, inputAmount: int, outputMint: string, untrustedMint: bool,
    unsignedTx: string, lastValidBlockHeight: int, landMode: string,
    priorityFeeLamports: Option<real>, quote: Quote, perp: Option<PerpLeg>)

  datatype Policy = Policy(
    executionEnabled: bool, killSwitch: bool, maxSlippageBps: int, capsSol: Caps, capsUsdc: Caps,
    mintAllowlist: Option<seq<string>>, mintDenylist: seq<string>, allowToken2022: bool,
    priorityFeeMaxLamports: int, priorityFeeMaxBps: int)
  {
    function CapsFor(b: Bucket): Caps {
      if b == Sol then capsSol else capsUsdc
    }
  }

  function QuoteBucketFor(mint: string): Option<Bucket> {
    if mint == WSOL_MINT then Some(Sol)
    else if mint == USDC_MINT || mint == USDT_MINT then Some(Usdc)
    else None
  }

  predicate PostsZeroCollateral(kind: string) {
    kind == "perp_reduce" || kind == "perp_close"
  }

  function SlippageBps(expected: int, actual: int): int {
    if expected <= 0 then 0 else TruncDiv((expected - actual) * 10_000, expected)
  }

  function AmountGuard(i: Intent): Option<string> {
    if PostsZeroCollateral(i.kind) then
      if i.inputAmount < 0 then Some("INVALID_INTENT") else None
    else if i.inputAmount <= 0 then Some("INVALID_INTENT")
    else None
  }

  function PerpGuard(i: Intent): Option<string> {
    if i.kind in PERP_KINDS then
      if i.perp.None? then Some("INVALID_INTENT")
      else if i.perp.value.minBaseAmount > i.perp.value.expectedBaseAmount then Some("INVALID_INTENT")
      else if i.perp.value.expectedBaseAmount <= 0 then Some("INVALID_INTENT")
      else None
    else if i.perp.Some? then Some("INVALID_INTENT")
    else None
  }

  function FeeGuard(p: Policy, i: Intent): Option<string> {
    if i.priorityFeeLamports.None? || i.priorityFeeLamports.value < 0.0 then Some("PRIORITY_FEE_INVALID")
    else
      var fee := i.priorityFeeLamports.value.Floor;
      if fee > p.priorityFeeMaxLamports then Some("PRIORITY_FEE_EXCEEDED")
      else if QuoteBucketFor(i.inputMint).Some? && i.inputAmount > 0
              && fee > TruncDiv(i.inputAmount * p.priorityFeeMaxBps, 10_000) then Some("PRIORITY_FEE_EXCEEDED")
      else None
  }

  function MintGuard(p: Policy, mint: string): Option<string> {
    if mint in p.mintDenylist then Some("MINT_DENIED")
    else if p.mintAllowlist.Some? && mint !in p.mintAllowlist.value then Some("MINT_DENIED")
    else None
  }

  function First(a: Option<string>, b: Option<string>): Option<string> {
    if a.Some? then a else b
  }

  /** The first guard that fails, in the order the kernel runs them. */
  function StaticGuards(p: Policy, i: Intent, dryRun: bool, confirmedByUser: bool): Option<string> {
    if p.killSwitch then Some("KILL_SWITCH")
    else if !dryRun && !p.executionEnabled then Some("EXECUTION_DISABLED")
    else if i.kind !in INTENT_KINDS then Some("INVALID_INTENT")
    else if AmountGuard(i).Some? then AmountGuard(i)
    else if PerpGuard(i).Some? then PerpGuard(i)
    else if i.unsignedTx == "" then Some("INVALID_INTENT")
    else if i.untrustedMint && !confirmedByUser then Some("MINT_NOT_PINNED")
    else if FeeGuard(p, i).Some? then FeeGuard(p, i)
    else if i.quote.slippageBps > p.maxSlippageBps then Some("SLIPPAGE_EXCEEDED")
    else if SlippageBps(i.quote.outAmount, i.quote.minOutAmount) > p.maxSlippageBps + MIN_OUT_TOLERANCE_BPS
    then Some("MIN_OUT_MISMATCH")
    else First(MintGuard(p, i.inputMint), MintGuard(p, i.outputMint))
  }

  /** What the money path relies on: an admitted amount is never negative, and is zero only for a perp exit. */
  lemma AdmittedAmountIsAnOutflow(p: Policy, i: Intent, dryRun: bool, confirmedByUser: bool)
    requires StaticGuards(p, i, dryRun, confirmedByUser) == None
    ensures i.inputAmount >= 0
    ensures i.inputAmount == 0 ==> i.kind == "perp_reduce" || i.kind == "perp_close"
    ensures i.perp.Some? <==> i.kind in PERP_KINDS
  {
  }

  lemma QuotientMeets(n: int, d: int, k: int)
    requires d > 0 && k >= 0
    ensures TruncDiv(n, d) <= k <==> n < (k + 1) * d
  {
    if n >= 0 {
      if n / d <= k {
        assert n < (n / d + 1) * d <= (k + 1) * d;
      } else {
        assert n >= n / d * d >= (k + 1) * d;
      }
    }
  }

  /** Neither rounded quotient lets anything through: an intent is admitted exactly when these conditions on the
    * unrounded products hold. With no output quoted the minimum is not looked at. */
  lemma AdmittedExactly(p: Policy, i: Intent, dryRun: bool, confirmedByUser: bool)
    requires p.priorityFeeMaxBps >= 0 && p.maxSlippageBps >= 0
    ensures StaticGuards(p, i, dryRun, confirmedByUser) == None <==>
      && !p.killSwitch && (dryRun || p.executionEnabled)
      && i.kind in INTENT_KINDS && i.unsignedTx != ""
      && (if i.kind in {"perp_reduce", "perp_close"} then i.inputAmount >= 0 else i.inputAmount > 0)
      && (i.perp.Some? <==> i.kind in PERP_KINDS)
      && (i.perp.Some? ==>
        i.perp.value.minBaseAmount <= i.perp.value.expectedBaseAmount && 0 < i.perp.value.expectedBaseAmount)
      && (i.untrustedMint ==> confirmedByUser)
      && i.priorityFeeLamports.Some? && 0 <= i.priorityFeeLamports.value.Floor <= p.priorityFeeMaxLamports
      && (QuoteBucketFor(i.inputMint).Some? && i.inputAmount > 0 ==>
        i.priorityFeeLamports.value.Floor * 10_000 <= i.inputAmount * p.priorityFeeMaxBps)
      && i.quote.slippageBps <= p.maxSlippageBps
      && (i.quote.outAmount > 0 ==>
        (i.quote.outAmount - i.quote.minOutAmount) * 10_000 < (p.maxSlippageBps + MIN_OUT_TOLERANCE_BPS
          + 1) * i.quote.outAmount)
      && (forall mint :: mint == i.inputMint || mint == i.outputMint ==>
        mint !in p.mintDenylist && (p.mintAllowlist.Some? ==> mint in p.mintAllowlist.value))
  {
    if i.inputAmount > 0 {
      FloorMeets(i.inputAmount * p.priorityFeeMaxBps);
    }
    if i.quote.outAmount > 0 {
      QuotientMeets(
        (i.quote.outAmount - i.quote.minOutAmount) * 10_000, i.quote.outAmount,
          p.maxSlippageBps + MIN_OUT_TOLERANCE_BPS);
    }
  }

  lemma FloorMeets(product: int)
    requires product >= 0
    ensures forall fee: int :: fee <= TruncDiv(product, 10_000) <==> fee * 10_000 <= product
  {
  }
}

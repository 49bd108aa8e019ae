/** The signer's own policy, re-evaluated on every decoded transaction. */
module SignPolicy {
  import opened Prelude

  const DEFAULT_UNITS_PER_INSTRUCTION := 200_000
  const MAX_UNITS_PER_TRANSACTION := 1_400_000
  const MAX_SAFE_INTEGER := 9_007_199_254_740_991
  const SET_UNIT_LIMIT := "02"
  const SET_UNIT_PRICE := "03"
  const NATIVE_ASSET := "native"

  /** `wide` is u64le, otherwise u32le. */
  datatype SpendRule = SpendRule(asset: string, amountOffset: int, wide: bool, mintAccountIndex: Option<nat>)

  datatype Effect = NoEffect | Fee | Spend(rule: SpendRule)

  datatype ProgramRule = ProgramRule(programId: string, discriminator: string, effect: Effect)

  datatype Policy = Policy(
    feePayers: seq<string>, programs: seq<ProgramRule>, caps: map<string, int>, maxInstructions: int,
    maxAccountKeys: int,
    maxRequiredSignatures: int, maxComputeUnitLimit: int, maxComputeUnitPriceMicroLamports: int,
    maxPriorityFeeLamports: int, maxPriorityFeeBps: Option<nat>, addressLookupTables: seq<string>)

  /** An account of None resolves through a lookup table. */
  datatype Instruction = Instruction(programId: string, dataHex: string, data: seq<Byte>, accounts: seq<Option<string>>)

  datatype Decoded = Decoded(
    feePayer: string, numRequiredSignatures: int, accountKeys: int, instructions: seq<Instruction>,
    lookups: seq<string>)

  datatype Evaluation = Evaluation(spend: map<string, nat>, computeUnitLimit: nat, unitPrice: nat, priorityFee: nat)

  // ---------------------------------------------------------------- one instruction

  function LittleEndian(bytes: seq<Byte>): nat {
    if bytes == [] then 0 else bytes[0] + 256 * LittleEndian(bytes[1..])
  }

  function ReadAmount(data: seq<Byte>, offset: int, wide: bool): Result<nat, string> {
    var width := if wide then 8 else 4;
    if offset < 0 || offset + width > |data| then Err("policy_spend_unreadable")
    else Ok(LittleEndian(data[offset..offset + width]))
  }

  predicate Matches(r: ProgramRule, programId: string, dataHex: string) {
    r.programId == programId && r.discriminator <= dataHex
  }

  /** The longest matching discriminator; the earliest of equals. */
  function BestRule(rules: seq<ProgramRule>, programId: string, dataHex: string): Option<ProgramRule> {
    if rules == [] then None
    else
      var before := BestRule(rules[..|rules| - 1], programId, dataHex);
      var last := rules[|rules| - 1];
      if !Matches(last, programId, dataHex) then before
      else if before.None? || |last.discriminator| > |before.value.discriminator| then Some(last)
      else before
  }

  predicate ProgramAllowed(rules: seq<ProgramRule>, programId: string) {
    exists i | 0 <= i < |rules| :: rules[i].programId == programId
  }

  /** What one instruction asks for. */
  datatype Charge = Nothing | UnitLimit | UnitPrice | Leg(asset: string, amount: nat)

  function MintGuard(s: SpendRule, accounts: seq<Option<string>>): Option<string> {
    if s.mintAccountIndex.None? then None
    else if s.mintAccountIndex.value >= |accounts| then Some("policy_spend_mint_missing")
    else if accounts[s.mintAccountIndex.value] != Some(s.asset) then Some("policy_spend_mint_mismatch")
    else None
  }

  function ChargeOf(p: Policy, ix: Instruction): Result<Charge, string> {
    if !ProgramAllowed(p.programs, ix.programId) then Err("policy_program")
    else
      match BestRule(p.programs, ix.programId, ix.dataHex)
      case None => Err("policy_instruction")
      case Some(rule) =>
        match rule.effect
        case NoEffect => Ok(Nothing)
        case Fee =>
          if rule.discriminator == SET_UNIT_LIMIT then Ok(UnitLimit)
          else if rule.discriminator == SET_UNIT_PRICE then Ok(UnitPrice)
          else Ok(Nothing)
        case Spend(s) =>
          if MintGuard(s, ix.accounts).Some? then Err(MintGuard(s, ix.accounts).value)
          else
            match ReadAmount(ix.data, s.amountOffset, s.wide)
            case Err(e) => Err(e)
            case Ok(amount) => Ok(Leg(s.asset, amount))
  }

  // ---------------------------------------------------------------- all instructions

  /** `order` is the insertion order of the spend map. */
  datatype Tally = Tally(order: seq<string>, spend: map<string, nat>, limit: Option<nat>, price: Option<nat>)

  const EMPTY := Tally([], map[], None, None)

  function AddLeg(t: Tally, asset: string, amount: nat): Tally {
    if asset in t.spend then t.(spend := t.spend[asset := t.spend[asset] + amount])
    else t.(order := t.order + [asset], spend := t.spend[asset := amount])
  }

  function Apply(p: Policy, t: Tally, ix: Instruction): Result<Tally, string> {
    match ChargeOf(p, ix)
    case Err(e) => Err(e)
    case Ok(Nothing) => Ok(t)
    case Ok(UnitLimit) =>
      if t.limit.Some? then Err("policy_compute_units")
      else (match ReadAmount(ix.data, 1, false) case Err(e) => Err(e) case Ok(n) => Ok(t.(limit := Some(n))))
    case Ok(UnitPrice) =>
      if t.price.Some? then Err("policy_compute_unit_price")
      else (match ReadAmount(ix.data, 1, true) case Err(e) => Err(e) case Ok(n) => Ok(t.(price := Some(n))))
    case Ok(Leg(asset, amount)) => Ok(AddLeg(t, asset, amount))
  }

  function TallyUp(p: Policy, ixs: seq<Instruction>): Result<Tally, string> {
    if ixs == [] then Ok(EMPTY)
    else
      match TallyUp(p, ixs[..|ixs| - 1])
      case Err(e) => Err(e)
      case Ok(t) => Apply(p, t, ixs[|ixs| - 1])
  }

  // ---------------------------------------------------------------- the verdict

  predicate LookupsAllowed(p: Policy, lookups: seq<string>) {
    forall l | l in lookups :: l in p.addressLookupTables
  }

  function Header(p: Policy, d: Decoded, expectedFeePayer: string): Option<string> {
    if d.feePayer != expectedFeePayer || d.feePayer !in p.feePayers then Some("policy_fee_payer")
    else if d.numRequiredSignatures > p.maxRequiredSignatures then Some("policy_signers")
    else if d.accountKeys > p.maxAccountKeys then Some("policy_account_keys")
    else if |d.instructions| > p.maxInstructions then Some("policy_instruction_count")
    else if !LookupsAllowed(p, d.lookups) then Some("policy_address_table_lookup")
    else None
  }

  function UnitLimitOf(t: Tally, instructions: nat): nat {
    if t.limit.Some? then t.limit.value
    else if DEFAULT_UNITS_PER_INSTRUCTION * instructions <= MAX_UNITS_PER_TRANSACTION then
      DEFAULT_UNITS_PER_INSTRUCTION * instructions
    else MAX_UNITS_PER_TRANSACTION
  }

  function UnitPriceOf(t: Tally): nat {
    if t.price.Some? then t.price.value else 0
  }

  function PriorityFee(limit: nat, price: nat): nat {
    (limit * price + 999_999) / 1_000_000
  }

  function Fees(p: Policy, t: Tally, instructions: nat): Option<string> {
    var limit := UnitLimitOf(t, instructions);
    var fee := PriorityFee(limit, UnitPriceOf(t));
    if limit > MAX_SAFE_INTEGER || limit > p.maxComputeUnitLimit then Some("policy_compute_units")
    else if UnitPriceOf(t) > p.maxComputeUnitPriceMicroLamports then Some("policy_compute_unit_price")
    else if fee > p.maxPriorityFeeLamports then Some("policy_priority_fee")
    else if p.maxPriorityFeeBps.Some? && NATIVE_ASSET in t.spend && t.spend[NATIVE_ASSET] > 0
            && fee > t.spend[NATIVE_ASSET] * p.maxPriorityFeeBps.value / 10_000 then Some("policy_priority_fee")
    else None
  }

  function CapGuard(p: Policy, asset: string, total: nat): Option<string> {
    if asset !in p.caps then Some("policy_cap_missing")
    else if total > p.caps[asset] then Some("policy_spend_cap")
    else None
  }

  /** The first cap violated among the first `n` assets, in insertion order. */
  function Caps(p: Policy, t: Tally, n: nat): Option<string>
    requires n <= |t.order|
  {
    if n == 0 then None
    else if Caps(p, t, n - 1).Some? then Caps(p, t, n - 1)
    else if t.order[n - 1] in t.spend then CapGuard(p, t.order[n - 1], t.spend[t.order[n - 1]])
    else None
  }

  function Conclude(p: Policy, t: Tally, instructions: nat): Result<Evaluation, string> {
    if Fees(p, t, instructions).Some? then Err(Fees(p, t, instructions).value)
    else if Caps(p, t, |t.order|).Some? then Err(Caps(p, t, |t.order|).value)
    else
      var limit, price := UnitLimitOf(t, instructions), UnitPriceOf(t);
      Ok(Evaluation(t.spend, limit, price, PriorityFee(limit, price)))
  }

  function Evaluate(p: Policy, d: Decoded, expectedFeePayer: string): Result<Evaluation, string> {
    if Header(p, d, expectedFeePayer).Some? then Err(Header(p, d, expectedFeePayer).value)
    else
      match TallyUp(p, d.instructions)
      case Err(e) => Err(e)
      case Ok(t) => Conclude(p, t, |d.instructions|)
  }

  // ---------------------------------------------------------------- the loops

  method MatchRule(p: Policy, programId: string, dataHex: string)
      returns (best: Option<ProgramRule>, programAllowed: bool)
    ensures best == BestRule(p.programs, programId, dataHex)
    ensures programAllowed == ProgramAllowed(p.programs, programId)
  {
    best, programAllowed := None, false;
    for i := 0 to |p.programs|
      invariant best == BestRule(p.programs[..i], programId, dataHex)
      invariant programAllowed == ProgramAllowed(p.programs[..i], programId)
    {
      var rule := p.programs[i];
      assert p.programs[..i + 1][..i] == p.programs[..i];
      assert forall k :: 0 <= k < i ==> p.programs[..i + 1][k] == p.programs[..i][k];
      if rule.programId == programId {
        assert p.programs[..i + 1][i].programId == programId;
        programAllowed := true;
        if rule.discriminator <= dataHex && (best.None? || |rule.discriminator| > |best.value.discriminator|) {
          best := Some(rule);
        }
      }
    }
    assert p.programs[..|p.programs|] == p.programs;
  }

  method ChargeInstruction(p: Policy, ix: Instruction) returns (r: Result<Charge, string>)
    ensures r == ChargeOf(p, ix)
  {
    var rule, programAllowed := MatchRule(p, ix.programId, ix.dataHex);
    if !programAllowed {
      return Err("policy_program");
    }
    if rule.None? {
      return Err("policy_instruction");
    }
    match rule.value.effect
    case NoEffect => r := Ok(Nothing);
    case Fee =>
      if rule.value.discriminator == SET_UNIT_LIMIT {
        r := Ok(UnitLimit);
      } else if rule.value.discriminator == SET_UNIT_PRICE {
        r := Ok(UnitPrice);
      } else {
        r := Ok(Nothing);
      }
    case Spend(s) =>
      var refused := MintGuard(s, ix.accounts);
      if refused.Some? {
        return Err(refused.value);
      }
      var amount := ReadAmount(ix.data, s.amountOffset, s.wide);
      r := if amount.Ok? then Ok(Leg(s.asset, amount.value)) else Err(amount.error);
  }

  method TallyInstructions(p: Policy, ixs: seq<Instruction>) returns (r: Result<Tally, string>)
    ensures r == TallyUp(p, ixs)
  {
    var order: seq<string>, spend: map<string, nat>, limit: Option<nat>, price: Option<nat> := [], map[], None, None;
    for i := 0 to |ixs|
      invariant TallyUp(p, ixs[..i]) == Ok(Tally(order, spend, limit, price))
    {
      assert ixs[..i + 1][..i] == ixs[..i];
      var charge := ChargeInstruction(p, ixs[i]);
      if charge.Err? {
        TallyStopsAtError(p, ixs, i + 1);
        return Err(charge.error);
      }
      match charge.value
      case Nothing =>
      case UnitLimit =>
        if limit.Some? {
          TallyStopsAtError(p, ixs, i + 1);
          return Err("policy_compute_units");
        }
        var n := ReadAmount(ixs[i].data, 1, false);
        if n.Err? {
          TallyStopsAtError(p, ixs, i + 1);
          return Err(n.error);
        }
        limit := Some(n.value);
      case UnitPrice =>
        if price.Some? {
          TallyStopsAtError(p, ixs, i + 1);
          return Err("policy_compute_unit_price");
        }
        var n := ReadAmount(ixs[i].data, 1, true);
        if n.Err? {
          TallyStopsAtError(p, ixs, i + 1);
          return Err(n.error);
        }
        price := Some(n.value);
      case Leg(asset, amount) =>
        if asset in spend {
          spend := spend[asset := spend[asset] + amount];
        } else {
          order, spend := order + [asset], spend[asset := amount];
        }
    }
    assert ixs[..|ixs|] == ixs;
    r := Ok(Tally(order, spend, limit, price));
  }

  lemma {:induction false} TallyStopsAtError(p: Policy, ixs: seq<Instruction>, n: nat)
    requires n <= |ixs| && TallyUp(p, ixs[..n]).Err?
    ensures TallyUp(p, ixs) == TallyUp(p, ixs[..n])
    decreases |ixs|
  {
    if n == |ixs| {
      assert ixs[..n] == ixs;
    } else {
      assert ixs[..|ixs| - 1][..n] == ixs[..n];
      TallyStopsAtError(p, ixs[..|ixs| - 1], n);
    }
  }

  method EvaluatePolicy(d: Decoded, p: Policy, expectedFeePayer: string) returns (r: Result<Evaluation, string>)
    ensures r == Evaluate(p, d, expectedFeePayer)
  {
    var header := Header(p, d, expectedFeePayer);
    if header.Some? {
      return Err(header.value);
    }
    var tally := TallyInstructions(p, d.instructions);
    if tally.Err? {
      return Err(tally.error);
    }
    var t := tally.value;
    var fees := Fees(p, t, |d.instructions|);
    if fees.Some? {
      return Err(fees.value);
    }
    for i := 0 to |t.order|
      invariant Caps(p, t, i) == None
    {
      if t.order[i] in t.spend {
        var refused := CapGuard(p, t.order[i], t.spend[t.order[i]]);
        if refused.Some? {
          CapsStopAtError(p, t, i + 1);
          return Err(refused.value);
        }
      }
    }
    var limit, price := UnitLimitOf(t, |d.instructions|), UnitPriceOf(t);
    r := Ok(Evaluation(t.spend, limit, price, PriorityFee(limit, price)));
  }

  lemma {:induction false} CapsStopAtError(p: Policy, t: Tally, n: nat)
    requires n <= |t.order| && Caps(p, t, n).Some?
    ensures Caps(p, t, |t.order|) == Caps(p, t, n)
    decreases |t.order| - n
  {
    if n < |t.order| {
      CapsStopAtError(p, t, n + 1);
    }
  }
}

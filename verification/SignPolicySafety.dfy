/** What acceptance by the signer's policy means, and what it cannot depend on. */
module SignPolicySafety {
  import opened Prelude
  import opened Sums
  import opened SignPolicy

  // ---------------------------------------------------------------- totals read off the instructions, in any order

  function LegAmount(p: Policy, ix: Instruction, asset: string): nat {
    match ChargeOf(p, ix)
    case Ok(Leg(a, amount)) => if a == asset then amount else 0
    case _ => 0
  }

  predicate IsLeg(p: Policy, ix: Instruction, asset: string) {
    match ChargeOf(p, ix)
    case Ok(Leg(a, _)) => a == asset
    case _ => false
  }

  function Legs(p: Policy, asset: string): Instruction -> int {
    ix => LegAmount(p, ix, asset)
  }

  function LegCount(p: Policy, asset: string): Instruction -> int {
    ix => if IsLeg(p, ix, asset) then 1 else 0
  }

  /** The instructions that set the unit limit (or the unit price) and what they set it to. */
  predicate Sets(p: Policy, ix: Instruction, which: Charge) {
    ChargeOf(p, ix) == Ok(which)
  }

  function Setting(ix: Instruction, which: Charge): Result<nat, string> {
    ReadAmount(ix.data, 1, which.UnitPrice?)
  }

  function SetCount(p: Policy, which: Charge): Instruction -> int {
    ix => if Sets(p, ix, which) then 1 else 0
  }

  function SetSum(p: Policy, which: Charge): Instruction -> int {
    ix => if Sets(p, ix, which) && Setting(ix, which).Ok? then Setting(ix, which).value else 0
  }

  predicate InstructionOk(p: Policy, ix: Instruction) {
    && ChargeOf(p, ix).Ok?
    && (Sets(p, ix, UnitLimit) ==> Setting(ix, UnitLimit).Ok?)
    && (Sets(p, ix, UnitPrice) ==> Setting(ix, UnitPrice).Ok?)
  }

  predicate AllOk(p: Policy, ixs: seq<Instruction>) {
    forall i | 0 <= i < |ixs| :: InstructionOk(p, ixs[i])
  }

  /** What the instructions put at risk in one asset. */
  function Total(p: Policy, ixs: seq<Instruction>, asset: string): int {
    SumBy(ixs, Legs(p, asset))
  }

  /** At most one instruction of a kind, and the value it sets. */
  ghost predicate SettingIs(p: Policy, ixs: seq<Instruction>, which: Charge, chosen: Option<nat>) {
    var n := SumBy(ixs, SetCount(p, which));
    && n == (if chosen.Some? then 1 else 0)
    && (chosen.Some? ==> chosen.value == SumBy(ixs, SetSum(p, which)))
    && (chosen.None? ==> SumBy(ixs, SetSum(p, which)) == 0)
  }

  ghost predicate SpendAt(p: Policy, ixs: seq<Instruction>, t: Tally, asset: string) {
    && (asset in t.spend <==> SumBy(ixs, LegCount(p, asset)) > 0)
    && (asset in t.spend <==> asset in t.order)
    && Total(p, ixs, asset) == if asset in t.spend then t.spend[asset] else 0
  }

  ghost predicate SpendIs(p: Policy, ixs: seq<Instruction>, t: Tally) {
    forall asset :: SpendAt(p, ixs, t, asset)
  }

  ghost predicate TallyIs(p: Policy, ixs: seq<Instruction>, t: Tally) {
    SettingIs(p, ixs, UnitLimit, t.limit) && SettingIs(p, ixs, UnitPrice, t.price) && SpendIs(p, ixs, t)
  }

  // ---------------------------------------------------------------- the loop computes those totals

  lemma {:induction false} CountsAreNonNegative(p: Policy, ixs: seq<Instruction>, asset: string)
    ensures SumBy(ixs, LegCount(p, asset)) >= 0 && Total(p, ixs, asset) >= 0
  {
    if ixs != [] {
      CountsAreNonNegative(p, ixs[..|ixs| - 1], asset);
    }
  }

  lemma SpendStepAt(p: Policy, ixs: seq<Instruction>, t: Tally, asset: string)
    requires ixs != [] && SpendAt(p, ixs[..|ixs| - 1], t, asset) && Apply(p, t, ixs[|ixs| - 1]).Ok?
    ensures SpendAt(p, ixs, Apply(p, t, ixs[|ixs| - 1]).value, asset)
  {
    CountsAreNonNegative(p, ixs[..|ixs| - 1], asset);
    var ix := ixs[|ixs| - 1];
    assert SumBy(ixs, LegCount(p, asset))
        == SumBy(ixs[..|ixs| - 1], LegCount(p, asset)) + (if IsLeg(p, ix, asset) then 1 else 0);
    assert Total(p, ixs, asset) == Total(p, ixs[..|ixs| - 1], asset) + LegAmount(p, ix, asset);
  }

  lemma SpendStep(p: Policy, ixs: seq<Instruction>, t: Tally)
    requires ixs != [] && SpendIs(p, ixs[..|ixs| - 1], t) && Apply(p, t, ixs[|ixs| - 1]).Ok?
    ensures SpendIs(p, ixs, Apply(p, t, ixs[|ixs| - 1]).value)
  {
    var before, after := ixs[..|ixs| - 1], Apply(p, t, ixs[|ixs| - 1]).value;
    forall asset
      ensures SpendAt(p, ixs, after, asset)
    {
      assert SpendAt(p, before, t, asset);
      SpendStepAt(p, ixs, t, asset);
    }
  }

  lemma SettingStep(p: Policy, ixs: seq<Instruction>, which: Charge, before: Option<nat>, after: Option<nat>)
    requires ixs != [] && SettingIs(p, ixs[..|ixs| - 1], which, before)
    requires var ix := ixs[|ixs| - 1];
      if Sets(p, ix, which) then before.None? && Setting(ix, which).Ok? && after == Some(Setting(ix, which).value)
      else after == before
    ensures SettingIs(p, ixs, which, after)
  {
  }

  lemma AllOkNext(p: Policy, before: seq<Instruction>, ix: Instruction)
    ensures AllOk(p, before + [ix]) <==> AllOk(p, before) && InstructionOk(p, ix)
  {
    var ixs := before + [ix];
    assert ixs[|before|] == ix;
    assert forall i :: 0 <= i < |before| ==> ixs[i] == before[i];
  }

  /** One more instruction is taken in exactly when it is acceptable itself and sets nothing that is already set. */
  lemma ApplyAccepts(p: Policy, t: Tally, ix: Instruction)
    ensures Apply(p, t, ix).Ok? <==>
      && InstructionOk(p, ix)
      && (Sets(p, ix, UnitLimit) ==> t.limit.None?)
      && (Sets(p, ix, UnitPrice) ==> t.price.None?)
  {
  }

  lemma ApplySets(p: Policy, t: Tally, ix: Instruction)
    requires Apply(p, t, ix).Ok?
    ensures var u := Apply(p, t, ix).value;
      && (if Sets(p, ix, UnitLimit) then t.limit.None? && Setting(ix, UnitLimit).Ok?
        && u.limit == Some(Setting(ix, UnitLimit).value)
          else u.limit == t.limit)
      && (if Sets(p, ix, UnitPrice) then t.price.None? && Setting(ix, UnitPrice).Ok?
        && u.price == Some(Setting(ix, UnitPrice).value)
          else u.price == t.price)
  {
  }

  lemma TallyMeansNext(p: Policy, ixs: seq<Instruction>, t: Tally)
    requires ixs != [] && AllOk(p, ixs[..|ixs| - 1]) && TallyIs(p, ixs[..|ixs| - 1], t)
      && Apply(p, t, ixs[|ixs| - 1]).Ok?
    ensures AllOk(p, ixs) && TallyIs(p, ixs, Apply(p, t, ixs[|ixs| - 1]).value)
  {
    var before, ix := ixs[..|ixs| - 1], ixs[|ixs| - 1];
    var u := Apply(p, t, ix).value;
    assert ixs == before + [ix];
    AllOkNext(p, before, ix);
    ApplyAccepts(p, t, ix);
    ApplySets(p, t, ix);
    SpendStep(p, ixs, t);
    SettingStep(p, ixs, UnitLimit, t.limit, u.limit);
    SettingStep(p, ixs, UnitPrice, t.price, u.price);
  }

  /** The tally of an accepted list, described without its order. */
  lemma {:induction false} TallyMeans(p: Policy, ixs: seq<Instruction>, t: Tally)
    requires TallyUp(p, ixs) == Ok(t)
    ensures AllOk(p, ixs) && TallyIs(p, ixs, t)
  {
    if ixs != [] {
      var before := ixs[..|ixs| - 1];
      var t0 := TallyUp(p, before).value;
      TallyMeans(p, before, t0);
      TallyMeansNext(p, ixs, t0);
    }
  }

  lemma {:induction false} SetCountIsNonNegative(p: Policy, ixs: seq<Instruction>, which: Charge)
    ensures SumBy(ixs, SetCount(p, which)) >= 0
  {
    if ixs != [] {
      SetCountIsNonNegative(p, ixs[..|ixs| - 1], which);
    }
  }

  lemma SetCountNext(p: Policy, ixs: seq<Instruction>, which: Charge)
    requires ixs != []
    ensures SumBy(ixs, SetCount(p, which))
         == SumBy(ixs[..|ixs| - 1], SetCount(p, which)) + (if Sets(p, ixs[|ixs| - 1], which) then 1 else 0)
  {
  }

  /** Exactly when the loop accepts: every instruction is acceptable by itself, and no fee setting is repeated. */
  lemma {:induction false} TallyAcceptsExactly(p: Policy, ixs: seq<Instruction>)
    ensures TallyUp(p, ixs).Ok? <==>
      && AllOk(p, ixs)
      && SumBy(ixs, SetCount(p, UnitLimit)) <= 1
      && SumBy(ixs, SetCount(p, UnitPrice)) <= 1
  {
    if ixs != [] {
      var before, ix := ixs[..|ixs| - 1], ixs[|ixs| - 1];
      TallyAcceptsExactly(p, before);
      assert ixs == before + [ix];
      AllOkNext(p, before, ix);
      SetCountNext(p, ixs, UnitLimit);
      SetCountNext(p, ixs, UnitPrice);
      SetCountIsNonNegative(p, before, UnitLimit);
      SetCountIsNonNegative(p, before, UnitPrice);
      if TallyUp(p, before).Ok? {
        TallyMeans(p, before, TallyUp(p, before).value);
        ApplyAccepts(p, TallyUp(p, before).value, ix);
      }
    }
  }

  lemma {:induction false} CapsAccept(p: Policy, t: Tally, n: nat)
    requires n <= |t.order|
    ensures Caps(p, t, n) == None <==>
      forall i :: 0 <= i < n && t.order[i] in t.spend ==> CapGuard(p, t.order[i], t.spend[t.order[i]]) == None
  {
    if n > 0 {
      CapsAccept(p, t, n - 1);
    }
  }

  // ---------------------------------------------------------------- acceptance

  /** An accepted transaction: every asset's decoded input legs fit its declared cap, and the returned totals are those
      sums. */
  lemma AcceptedSpendIsCapped(p: Policy, d: Decoded, payer: string, asset: string)
    requires Evaluate(p, d, payer).Ok?
    ensures var e := Evaluate(p, d, payer).value;
      && (asset in e.spend <==> exists i :: 0 <= i < |d.instructions| && IsLeg(p, d.instructions[i], asset))
      && (asset in e.spend ==>
        e.spend[asset] == Total(p, d.instructions, asset) && asset in p.caps && e.spend[asset] <= p.caps[asset])
      && (asset !in e.spend ==> Total(p, d.instructions, asset) == 0)
  {
    var t := TallyUp(p, d.instructions).value;
    TallyMeans(p, d.instructions, t);
    CapsAccept(p, t, |t.order|);
    CountMeansExists(p, d.instructions, asset);
    assert SpendAt(p, d.instructions, t, asset);
    if asset in t.spend {
      var i :| 0 <= i < |t.order| && t.order[i] == asset;
      assert CapGuard(p, t.order[i], t.spend[t.order[i]]) == None;
    }
  }

  lemma {:induction false} CountMeansExists(p: Policy, ixs: seq<Instruction>, asset: string)
    ensures SumBy(ixs, LegCount(p, asset)) > 0 <==> exists i :: 0 <= i < |ixs| && IsLeg(p, ixs[i], asset)
  {
    if ixs != [] {
      var n := |ixs| - 1;
      CountMeansExists(p, ixs[..n], asset);
      CountsAreNonNegative(p, ixs[..n], asset);
      assert forall i :: 0 <= i < n ==> ixs[..n][i] == ixs[i];
      if exists i :: 0 <= i < n && IsLeg(p, ixs[..n][i], asset) {
        var i :| 0 <= i < n && IsLeg(p, ixs[..n][i], asset);
        assert IsLeg(p, ixs[i], asset);
      }
    }
  }

  /** The fee at risk is the exact ceiling of limit times price over a million, and within every limit. */
  lemma AcceptedFeeIsExactAndBounded(p: Policy, d: Decoded, payer: string)
    requires Evaluate(p, d, payer).Ok?
    ensures var e := Evaluate(p, d, payer).value;
      && (e.priorityFee - 1) * 1_000_000 < e.computeUnitLimit * e.unitPrice <= e.priorityFee * 1_000_000
      && e.priorityFee <= p.maxPriorityFeeLamports
      && e.computeUnitLimit <= p.maxComputeUnitLimit
      && e.unitPrice <= p.maxComputeUnitPriceMicroLamports
      && (p.maxPriorityFeeBps.Some? && Total(p, d.instructions, NATIVE_ASSET) > 0 ==>
        e.priorityFee * 10_000 <= Total(p, d.instructions, NATIVE_ASSET) * p.maxPriorityFeeBps.value)
  {
    var e := Evaluate(p, d, payer).value;
    var product := e.computeUnitLimit * e.unitPrice;
    assert e.priorityFee == (product + 999_999) / 1_000_000;
    AcceptedSpendIsCapped(p, d, payer, NATIVE_ASSET);
    if p.maxPriorityFeeBps.Some? && Total(p, d.instructions, NATIVE_ASSET) > 0 {
      var leg := e.spend[NATIVE_ASSET] * p.maxPriorityFeeBps.value;
      assert leg / 10_000 * 10_000 <= leg;
    }
  }

  /** Some instruction moves the asset out of the wallet. */
  ghost predicate Spends(p: Policy, ixs: seq<Instruction>, asset: string) {
    exists i :: 0 <= i < |ixs| && IsLeg(p, ixs[i], asset)
  }

  ghost predicate WithinCap(p: Policy, ixs: seq<Instruction>, asset: string) {
    Spends(p, ixs, asset) ==> asset in p.caps && Total(p, ixs, asset) <= p.caps[asset]
  }

  function DeclaredLimit(p: Policy, ixs: seq<Instruction>): int {
    if SumBy(ixs, SetCount(p, UnitLimit)) > 0 then SumBy(ixs, SetSum(p, UnitLimit))
    else if DEFAULT_UNITS_PER_INSTRUCTION * |ixs| <= MAX_UNITS_PER_TRANSACTION then
      DEFAULT_UNITS_PER_INSTRUCTION * |ixs|
    else MAX_UNITS_PER_TRANSACTION
  }

  function DeclaredPrice(p: Policy, ixs: seq<Instruction>): int {
    SumBy(ixs, SetSum(p, UnitPrice))
  }

  /** Both fee limits, on the exact product that the ceiling rounds. */
  predicate FeeWithin(p: Policy, limit: int, price: int, native: int) {
    && limit <= MAX_SAFE_INTEGER && limit <= p.maxComputeUnitLimit
    && price <= p.maxComputeUnitPriceMicroLamports
    && limit * price <= p.maxPriorityFeeLamports * 1_000_000
    && (p.maxPriorityFeeBps.Some? && native > 0 ==>
      limit * price <= native * p.maxPriorityFeeBps.value / 10_000 * 1_000_000)
  }

  lemma FeesAccept(p: Policy, ixs: seq<Instruction>, t: Tally)
    requires TallyIs(p, ixs, t)
    ensures Fees(p, t, |ixs|) == None
      <==> FeeWithin(p, DeclaredLimit(p, ixs), DeclaredPrice(p, ixs), Total(p, ixs, NATIVE_ASSET))
  {
    var limit, price := UnitLimitOf(t, |ixs|), UnitPriceOf(t);
    assert limit == DeclaredLimit(p, ixs) && price == DeclaredPrice(p, ixs);
    assert SpendAt(p, ixs, t, NATIVE_ASSET);
    CeilingMeets(limit * price, p.maxPriorityFeeLamports);
    if p.maxPriorityFeeBps.Some? && NATIVE_ASSET in t.spend {
      CeilingMeets(limit * price, t.spend[NATIVE_ASSET] * p.maxPriorityFeeBps.value / 10_000);
    }
  }

  lemma CeilingMeets(product: int, bound: int)
    ensures (product + 999_999) / 1_000_000 <= bound <==> product <= bound * 1_000_000
  {
  }

  lemma CapsMeet(p: Policy, ixs: seq<Instruction>, t: Tally)
    requires TallyIs(p, ixs, t)
    ensures Caps(p, t, |t.order|) == None <==> forall asset :: WithinCap(p, ixs, asset)
  {
    CapsAccept(p, t, |t.order|);
    forall asset
      ensures WithinCap(p, ixs, asset) <==> (asset in t.spend ==> CapGuard(p, asset, t.spend[asset]) == None)
      ensures asset in t.spend <==> asset in t.order
    {
      assert SpendAt(p, ixs, t, asset);
      CountMeansExists(p, ixs, asset);
    }
  }

  /** The whole policy at once: what a transaction must satisfy to be accepted, and all it must satisfy. */
  lemma EvaluateAcceptsExactly(p: Policy, d: Decoded, payer: string)
    ensures Evaluate(p, d, payer).Ok? <==>
      && d.feePayer == payer && payer in p.feePayers
      && d.numRequiredSignatures <= p.maxRequiredSignatures
      && d.accountKeys <= p.maxAccountKeys
      && |d.instructions| <= p.maxInstructions
      && (forall l :: l in d.lookups ==> l in p.addressLookupTables)
      && AllOk(p, d.instructions)
      && SumBy(d.instructions, SetCount(p, UnitLimit)) <= 1
      && SumBy(d.instructions, SetCount(p, UnitPrice)) <= 1
      && FeeWithin(p, DeclaredLimit(p, d.instructions), DeclaredPrice(p, d.instructions),
        Total(p, d.instructions, NATIVE_ASSET))
      && (forall asset :: WithinCap(p, d.instructions, asset))
  {
    TallyAcceptsExactly(p, d.instructions);
    if TallyUp(p, d.instructions).Ok? {
      var t := TallyUp(p, d.instructions).value;
      TallyMeans(p, d.instructions, t);
      FeesAccept(p, d.instructions, t);
      CapsMeet(p, d.instructions, t);
    }
  }

  // ---------------------------------------------------------------- order of the instructions

  lemma SumsPermute(p: Policy, a: seq<Instruction>, b: seq<Instruction>)
    requires multiset(a) == multiset(b)
    ensures AllOk(p, a) <==> AllOk(p, b)
    ensures forall which :: SumBy(a, SetCount(p, which)) == SumBy(b, SetCount(p, which))
    ensures forall which :: SumBy(a, SetSum(p, which)) == SumBy(b, SetSum(p, which))
    ensures forall asset :: SumBy(a, LegCount(p, asset)) == SumBy(b, LegCount(p, asset))
    ensures forall asset :: Total(p, a, asset) == Total(p, b, asset)
  {
    assert forall ix :: ix in a <==> ix in multiset(a);
    assert forall ix :: ix in b <==> ix in multiset(b);
    assert AllOk(p, a) <==> forall ix :: ix in a ==> InstructionOk(p, ix);
    assert AllOk(p, b) <==> forall ix :: ix in b ==> InstructionOk(p, ix);
    forall which
      ensures SumBy(a, SetCount(p, which)) == SumBy(b, SetCount(p, which))
      ensures SumBy(a, SetSum(p, which)) == SumBy(b, SetSum(p, which))
    {
      SumByPermutation(a, b, SetCount(p, which));
      SumByPermutation(a, b, SetSum(p, which));
    }
    forall asset
      ensures SumBy(a, LegCount(p, asset)) == SumBy(b, LegCount(p, asset))
      ensures Total(p, a, asset) == Total(p, b, asset)
    {
      SumByPermutation(a, b, LegCount(p, asset));
      SumByPermutation(a, b, Legs(p, asset));
    }
  }

  lemma TallyPermutes(p: Policy, a: seq<Instruction>, b: seq<Instruction>)
    requires multiset(a) == multiset(b) && TallyUp(p, a).Ok?
    ensures TallyUp(p, b).Ok?
    ensures var t, u := TallyUp(p, a).value, TallyUp(p, b).value;
      t.spend == u.spend && t.limit == u.limit && t.price == u.price
      && forall asset :: asset in t.order <==> asset in u.order
  {
    SumsPermute(p, a, b);
    TallyAcceptsExactly(p, a);
    TallyAcceptsExactly(p, b);
    var t, u := TallyUp(p, a).value, TallyUp(p, b).value;
    TallyMeans(p, a, t);
    TallyMeans(p, b, u);
    forall asset
      ensures asset in t.spend <==> asset in u.spend
      ensures asset in t.spend ==> t.spend[asset] == u.spend[asset]
      ensures asset in t.order <==> asset in u.order
    {
      assert SpendAt(p, a, t, asset) && SpendAt(p, b, u, asset);
    }
    assert t.spend.Keys == u.spend.Keys;
  }

  lemma AcceptancePermutes(p: Policy, d: Decoded, reordered: seq<Instruction>, payer: string)
    requires multiset(d.instructions) == multiset(reordered) && Evaluate(p, d, payer).Ok?
    ensures Evaluate(p, d.(instructions := reordered), payer) == Evaluate(p, d, payer)
  {
    assert |d.instructions| == |multiset(d.instructions)| == |multiset(reordered)| == |reordered|;
    TallyPermutes(p, d.instructions, reordered);
    var t, u := TallyUp(p, d.instructions).value, TallyUp(p, reordered).value;
    CapsAccept(p, t, |t.order|);
    CapsAccept(p, u, |u.order|);
    forall i | 0 <= i < |u.order| && u.order[i] in u.spend
      ensures CapGuard(p, u.order[i], u.spend[u.order[i]]) == None
    {
      assert u.order[i] in t.order;
      var j :| 0 <= j < |t.order| && t.order[j] == u.order[i];
      assert CapGuard(p, t.order[j], t.spend[t.order[j]]) == None;
    }
  }

  /** Reordering the instructions changes neither acceptance nor anything that is returned. */
  lemma InstructionOrderIsIrrelevant(p: Policy, d: Decoded, reordered: seq<Instruction>, payer: string)
    requires multiset(d.instructions) == multiset(reordered)
    ensures Evaluate(p, d, payer).Ok? <==> Evaluate(p, d.(instructions := reordered), payer).Ok?
    ensures Evaluate(p, d, payer).Ok? ==> Evaluate(p, d.(instructions := reordered), payer) == Evaluate(p, d, payer)
  {
    var d' := d.(instructions := reordered);
    if Evaluate(p, d, payer).Ok? {
      AcceptancePermutes(p, d, reordered, payer);
    } else if Evaluate(p, d', payer).Ok? {
      assert d'.(instructions := d.instructions) == d;
      AcceptancePermutes(p, d', d.instructions, payer);
    }
  }

  // ---------------------------------------------------------------- order of the rules

  predicate SameKey(a: ProgramRule, b: ProgramRule) {
    a.programId == b.programId && a.discriminator == b.discriminator
  }

  predicate DuplicateFree(rules: seq<ProgramRule>) {
    forall i, j | 0 <= i < j < |rules| :: !SameKey(rules[i], rules[j])
  }

  /** The loader's duplicate check accepts exactly the duplicate-free lists. */
  method HasNoDuplicates(rules: seq<ProgramRule>) returns (ok: bool)
    ensures ok == DuplicateFree(rules)
  {
    var seen: set<(string, string)> := {};
    for i := 0 to |rules|
      invariant DuplicateFree(rules[..i])
      invariant seen == set k | 0 <= k < i :: (rules[k].programId, rules[k].discriminator)
    {
      var key := (rules[i].programId, rules[i].discriminator);
      if key in seen {
        var k :| 0 <= k < i && key == (rules[k].programId, rules[k].discriminator);
        assert SameKey(rules[k], rules[i]);
        return false;
      }
      assert forall k :: 0 <= k < i ==> !SameKey(rules[k], rules[i]) by {
        assert forall k :: 0 <= k < i ==> (rules[k].programId, rules[k].discriminator) in seen;
      }
      seen := seen + {key};
    }
    assert rules[..|rules|] == rules;
    ok := true;
  }

  lemma {:induction false} BestRuleIsLongest(rules: seq<ProgramRule>, programId: string, dataHex: string)
    ensures IsBest(rules, programId, dataHex, BestRule(rules, programId, dataHex))
  {
    if rules != [] {
      var n := |rules| - 1;
      BestRuleIsLongest(rules[..n], programId, dataHex);
      assert rules == rules[..n] + [rules[n]];
    }
  }

  lemma EqualLengthPrefixesAreEqual(a: string, b: string, s: string)
    requires a <= s && b <= s && |a| == |b|
    ensures a == b
  {
    assert a == s[..|a|] && b == s[..|b|];
  }

  /** `best` is the rule the loop would pick, said without order. */
  ghost predicate IsBest(rules: seq<ProgramRule>, programId: string, dataHex: string, best: Option<ProgramRule>) {
    && (best.None? <==> forall r :: r in rules ==> !Matches(r, programId, dataHex))
    && (best.Some? ==> best.value in rules && Matches(best.value, programId, dataHex))
    && (best.Some? ==> forall r :: r in rules && Matches(r, programId, dataHex) ==>
         |r.discriminator| <= |best.value.discriminator|)
  }

  lemma SameKeySameRule(rules: seq<ProgramRule>, r: ProgramRule, s: ProgramRule)
    requires DuplicateFree(rules) && r in rules && s in rules && SameKey(r, s)
    ensures r == s
  {
    var i :| 0 <= i < |rules| && rules[i] == r;
    var j :| 0 <= j < |rules| && rules[j] == s;
  }

  lemma BestIsUnique(rules: seq<ProgramRule>, programId: string, dataHex: string, x: Option<ProgramRule>,
      y: Option<ProgramRule>)
    requires DuplicateFree(rules) && IsBest(rules, programId, dataHex, x) && IsBest(rules, programId, dataHex, y)
    ensures x == y
  {
    if x.Some? && y.Some? {
      EqualLengthPrefixesAreEqual(x.value.discriminator, y.value.discriminator, dataHex);
      SameKeySameRule(rules, x.value, y.value);
    }
  }

  /** For a duplicate-free list the winning rule depends on which rules there are, not on where they stand. */
  lemma BestRulePermutes(a: seq<ProgramRule>, b: seq<ProgramRule>, programId: string, dataHex: string)
    requires DuplicateFree(a) && multiset(a) == multiset(b)
    ensures BestRule(a, programId, dataHex) == BestRule(b, programId, dataHex)
  {
    BestRuleIsLongest(a, programId, dataHex);
    BestRuleIsLongest(b, programId, dataHex);
    SameRules(a, b);
    BestIsUnique(a, programId, dataHex, BestRule(a, programId, dataHex), BestRule(b, programId, dataHex));
  }

  lemma SameRules(a: seq<ProgramRule>, b: seq<ProgramRule>)
    requires multiset(a) == multiset(b)
    ensures forall r :: r in a <==> r in b
  {
    assert forall r :: r in a <==> r in multiset(a);
    assert forall r :: r in b <==> r in multiset(b);
  }

  lemma ChargePermutes(p: Policy, rules: seq<ProgramRule>, ix: Instruction)
    requires DuplicateFree(p.programs) && multiset(p.programs) == multiset(rules)
    ensures ChargeOf(p.(programs := rules), ix) == ChargeOf(p, ix)
  {
    BestRulePermutes(p.programs, rules, ix.programId, ix.dataHex);
    SameRules(p.programs, rules);
    assert ProgramAllowed(p.programs, ix.programId) <==> exists r :: r in p.programs && r.programId == ix.programId;
    assert ProgramAllowed(rules, ix.programId) <==> exists r :: r in rules && r.programId == ix.programId;
  }

  lemma {:induction false} TallyIgnoresRuleOrder(p: Policy, rules: seq<ProgramRule>, ixs: seq<Instruction>)
    requires DuplicateFree(p.programs) && multiset(p.programs) == multiset(rules)
    ensures TallyUp(p.(programs := rules), ixs) == TallyUp(p, ixs)
  {
    if ixs != [] {
      TallyIgnoresRuleOrder(p, rules, ixs[..|ixs| - 1]);
      ChargePermutes(p, rules, ixs[|ixs| - 1]);
    }
  }

  lemma {:induction false} CapsIgnoreRules(p: Policy, rules: seq<ProgramRule>, t: Tally, n: nat)
    requires n <= |t.order|
    ensures Caps(p.(programs := rules), t, n) == Caps(p, t, n)
  {
    if n > 0 {
      CapsIgnoreRules(p, rules, t, n - 1);
    }
  }

  /** Reordering a duplicate-free rule list changes nothing at all, not even which error is reported. */
  lemma RuleOrderIsIrrelevant(p: Policy, rules: seq<ProgramRule>, d: Decoded, payer: string)
    requires DuplicateFree(p.programs) && multiset(p.programs) == multiset(rules)
    ensures Evaluate(p.(programs := rules), d, payer) == Evaluate(p, d, payer)
  {
    TallyIgnoresRuleOrder(p, rules, d.instructions);
    if TallyUp(p, d.instructions).Ok? {
      var t := TallyUp(p, d.instructions).value;
      CapsIgnoreRules(p, rules, t, |t.order|);
    }
  }
}

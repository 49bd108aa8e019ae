/** Rolling caps: what the reserve transaction guarantees about every window of the spend table. */
module SpendCaps {
  import opened Prelude
  import opened Kernel

  ghost predicate NonNegative(spends: seq<Spend>) {
    forall i :: 0 <= i < |spends| ==> spends[i].amount >= 0
  }

  datatype Span = Hour | Day {
    function Length(): int {
      if Hour? then HOUR_MS else DAY_MS
    }

    function Cap(caps: Caps): int {
      if Hour? then caps.perHour else caps.perDay
    }
  }

  /** What is active in [start, start + span] fits the cap in force at the last reservation inserted there. */
  ghost predicate WindowHolds(t: Tables, b: Bucket, start: int, span: Span)
    requires WellFormed(t)
  {
    var last := LastInWindow(t.spends, b, start, start + span.Length());
    WindowSum(t.spends, b, start, start + span.Length()) <= if last.Some? then span.Cap(t.capLog[last.value]) else 0
  }

  ghost predicate CapsHold(t: Tables) {
    && WellFormed(t)
    && NonNegative(t.spends)
    && forall b, start, span :: WindowHolds(t, b, start, span)
  }

  // ---------------------------------------------------------------- monotonicity of the sums

  lemma {:induction false} WindowWithinActive(spends: seq<Spend>, b: Bucket, since: int, lo: int, hi: int)
    requires NonNegative(spends) && since <= lo
    ensures 0 <= WindowSum(spends, b, lo, hi) <= SumActive(spends, b, since)
  {
    if spends != [] {
      WindowWithinActive(spends[..|spends| - 1], b, since, lo, hi);
    }
  }

  lemma {:induction false} EmptyWindowSumsToZero(spends: seq<Spend>, b: Bucket, lo: int, hi: int)
    requires LastInWindow(spends, b, lo, hi).None?
    ensures WindowSum(spends, b, lo, hi) == 0
  {
    if spends != [] {
      EmptyWindowSumsToZero(spends[..|spends| - 1], b, lo, hi);
    }
  }

  function Counted(s: Spend): int {
    if Active(s) then s.amount else 0
  }

  /** Changing the state of one row moves every window that contains it by exactly that row's amount. */
  lemma {:induction false} StateChangeMovesSum(spends: seq<Spend>, r: nat, state: SpendState, b: Bucket, lo: int,
      hi: int)
    requires r < |spends|
    ensures WindowSum(spends[r := spends[r].(state := state)], b, lo, hi)
            == WindowSum(spends, b, lo, hi)
               + if InWindow(spends[r], b, lo, hi) then Counted(spends[r].(state := state)) - Counted(spends[r]) else 0
    ensures LastInWindow(spends[r := spends[r].(state := state)], b, lo, hi) == LastInWindow(spends, b, lo, hi)
  {
    var changed := spends[r := spends[r].(state := state)];
    var n := |spends| - 1;
    if r == n {
      assert changed[..n] == spends[..n];
    } else {
      assert changed[..n] == spends[..n][r := spends[..n][r].(state := state)];
      StateChangeMovesSum(spends[..n], r, state, b, lo, hi);
    }
  }

  // ---------------------------------------------------------------- what each statement keeps

  lemma ReserveKeepsWindow(t: Tables, b: Bucket, amount: int, caps: Caps, tradeId: nat, now: int,
                           c: Bucket, start: int, span: Span)
    requires WellFormed(t) && NonNegative(t.spends) && amount >= 0
    requires WindowHolds(t, c, start, span)
    requires SumActive(t.spends, b, now - span.Length()) + amount <= span.Cap(caps)
    ensures WindowHolds(AddReservation(t, b, amount, caps, tradeId, now), c, start, span)
  {
    var t' := AddReservation(t, b, amount, caps, tradeId, now);
    assert t'.spends[..|t.spends|] == t.spends;
    if InWindow(t'.spends[|t.spends|], c, start, start + span.Length()) {
      WindowWithinActive(t.spends, b, now - span.Length(), start, start + span.Length());
    }
  }

  lemma {:induction false} WindowIsActive(spends: seq<Spend>, b: Bucket, since: int, now: int)
    requires forall i :: 0 <= i < |spends| && spends[i].bucket == b ==> spends[i].createdAt <= now
    ensures WindowSum(spends, b, since, now) == SumActive(spends, b, since)
  {
    if spends != [] {
      var n := |spends| - 1;
      assert forall i :: 0 <= i < n ==> spends[..n][i] == spends[i];
      WindowIsActive(spends[..n], b, since, now);
    }
  }

  /** While no row of the bucket is dated later than `now`, nothing is refused that the caps would have allowed. */
  lemma ReserveRefusesOnlyOverspending(t: Tables, b: Bucket, amount: int, caps: Caps, tradeId: nat, now: int)
    requires forall i :: 0 <= i < |t.spends| && t.spends[i].bucket == b ==> t.spends[i].createdAt <= now
    ensures var after := AddReservation(t, b, amount, caps, tradeId, now).spends;
      ReserveDecision(t, b, amount, caps, now).Reserved? <==>
        && amount <= caps.perTrade
        && WindowSum(after, b, now - HOUR_MS, now) <= caps.perHour
        && WindowSum(after, b, now - DAY_MS, now) <= caps.perDay
  {
    var after := AddReservation(t, b, amount, caps, tradeId, now).spends;
    assert after[..|after| - 1] == t.spends;
    WindowIsActive(t.spends, b, now - HOUR_MS, now);
    WindowIsActive(t.spends, b, now - DAY_MS, now);
  }

  /** The transaction keeps every window within its cap, however far out of order `now` is. */
  lemma ReserveKeepsCaps(t: Tables, b: Bucket, amount: int, caps: Caps, tradeId: nat, now: int)
    requires CapsHold(t) && amount >= 0
    requires ReserveDecision(t, b, amount, caps, now).Reserved?
    ensures CapsHold(AddReservation(t, b, amount, caps, tradeId, now))
  {
    forall c, start, span: Span
      ensures WindowHolds(AddReservation(t, b, amount, caps, tradeId, now), c, start, span)
    {
      assert WindowHolds(t, c, start, span);
      ReserveKeepsWindow(t, b, amount, caps, tradeId, now, c, start, span);
    }
  }

  /** Any state change but the revival of a released row keeps every window within its cap. */
  lemma SetSpendKeepsCaps(t: Tables, r: nat, state: SpendState)
    requires CapsHold(t)
    requires r < |t.spends| ==> Active(t.spends[r]) || state == SpendReleased
    ensures CapsHold(SetSpend(t, r, state))
  {
    if r < |t.spends| {
      forall c, start, span: Span ensures WindowHolds(SetSpend(t, r, state), c, start, span) {
        assert WindowHolds(t, c, start, span);
        StateChangeMovesSum(t.spends, r, state, c, start, start + span.Length());
      }
    }
  }

  /** `consumeReservation` alone is not cap-safe: it raises a window exactly when it revives a released row. */
  lemma ConsumeRaisesWindowExactlyWhenReviving(t: Tables, r: nat, b: Bucket, lo: int, hi: int)
    requires NonNegative(t.spends) && r < |t.spends| && InWindow(t.spends[r], b, lo, hi)
    ensures WindowSum(Consume(t, Some(r)).spends, b, lo, hi) > WindowSum(t.spends, b, lo, hi)
            <==> t.spends[r].state == SpendReleased && t.spends[r].amount > 0
  {
    StateChangeMovesSum(t.spends, r, SpendConsumed, b, lo, hi);
  }

  /** Reserve 5, release it, reserve 5 again: the caps of 5 hold throughout. */
  function ReservedAgain(): Tables {
    var caps := Caps(5, 5, 5);
    Tables([Spend(0, Sol, 5, SpendReleased, 0), Spend(1, Sol, 5, SpendReserved, 0)], [caps, caps], map[], map[])
  }

  /** The same tables without the second reservation. */
  function ReservedOnce(state: SpendState): Tables {
    Tables([Spend(0, Sol, 5, state, 0)], [Caps(5, 5, 5)], map[], map[])
  }

  lemma ReservedOnceIsWithinCaps()
    ensures CapsHold(ReservedOnce(SpendReserved))
  {
    var empty := Tables([], [], map[], map[]);
    ReserveKeepsCaps(empty, Sol, 5, Caps(5, 5, 5), 0, 0);
    assert AddReservation(empty, Sol, 5, Caps(5, 5, 5), 0, 0) == ReservedOnce(SpendReserved);
  }

  lemma ReleasedOnceIsWithinCaps()
    ensures CapsHold(ReservedOnce(SpendReleased))
  {
    ReservedOnceIsWithinCaps();
    SetSpendKeepsCaps(ReservedOnce(SpendReserved), 0, SpendReleased);
    assert SetSpend(ReservedOnce(SpendReserved), 0, SpendReleased) == ReservedOnce(SpendReleased);
  }

  /** The released row counts nothing, so the same amount is admitted again. */
  lemma ReservedOnceIsForgotten(since: int)
    ensures SumActive(ReservedOnce(SpendReleased).spends, Sol, since) == 0
  {
    assert ReservedOnce(SpendReleased).spends[..0] == [];
  }

  lemma ReservedAgainIsWithinCaps()
    ensures CapsHold(ReservedAgain())
  {
    ReleasedOnceIsWithinCaps();
    ReservedOnceIsForgotten(0 - HOUR_MS);
    ReservedOnceIsForgotten(0 - DAY_MS);
    ReserveKeepsCaps(ReservedOnce(SpendReleased), Sol, 5, Caps(5, 5, 5), 1, 0);
    assert AddReservation(ReservedOnce(SpendReleased), Sol, 5, Caps(5, 5, 5), 1, 0) == ReservedAgain();
  }

  /** From there one unguarded consume of the released row takes the hour past its cap. */
  lemma ConsumeCanBreakTheCap()
    ensures CapsHold(ReservedAgain())
    ensures !CapsHold(Consume(ReservedAgain(), Some(0)))
  {
    ReservedAgainIsWithinCaps();
    var spends := Consume(ReservedAgain(), Some(0)).spends;
    assert spends[..1][..0] == [];
    assert WindowSum(spends[..1], Sol, 0, HOUR_MS) == 5;
    assert !WindowHolds(Consume(ReservedAgain(), Some(0)), Sol, 0, Hour);
  }

  // ---------------------------------------------------------------- the read-only preview

  /** The cap check of a dry run. */
  function AssertWithinCaps(amount: int, caps: Caps, used: (int, int)): Option<DenyReason> {
    if amount > caps.perTrade then Some(PerTrade)
    else if used.0 + amount > caps.perHour then Some(PerHour)
    else if used.1 + amount > caps.perDay then Some(PerDay)
    else None
  }

  /** At one instant a preview and a live reserve give the same answer, with the same reason. */
  lemma PreviewAgreesWithReserve(t: Tables, b: Bucket, amount: int, caps: Caps, now: int)
    ensures AssertWithinCaps(amount, caps, Usage(t, b, now))
            == match ReserveDecision(t, b, amount, caps, now)
               case Reserved(_, _, _) => None
               case Denied(reason, _, _) => Some(reason)
  {
  }
}

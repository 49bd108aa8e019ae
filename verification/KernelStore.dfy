/** The kernel's single-writer store: spend reservations, trade rows and idempotency keys.
 *
 * A table is a value; every statement of the store is a function on `Tables`, and class `KernelStore`
 * is the object whose methods run those statements in place. Rows of `spends` are only ever appended,
 * so a reservation id is the position of its row.
 */
module Kernel {
  import opened Prelude

  const HOUR_MS := 3_600_000
  const DAY_MS := 86_400_000

  datatype Bucket = Sol | Usdc

  datatype SpendState = SpendReserved | SpendConsumed | SpendReleased

  datatype Spend = Spend(tradeId: nat, bucket: Bucket, amount: int, state: SpendState, createdAt: int)

  datatype Caps = Caps(perTrade: int, perHour: int, perDay: int)

  datatype DenyReason = PerTrade | PerHour | PerDay

  datatype ReserveOutcome =
    | Reserved(id: nat, usedHour: int, usedDay: int)
    | Denied(reason: DenyReason, cap: int, would: int)

  datatype TradeState = TradeReserved | Sent | Confirmed | Expired | Errored

  datatype TradeRow = TradeRow(
    key: string, state: TradeState, signature: Option<string>, signedWire: Option<string>,
    reservation: Option<nat>, inputAmount: int, lastValidBlockHeight: int, error: Option<string>)

  /** `capLog[i]` records the caps under which `spends[i]` was admitted; nothing ever reads it back. */
  datatype Tables = Tables(
    spends: seq<Spend>, capLog: seq<Caps>, trades: map<nat, TradeRow>, keys: map<string, nat>)

  // ---------------------------------------------------------------- sums over the spend table

  predicate Active(s: Spend) {
    s.state != SpendReleased
  }

  /** Reserved or consumed base units of one bucket created at `since` or later. */
  function SumActive(spends: seq<Spend>, b: Bucket, since: int): int {
    if spends == [] then 0
    else
      var last := spends[|spends| - 1];
      SumActive(spends[..|spends| - 1], b, since)
      + if last.bucket == b && Active(last) && last.createdAt >= since then last.amount else 0
  }

  predicate InWindow(s: Spend, b: Bucket, lo: int, hi: int) {
    s.bucket == b && lo <= s.createdAt <= hi
  }

  /** Reserved or consumed base units of one bucket created in the closed interval [lo, hi]. */
  ghost function WindowSum(spends: seq<Spend>, b: Bucket, lo: int, hi: int): int {
    if spends == [] then 0
    else
      var last := spends[|spends| - 1];
      WindowSum(spends[..|spends| - 1], b, lo, hi)
      + if InWindow(last, b, lo, hi) && Active(last) then last.amount else 0
  }

  /** The reservation inserted last among those created in [lo, hi], whatever became of it since. */
  ghost function LastInWindow(spends: seq<Spend>, b: Bucket, lo: int, hi: int): (r: Option<nat>)
    ensures r.Some? ==> r.value < |spends| && InWindow(spends[r.value], b, lo, hi)
    ensures forall i :: (if r.Some? then r.value + 1 else 0) <= i < |spends| ==> !InWindow(spends[i], b, lo, hi)
  {
    if spends == [] then None
    else if InWindow(spends[|spends| - 1], b, lo, hi) then Some(|spends| - 1)
    else LastInWindow(spends[..|spends| - 1], b, lo, hi)
  }

  // ---------------------------------------------------------------- the statements

  function Usage(t: Tables, b: Bucket, now: int): (int, int) {
    (SumActive(t.spends, b, now - HOUR_MS), SumActive(t.spends, b, now - DAY_MS))
  }

  function ReserveDecision(t: Tables, b: Bucket, amount: int, caps: Caps, now: int): ReserveOutcome {
    var (usedHour, usedDay) := Usage(t, b, now);
    if amount > caps.perTrade then Denied(PerTrade, caps.perTrade, amount)
    else if usedHour + amount > caps.perHour then Denied(PerHour, caps.perHour, usedHour + amount)
    else if usedDay + amount > caps.perDay then Denied(PerDay, caps.perDay, usedDay + amount)
    else Reserved(|t.spends|, usedHour, usedDay)
  }

  function AddReservation(t: Tables, b: Bucket, amount: int, caps: Caps, tradeId: nat, now: int): Tables {
    t.(spends := t.spends + [Spend(tradeId, b, amount, SpendReserved, now)], capLog := t.capLog + [caps])
  }

  function SetSpend(t: Tables, r: nat, state: SpendState): Tables {
    if r < |t.spends| then t.(spends := t.spends[r := t.spends[r].(state := state)]) else t
  }

  function Release(t: Tables, r: Option<nat>): Tables {
    if r.Some? && r.value < |t.spends| && t.spends[r.value].state == SpendReserved
    then SetSpend(t, r.value, SpendReleased) else t
  }

  function Consume(t: Tables, r: Option<nat>): Tables {
    if r.Some? then SetSpend(t, r.value, SpendConsumed) else t
  }

  function ClaimKey(t: Tables, key: string, tradeId: nat): Tables {
    if key in t.keys then t else t.(keys := t.keys[key := tradeId])
  }

  predicate RowConflicts(t: Tables, id: nat, key: string) {
    id in t.trades || exists other | other in t.trades :: t.trades[other].key == key
  }

  function PutTrade(t: Tables, id: nat, row: TradeRow): Tables {
    t.(trades := t.trades[id := row])
  }

  function PersistSigned(t: Tables, id: nat, wire: string, signature: string): Tables {
    if id in t.trades then PutTrade(t, id, t.trades[id].(signedWire := Some(wire), signature := Some(signature))) else t
  }

  function SetSignature(t: Tables, id: nat, signature: string): Tables {
    if id in t.trades then PutTrade(t, id, t.trades[id].(signature := Some(signature))) else t
  }

  function SetState(t: Tables, id: nat, state: TradeState): Tables {
    if id in t.trades then PutTrade(t, id, t.trades[id].(state := state)) else t
  }

  function Fail(t: Tables, id: nat, state: TradeState, error: string): Tables {
    if id in t.trades then PutTrade(t, id, t.trades[id].(state := state, error := Some(error))) else t
  }

  ghost predicate WellFormed(t: Tables) {
    |t.capLog| == |t.spends|
  }

  // ---------------------------------------------------------------- the store object

  class KernelStore {
    var spends: seq<Spend>
    ghost var capLog: seq<Caps>
    var trades: map<nat, TradeRow>
    var keys: map<string, nat>

    ghost function State(): Tables
      reads this
    {
      Tables(spends, capLog, trades, keys)
    }

    constructor ()
      ensures State() == Tables([], [], map[], map[])
    {
      spends, capLog, trades, keys := [], [], map[], map[];
    }

    /** The running sum over the matching rows, as the store accumulates it. */
    method SumActiveRows(b: Bucket, since: int) returns (sum: int)
      ensures sum == SumActive(spends, b, since)
    {
      sum := 0;
      for i := 0 to |spends|
        invariant sum == SumActive(spends[..i], b, since)
      {
        assert spends[..i + 1][..i] == spends[..i];
        if spends[i].bucket == b && Active(spends[i]) && spends[i].createdAt >= since {
          sum := sum + spends[i].amount;
        }
      }
      assert spends[..|spends|] == spends;
    }

    method ReadUsage(b: Bucket, now: int) returns (hour: int, day: int)
      ensures (hour, day) == Usage(State(), b, now)
    {
      hour := SumActiveRows(b, now - HOUR_MS);
      day := SumActiveRows(b, now - DAY_MS);
    }

    method ClaimIdempotency(key: string, tradeId: nat) returns (claimed: bool)
      modifies this`keys
      ensures claimed == (key !in old(keys))
      ensures State() == ClaimKey(old(State()), key, tradeId)
    {
      claimed := key !in keys;
      if claimed {
        keys := keys[key := tradeId];
      }
    }

    /** Sums and insert are one transaction: no other statement runs between them. */
    method Reserve(b: Bucket, amount: int, caps: Caps, tradeId: nat, now: int) returns (outcome: ReserveOutcome)
      modifies this`spends, this`capLog
      ensures outcome == ReserveDecision(old(State()), b, amount, caps, now)
      ensures State() == if outcome.Reserved? then AddReservation(old(State()), b, amount, caps, tradeId, now)
                         else old(State())
    {
      var usedHour, usedDay := ReadUsage(b, now);
      if amount > caps.perTrade {
        return Denied(PerTrade, caps.perTrade, amount);
      }
      if usedHour + amount > caps.perHour {
        return Denied(PerHour, caps.perHour, usedHour + amount);
      }
      if usedDay + amount > caps.perDay {
        return Denied(PerDay, caps.perDay, usedDay + amount);
      }
      outcome := Reserved(|spends|, usedHour, usedDay);
      spends := spends + [Spend(tradeId, b, amount, SpendReserved, now)];
      capLog := capLog + [caps];
    }

    method ReleaseReservation(r: Option<nat>)
      modifies this`spends
      ensures State() == Release(old(State()), r)
    {
      if r.Some? && r.value < |spends| && spends[r.value].state == SpendReserved {
        spends := spends[r.value := spends[r.value].(state := SpendReleased)];
      }
    }

    /** The statement has no guard on the present state of the row. */
    method ConsumeReservation(r: Option<nat>)
      modifies this`spends
      ensures State() == Consume(old(State()), r)
    {
      if r.Some? && r.value < |spends| {
        spends := spends[r.value := spends[r.value].(state := SpendConsumed)];
      }
    }

    /** `ok` is false when a uniqueness constraint of the table refuses the row. */
    method InsertTrade(id: nat, row: TradeRow) returns (ok: bool)
      modifies this`trades
      ensures ok == !RowConflicts(old(State()), id, row.key)
      ensures State() == if ok then PutTrade(old(State()), id, row) else old(State())
    {
      ok := id !in trades && forall other | other in trades :: trades[other].key != row.key;
      if ok {
        trades := trades[id := row];
      }
    }

    method PersistSignedWire(id: nat, wire: string, signature: string)
      modifies this`trades
      ensures State() == PersistSigned(old(State()), id, wire, signature)
    {
      if id in trades {
        trades := trades[id := trades[id].(signedWire := Some(wire), signature := Some(signature))];
      }
    }

    method RecordSignature(id: nat, signature: string)
      modifies this`trades
      ensures State() == SetSignature(old(State()), id, signature)
    {
      if id in trades {
        trades := trades[id := trades[id].(signature := Some(signature))];
      }
    }

    method MoveTo(id: nat, state: TradeState)
      modifies this`trades
      ensures State() == SetState(old(State()), id, state)
    {
      if id in trades {
        trades := trades[id := trades[id].(state := state)];
      }
    }

    method FailTrade(id: nat, state: TradeState, error: string)
      modifies this`trades
      ensures State() == Fail(old(State()), id, state, error)
    {
      if id in trades {
        trades := trades[id := trades[id].(state := state, error := Some(error))];
      }
    }
  }
}

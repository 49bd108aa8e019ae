/** The live money path, cut at its awaits.
 *
 * One live call is a suspended frame: `pc` names the promise it waits for. `Begin` and `ResumeCall` are
 * the synchronous blocks between two awaits; class `TradeGateway` runs the same blocks against the store
 * object, and class `Reconciler` runs the boot-time recovery loop.
 */
module Gateway {
  import opened Prelude
  import opened Kernel
  import opened PolicyEngine

  const FEE_BUFFER_LAMPORTS := 3_000_000

  datatype Pc =
    | AwaitMints | AwaitBalances | AwaitPosition | AwaitSimulation | AwaitSignature
    | AwaitBroadcast | AwaitConfirmation | AwaitPostBalances | AwaitSettle
    | Done
    | Dead  // the process died while the frame was suspended

  datatype ConfirmStatus = ChainConfirmed | ChainExpired | ChainFailed

  /** How a suspended frame is resumed. Every promise may also reject. */
  datatype Reply =
    | Threw(code: string)
    | Mints(inputIsToken2022: bool, outputIsToken2022: bool)
    | Balances(input: int, output: int)
    | Position
    | Simulated(ok: bool)
    | Signed(wire: string, signature: string)
    | Landed(landedSignature: string)
    | Confirmation(status: ConfirmStatus)
    | Settled

  /** History: `signRequests` and `broadcasts` are what the frame asked of the wallet and the network, `acknowledged`
    * says that a broadcaster's answer was processed, `onChain` that the transaction has landed, answered for or not. */
  datatype Call = Call(
    key: string, intent: Intent, policy: Policy, now: int, pc: Pc, reservation: Option<nat>, inserted: bool,
    preInput: int, signRequests: nat, broadcasts: seq<string>, acknowledged: bool, onChain: bool)

  datatype Config = Config(landModes: set<string>, positionsMounted: bool)

  predicate Fits(pc: Pc, reply: Reply) {
    match pc
    case AwaitMints => reply.Mints? || reply.Threw?
    case AwaitBalances => reply.Balances? || reply.Threw?
    case AwaitPosition => reply.Position? || reply.Threw?
    case AwaitSimulation => reply.Simulated? || reply.Threw?
    case AwaitSignature => reply.Signed? || reply.Threw?
    case AwaitBroadcast => reply.Landed? || reply.Threw?
    case AwaitConfirmation => reply.Confirmation? || reply.Threw?
    case AwaitPostBalances => reply.Balances? || reply.Threw?
    case AwaitSettle => reply.Settled? || reply.Threw?
    case _ => false
  }

  // ---------------------------------------------------------------- the blocks between awaits

  function FreshCall(key: string, intent: Intent, policy: Policy, now: int, pc: Pc): Call {
    Call(key, intent, policy, now, pc, None, false, 0, 0, [], false, false)
  }

  predicate Admissible(cfg: Config, policy: Policy, intent: Intent, confirmedByUser: bool) {
    && StaticGuards(policy, intent, false, confirmedByUser).None?
    && (intent.kind in PERP_KINDS ==> cfg.positionsMounted)
  }

  /** From the call to the first await. A duplicate key or a refused intent finishes at once. */
  function Begin(cfg: Config, t: Tables, id: nat, key: string, intent: Intent, policy: Policy,
                 confirmedByUser: bool, now: int): (Tables, Call)
  {
    if key in t.keys then (t, FreshCall(key, intent, policy, now, Done))
    else
      var pc := if Admissible(cfg, policy, intent, confirmedByUser) then AwaitMints else Done;
      (ClaimKey(t, key, id), FreshCall(key, intent, policy, now, pc))
  }

  /** The catch block: release whatever was reserved, fail the row if there is one. */
  function CatchBlock(t: Tables, id: nat, c: Call, code: string): (Tables, Call) {
    var released := Release(t, c.reservation);
    (if c.inserted then Fail(released, id, Errored, code) else released, c.(pc := Done))
  }

  function AfterMints(t: Tables, id: nat, c: Call, in2022: bool, out2022: bool): (Tables, Call) {
    if !c.policy.allowToken2022 && (in2022 || out2022) then CatchBlock(t, id, c, "TOKEN2022_UNSUPPORTED")
    else
      match QuoteBucketFor(c.intent.inputMint)
      case None => (t, c.(pc := AwaitBalances))
      case Some(b) =>
        var caps := c.policy.CapsFor(b);
        match ReserveDecision(t, b, c.intent.inputAmount, caps, c.now)
        case Denied(_, _, _) => CatchBlock(t, id, c, "CAP_EXCEEDED")
        case Reserved(r, _, _) =>
          (AddReservation(t, b, c.intent.inputAmount, caps, id, c.now), c.(reservation := Some(r), pc := AwaitBalances))
  }

  function Need(i: Intent): int {
    i.inputAmount + if QuoteBucketFor(i.inputMint) == Some(Sol) then FEE_BUFFER_LAMPORTS else 0
  }

  function NewRow(c: Call): TradeRow {
    TradeRow(c.key, TradeReserved, None, None, c.reservation, c.intent.inputAmount, c.intent.lastValidBlockHeight, None)
  }

  function AfterPosition(t: Tables, id: nat, c: Call): (Tables, Call) {
    if c.preInput < Need(c.intent) then CatchBlock(t, id, c, "INSUFFICIENT_BALANCE")
    else if RowConflicts(t, id, c.key) then CatchBlock(t, id, c, "INTERNAL")
    else (PutTrade(t, id, NewRow(c)), c.(inserted := true, pc := AwaitSimulation))
  }

  /** The signed wire is stored first; only then is a broadcaster looked up and called. */
  function AfterSigned(cfg: Config, t: Tables, id: nat, c: Call, wire: string, signature: string): (Tables, Call) {
    var persisted := PersistSigned(t, id, wire, signature);
    if c.intent.landMode !in cfg.landModes then CatchBlock(persisted, id, c, "BROADCAST_FAILED")
    else (persisted, c.(broadcasts := c.broadcasts + [wire], pc := AwaitBroadcast))
  }

  function AfterConfirmation(t: Tables, id: nat, c: Call, status: ConfirmStatus): (Tables, Call) {
    match status
    case ChainConfirmed => (t, c.(pc := AwaitPostBalances))
    case ChainExpired => (Fail(Release(t, c.reservation), id, Expired, "CONFIRM_TIMEOUT"), c.(pc := Done))
    case ChainFailed => (Fail(Release(t, c.reservation), id, Errored, "BROADCAST_FAILED"), c.(pc := Done))
  }

  function ResumeCall(cfg: Config, t: Tables, id: nat, c: Call, reply: Reply): (Tables, Call)
    requires Fits(c.pc, reply)
  {
    if reply.Threw? then
      CatchBlock(t, id, c, if c.pc == AwaitBroadcast then "BROADCAST_FAILED" else reply.code)
    else
      match c.pc
      case AwaitMints => AfterMints(t, id, c, reply.inputIsToken2022, reply.outputIsToken2022)
      case AwaitBalances => (t, c.(preInput := reply.input, pc := AwaitPosition))
      case AwaitPosition => AfterPosition(t, id, c)
      case AwaitSimulation =>
        if reply.ok then (t, c.(signRequests := c.signRequests + 1, pc := AwaitSignature))
        else CatchBlock(t, id, c, "SIMULATION_FAILED")
      case AwaitSignature => AfterSigned(cfg, t, id, c, reply.wire, reply.signature)
      case AwaitBroadcast =>
        (SetState(SetSignature(t, id, reply.landedSignature), id, Sent),
          c.(acknowledged := true, pc := AwaitConfirmation))
      case AwaitConfirmation => AfterConfirmation(t, id, c, reply.status)
      case AwaitPostBalances => (t, c.(pc := AwaitSettle))
      case AwaitSettle => (SetState(Consume(t, c.reservation), id, Confirmed), c.(pc := Done))
  }

  // ---------------------------------------------------------------- boot-time recovery

  /** `pending` is the work list read at boot; its head is the row whose confirmation is awaited. */
  datatype Recovery = Recovery(pending: seq<nat>, checked: nat, confirmed: nat, failed: nat)

  /** Rows without a signature are failed on the spot; the loop stops at the first row it must ask about. */
  function SkipUnsigned(t: Tables, r: Recovery): (Tables, Recovery)
    decreases |r.pending|
  {
    if r.pending == [] || r.pending[0] !in t.trades || t.trades[r.pending[0]].signature.Some? then (t, r)
    else
      var id := r.pending[0];
      SkipUnsigned(Fail(Release(t, t.trades[id].reservation), id, Errored, "RECONCILE_NO_SIGNATURE"),
                   r.(pending := r.pending[1..], failed := r.failed + 1))
  }

  function BeginRecovery(t: Tables, pending: seq<nat>): (Tables, Recovery) {
    SkipUnsigned(t, Recovery(pending, |pending|, 0, 0))
  }

  function SettleRecovered(t: Tables, r: Recovery, status: ConfirmStatus): (Tables, Recovery)
    requires r.pending != [] && r.pending[0] in t.trades
  {
    var id := r.pending[0];
    var reservation := t.trades[id].reservation;
    var rest := r.(pending := r.pending[1..]);
    match status
    case ChainConfirmed =>
      (SetState(Consume(t, reservation), id, Confirmed), rest.(confirmed := r.confirmed + 1))
    case ChainExpired =>
      (Fail(Release(t, reservation), id, Expired, "RECONCILE_EXPIRED"), rest.(failed := r.failed + 1))
    case ChainFailed =>
      (Fail(Release(t, reservation), id, Errored, "RECONCILE_FAILED"), rest.(failed := r.failed + 1))
  }

  /** A rejected confirmation ends the pass and leaves the remaining rows as they are. */
  function ResumeRecovery(t: Tables, r: Recovery, reply: Reply): (Tables, Recovery)
    requires r.pending != [] && r.pending[0] in t.trades && (reply.Confirmation? || reply.Threw?)
  {
    if reply.Threw? then (t, r.(pending := []))
    else
      var (t', r') := SettleRecovered(t, r, reply.status);
      SkipUnsigned(t', r')
  }

  // ---------------------------------------------------------------- the gateway object

  class TradeGateway {
    const cfg: Config
    const store: KernelStore
    var calls: seq<Call>

    constructor (cfg: Config, store: KernelStore)
      ensures this.cfg == cfg && this.store == store && calls == []
    {
      this.cfg, this.store, this.calls := cfg, store, [];
    }

    method Catch(id: nat, c: Call, code: string) returns (c': Call)
      modifies store
      ensures (store.State(), c') == CatchBlock(old(store.State()), id, c, code)
    {
      store.ReleaseReservation(c.reservation);
      if c.inserted {
        store.FailTrade(id, Errored, code);
      }
      c' := c.(pc := Done);
    }

    /** Start one live call and run it to its first await. */
    method Live(key: string, intent: Intent, policy: Policy, confirmedByUser: bool, now: int)
      modifies this`calls, store
      ensures |calls| == |old(calls)| + 1 && calls[..|old(calls)|] == old(calls)
      ensures (store.State(), calls[|old(calls)|])
              == Begin(cfg, old(store.State()), |old(calls)|, key, intent, policy, confirmedByUser, now)
    {
      var id := |calls|;
      var claimed := store.ClaimIdempotency(key, id);
      if !claimed {
        calls := calls + [FreshCall(key, intent, policy, now, Done)];
        return;
      }
      if StaticGuards(policy, intent, false, confirmedByUser).Some?
         || (intent.kind in PERP_KINDS && !cfg.positionsMounted) {
        calls := calls + [FreshCall(key, intent, policy, now, Done)];
        return;
      }
      calls := calls + [FreshCall(key, intent, policy, now, AwaitMints)];
    }

    method ReserveInputLeg(id: nat, c: Call, in2022: bool, out2022: bool) returns (c': Call)
      modifies store
      ensures (store.State(), c') == AfterMints(old(store.State()), id, c, in2022, out2022)
    {
      if !c.policy.allowToken2022 && (in2022 || out2022) {
        c' := Catch(id, c, "TOKEN2022_UNSUPPORTED");
        return;
      }
      c' := c.(pc := AwaitBalances);
      var bucket := QuoteBucketFor(c.intent.inputMint);
      if bucket.Some? {
        var outcome := store.Reserve(bucket.value, c.intent.inputAmount, c.policy.CapsFor(bucket.value), id, c.now);
        if outcome.Denied? {
          c' := Catch(id, c, "CAP_EXCEEDED");
        } else {
          c' := c.(reservation := Some(outcome.id), pc := AwaitBalances);
        }
      }
    }

    method InsertRow(id: nat, c: Call) returns (c': Call)
      modifies store
      ensures (store.State(), c') == AfterPosition(old(store.State()), id, c)
    {
      if c.preInput < Need(c.intent) {
        c' := Catch(id, c, "INSUFFICIENT_BALANCE");
        return;
      }
      var ok := store.InsertTrade(id, NewRow(c));
      if ok {
        c' := c.(inserted := true, pc := AwaitSimulation);
      } else {
        c' := Catch(id, c, "INTERNAL");
      }
    }

    method PersistThenBroadcast(id: nat, c: Call, wire: string, signature: string) returns (c': Call)
      modifies store
      ensures (store.State(), c') == AfterSigned(cfg, old(store.State()), id, c, wire, signature)
    {
      store.PersistSignedWire(id, wire, signature);
      if c.intent.landMode !in cfg.landModes {
        c' := Catch(id, c, "BROADCAST_FAILED");
      } else {
        c' := c.(broadcasts := c.broadcasts + [wire], pc := AwaitBroadcast);
      }
    }

    method Conclude(id: nat, c: Call, status: ConfirmStatus) returns (c': Call)
      modifies store
      ensures (store.State(), c') == AfterConfirmation(old(store.State()), id, c, status)
    {
      if status != ChainConfirmed {
        store.ReleaseReservation(c.reservation);
        if status == ChainExpired {
          store.FailTrade(id, Expired, "CONFIRM_TIMEOUT");
        } else {
          store.FailTrade(id, Errored, "BROADCAST_FAILED");
        }
        c' := c.(pc := Done);
      } else {
        c' := c.(pc := AwaitPostBalances);
      }
    }

    /** Resume frame `id` with the outcome of the promise it waits for, up to its next await. */
    method Resume(id: nat, reply: Reply)
      requires id < |calls| && Fits(calls[id].pc, reply)
      modifies this`calls, store
      ensures |calls| == |old(calls)| && calls == old(calls)[id := calls[id]]
      ensures (store.State(), calls[id]) == ResumeCall(cfg, old(store.State()), id, old(calls[id]), reply)
    {
      var c := calls[id];
      var c': Call;
      if reply.Threw? {
        c' := Catch(id, c, if c.pc == AwaitBroadcast then "BROADCAST_FAILED" else reply.code);
      } else {
        match c.pc
        case AwaitMints => c' := ReserveInputLeg(id, c, reply.inputIsToken2022, reply.outputIsToken2022);
        case AwaitBalances => c' := c.(preInput := reply.input, pc := AwaitPosition);
        case AwaitPosition => c' := InsertRow(id, c);
        case AwaitSimulation =>
          if reply.ok {
            c' := c.(signRequests := c.signRequests + 1, pc := AwaitSignature);
          } else {
            c' := Catch(id, c, "SIMULATION_FAILED");
          }
        case AwaitSignature => c' := PersistThenBroadcast(id, c, reply.wire, reply.signature);
        case AwaitBroadcast =>
          store.RecordSignature(id, reply.landedSignature);
          store.MoveTo(id, Sent);
          c' := c.(acknowledged := true, pc := AwaitConfirmation);
        case AwaitConfirmation => c' := Conclude(id, c, reply.status);
        case AwaitPostBalances => c' := c.(pc := AwaitSettle);
        case AwaitSettle =>
          store.ConsumeReservation(c.reservation);
          store.MoveTo(id, Confirmed);
          c' := c.(pc := Done);
      }
      calls := calls[id := c'];
    }
  }

  class Reconciler {
    const store: KernelStore
    var pending: seq<nat>
    var checked: nat
    var confirmed: nat
    var failed: nat

    ghost function Progress(): Recovery
      reads this
    {
      Recovery(pending, checked, confirmed, failed)
    }

    constructor (store: KernelStore)
      ensures this.store == store && Progress() == Recovery([], 0, 0, 0)
    {
      this.store, pending, checked, confirmed, failed := store, [], 0, 0, 0;
    }

    method FailUnsigned()
      modifies this, store
      ensures (store.State(), Progress()) == SkipUnsigned(old(store.State()), old(Progress()))
    {
      while pending != [] && pending[0] in store.trades && store.trades[pending[0]].signature.None?
        invariant SkipUnsigned(store.State(), Progress()) == SkipUnsigned(old(store.State()), old(Progress()))
        decreases |pending|
      {
        var id := pending[0];
        store.ReleaseReservation(store.trades[id].reservation);
        store.FailTrade(id, Errored, "RECONCILE_NO_SIGNATURE");
        pending, failed := pending[1..], failed + 1;
      }
    }

    /** Start one pass over the rows found in state `sent`. */
    method Recover(rows: seq<nat>)
      modifies this, store
      ensures (store.State(), Progress()) == BeginRecovery(old(store.State()), rows)
    {
      pending, checked, confirmed, failed := rows, |rows|, 0, 0;
      FailUnsigned();
    }

    method OnConfirmation(reply: Reply)
      requires pending != [] && pending[0] in store.trades && (reply.Confirmation? || reply.Threw?)
      modifies this, store
      ensures (store.State(), Progress()) == ResumeRecovery(old(store.State()), old(Progress()), reply)
    {
      if reply.Threw? {
        pending := [];
        return;
      }
      var id := pending[0];
      var reservation := store.trades[id].reservation;
      if reply.status == ChainConfirmed {
        store.ConsumeReservation(reservation);
        store.MoveTo(id, Confirmed);
        confirmed := confirmed + 1;
      } else {
        store.ReleaseReservation(reservation);
        if reply.status == ChainExpired {
          store.FailTrade(id, Expired, "RECONCILE_EXPIRED");
        } else {
          store.FailTrade(id, Errored, "RECONCILE_FAILED");
        }
        failed := failed + 1;
      }
      pending := pending[1..];
      FailUnsigned();
    }
  }
}

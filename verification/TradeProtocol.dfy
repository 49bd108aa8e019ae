/** Whole runs of the money path: interleaved calls, rejected promises, crashes and boot-time recovery. */
module TradeProtocol {
  import opened Prelude
  import opened Kernel
  import opened SpendCaps
  import opened PolicyEngine
  import opened Gateway

  datatype Sys = Sys(t: Tables, calls: seq<Call>, recovery: Recovery)

  datatype Event =
    | Start(key: string, intent: Intent, policy: Policy, confirmedByUser: bool, now: int)
    | Resume(id: nat, reply: Reply)
    | Crash(rows: seq<nat>)  // the process dies and boots; recovery reads `rows` as its work list
    | RecoveryReply(outcome: Reply)
    | Lands(landing: nat)  // the chain takes the bytes call `landing` handed over, whatever its broadcaster answers

  const EMPTY := Sys(Tables([], [], map[], map[]), [], Recovery([], 0, 0, 0))

  ghost predicate Distinct(ids: seq<nat>) {
    forall i, j :: 0 <= i < j < |ids| ==> ids[i] != ids[j]
  }

  /** The rows a boot-time pass works through: every row in state `sent`, once. */
  ghost predicate ListsSentRows(t: Tables, rows: seq<nat>) {
    && Distinct(rows)
    && forall id :: id in rows <==> id in t.trades && t.trades[id].state == Sent
  }

  ghost predicate Enabled(s: Sys, e: Event) {
    match e
    case Start(_, _, _, _, _) => true
    case Resume(id, reply) => id < |s.calls| && Fits(s.calls[id].pc, reply)
    case Crash(rows) => ListsSentRows(s.t, rows)
    case RecoveryReply(reply) =>
      s.recovery.pending != [] && s.recovery.pending[0] in s.t.trades && (reply.Confirmation? || reply.Threw?)
    case Lands(id) => id < |s.calls| && s.calls[id].broadcasts != []
  }

  function Kill(c: Call): Call {
    if c.pc == Done then c else c.(pc := Dead)
  }

  ghost function Step(cfg: Config, s: Sys, e: Event): Sys
    requires Enabled(s, e)
  {
    match e
    case Start(key, intent, policy, confirmedByUser, now) =>
      var (t, c) := Begin(cfg, s.t, |s.calls|, key, intent, policy, confirmedByUser, now);
      s.(t := t, calls := s.calls + [c])
    case Resume(id, reply) =>
      var (t, c) := ResumeCall(cfg, s.t, id, s.calls[id], reply);
      s.(t := t, calls := s.calls[id := c])
    case Crash(rows) =>
      var (t, r) := BeginRecovery(s.t, rows);
      Sys(t, seq(|s.calls|, i requires 0 <= i < |s.calls| => Kill(s.calls[i])), r)
    case RecoveryReply(reply) =>
      var (t, r) := ResumeRecovery(s.t, s.recovery, reply);
      s.(t := t, recovery := r)
    case Lands(id) => s.(calls := s.calls[id := s.calls[id].(onChain := true)])
  }

  /** `s` is reachable from the empty store by `events`. */
  ghost predicate Runs(cfg: Config, events: seq<Event>, s: Sys)
    decreases |events|
  {
    if events == [] then s == EMPTY
    else
      var n := |events| - 1;
      exists before :: Runs(cfg, events[..n], before) && Enabled(before, events[n]) && s == Step(cfg, before, events[n])
  }

  // ---------------------------------------------------------------- the invariant

  predicate Live(pc: Pc) {
    pc != Done && pc != Dead
  }

  predicate BeforeInsert(pc: Pc) {
    pc == AwaitMints || pc == AwaitBalances || pc == AwaitPosition
  }

  predicate AfterSent(pc: Pc) {
    pc == AwaitConfirmation || pc == AwaitPostBalances || pc == AwaitSettle
  }

  /** The bytes may be on their way: the broadcaster has been called. */
  predicate Handed(pc: Pc) {
    pc == AwaitBroadcast || AfterSent(pc)
  }

  predicate Terminal(state: TradeState) {
    state == Confirmed || state == Expired || state == Errored
  }

  /** The only row states that can stand beside each state of the reservation. */
  predicate Agree(row: TradeState, spend: SpendState) {
    match row
    case TradeReserved => spend == SpendReserved
    case Sent => spend == SpendReserved
    case Confirmed => spend == SpendConsumed
    case Expired => spend == SpendReleased
    case Errored => spend == SpendReleased
  }

  predicate Owns(t: Tables, id: nat, c: Call) {
    c.key in t.keys && t.keys[c.key] == id
  }

  /** A reservation is for the intent's own amount, in its own bucket, and belongs to this call. */
  predicate ReservationOk(t: Tables, id: nat, c: Call) {
    c.reservation.Some? ==>
      var r := c.reservation.value;
      && r < |t.spends|
      && t.spends[r].tradeId == id
      && t.spends[r].amount == c.intent.inputAmount
      && Some(t.spends[r].bucket) == QuoteBucketFor(c.intent.inputMint)
      && t.spends[r].createdAt == c.now
  }

  predicate RowOk(t: Tables, id: nat, c: Call) {
    && (c.inserted <==> id in t.trades)
    && (c.inserted ==>
      var row := t.trades[id];
      && row.key == c.key
      && row.inputAmount == c.intent.inputAmount
      && row.reservation == c.reservation
      && (QuoteBucketFor(c.intent.inputMint).Some? ==> c.reservation.Some?)
      && (c.reservation.Some? && c.reservation.value < |t.spends|
          ==> Agree(row.state, t.spends[c.reservation.value].state))
      && (row.state == Sent ==> row.signature.Some?)
      && (row.state == Sent || row.state == Confirmed || row.state == Expired ==> c.acknowledged)
      && (row.state == TradeReserved ==> !c.acknowledged))
  }

  predicate HistoryOk(t: Tables, id: nat, c: Call) {
    && c.signRequests <= 1
    && |c.broadcasts| <= c.signRequests
    && (c.signRequests > 0 ==> c.inserted)
    && (c.acknowledged ==> c.broadcasts != [])
    && (c.onChain ==> c.broadcasts != [])
    && (c.broadcasts != [] ==> id in t.trades && t.trades[id].signedWire == Some(c.broadcasts[0]))
    && (c.inserted ==> Owns(t, id, c))
  }

  predicate FrameOk(t: Tables, id: nat, c: Call) {
    && (Live(c.pc) ==>
      && Owns(t, id, c)
      && c.intent.inputAmount >= 0
      && (c.pc == AwaitMints ==> c.reservation.None?)
      && (c.inserted <==> !BeforeInsert(c.pc))
      && (c.pc != AwaitMints && QuoteBucketFor(c.intent.inputMint).Some? ==> c.reservation.Some?)
      && (BeforeInsert(c.pc) && c.reservation.Some? && c.reservation.value < |t.spends|
          ==> t.spends[c.reservation.value].state == SpendReserved)
      && (BeforeInsert(c.pc) || c.pc == AwaitSimulation ==> c.signRequests == 0)
      && (c.pc == AwaitSignature ==> c.signRequests == 1 && c.broadcasts == [])
      && (c.pc == AwaitBroadcast ==> c.broadcasts != [])
      && (AfterSent(c.pc) <==> c.acknowledged))
    && (Live(c.pc) && c.inserted && id in t.trades ==>
      t.trades[id].state == if AfterSent(c.pc) then Sent else TradeReserved)
    && (c.pc == Done && c.inserted && id in t.trades ==> Terminal(t.trades[id].state))
    && (c.pc == Done && !c.inserted && c.reservation.Some? && c.reservation.value < |t.spends|
        ==> t.spends[c.reservation.value].state == SpendReleased)
    && (c.pc == Dead && c.inserted && id in t.trades ==> (t.trades[id].state == TradeReserved <==> !c.acknowledged))
  }

  predicate TradeOk(t: Tables, id: nat, c: Call) {
    ReservationOk(t, id, c) && RowOk(t, id, c) && HistoryOk(t, id, c) && FrameOk(t, id, c)
  }

  ghost predicate SpendsOwned(s: Sys) {
    forall r :: 0 <= r < |s.t.spends| ==>
      s.t.spends[r].tradeId < |s.calls| && s.calls[s.t.spends[r].tradeId].reservation == Some(r)
  }

  ghost predicate RecoveryOk(s: Sys) {
    && Distinct(s.recovery.pending)
    && (forall id :: id in s.recovery.pending ==>
      id < |s.calls| && s.calls[id].pc == Dead && id in s.t.trades && s.t.trades[id].state == Sent)
    && (s.recovery.pending != [] ==>
      s.recovery.checked == s.recovery.confirmed + s.recovery.failed + |s.recovery.pending|)
  }

  ghost predicate Inv(s: Sys) {
    && CapsHold(s.t)
    && (forall id :: 0 <= id < |s.calls| ==> TradeOk(s.t, id, s.calls[id]))
    && (forall id :: id in s.t.trades ==> id < |s.calls|)
    && (forall key :: key in s.t.keys ==> s.t.keys[key] < |s.calls|)
    && SpendsOwned(s)
    && RecoveryOk(s)
  }

  // ---------------------------------------------------------------- steps touch one trade only

  /** Everything but trade `id` is as it was; reservations are never forgotten or handed over. */
  ghost predicate TouchesOnly(t: Tables, c: Call, t': Tables, c': Call, id: nat) {
    && t'.keys == t.keys
    && (forall j :: j != id ==> (j in t'.trades <==> j in t.trades))
    && (forall j :: j != id && j in t.trades ==> t'.trades[j] == t.trades[j])
    && |t.spends| <= |t'.spends|
    && (forall r :: 0 <= r < |t.spends| && t.spends[r].tradeId != id ==> t'.spends[r] == t.spends[r])
    && (forall r :: 0 <= r < |t.spends| ==> t'.spends[r].tradeId == t.spends[r].tradeId)
    && (forall r :: |t.spends| <= r < |t'.spends| ==> t'.spends[r].tradeId == id && c'.reservation == Some(r))
    && (c.reservation.Some? ==> c'.reservation == c.reservation)
    && (c.inserted ==> c'.inserted)
  }

  lemma OthersKeepTradeOk(t: Tables, c: Call, t': Tables, c': Call, id: nat, j: nat, other: Call)
    requires TouchesOnly(t, c, t', c', id) && j != id && TradeOk(t, j, other)
    ensures TradeOk(t', j, other)
  {
  }

  lemma CapsIgnoreRows(t: Tables, t': Tables)
    requires CapsHold(t) && t'.spends == t.spends && t'.capLog == t.capLog
    ensures CapsHold(t')
  {
    forall b, start, span: Span ensures WindowHolds(t', b, start, span) {
      assert WindowHolds(t, b, start, span);
    }
  }

  /** Closing a row: confirmed with a consumed reservation, or failed with a released one. */
  function Close(t: Tables, id: nat, reservation: Option<nat>, state: TradeState, error: string): Tables {
    if state == Confirmed then SetState(Consume(t, reservation), id, Confirmed)
    else Fail(Release(t, reservation), id, state, error)
  }

  lemma CloseKeeps(t: Tables, id: nat, c: Call, state: TradeState, error: string, pc: Pc)
    requires TradeOk(t, id, c) && CapsHold(t) && Terminal(state) && (pc == Done || pc == Dead)
    requires c.inserted
      && (t.trades[id].state == Sent || (t.trades[id].state == TradeReserved && state == Errored && pc == Done))
    ensures var t' := Close(t, id, c.reservation, state, error);
            TradeOk(t', id, c.(pc := pc)) && TouchesOnly(t, c, t', c.(pc := pc), id) && CapsHold(t')
            && t'.trades[id].state == state
  {
    var closed := if state == Confirmed then SpendConsumed else SpendReleased;
    if c.reservation.Some? {
      SetSpendKeepsCaps(t, c.reservation.value, closed);
      CapsIgnoreRows(SetSpend(t, c.reservation.value, closed), Close(t, id, c.reservation, state, error));
    } else {
      CapsIgnoreRows(t, Close(t, id, c.reservation, state, error));
    }
  }

  lemma CatchKeeps(t: Tables, id: nat, c: Call, code: string)
    requires TradeOk(t, id, c) && Live(c.pc) && CapsHold(t)
    ensures var (t', c') := CatchBlock(t, id, c, code);
            TradeOk(t', id, c') && TouchesOnly(t, c, t', c', id) && CapsHold(t')
  {
    if c.inserted {
      assert CatchBlock(t, id, c, code) == (Close(t, id, c.reservation, Errored, code), c.(pc := Done));
      CloseKeeps(t, id, c, Errored, code, Done);
    } else if c.reservation.Some? {
      SetSpendKeepsCaps(t, c.reservation.value, SpendReleased);
    }
  }

  lemma ReserveStepKeeps(t: Tables, id: nat, c: Call, in2022: bool, out2022: bool)
    requires TradeOk(t, id, c) && c.pc == AwaitMints && CapsHold(t)
    ensures var (t', c') := AfterMints(t, id, c, in2022, out2022);
            TradeOk(t', id, c') && TouchesOnly(t, c, t', c', id) && CapsHold(t')
  {
    if !c.policy.allowToken2022 && (in2022 || out2022) {
      CatchKeeps(t, id, c, "TOKEN2022_UNSUPPORTED");
    } else if QuoteBucketFor(c.intent.inputMint).Some? {
      var b := QuoteBucketFor(c.intent.inputMint).value;
      var caps := c.policy.CapsFor(b);
      if ReserveDecision(t, b, c.intent.inputAmount, caps, c.now).Denied? {
        CatchKeeps(t, id, c, "CAP_EXCEEDED");
      } else {
        ReserveKeepsCaps(t, b, c.intent.inputAmount, caps, id, c.now);
      }
    }
  }

  lemma InsertStepKeeps(t: Tables, id: nat, c: Call)
    requires TradeOk(t, id, c) && c.pc == AwaitPosition && CapsHold(t) && !RowConflicts(t, id, c.key)
    ensures var (t', c') := AfterPosition(t, id, c);
            TradeOk(t', id, c') && TouchesOnly(t, c, t', c', id) && CapsHold(t')
  {
    if c.preInput < Need(c.intent) {
      CatchKeeps(t, id, c, "INSUFFICIENT_BALANCE");
    } else {
      CapsIgnoreRows(t, PutTrade(t, id, NewRow(c)));
    }
  }

  lemma SignedStepKeeps(cfg: Config, t: Tables, id: nat, c: Call, wire: string, signature: string)
    requires TradeOk(t, id, c) && c.pc == AwaitSignature && CapsHold(t)
    ensures var (t', c') := AfterSigned(cfg, t, id, c, wire, signature);
            TradeOk(t', id, c') && TouchesOnly(t, c, t', c', id) && CapsHold(t')
  {
    var persisted := PersistSigned(t, id, wire, signature);
    CapsIgnoreRows(t, persisted);
    if c.intent.landMode !in cfg.landModes {
      assert TradeOk(persisted, id, c);
      CatchKeeps(persisted, id, c, "BROADCAST_FAILED");
    }
  }

  lemma LandedStepKeeps(t: Tables, id: nat, c: Call, signature: string)
    requires TradeOk(t, id, c) && c.pc == AwaitBroadcast && CapsHold(t)
    ensures var t', c' := SetState(SetSignature(t, id, signature), id, Sent),
      c.(acknowledged := true, pc := AwaitConfirmation);
            TradeOk(t', id, c') && TouchesOnly(t, c, t', c', id) && CapsHold(t')
  {
    CapsIgnoreRows(t, SetState(SetSignature(t, id, signature), id, Sent));
  }

  lemma ConfirmedStepKeeps(t: Tables, id: nat, c: Call, status: ConfirmStatus)
    requires TradeOk(t, id, c) && c.pc == AwaitConfirmation && CapsHold(t)
    ensures var (t', c') := AfterConfirmation(t, id, c, status);
            TradeOk(t', id, c') && TouchesOnly(t, c, t', c', id) && CapsHold(t')
  {
    match status
    case ChainConfirmed =>
    case ChainExpired => CloseKeeps(t, id, c, Expired, "CONFIRM_TIMEOUT", Done);
    case ChainFailed => CloseKeeps(t, id, c, Errored, "BROADCAST_FAILED", Done);
  }

  /** The blocks that only move the frame on. */
  lemma QuietStepKeeps(cfg: Config, t: Tables, id: nat, c: Call, reply: Reply)
    requires TradeOk(t, id, c) && Fits(c.pc, reply) && !reply.Threw?
    requires c.pc == AwaitBalances || (c.pc == AwaitSimulation && reply.ok) || c.pc == AwaitPostBalances
    ensures var (t', c') := ResumeCall(cfg, t, id, c, reply);
            t' == t && TradeOk(t, id, c') && TouchesOnly(t, c, t, c', id)
  {
  }

  lemma ResumeKeeps(cfg: Config, t: Tables, id: nat, c: Call, reply: Reply)
    requires TradeOk(t, id, c) && CapsHold(t) && Fits(c.pc, reply)
      && (c.pc == AwaitPosition ==> !RowConflicts(t, id, c.key))
    ensures var (t', c') := ResumeCall(cfg, t, id, c, reply);
            TradeOk(t', id, c') && TouchesOnly(t, c, t', c', id) && CapsHold(t')
  {
    if reply.Threw? {
      CatchKeeps(t, id, c, if c.pc == AwaitBroadcast then "BROADCAST_FAILED" else reply.code);
    } else if c.pc == AwaitMints {
      ReserveStepKeeps(t, id, c, reply.inputIsToken2022, reply.outputIsToken2022);
    } else if c.pc == AwaitPosition {
      InsertStepKeeps(t, id, c);
    } else if c.pc == AwaitSimulation && !reply.ok {
      CatchKeeps(t, id, c, "SIMULATION_FAILED");
    } else if c.pc == AwaitSignature {
      SignedStepKeeps(cfg, t, id, c, reply.wire, reply.signature);
    } else if c.pc == AwaitBroadcast {
      LandedStepKeeps(t, id, c, reply.landedSignature);
    } else if c.pc == AwaitConfirmation {
      ConfirmedStepKeeps(t, id, c, reply.status);
    } else if c.pc == AwaitSettle {
      CloseKeeps(t, id, c, Confirmed, "", Done);
    } else {
      QuietStepKeeps(cfg, t, id, c, reply);
    }
  }

  // ---------------------------------------------------------------- every event keeps the invariant

  lemma TouchKeepsInv(s: Sys, id: nat, t': Tables, c': Call, recovery': Recovery)
    requires Inv(s) && id < |s.calls|
    requires TradeOk(t', id, c') && TouchesOnly(s.t, s.calls[id], t', c', id) && CapsHold(t')
    requires RecoveryOk(Sys(t', s.calls[id := c'], recovery'))
    ensures Inv(Sys(t', s.calls[id := c'], recovery'))
  {
    var s' := Sys(t', s.calls[id := c'], recovery');
    forall j | 0 <= j < |s'.calls| ensures TradeOk(t', j, s'.calls[j]) {
      if j != id {
        OthersKeepTradeOk(s.t, s.calls[id], t', c', id, j, s.calls[j]);
      }
    }
    forall j | j in t'.trades ensures j < |s'.calls| {
      assert j != id ==> j in s.t.trades;
    }
  }

  /** A row of the same key would belong to the same call, so the unique constraint never fires. */
  lemma InsertNeverConflicts(s: Sys, id: nat)
    requires Inv(s) && id < |s.calls| && Live(s.calls[id].pc) && BeforeInsert(s.calls[id].pc)
    ensures !RowConflicts(s.t, id, s.calls[id].key)
  {
    forall other | other in s.t.trades ensures s.t.trades[other].key != s.calls[id].key {
      assert TradeOk(s.t, other, s.calls[other]);
      assert TradeOk(s.t, id, s.calls[id]);
    }
  }

  lemma ResumeKeepsInv(cfg: Config, s: Sys, id: nat, reply: Reply)
    requires Inv(s) && Enabled(s, Resume(id, reply))
    ensures Inv(Step(cfg, s, Resume(id, reply)))
  {
    assert TradeOk(s.t, id, s.calls[id]);
    if BeforeInsert(s.calls[id].pc) {
      InsertNeverConflicts(s, id);
    }
    var (t', c') := ResumeCall(cfg, s.t, id, s.calls[id], reply);
    ResumeKeeps(cfg, s.t, id, s.calls[id], reply);
    TouchKeepsInv(s, id, t', c', s.recovery);
  }

  lemma BeginKeeps(cfg: Config, t: Tables, id: nat, key: string, intent: Intent, policy: Policy, confirmedByUser: bool,
      now: int)
    requires id !in t.trades
    ensures var (t', c') := Begin(cfg, t, id, key, intent, policy, confirmedByUser, now);
            && TradeOk(t', id, c') && c'.reservation == None
            && t'.spends == t.spends && t'.capLog == t.capLog && t'.trades == t.trades
            && (forall k :: k in t.keys ==> k in t'.keys && t'.keys[k] == t.keys[k])
            && (forall k :: k in t'.keys ==> k in t.keys || t'.keys[k] == id)
  {
    if Begin(cfg, t, id, key, intent, policy, confirmedByUser, now).1.pc == AwaitMints {
      AdmittedAmountIsAnOutflow(policy, intent, false, confirmedByUser);
    }
  }

  lemma MoreKeysKeepTradeOk(t: Tables, t': Tables, j: nat, c: Call)
    requires TradeOk(t, j, c) && t'.spends == t.spends && t'.trades == t.trades
    requires forall k :: k in t.keys ==> k in t'.keys && t'.keys[k] == t.keys[k]
    ensures TradeOk(t', j, c)
  {
  }

  lemma StartKeepsInv(cfg: Config, s: Sys, key: string, intent: Intent, policy: Policy, confirmedByUser: bool, now: int)
    requires Inv(s)
    ensures Inv(Step(cfg, s, Start(key, intent, policy, confirmedByUser, now)))
  {
    var id := |s.calls|;
    var (t', c') := Begin(cfg, s.t, id, key, intent, policy, confirmedByUser, now);
    assert id !in s.t.trades;
    BeginKeeps(cfg, s.t, id, key, intent, policy, confirmedByUser, now);
    CapsIgnoreRows(s.t, t');
    forall j | 0 <= j < id ensures TradeOk(t', j, s.calls[j]) {
      MoreKeysKeepTradeOk(s.t, t', j, s.calls[j]);
    }
  }

  lemma SkipIsIdle(t: Tables, r: Recovery)
    requires forall id :: id in r.pending ==> id in t.trades && t.trades[id].signature.Some?
    ensures SkipUnsigned(t, r) == (t, r)
  {
  }

  lemma KillKeeps(t: Tables, id: nat, c: Call)
    requires TradeOk(t, id, c)
    ensures TradeOk(t, id, Kill(c))
    ensures id in t.trades && t.trades[id].state == Sent ==> Kill(c).pc == Dead && t.trades[id].signature.Some?
  {
  }

  lemma CrashReadsTheSentRows(cfg: Config, s: Sys, rows: seq<nat>)
    requires Inv(s) && Enabled(s, Crash(rows))
    ensures BeginRecovery(s.t, rows) == (s.t, Recovery(rows, |rows|, 0, 0))
    ensures forall id :: id in rows ==> id < |s.calls| && Kill(s.calls[id]).pc == Dead
  {
    forall id | id in rows
      ensures id < |s.calls| && Kill(s.calls[id]).pc == Dead && s.t.trades[id].signature.Some?
    {
      KillKeeps(s.t, id, s.calls[id]);
    }
    SkipIsIdle(s.t, Recovery(rows, |rows|, 0, 0));
  }

  lemma CrashKeepsInv(cfg: Config, s: Sys, rows: seq<nat>)
    requires Inv(s) && Enabled(s, Crash(rows))
    ensures Inv(Step(cfg, s, Crash(rows)))
    ensures Step(cfg, s, Crash(rows)).t == s.t && Step(cfg, s, Crash(rows)).recovery.pending == rows
  {
    CrashReadsTheSentRows(cfg, s, rows);
    var s' := Step(cfg, s, Crash(rows));
    assert s'.t == s.t && s'.recovery == Recovery(rows, |rows|, 0, 0);
    forall j | 0 <= j < |s'.calls| ensures TradeOk(s'.t, j, s'.calls[j]) {
      KillKeeps(s.t, j, s.calls[j]);
    }
  }

  function RecoveredState(status: ConfirmStatus): TradeState {
    match status
    case ChainConfirmed => Confirmed
    case ChainExpired => Expired
    case ChainFailed => Errored
  }

  lemma SettleIsClose(t: Tables, r: Recovery, status: ConfirmStatus)
    requires r.pending != [] && r.pending[0] in t.trades
    ensures exists error ::
      SettleRecovered(t, r, status).0
        == Close(t, r.pending[0], t.trades[r.pending[0]].reservation, RecoveredState(status), error)
  {
    var error := if status == ChainExpired then "RECONCILE_EXPIRED" else "RECONCILE_FAILED";
    assert SettleRecovered(t, r, status).0
           == Close(t, r.pending[0], t.trades[r.pending[0]].reservation, RecoveredState(status), error);
  }

  lemma RestOfQueue(s: Sys, t': Tables, c: Call, r': Recovery)
    requires Inv(s) && s.recovery.pending != [] && r'.pending == s.recovery.pending[1..]
    requires r'.checked == s.recovery.checked
    requires r'.confirmed + r'.failed == s.recovery.confirmed + s.recovery.failed + 1
    requires TouchesOnly(s.t, c, t', c, s.recovery.pending[0])
    ensures RecoveryOk(Sys(t', s.calls, r'))
    ensures forall id :: id in r'.pending ==> id in t'.trades && t'.trades[id].signature.Some?
  {
    forall id | id in r'.pending
      ensures id < |s.calls| && s.calls[id].pc == Dead && id in t'.trades && t'.trades[id].state == Sent
      ensures t'.trades[id].signature.Some?
    {
      var i :| 0 <= i < |r'.pending| && r'.pending[i] == id;
      assert s.recovery.pending[i + 1] == id;
      assert id in s.recovery.pending;
      assert TradeOk(s.t, id, s.calls[id]);
    }
  }

  /** The row a recovery reply is about is closed, and nothing else is touched. */
  lemma RecoveredRowKeeps(s: Sys, status: ConfirmStatus)
    requires Inv(s) && s.recovery.pending != []
    ensures s.recovery.pending[0] < |s.calls| && s.recovery.pending[0] in s.t.trades
    ensures s.t.trades[s.recovery.pending[0]].state == Sent
    ensures var (t', r') := SettleRecovered(s.t, s.recovery, status);
            var id := s.recovery.pending[0];
            var c := s.calls[id];
            && TradeOk(t', id, c) && TouchesOnly(s.t, c, t', c, id) && CapsHold(t')
            && t'.trades[id].state == RecoveredState(status)
            && RecoveryOk(Sys(t', s.calls, r')) && SkipUnsigned(t', r') == (t', r')
  {
    var r := s.recovery;
    assert r.pending[0] in r.pending;
    var id := r.pending[0];
    var c := s.calls[id];
    assert TradeOk(s.t, id, c);
    var (t', r') := SettleRecovered(s.t, r, status);
    SettleIsClose(s.t, r, status);
    var error :| t' == Close(s.t, id, c.reservation, RecoveredState(status), error);
    CloseKeeps(s.t, id, c, RecoveredState(status), error, Dead);
    assert c.(pc := Dead) == c;
    RestOfQueue(s, t', c, r');
    SkipIsIdle(t', r');
  }

  lemma RecoveryKeepsInv(cfg: Config, s: Sys, reply: Reply)
    requires Inv(s) && Enabled(s, RecoveryReply(reply))
    ensures Inv(Step(cfg, s, RecoveryReply(reply)))
  {
    if reply.Confirmation? {
      var id := s.recovery.pending[0];
      RecoveredRowKeeps(s, reply.status);
      var (t', r') := SettleRecovered(s.t, s.recovery, reply.status);
      assert s.calls[id := s.calls[id]] == s.calls;
      TouchKeepsInv(s, id, t', s.calls[id], r');
    }
  }

  lemma LandsKeepsInv(cfg: Config, s: Sys, id: nat)
    requires Inv(s) && Enabled(s, Lands(id))
    ensures Inv(Step(cfg, s, Lands(id)))
  {
    var s' := Step(cfg, s, Lands(id));
    forall j | 0 <= j < |s'.calls| ensures TradeOk(s'.t, j, s'.calls[j]) {
      assert TradeOk(s.t, j, s.calls[j]);
      LandingKeepsTradeOk(s.t, j, s.calls[j]);
    }
  }

  lemma LandingKeepsTradeOk(t: Tables, id: nat, c: Call)
    requires TradeOk(t, id, c)
    ensures c.broadcasts != [] ==> TradeOk(t, id, c.(onChain := true))
  {
  }

  lemma StepKeepsInv(cfg: Config, s: Sys, e: Event)
    requires Inv(s) && Enabled(s, e)
    ensures Inv(Step(cfg, s, e))
  {
    match e
    case Start(key, intent, policy, confirmedByUser, now) =>
      StartKeepsInv(cfg, s, key, intent, policy, confirmedByUser, now);
    case Resume(id, reply) => ResumeKeepsInv(cfg, s, id, reply);
    case Crash(rows) => CrashKeepsInv(cfg, s, rows);
    case RecoveryReply(reply) => RecoveryKeepsInv(cfg, s, reply);
    case Lands(id) => LandsKeepsInv(cfg, s, id);
  }

  lemma {:induction false} RunKeepsInv(cfg: Config, events: seq<Event>, s: Sys)
    requires Runs(cfg, events, s)
    ensures Inv(s)
  {
    if events != [] {
      var n := |events| - 1;
      var before :| Runs(cfg, events[..n], before) && Enabled(before, events[n]) && s == Step(cfg, before, events[n]);
      RunKeepsInv(cfg, events[..n], before);
      StepKeepsInv(cfg, before, events[n]);
    }
  }

  ghost predicate Reachable(cfg: Config, s: Sys) {
    exists events :: Runs(cfg, events, s)
  }

  /** The invariant holds in every reachable state. */
  lemma ReachableInv(cfg: Config, s: Sys)
    requires Reachable(cfg, s)
    ensures Inv(s)
  {
    var events :| Runs(cfg, events, s);
    RunKeepsInv(cfg, events, s);
  }
}

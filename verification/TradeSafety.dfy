/** What the money path promises over every run. */
module TradeSafety {
  import opened Prelude
  import opened Kernel
  import opened SpendCaps
  import opened PolicyEngine
  import opened Gateway
  import opened TradeProtocol

  // ---------------------------------------------------------------- caps

  lemma LastIsLast(spends: seq<Spend>, b: Bucket, lo: int, hi: int, last: nat)
    requires last < |spends| && InWindow(spends[last], b, lo, hi)
    requires forall i :: last < i < |spends| ==> !InWindow(spends[i], b, lo, hi)
    ensures LastInWindow(spends, b, lo, hi) == Some(last)
  {
  }

  /** The rolling caps, for every bucket, instant and span, whatever order the reservation times came in. */
  lemma RollingCapsHold(cfg: Config, s: Sys, b: Bucket, start: int, span: Span, last: nat)
    requires Reachable(cfg, s)
    requires last < |s.t.spends| && InWindow(s.t.spends[last], b, start, start + span.Length())
    requires forall i :: last < i < |s.t.spends| ==> !InWindow(s.t.spends[i], b, start, start + span.Length())
    ensures WellFormed(s.t)
    ensures WindowSum(s.t.spends, b, start, start + span.Length()) <= span.Cap(s.t.capLog[last])
  {
    ReachableInv(cfg, s);
    assert WindowHolds(s.t, b, start, span);
    LastIsLast(s.t.spends, b, start, start + span.Length(), last);
  }

  predicate RowConfirmed(t: Tables, spend: Spend) {
    spend.tradeId in t.trades && t.trades[spend.tradeId].state == Confirmed
  }

  /** Input amounts of the confirmed trades admitted in [lo, hi], read from the trade rows. */
  ghost function ConfirmedInput(t: Tables, spends: seq<Spend>, b: Bucket, lo: int, hi: int): int {
    if spends == [] then 0
    else
      var last := spends[|spends| - 1];
      ConfirmedInput(t, spends[..|spends| - 1], b, lo, hi)
      + if InWindow(last, b, lo, hi) && RowConfirmed(t, last) then t.trades[last.tradeId].inputAmount else 0
  }

  lemma {:induction false} ConfirmedWithinWindow(t: Tables, spends: seq<Spend>, b: Bucket, lo: int, hi: int)
    requires NonNegative(spends)
    requires forall r :: 0 <= r < |spends| && RowConfirmed(t, spends[r]) ==>
      Active(spends[r]) && t.trades[spends[r].tradeId].inputAmount == spends[r].amount
    ensures ConfirmedInput(t, spends, b, lo, hi) <= WindowSum(spends, b, lo, hi)
  {
    if spends != [] {
      ConfirmedWithinWindow(t, spends[..|spends| - 1], b, lo, hi);
    }
  }

  /** What confirmed trades took out of the wallet in any window stays within the cap that admitted the last of them. */
  lemma ConfirmedInputWithinCap(cfg: Config, s: Sys, b: Bucket, start: int, span: Span)
    requires Reachable(cfg, s)
    ensures WellFormed(s.t)
    ensures var last := LastInWindow(s.t.spends, b, start, start + span.Length());
            ConfirmedInput(s.t, s.t.spends, b, start, start + span.Length())
            <= if last.Some? then span.Cap(s.t.capLog[last.value]) else 0
  {
    ReachableInv(cfg, s);
    ConfirmedRowsAreCounted(s);
    ConfirmedFitsCap(s.t, b, start, span);
  }

  ghost predicate ConfirmedAreCounted(t: Tables) {
    forall r :: 0 <= r < |t.spends| && RowConfirmed(t, t.spends[r]) ==>
      Active(t.spends[r]) && t.trades[t.spends[r].tradeId].inputAmount == t.spends[r].amount
  }

  lemma ConfirmedFitsCap(t: Tables, b: Bucket, start: int, span: Span)
    requires CapsHold(t) && ConfirmedAreCounted(t)
    ensures var last := LastInWindow(t.spends, b, start, start + span.Length());
            ConfirmedInput(t, t.spends, b, start, start + span.Length())
            <= if last.Some? then span.Cap(t.capLog[last.value]) else 0
  {
    ConfirmedWithinWindow(t, t.spends, b, start, start + span.Length());
    assert WindowHolds(t, b, start, span);
  }

  lemma ConfirmedRowsAreCounted(s: Sys)
    requires Inv(s)
    ensures ConfirmedAreCounted(s.t)
  {
    forall r | 0 <= r < |s.t.spends| && RowConfirmed(s.t, s.t.spends[r])
      ensures Active(s.t.spends[r]) && s.t.trades[s.t.spends[r].tradeId].inputAmount == s.t.spends[r].amount
    {
      ConfirmedRowIsCounted(s.t, r, s.calls[s.t.spends[r].tradeId]);
    }
  }

  lemma ConfirmedRowIsCounted(t: Tables, r: nat, c: Call)
    requires r < |t.spends| && RowConfirmed(t, t.spends[r])
    requires TradeOk(t, t.spends[r].tradeId, c) && c.reservation == Some(r)
    ensures Active(t.spends[r]) && t.trades[t.spends[r].tradeId].inputAmount == t.spends[r].amount
  {
  }

  /** Reservation `r` stands for trade `id`: its amount, its bucket and the time its call began. */
  predicate Counts(s: Sys, r: nat, id: nat)
    requires id in s.t.trades && id < |s.calls|
  {
    && r < |s.t.spends|
    && s.t.spends[r].tradeId == id
    && s.t.spends[r].amount == s.t.trades[id].inputAmount
    && Some(s.t.spends[r].bucket) == QuoteBucketFor(s.calls[id].intent.inputMint)
    && s.t.spends[r].createdAt == s.calls[id].now
  }

  /** No trade that spends a quote asset escapes that count, and none is counted twice. */
  lemma EveryQuoteTradeIsCountedOnce(cfg: Config, s: Sys, id: nat)
    requires Reachable(cfg, s) && id in s.t.trades
    requires id < |s.calls| && QuoteBucketFor(s.calls[id].intent.inputMint).Some?
    ensures exists r :: Counts(s, r, id)
    ensures forall r, r' :: Counts(s, r, id) && Counts(s, r', id) ==> r == r'
  {
    ReachableInv(cfg, s);
    assert TradeOk(s.t, id, s.calls[id]);
    assert Counts(s, s.calls[id].reservation.value, id);
  }

  // ---------------------------------------------------------------- signing and broadcasting

  function SignRequestsFor(calls: seq<Call>, key: string): nat {
    if calls == [] then 0
    else
      var n := |calls| - 1;
      SignRequestsFor(calls[..n], key) + if calls[n].key == key then calls[n].signRequests else 0
  }

  function BroadcastsFor(calls: seq<Call>, key: string): nat {
    if calls == [] then 0
    else
      var n := |calls| - 1;
      BroadcastsFor(calls[..n], key) + if calls[n].key == key then |calls[n].broadcasts| else 0
  }

  lemma {:induction false} OneOwnerBoundsTotals(calls: seq<Call>, key: string, owner: nat)
    requires forall id :: 0 <= id < |calls| && calls[id].key == key ==>
      |calls[id].broadcasts| <= calls[id].signRequests <= if id == owner then 1 else 0
    ensures BroadcastsFor(calls, key) <= SignRequestsFor(calls, key) <= if owner < |calls| then 1 else 0
  {
    if calls != [] {
      OneOwnerBoundsTotals(calls[..|calls| - 1], key, owner);
    }
  }

  /** Over any run, crashes and duplicates included, a key is signed for at most once and broadcast at most once. */
  lemma AtMostOneSignAndBroadcastPerKey(cfg: Config, s: Sys, key: string)
    requires Reachable(cfg, s)
    ensures BroadcastsFor(s.calls, key) <= SignRequestsFor(s.calls, key) <= 1
  {
    ReachableInv(cfg, s);
    var owner := if key in s.t.keys then s.t.keys[key] else 0;
    forall id | 0 <= id < |s.calls| && s.calls[id].key == key
      ensures |s.calls[id].broadcasts| <= s.calls[id].signRequests <= if id == owner then 1 else 0
    {
      assert TradeOk(s.t, id, s.calls[id]);
    }
    OneOwnerBoundsTotals(s.calls, key, owner);
  }

  /** Whatever was handed to the network is on disk, in the row of the call that sent it. */
  lemma BroadcastBytesArePersisted(cfg: Config, s: Sys, id: nat, wire: string)
    requires Reachable(cfg, s) && id < |s.calls| && wire in s.calls[id].broadcasts
    ensures id in s.t.trades && s.t.trades[id].signedWire == Some(wire)
  {
    ReachableInv(cfg, s);
    BroadcastIsStored(s.t, id, s.calls[id], wire);
  }

  lemma BroadcastIsStored(t: Tables, id: nat, c: Call, wire: string)
    requires TradeOk(t, id, c) && wire in c.broadcasts
    ensures id in t.trades && t.trades[id].signedWire == Some(wire)
  {
    assert wire == c.broadcasts[0];
  }

  // ---------------------------------------------------------------- rows and reservations

  /** A row and its reservation are always one of five pairs. */
  lemma RowAndReservationAgree(cfg: Config, s: Sys, id: nat)
    requires Reachable(cfg, s) && id in s.t.trades && s.t.trades[id].reservation.Some?
    ensures var r := s.t.trades[id].reservation.value;
      && r < |s.t.spends| && s.t.spends[r].tradeId == id
      && (s.t.trades[id].state, s.t.spends[r].state) in {
           (TradeReserved, SpendReserved), (Sent, SpendReserved), (Confirmed, SpendConsumed),
           (Expired, SpendReleased), (Errored, SpendReleased)}
  {
    ReachableInv(cfg, s);
    assert TradeOk(s.t, id, s.calls[id]);
  }

  /** A call that ran to its end consumed its reservation if and only if its row is confirmed, and released it
      otherwise. */
  lemma FinishedCallSettlesItsReservation(cfg: Config, s: Sys, id: nat)
    requires Reachable(cfg, s) && id < |s.calls|
    requires s.calls[id].pc == Done && s.calls[id].reservation.Some?
    ensures var r := s.calls[id].reservation.value;
      && r < |s.t.spends|
      && s.t.spends[r].state
         == if id in s.t.trades && s.t.trades[id].state == Confirmed then SpendConsumed else SpendReleased
  {
    ReachableInv(cfg, s);
    assert TradeOk(s.t, id, s.calls[id]);
  }

  /** The next event, whichever it is, leaves a terminal row as it is and never revives a reservation. */
  lemma TerminalRowsAndReleasedSpendsAreFinal(cfg: Config, s: Sys, e: Event)
    requires Reachable(cfg, s) && Enabled(s, e)
    ensures var s' := Step(cfg, s, e);
      && (forall id :: id in s.t.trades ==> id in s'.t.trades)
      && (forall id :: id in s.t.trades && Terminal(s.t.trades[id].state) ==> s'.t.trades[id] == s.t.trades[id])
      && |s.t.spends| <= |s'.t.spends|
      && (forall r :: 0 <= r < |s.t.spends| && s.t.spends[r].state != SpendReserved ==> s'.t.spends[r] == s.t.spends[r])
  {
    ReachableInv(cfg, s);
    match e
    case Start(_, _, _, _, _) =>
    case Resume(id, reply) => ResumeIsFinal(cfg, s, id, reply);
    case Crash(rows) => CrashKeepsInv(cfg, s, rows);
    case RecoveryReply(reply) => RecoveryIsFinal(cfg, s, reply);
    case Lands(_) =>
  }

  /** What was settled before a step that touches only trade `id`, whose own row and reservation were open. */
  ghost predicate KeepsSettled(t: Tables, t': Tables) {
    && (forall j :: j in t.trades ==> j in t'.trades)
    && (forall j :: j in t.trades && Terminal(t.trades[j].state) ==> t'.trades[j] == t.trades[j])
    && |t.spends| <= |t'.spends|
    && (forall r :: 0 <= r < |t.spends| && t.spends[r].state != SpendReserved ==> t'.spends[r] == t.spends[r])
  }

  lemma TouchKeepsSettled(s: Sys, id: nat, t': Tables, c': Call)
    requires Inv(s) && id < |s.calls| && TouchesOnly(s.t, s.calls[id], t', c', id) && TradeOk(t', id, c')
    requires id in s.t.trades ==> !Terminal(s.t.trades[id].state)
    requires s.calls[id].reservation.Some? ==>
      var r := s.calls[id].reservation.value;
      r < |s.t.spends| && s.t.spends[r].state == SpendReserved
    ensures KeepsSettled(s.t, t')
  {
    assert TradeOk(s.t, id, s.calls[id]);
  }

  lemma LiveIsOpen(t: Tables, id: nat, c: Call)
    requires TradeOk(t, id, c) && Live(c.pc)
    ensures id in t.trades ==> !Terminal(t.trades[id].state)
    ensures c.reservation.Some? ==>
      c.reservation.value < |t.spends| && t.spends[c.reservation.value].state == SpendReserved
  {
  }

  lemma ResumeIsFinal(cfg: Config, s: Sys, id: nat, reply: Reply)
    requires Inv(s) && Enabled(s, Resume(id, reply))
    ensures KeepsSettled(s.t, Step(cfg, s, Resume(id, reply)).t)
  {
    var c := s.calls[id];
    assert TradeOk(s.t, id, c);
    if BeforeInsert(c.pc) {
      InsertNeverConflicts(s, id);
    }
    LiveIsOpen(s.t, id, c);
    ResumeKeeps(cfg, s.t, id, c, reply);
    var (t', c') := ResumeCall(cfg, s.t, id, c, reply);
    TouchKeepsSettled(s, id, t', c');
  }

  lemma SentIsOpen(t: Tables, id: nat, c: Call)
    requires TradeOk(t, id, c) && id in t.trades && t.trades[id].state == Sent
    ensures c.reservation.Some? ==>
      c.reservation.value < |t.spends| && t.spends[c.reservation.value].state == SpendReserved
  {
  }

  lemma RecoveryIsFinal(cfg: Config, s: Sys, reply: Reply)
    requires Inv(s) && Enabled(s, RecoveryReply(reply))
    ensures KeepsSettled(s.t, Step(cfg, s, RecoveryReply(reply)).t)
  {
    if reply.Confirmation? {
      var id := s.recovery.pending[0];
      RecoveredRowKeeps(s, reply.status);
      SentIsOpen(s.t, id, s.calls[id]);
      TouchKeepsSettled(s, id, SettleRecovered(s.t, s.recovery, reply.status).0, s.calls[id]);
    }
  }

  /** A recovery reply closes the row it was about; the "no signature" branch never runs. */
  lemma RecoveryIsOneClose(cfg: Config, s: Sys, status: ConfirmStatus)
    requires Reachable(cfg, s) && Enabled(s, RecoveryReply(Confirmation(status)))
    ensures var s' := Step(cfg, s, RecoveryReply(Confirmation(status)));
      && s'.recovery.pending == s.recovery.pending[1..]
      && s'.t == SettleRecovered(s.t, s.recovery, status).0
      && s'.t.trades[s.recovery.pending[0]].state == RecoveredState(status)
  {
    ReachableInv(cfg, s);
    RecoveredRowKeeps(s, status);
  }

  // ---------------------------------------------------------------- what recovery does not reach

  predicate Quiet(s: Sys) {
    && (forall id | 0 <= id < |s.calls| :: !Live(s.calls[id].pc))
    && (forall id | id in s.t.trades :: s.t.trades[id].state != Sent)
  }

  /** Once all frames are gone and recovery has drained, a broadcast trade is settled exactly when its call
    * finished or its broadcast reply had been processed before the crash. */
  lemma BroadcastIsSettledExactlyWhenAcknowledged(cfg: Config, s: Sys, id: nat)
    requires Reachable(cfg, s) && Quiet(s) && id < |s.calls| && s.calls[id].broadcasts != []
    ensures id in s.t.trades
    ensures Terminal(s.t.trades[id].state) <==> s.calls[id].pc == Done || s.calls[id].acknowledged
  {
    ReachableInv(cfg, s);
    assert TradeOk(s.t, id, s.calls[id]);
  }

  ghost predicate Stranded(s: Sys, id: nat) {
    && id < |s.calls| && s.calls[id].pc == Dead && s.calls[id].broadcasts != []
    && id in s.t.trades && s.t.trades[id].state == TradeReserved
    && id !in s.recovery.pending
  }

  /** A crash while the broadcast is in flight leaves bytes on the network and on disk that recovery never looks at. */
  lemma CrashDuringBroadcastStrands(cfg: Config, s: Sys, id: nat, rows: seq<nat>)
    requires Reachable(cfg, s) && id < |s.calls| && s.calls[id].pc == AwaitBroadcast
    requires Enabled(s, Crash(rows))
    ensures Stranded(Step(cfg, s, Crash(rows)), id)
  {
    ReachableInv(cfg, s);
    assert TradeOk(s.t, id, s.calls[id]);
    CrashReadsTheSentRows(cfg, s, rows);
  }

  /** The row and the reservation behind it, which stays reserved. */
  ghost predicate SameTrade(s: Sys, s': Sys, id: nat)
    requires id < |s.calls| && id in s.t.trades
  {
    && id in s'.t.trades && s'.t.trades[id] == s.t.trades[id]
    && (s.calls[id].reservation.Some? ==>
      var r := s.calls[id].reservation.value;
      r < |s.t.spends| <= |s'.t.spends| && s'.t.spends[r] == s.t.spends[r] && s.t.spends[r].state == SpendReserved)
  }

  lemma StrandedIsReserved(t: Tables, id: nat, c: Call)
    requires TradeOk(t, id, c) && id in t.trades && t.trades[id].state == TradeReserved
    ensures c.reservation.Some? ==>
      c.reservation.value < |t.spends| && t.spends[c.reservation.value].tradeId == id
      && t.spends[c.reservation.value].state == SpendReserved
  {
  }

  lemma StrandedThroughResume(cfg: Config, s: Sys, j: nat, reply: Reply, id: nat)
    requires Inv(s) && Enabled(s, Resume(j, reply)) && Stranded(s, id)
    ensures var s' := Step(cfg, s, Resume(j, reply));
      Stranded(s', id) && SameTrade(s, s', id)
  {
    assert TradeOk(s.t, j, s.calls[j]);
    if BeforeInsert(s.calls[j].pc) {
      InsertNeverConflicts(s, j);
    }
    ResumeKeeps(cfg, s.t, j, s.calls[j], reply);
    StrandedIsReserved(s.t, id, s.calls[id]);
  }

  lemma StrandedThroughRecovery(cfg: Config, s: Sys, reply: Reply, id: nat)
    requires Inv(s) && Enabled(s, RecoveryReply(reply)) && Stranded(s, id)
    ensures var s' := Step(cfg, s, RecoveryReply(reply));
      Stranded(s', id) && SameTrade(s, s', id)
  {
    StrandedIsReserved(s.t, id, s.calls[id]);
    if reply.Confirmation? {
      assert s.recovery.pending[0] in s.recovery.pending;
      RecoveredRowKeeps(s, reply.status);
    }
  }

  lemma StrandedThroughBoot(cfg: Config, s: Sys, rows: seq<nat>, id: nat)
    requires Inv(s) && Enabled(s, Crash(rows)) && Stranded(s, id)
    ensures var s' := Step(cfg, s, Crash(rows));
      Stranded(s', id) && SameTrade(s, s', id)
  {
    StrandedIsReserved(s.t, id, s.calls[id]);
    CrashReadsTheSentRows(cfg, s, rows);
  }

  /** No later event, a reboot included, changes that row or frees its reservation. */
  lemma StrandedForever(cfg: Config, s: Sys, e: Event, id: nat)
    requires Reachable(cfg, s) && Enabled(s, e) && Stranded(s, id)
    ensures var s' := Step(cfg, s, e);
      Stranded(s', id) && SameTrade(s, s', id)
  {
    ReachableInv(cfg, s);
    match e
    case Start(_, _, _, _, _) => StrandedIsReserved(s.t, id, s.calls[id]);
    case Resume(j, reply) => StrandedThroughResume(cfg, s, j, reply, id);
    case Crash(rows) => StrandedThroughBoot(cfg, s, rows, id);
    case RecoveryReply(reply) => StrandedThroughRecovery(cfg, s, reply, id);
    case Lands(_) => StrandedIsReserved(s.t, id, s.calls[id]);
  }

  // ---------------------------------------------------------------- releases that concern a landed transaction

  /** `s'` follows from `s` by `events`. */
  ghost predicate Continues(cfg: Config, s: Sys, events: seq<Event>, s': Sys)
    decreases |events|
  {
    if events == [] then s' == s
    else Enabled(s, events[0]) && Continues(cfg, Step(cfg, s, events[0]), events[1..], s')
  }

  /** The call is over, its reservation given back. */
  predicate GaveBack(s: Sys, id: nat) {
    && id < |s.calls| && !Live(s.calls[id].pc) && s.calls[id].reservation.Some?
    && var r := s.calls[id].reservation.value; r < |s.t.spends| && s.t.spends[r].state == SpendReleased
  }

  /** ... and its transaction is on the chain all the same. */
  predicate GaveBackLanded(s: Sys, id: nat) {
    GaveBack(s, id) && s.calls[id].onChain
  }

  /** A continuation after which the reservation is given back and the transaction on the chain. */
  ghost predicate EndsLanded(cfg: Config, s: Sys, events: seq<Event>, s': Sys, id: nat) {
    Continues(cfg, s, events, s') && GaveBackLanded(s', id)
  }

  /** What never left cannot land later. */
  lemma {:induction false} UnsentNeverLands(cfg: Config, s: Sys, events: seq<Event>, s': Sys, id: nat)
    requires Continues(cfg, s, events, s') && id < |s.calls|
    requires !Live(s.calls[id].pc) && s.calls[id].broadcasts == [] && !s.calls[id].onChain
    ensures id < |s'.calls| && !s'.calls[id].onChain
    decreases |events|
  {
    if events != [] {
      UnsentStaysUnsent(cfg, s, events[0], id);
      UnsentNeverLands(cfg, Step(cfg, s, events[0]), events[1..], s', id);
    }
  }

  lemma UnsentStaysUnsent(cfg: Config, s: Sys, e: Event, id: nat)
    requires Enabled(s, e) && id < |s.calls|
    requires !Live(s.calls[id].pc) && s.calls[id].broadcasts == [] && !s.calls[id].onChain
    ensures var s' := Step(cfg, s, e);
      id < |s'.calls| && !Live(s'.calls[id].pc) && s'.calls[id].broadcasts == [] && !s'.calls[id].onChain
  {
  }

  lemma RejectionGivesBack(cfg: Config, s: Sys, id: nat, code: string)
    requires Reachable(cfg, s) && id < |s.calls| && Live(s.calls[id].pc) && s.calls[id].reservation.Some?
    ensures var s' := Step(cfg, s, Resume(id, Threw(code)));
      GaveBack(s', id) && s'.calls[id].broadcasts == s.calls[id].broadcasts
        && s'.calls[id].onChain == s.calls[id].onChain
    ensures s.calls[id].broadcasts != [] <==> Handed(s.calls[id].pc)
    ensures s.calls[id].onChain ==> s.calls[id].broadcasts != []
  {
    ReachableInv(cfg, s);
    assert TradeOk(s.t, id, s.calls[id]);
  }

  lemma LandingIsOneEvent(cfg: Config, s: Sys, id: nat)
    requires GaveBack(s, id) && s.calls[id].broadcasts != []
    ensures Enabled(s, Lands(id)) && Continues(cfg, s, [Lands(id)], Step(cfg, s, Lands(id)))
    ensures GaveBackLanded(Step(cfg, s, Lands(id)), id)
  {
    assert [Lands(id)][1..] == [];
  }

  lemma GivenBackCanLandExactlyIfSent(cfg: Config, s: Sys, id: nat)
    requires GaveBack(s, id) && (s.calls[id].onChain ==> s.calls[id].broadcasts != [])
    ensures s.calls[id].broadcasts != [] <==> exists events, s' :: EndsLanded(cfg, s, events, s', id)
  {
    if s.calls[id].broadcasts != [] {
      LandingIsOneEvent(cfg, s, id);
      var s' := Step(cfg, s, Lands(id));
      assert EndsLanded(cfg, s, [Lands(id)], s', id);
    } else {
      forall events, s' | Continues(cfg, s, events, s')
        ensures !EndsLanded(cfg, s, events, s', id)
      {
        UnsentNeverLands(cfg, s, events, s', id);
      }
    }
  }

  /** A rejected promise always gives the reservation back. That can concern a transaction which has landed, or still
    * lands, exactly when the broadcaster had been called: from the await of the broadcast itself on. */
  lemma RejectionCanGiveBackALandedTradeExactlyOnceHanded(cfg: Config, s: Sys, id: nat, code: string)
    requires Reachable(cfg, s) && id < |s.calls| && Live(s.calls[id].pc) && s.calls[id].reservation.Some?
    ensures var s' := Step(cfg, s, Resume(id, Threw(code)));
      && GaveBack(s', id)
      && (Handed(s.calls[id].pc) <==> exists events, s'' :: EndsLanded(cfg, s', events, s'', id))
  {
    RejectionGivesBack(cfg, s, id, code);
    GivenBackCanLandExactlyIfSent(cfg, Step(cfg, s, Resume(id, Threw(code))), id);
  }

  /** The case the broadcaster hides: the node took the bytes, then the send rejected. */
  lemma RejectedBroadcastCanHaveLanded(cfg: Config, s: Sys, id: nat, code: string)
    requires Reachable(cfg, s) && id < |s.calls| && s.calls[id].pc == AwaitBroadcast && s.calls[id].reservation.Some?
    ensures Enabled(s, Lands(id)) && Enabled(Step(cfg, s, Lands(id)), Resume(id, Threw(code)))
    ensures var s' := Step(cfg, Step(cfg, s, Lands(id)), Resume(id, Threw(code)));
      GaveBackLanded(s', id) && id in s'.t.trades && s'.t.trades[id].state == Errored
  {
    ReachableInv(cfg, s);
    assert TradeOk(s.t, id, s.calls[id]);
  }

  lemma ReachableNext(cfg: Config, s: Sys, e: Event)
    requires Reachable(cfg, s) && Enabled(s, e)
    ensures Reachable(cfg, Step(cfg, s, e))
  {
    var events :| Runs(cfg, events, s);
    var more := events + [e];
    assert more[..|more| - 1] == events && more[|more| - 1] == e;
    assert Runs(cfg, more, Step(cfg, s, e));
  }

  lemma EmptyIsReachable(cfg: Config)
    ensures Reachable(cfg, EMPTY)
  {
    assert Runs(cfg, [], EMPTY);
  }

  /** The only call of a run so far, for intent `i`, waits at `pc`. */
  ghost predicate Alone(cfg: Config, s: Sys, i: Intent, pc: Pc) {
    && Reachable(cfg, s) && |s.calls| == 1 && s.calls[0].intent == i && s.calls[0].pc == pc
    && (pc != AwaitMints ==> s.calls[0].reservation.Some?)
  }

  lemma FittingTradeReserves(cfg: Config, key: string, i: Intent, policy: Policy, now: int, b: Bucket) returns (s: Sys)
    requires Admissible(cfg, policy, i, true) && QuoteBucketFor(i.inputMint) == Some(b)
    requires i.inputAmount <= policy.CapsFor(b).perTrade && i.inputAmount <= policy.CapsFor(b).perHour
    requires i.inputAmount <= policy.CapsFor(b).perDay
    ensures Alone(cfg, s, i, AwaitBalances) && s.t.trades == map[]
  {
    EmptyIsReachable(cfg);
    ReachableNext(cfg, EMPTY, Start(key, i, policy, true, now));
    s := Step(cfg, EMPTY, Start(key, i, policy, true, now));
    assert s.calls == [FreshCall(key, i, policy, now, AwaitMints)] && s.t.spends == [] && s.t.trades == map[];
    assert ReserveDecision(s.t, b, i.inputAmount, policy.CapsFor(b), now).Reserved?;
    ReachableNext(cfg, s, Resume(0, Mints(false, false)));
    s := Step(cfg, s, Resume(0, Mints(false, false)));
  }

  lemma FundedTradeIsInserted(cfg: Config, before: Sys, i: Intent) returns (s: Sys)
    requires Alone(cfg, before, i, AwaitBalances) && before.t.trades == map[]
    ensures Alone(cfg, s, i, AwaitSimulation)
  {
    ReachableNext(cfg, before, Resume(0, Balances(Need(i), 0)));
    s := Step(cfg, before, Resume(0, Balances(Need(i), 0)));
    assert s.t == before.t && s.calls[0] == before.calls[0].(preInput := Need(i), pc := AwaitPosition);
    ReachableNext(cfg, s, Resume(0, Position));
    s := Step(cfg, s, Resume(0, Position));
  }

  lemma SimulatedTradeIsHanded(cfg: Config, before: Sys, i: Intent) returns (s: Sys)
    requires Alone(cfg, before, i, AwaitSimulation) && i.landMode in cfg.landModes
    ensures Alone(cfg, s, i, AwaitBroadcast)
  {
    ReachableNext(cfg, before, Resume(0, Simulated(true)));
    s := Step(cfg, before, Resume(0, Simulated(true)));
    assert Alone(cfg, s, i, AwaitSignature);
    ReachableNext(cfg, s, Resume(0, Signed("", "")));
    s := Step(cfg, s, Resume(0, Signed("", "")));
  }

  /** ... and every admissible quote trade that fits its caps gets that far in some run. */
  lemma EveryFittingTradeReachesTheBroadcast(cfg: Config, key: string, i: Intent, policy: Policy, now: int, b: Bucket)
    requires Admissible(cfg, policy, i, true) && QuoteBucketFor(i.inputMint) == Some(b) && i.landMode in cfg.landModes
    requires i.inputAmount <= policy.CapsFor(b).perTrade && i.inputAmount <= policy.CapsFor(b).perHour
    requires i.inputAmount <= policy.CapsFor(b).perDay
    ensures exists s :: Alone(cfg, s, i, AwaitBroadcast)
  {
    var reserved := FittingTradeReserves(cfg, key, i, policy, now, b);
    var inserted := FundedTradeIsInserted(cfg, reserved, i);
    var handed := SimulatedTradeIsHanded(cfg, inserted, i);
    assert Alone(cfg, handed, i, AwaitBroadcast);
  }

  /** A pass that no rejection cut short accounts for every row it read. */
  lemma RecoverySummaryAddsUp(cfg: Config, s: Sys, status: ConfirmStatus)
    requires Reachable(cfg, s) && Enabled(s, RecoveryReply(Confirmation(status)))
    requires |s.recovery.pending| == 1
    ensures var r := Step(cfg, s, RecoveryReply(Confirmation(status))).recovery;
      r.pending == [] && r.checked == r.confirmed + r.failed
  {
    RecoveryIsOneClose(cfg, s, status);
    ReachableInv(cfg, s);
  }
}

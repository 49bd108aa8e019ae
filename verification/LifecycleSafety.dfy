/** What the execution lifecycle promises over every run and every race. */
module LifecycleSafety {
  import opened Prelude
  import opened Executions
  import opened Orchestrator
  import opened Lifecycle

  /** An execution has a signature exactly in the seven states that say so. */
  lemma SignatureExactlyWhenSigned(cfg: Config, s: Sys, id: nat)
    requires Reachable(cfg, s) && id < |s.rows|
    ensures s.rows[id].signature.Some? <==>
      s.rows[id].state in {Submitting, ReconciliationRequired, Broadcast, Confirmed, Finalized, Failed, Dropped}
  {
    ReachableInv(cfg, s);
    assert RowOk(s.rows[id]);
  }

  /** However submits and recoveries race, the orchestrator itself hands the cluster at most one transaction per
    * execution, the one on record. */
  lemma AtMostOneBroadcastPerExecution(cfg: Config, s: Sys, id: nat)
    requires Reachable(cfg, s) && id < |s.rows|
    ensures id < |s.sent| && |s.sent[id]| <= 1
    ensures forall signature :: signature in s.sent[id] ==> s.rows[id].signature == Some(signature)
  {
    ReachableInv(cfg, s);
    assert SentOk(s.rows[id], s.sent[id]);
  }

  /** An idempotency key names at most one execution; with the lemma before, it puts at most one transaction on the
      wire. */
  lemma AtMostOneExecutionPerKey(cfg: Config, s: Sys, i: nat, j: nat)
    requires Reachable(cfg, s) && i < |s.rows| && j < |s.rows| && s.rows[i].key == s.rows[j].key
    ensures i == j
  {
    ReachableInv(cfg, s);
  }

  /** What a row keeps from one state to any later one. */
  predicate Keeps(x: Execution, y: Execution) {
    && x.version <= y.version
    && (x.signature.Some? ==> y.signature == x.signature)
    && (Signed(x.state) ==> Signed(y.state))
    && (Closed(x.state) ==> y == x)
  }

  /** `s'` follows from `s` by `events`. */
  ghost predicate Continues(cfg: Config, s: Sys, events: seq<Event>, s': Sys)
    decreases |events|
  {
    if events == [] then s' == s
    else Enabled(s, events[0]) && Continues(cfg, Step(cfg, s, events[0]), events[1..], s')
  }

  lemma {:induction false} ContinuationKeeps(cfg: Config, s: Sys, events: seq<Event>, s': Sys, id: nat)
    requires Inv(s) && Continues(cfg, s, events, s') && id < |s.rows|
    ensures id < |s'.rows| && Keeps(s.rows[id], s'.rows[id])
    decreases |events|
  {
    if events != [] {
      StepKeepsInv(cfg, s, events[0]);
      ContinuationKeeps(cfg, Step(cfg, s, events[0]), events[1..], s', id);
    }
  }

  /** A signature is written once and kept; a signed execution never returns to an unsigned state;
    * a dry-run, denied or expired row never changes again. */
  lemma SignedForGoodAndClosedForGood(cfg: Config, s: Sys, events: seq<Event>, s': Sys, id: nat)
    requires Reachable(cfg, s) && Continues(cfg, s, events, s') && id < |s.rows|
    ensures id < |s'.rows|
    ensures s.rows[id].signature.Some? ==> s'.rows[id].signature == s.rows[id].signature
    ensures s.rows[id].signature.Some? ==>
      s'.rows[id].state !in {AwaitingApproval, Approved, Signing, Expired, Denied, DryRun}
    ensures s.rows[id].state in {DryRun, Denied, Expired} ==> s'.rows[id] == s.rows[id]
  {
    ReachableInv(cfg, s);
    assert RowOk(s.rows[id]);
    ContinuationKeeps(cfg, s, events, s', id);
  }

  /** Every single event moves every row along the lifecycle diagram, or leaves it where it is. */
  lemma EveryStepIsAnEdge(cfg: Config, s: Sys, e: Event, id: nat)
    requires Reachable(cfg, s) && Enabled(s, e) && id < |s.rows|
    ensures var s' := Step(cfg, s, e);
      && id < |s'.rows|
      && (Edge(s.rows[id].state, s'.rows[id].state)
          || (s.rows[id].state == Signing && s'.rows[id].state == ReconciliationRequired))
  {
    ReachableInv(cfg, s);
    StepKeepsInv(cfg, s, e);
  }

  // ---------------------------------------------------------------- settled rows

  predicate Reconciles(pc: Pc) {
    pc.ReconcileStatus? || pc.ReconcileHeight? || pc.ReconcileRelease?
  }

  function Snapshot(pc: Pc): Execution
    requires Reconciles(pc)
  {
    match pc
    case ReconcileStatus(x) => x
    case ReconcileHeight(x) => x
    case ReconcileRelease(x) => x
  }

  /** A settled row is only ever moved by a reconciliation that read it when it was already settled. */
  lemma OnlySettledReadsMoveSettledRows(cfg: Config, rows: seq<Execution>, id: nat, pc: Pc, r: Reply)
    requires id < |rows| && Settled(rows[id].state) && Holds(rows[id], pc) && Fits(pc, r)
    requires Reconciles(pc) ==> Snapshot(pc).state != rows[id].state
    ensures ResumeBlock(cfg, rows, id, pc, r).rows == rows
  {
  }

  lemma SnapshotIsCarried(cfg: Config, rows: seq<Execution>, id: nat, pc: Pc, r: Reply)
    requires Fits(pc, r) && Reconciles(ResumeBlock(cfg, rows, id, pc, r).pc)
    ensures Reconciles(pc) && Snapshot(ResumeBlock(cfg, rows, id, pc, r).pc) == Snapshot(pc)
  {
  }

  /** Reconciliation runs only inside passes, and passes do not overlap. */
  predicate Disciplined(e: Event) {
    !e.OperatorReconcile?
  }

  ghost predicate PassOk(s: Sys) {
    && (forall i, j :: 0 <= i < j < |s.queue| ==> s.queue[i].id != s.queue[j].id)
    && (forall i :: 0 <= i < |s.queue| && s.queue[i].state != Signing && s.queue[i].state != Submitting ==>
      s.queue[i].id < |s.rows| && !Settled(s.rows[s.queue[i].id].state))
    && (forall k :: 0 <= k < |s.frames| && Reconciles(s.frames[k].pc) ==>
      && s.current == Some(k)
      && !Settled(Snapshot(s.frames[k].pc).state)
      && forall i :: 0 <= i < |s.queue| ==> s.queue[i].id != s.frames[k].id)
  }

  ghost predicate SettledKept(s: Sys, s': Sys) {
    |s.rows| <= |s'.rows| && forall id :: 0 <= id < |s.rows| && Settled(s.rows[id].state) ==> s'.rows[id] == s.rows[id]
  }

  /** What a resumed block does to settledness and to snapshots. */
  predicate PassBlock(rows: seq<Execution>, id: nat, pc: Pc, b: Block)
    requires id < |rows|
  {
    && |b.rows| == |rows| && b.rows == rows[id := b.rows[id]]
    && (Settled(rows[id].state) && (Reconciles(pc) ==> !Settled(Snapshot(pc).state)) ==> b.rows == rows)
    && (Reconciles(b.pc) ==> Reconciles(pc) && Snapshot(b.pc) == Snapshot(pc))
    && (!Reconciles(pc) && !Settled(rows[id].state) ==> !Settled(b.rows[id].state))
  }

  lemma ResumeIsPassBlock(cfg: Config, rows: seq<Execution>, id: nat, pc: Pc, r: Reply)
    requires id < |rows| && RowOk(rows[id]) && Holds(rows[id], pc) && Fits(pc, r)
    ensures PassBlock(rows, id, pc, ResumeBlock(cfg, rows, id, pc, r))
  {
    ResumeIsGood(cfg, rows, id, pc, r);
    if Settled(rows[id].state) && (Reconciles(pc) ==> !Settled(Snapshot(pc).state)) {
      OnlySettledReadsMoveSettledRows(cfg, rows, id, pc, r);
    }
    if Reconciles(ResumeBlock(cfg, rows, id, pc, r).pc) {
      SnapshotIsCarried(cfg, rows, id, pc, r);
    }
    if !Reconciles(pc) && !Settled(rows[id].state) {
      OnlyReconcileSettles(cfg, rows, id, pc, r);
    }
  }

  lemma ResumeKeepsPass(cfg: Config, s: Sys, k: nat, r: Reply)
    requires Inv(s) && PassOk(s) && Enabled(s, Resume(k, r))
    ensures var s' := Step(cfg, s, Resume(k, r)); PassOk(s') && SettledKept(s, s')
  {
    var f := s.frames[k];
    var b := ResumeBlock(cfg, s.rows, f.id, f.pc, r);
    ResumeIsPassBlock(cfg, s.rows, f.id, f.pc, r);
    PassBlockKeepsPass(s, Step(cfg, s, Resume(k, r)), k, b);
  }

  lemma PassBlockKeepsPass(s: Sys, s': Sys, k: nat, b: Block)
    requires Inv(s) && PassOk(s) && k < |s.frames| && s.frames[k].id < |s.rows|
    requires PassBlock(s.rows, s.frames[k].id, s.frames[k].pc, b)
    requires s'.rows == b.rows && s'.frames == s.frames[k := s.frames[k].(pc := b.pc)]
    requires s'.queue == s.queue && s'.current == s.current
    ensures PassOk(s') && SettledKept(s, s')
  {
  }

  lemma OnlyReconcileSettles(cfg: Config, rows: seq<Execution>, id: nat, pc: Pc, r: Reply)
    requires id < |rows| && Fits(pc, r) && !Reconciles(pc) && !Settled(rows[id].state)
    ensures id < |ResumeBlock(cfg, rows, id, pc, r).rows| && !Settled(ResumeBlock(cfg, rows, id, pc, r).rows[id].state)
  {
  }

  lemma StartKeepsPass(s: Sys, id: nat, b: Block, queue: seq<Listed>, current: Option<nat>)
    requires PassOk(s) && b.rows == s.rows && Inv(s)
    requires (queue == s.queue && !Reconciles(b.pc) && current == s.current)
      || (Idle(s) && s.queue != [] && queue == s.queue[1..] && id == s.queue[0].id && current == Some(|s.frames|)
          && (Reconciles(b.pc) ==>
            id < |s.rows| && Snapshot(b.pc) == s.rows[id] && s.queue[0].state !in {Signing, Submitting}))
    ensures var s' := Started(s, id, b).(queue := queue, current := current); PassOk(s') && SettledKept(s, s')
  {
    var s' := Started(s, id, b).(queue := queue, current := current);
    if queue != s.queue {
      assert forall i :: 0 <= i < |queue| ==> queue[i] == s.queue[i + 1];
      assert forall k :: 0 <= k < |s.frames| ==> !Reconciles(s.frames[k].pc);
    }
  }

  lemma RecoverKeepsPass(s: Sys, id: nat, queue: seq<Listed>)
    requires PassOk(s) && Idle(s) && s.queue != [] && queue == s.queue[1..]
    ensures var s' := s.(rows := RecoverRow(s.rows, id), queue := queue, current := None);
      PassOk(s') && SettledKept(s, s')
  {
    assert forall i :: 0 <= i < |queue| ==> queue[i] == s.queue[i + 1];
    assert forall k :: 0 <= k < |s.frames| ==> !Reconciles(s.frames[k].pc);
  }

  lemma PassNextKeepsPass(cfg: Config, s: Sys, ready: bool)
    requires Inv(s) && PassOk(s) && Enabled(s, PassNext(ready))
    ensures var s' := Step(cfg, s, PassNext(ready)); PassOk(s') && SettledKept(s, s')
  {
    var item := s.queue[0];
    if item.state == Signing {
      StartKeepsPass(s, item.id, BeginRecoverSigning(s.rows, item.id, item.authorizationId, ready), s.queue[1..],
        Some(|s.frames|));
    } else if item.state == Submitting {
      RecoverKeepsPass(s, item.id, s.queue[1..]);
    } else {
      StartKeepsPass(s, item.id, BeginReconcile(s.rows, item.id), s.queue[1..], Some(|s.frames|));
    }
  }

  lemma SynchronousKeepsPass(cfg: Config, s: Sys, e: Event)
    requires PassOk(s) && (e.Execute? || e.Refresh? || e.RecoverOne?)
    ensures var s' := Step(cfg, s, e); PassOk(s') && SettledKept(s, s')
  {
    var s' := Step(cfg, s, e);
    assert s'.frames == s.frames && s'.queue == s.queue && s'.current == s.current;
    assert forall id :: 0 <= id < |s.rows| ==>
      id < |s'.rows| && (s'.rows[id] == s.rows[id] || (!Settled(s.rows[id].state) && !Settled(s'.rows[id].state)));
  }

  lemma PassBeginKeepsPass(cfg: Config, s: Sys, limit: nat)
    requires PassOk(s) && Enabled(s, PassBegin(limit))
    ensures var s' := Step(cfg, s, PassBegin(limit)); PassOk(s') && SettledKept(s, s')
  {
    assert forall k :: 0 <= k < |s.frames| ==> !Reconciles(s.frames[k].pc);
  }

  lemma StepKeepsPass(cfg: Config, s: Sys, e: Event)
    requires Inv(s) && PassOk(s) && Enabled(s, e) && Disciplined(e)
    ensures var s' := Step(cfg, s, e); PassOk(s') && SettledKept(s, s')
  {
    match e
    case Execute(_, _, _, _, _) => SynchronousKeepsPass(cfg, s, e);
    case Refresh(_, _) => SynchronousKeepsPass(cfg, s, e);
    case Submit(id, ready) => StartKeepsPass(s, id, BeginSubmit(s.rows, id, ready), s.queue, s.current);
    case RecoverOne(_) => SynchronousKeepsPass(cfg, s, e);
    case Resume(k, r) => ResumeKeepsPass(cfg, s, k, r);
    case PassBegin(limit) => PassBeginKeepsPass(cfg, s, limit);
    case PassNext(ready) => PassNextKeepsPass(cfg, s, ready);
    case Crash =>
  }

  lemma {:induction false} DisciplinedRunKeepsPass(cfg: Config, events: seq<Event>, s: Sys)
    requires Runs(cfg, events, s) && forall e :: e in events ==> Disciplined(e)
    ensures Inv(s) && PassOk(s)
  {
    if events != [] {
      var n := |events| - 1;
      var before :| Runs(cfg, events[..n], before) && Enabled(before, events[n]) && s == Step(cfg, before, events[n]);
      DisciplinedRunKeepsPass(cfg, events[..n], before);
      assert events[n] in events;
      StepKeepsInv(cfg, before, events[n]);
      StepKeepsPass(cfg, before, events[n]);
    }
  }

  /** With reconciliation driven by passes alone, finalized, failed and dropped rows never change again. */
  lemma SettledStatesAbsorb(cfg: Config, events: seq<Event>, s: Sys, e: Event, id: nat)
    requires Runs(cfg, events, s) && (forall x :: x in events ==> Disciplined(x))
    requires Enabled(s, e) && Disciplined(e) && id < |s.rows|
    requires s.rows[id].state in {Finalized, Failed, Dropped}
    ensures var s' := Step(cfg, s, e); id < |s'.rows| && s'.rows[id] == s.rows[id]
  {
    DisciplinedRunKeepsPass(cfg, events, s);
    StepKeepsPass(cfg, s, e);
  }

  lemma {:induction false} ContinuesNext(cfg: Config, s: Sys, events: seq<Event>, s': Sys, e: Event)
    requires Continues(cfg, s, events, s') && Enabled(s', e)
    ensures Continues(cfg, s, events + [e], Step(cfg, s', e))
    decreases |events|
  {
    var more := events + [e];
    if events == [] {
      assert more[0] == e && more[1..] == [];
    } else {
      assert more[0] == events[0] && more[1..] == events[1..] + [e];
      ContinuesNext(cfg, Step(cfg, s, events[0]), events[1..], s', e);
    }
  }

  /** After `events` the last frame waits at `pc` for row `id`, and no row has changed. */
  ghost predicate Waiting(cfg: Config, s: Sys, events: seq<Event>, s': Sys, id: nat, pc: Pc) {
    && Continues(cfg, s, events, s') && s'.rows == s.rows
    && |s'.frames| == |s.frames| + 1 && s'.frames[|s.frames|] == Frame(id, pc)
  }

  lemma OperatorAsks(cfg: Config, s: Sys, id: nat) returns (s': Sys)
    requires Inv(s) && id < |s.rows| && s.rows[id].signature.Some?
    ensures Waiting(cfg, s, [OperatorReconcile(id)], s', id, ReconcileStatus(s.rows[id]))
  {
    s' := Step(cfg, s, OperatorReconcile(id));
    assert Continues(cfg, s, [], s);
    ContinuesNext(cfg, s, [], s, OperatorReconcile(id));
    assert [] + [OperatorReconcile(id)] == [OperatorReconcile(id)];
  }

  /** One reply after which the frame waits again, the rows untouched. */
  lemma WaitingOn(cfg: Config, s: Sys, events: seq<Event>, before: Sys, id: nat, pc: Pc, r: Reply, next: Pc)
      returns (s': Sys)
    requires Waiting(cfg, s, events, before, id, pc) && Fits(pc, r)
    requires ResumeBlock(cfg, s.rows, id, pc, r) == Quietly(s.rows, next)
    ensures Waiting(cfg, s, events + [Resume(|s.frames|, r)], s', id, next)
  {
    s' := Step(cfg, before, Resume(|s.frames|, r));
    ContinuesNext(cfg, s, events, before, Resume(|s.frames|, r));
  }

  /** The reply that moves the row. */
  lemma MovedOn(cfg: Config, s: Sys, events: seq<Event>, before: Sys, id: nat, pc: Pc, r: Reply, x: Execution)
      returns (s': Sys)
    requires Waiting(cfg, s, events, before, id, pc) && Fits(pc, r) && id < |s.rows|
    requires ResumeBlock(cfg, s.rows, id, pc, r) == Quietly(s.rows[id := x], Finished)
    ensures Continues(cfg, s, events + [Resume(|s.frames|, r)], s') && s'.rows == s.rows[id := x]
  {
    s' := Step(cfg, before, Resume(|s.frames|, r));
    ContinuesNext(cfg, s, events, before, Resume(|s.frames|, r));
  }

  /** `s'` follows from `s`, and the row has gone from its state to another. */
  ghost predicate Moves(cfg: Config, s: Sys, events: seq<Event>, s': Sys, id: nat, to: State)
    requires id < |s.rows|
  {
    Continues(cfg, s, events, s') && id < |s'.rows| && s'.rows[id].state == to
  }

  /** An operator's reconcile, a forgetful RPC, a late block height and, when the row holds a reservation, its
      release. */
  lemma OperatorDrops(cfg: Config, s: Sys, id: nat)
    requires Inv(s) && id < |s.rows| && s.rows[id].signature.Some?
    ensures exists events, s' :: Moves(cfg, s, events, s', id, Dropped)
  {
    var x := s.rows[id];
    assert RowOk(x);
    var late := Height(x.quoteHeight + 1, false);
    var e1 := [OperatorReconcile(id)];
    var s1 := OperatorAsks(cfg, s, id);
    var e2 := e1 + [Resume(|s.frames|, StatusReply(None))];
    var s2 := WaitingOn(cfg, s, e1, s1, id, ReconcileStatus(x), StatusReply(None), ReconcileHeight(x));
    var dropped := Merge(x, MoveTo(Dropped));
    if x.reservationId.None? {
      var s3 := MovedOn(cfg, s, e2, s2, id, ReconcileHeight(x), late, dropped);
      assert Moves(cfg, s, e2 + [Resume(|s.frames|, late)], s3, id, Dropped);
    } else {
      var e3 := e2 + [Resume(|s.frames|, late)];
      var s3 := WaitingOn(cfg, s, e2, s2, id, ReconcileHeight(x), late, ReconcileRelease(x));
      var s4 := MovedOn(cfg, s, e3, s3, id, ReconcileRelease(x), Acknowledged, dropped);
      assert Moves(cfg, s, e3 + [Resume(|s.frames|, Acknowledged)], s4, id, Dropped);
    }
  }

  /** An operator's reconcile and a status that reports the transaction as failed. */
  lemma OperatorFails(cfg: Config, s: Sys, id: nat)
    requires Inv(s) && id < |s.rows| && s.rows[id].signature.Some?
    ensures exists events, s' :: Moves(cfg, s, events, s', id, Failed)
  {
    var x := s.rows[id];
    var failed := SignatureStatus(true, Processed, 0);
    var s1 := OperatorAsks(cfg, s, id);
    var s2 := MovedOn(
      cfg, s, [OperatorReconcile(id)], s1, id, ReconcileStatus(x), StatusReply(Some(failed)),
      Merge(x, SettledPatch(cfg, x, failed)));
    assert Moves(cfg, s, [OperatorReconcile(id)] + [Resume(|s.frames|, StatusReply(Some(failed)))], s2, id, Failed);
  }

  /** Without that discipline they do change: an operator's reconcile can take any settled row, with or without a
    * reservation, to dropped, and a dropped one to failed. */
  lemma OperatorReconcileCanMoveEverySettledRow(cfg: Config, s: Sys, id: nat)
    requires Reachable(cfg, s) && id < |s.rows| && Settled(s.rows[id].state)
    ensures exists events, s' :: Moves(cfg, s, events, s', id, Dropped)
    ensures exists events, s' :: Moves(cfg, s, events, s', id, Failed)
  {
    ReachableInv(cfg, s);
    assert RowOk(s.rows[id]);
    OperatorDrops(cfg, s, id);
    OperatorFails(cfg, s, id);
  }
}

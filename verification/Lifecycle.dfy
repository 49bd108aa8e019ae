/** Whole runs of the execution lifecycle: submit, recovery and reconciliation raced against each other and against
    crashes. */
module Lifecycle {
  import opened Prelude
  import opened Executions
  import opened Orchestrator

  /** A row as `recoverAndReconcile` listed it. */
  datatype Listed = Listed(id: nat, state: State, authorizationId: Option<string>)

  /** `sent[id]` is history: the signatures of the bytes handed to the cluster for row `id`.
    * `queue` is what the running pass has still to do, `current` the operation it is waiting for. */
  datatype Sys = Sys(rows: seq<Execution>, sent: seq<seq<string>>, frames: seq<Frame>, queue: seq<Listed>,
    current: Option<nat>)

  datatype Event =
    | Execute(key: string, height: int, reservation: Option<string>, dryRun: bool, approvalRequired: bool)
    | Refresh(refreshed: nat, decision: Decision)
    | Submit(submitted: nat, ready: bool)
    | RecoverOne(recovered: nat)
    | OperatorReconcile(reconciled: nat)
    | Resume(frame: nat, reply: Reply)
    | PassBegin(limit: nat)
    | PassNext(signerReady: bool)
    | Crash

  const EMPTY := Sys([], [], [], [], None)

  const WORK := {Signing, Submitting, ReconciliationRequired, Broadcast, Confirmed}

  /** The work list of a pass: at most `limit` rows in the states that call for work, in row order. */
  function ListRows(rows: seq<Execution>, from: nat, limit: nat): (list: seq<Listed>)
    requires from <= |rows|
    ensures |list| <= limit
    ensures forall i :: 0 <= i < |list| ==>
      from <= list[i].id < |rows| && list[i].state == rows[list[i].id].state && list[i].state in WORK
    ensures forall i, j :: 0 <= i < j < |list| ==> list[i].id < list[j].id
    decreases |rows| - from
  {
    if from == |rows| || limit == 0 then []
    else if rows[from].state in WORK then
      [Listed(from, rows[from].state, rows[from].authorizationId)] + ListRows(rows, from + 1, limit - 1)
    else ListRows(rows, from + 1, limit)
  }

  predicate Idle(s: Sys) {
    s.current.None? || s.current.value >= |s.frames| || s.frames[s.current.value].pc == Finished
  }

  predicate Enabled(s: Sys, e: Event) {
    match e
    case Resume(k, r) => k < |s.frames| && Fits(s.frames[k].pc, r)
    case PassBegin(_) => s.queue == [] && Idle(s)
    case PassNext(_) => s.queue != [] && Idle(s)
    case _ => true
  }

  function Started(s: Sys, id: nat, b: Block): Sys {
    s.(rows := b.rows, frames := s.frames + [Frame(id, b.pc)])
  }

  function BeginListed(s: Sys, item: Listed, ready: bool): Sys {
    if item.state == Signing then
      Started(s, item.id,
        BeginRecoverSigning(s.rows, item.id, item.authorizationId, ready)).(current := Some(|s.frames|))
    else if item.state == Submitting then s.(rows := RecoverRow(s.rows, item.id), current := None)
    else Started(s, item.id, BeginReconcile(s.rows, item.id)).(current := Some(|s.frames|))
  }

  function Recorded(sent: seq<seq<string>>, id: nat, s: Option<string>): seq<seq<string>> {
    if s.Some? && id < |sent| then sent[id := sent[id] + [s.value]] else sent
  }

  function Step(cfg: Config, s: Sys, e: Event): Sys
    requires Enabled(s, e)
  {
    match e
    case Execute(key, height, reservation, dryRun, approvalRequired) =>
      s.(rows := ExecuteRows(s.rows, key, height, reservation, dryRun, approvalRequired),
         sent := if KeyTaken(s.rows, key) then s.sent else s.sent + [[]])
    case Refresh(id, d) => s.(rows := RefreshApproval(s.rows, id, d))
    case Submit(id, ready) => Started(s, id, BeginSubmit(s.rows, id, ready))
    case RecoverOne(id) => s.(rows := RecoverRow(s.rows, id))
    case OperatorReconcile(id) => Started(s, id, BeginReconcile(s.rows, id))
    case Resume(k, r) =>
      var f := s.frames[k];
      var b := ResumeBlock(cfg, s.rows, f.id, f.pc, r);
      s.(rows := b.rows, sent := Recorded(s.sent, f.id, b.sent), frames := s.frames[k := f.(pc := b.pc)])
    case PassBegin(limit) => s.(queue := ListRows(s.rows, 0, limit), current := None)
    case PassNext(ready) => BeginListed(s.(queue := s.queue[1..]), s.queue[0], ready)
    case Crash => s.(frames := [], queue := [], current := None)
  }

  ghost predicate Runs(cfg: Config, events: seq<Event>, s: Sys)
    decreases |events|
  {
    if events == [] then s == EMPTY
    else
      var n := |events| - 1;
      exists before :: Runs(cfg, events[..n], before) && Enabled(before, events[n]) && s == Step(cfg, before, events[n])
  }

  ghost predicate Reachable(cfg: Config, s: Sys) {
    exists events :: Runs(cfg, events, s)
  }

  // ---------------------------------------------------------------- the lifecycle

  /** The states of an execution for which a signature exists. */
  predicate Signed(state: State) {
    state in {Submitting, ReconciliationRequired, Broadcast, Confirmed, Finalized, Failed, Dropped}
  }

  predicate Settled(state: State) {
    state == Finalized || state == Failed || state == Dropped
  }

  /** The moves of the lifecycle; among signed states every move is possible. */
  predicate Edge(from: State, to: State) {
    match from
    case AwaitingApproval => to in {AwaitingApproval, Approved, Denied}
    case Approved => to in {Approved, Signing, Expired}
    case Signing => to in {Signing, Submitting, Expired}
    case DryRun => to == DryRun
    case Denied => to == Denied
    case Expired => to == Expired
    case _ => Signed(to)
  }

  predicate Closed(state: State) {
    state == DryRun || state == Denied || state == Expired
  }

  /** How a row may differ after one block: along an edge (several, when a catch follows a move), its signature
    * written at most once, and not at all once it is closed. */
  predicate Evolves(x: Execution, y: Execution) {
    && x.version <= y.version
    && (x.signature.Some? ==> y.signature == x.signature)
    && (Signed(x.state) ==> Signed(y.state))
    && (Edge(x.state, y.state) || (x.state == Signing && y.state == ReconciliationRequired))
    && (Closed(x.state) ==> y == x)
    && y.quoteHeight == x.quoteHeight && y.key == x.key
  }

  predicate RowOk(x: Execution) {
    && (x.signature.Some? <==> Signed(x.state))
    && (x.signature.Some? ==> x.lastValidBlockHeight == Some(x.quoteHeight))
  }

  predicate SentOk(x: Execution, sent: seq<string>) {
    |sent| <= 1 && (sent != [] ==> x.signature == Some(sent[0]))
  }

  predicate Holds(x: Execution, pc: Pc) {
    match pc
    case SubmitHeight(y) => y.state == Approved || y.state == Signing
    case ExpireRelease(from) => from == Approved || from == Signing
    case SubmitValid(y) => y.state == Approved || y.state == Signing
    case SubmitBroadcast(expected) => x.signature == Some(expected)
    case SubmitCommit(expected) => x.signature == Some(expected)
    case RecoverBroadcast(expected) => x.signature == Some(expected)
    case RecoverCommit(expected) => x.signature == Some(expected)
    case ReconcileStatus(y) => Signed(y.state) && y.signature.Some? && x.signature == y.signature
    case ReconcileHeight(y) => Signed(y.state) && y.signature.Some? && x.signature == y.signature
    case ReconcileRelease(y) => Signed(y.state) && y.signature.Some? && x.signature == y.signature
    case _ => true
  }

  /** No idempotency key has two rows. */
  ghost predicate KeysOk(rows: seq<Execution>) {
    forall i, j :: 0 <= i < j < |rows| ==> rows[i].key != rows[j].key
  }

  ghost predicate Inv(s: Sys) {
    && |s.sent| == |s.rows| && KeysOk(s.rows)
    && (forall id :: 0 <= id < |s.rows| ==> RowOk(s.rows[id]) && SentOk(s.rows[id], s.sent[id]))
    && (forall k :: 0 <= k < |s.frames| && s.frames[k].pc != Finished ==>
      s.frames[k].id < |s.rows| && Holds(s.rows[s.frames[k].id], s.frames[k].pc))
    && (forall i :: 0 <= i < |s.queue| ==> s.queue[i].id < |s.rows|)
  }

  // ---------------------------------------------------------------- one block

  /** What a block owes its row: it evolves, and bytes go out only with a signature written in this very block. */
  predicate GoodBlock(rows: seq<Execution>, id: nat, b: Block)
    requires id < |rows|
  {
    && |b.rows| == |rows|
    && b.rows == rows[id := b.rows[id]]
    && RowOk(b.rows[id])
    && Evolves(rows[id], b.rows[id])
    && (b.pc != Finished ==> Holds(b.rows[id], b.pc))
    && (b.sent.Some? ==> rows[id].signature.None? && b.rows[id].signature == b.sent)
  }

  lemma MoveIsGood(rows: seq<Execution>, id: nat, from: set<State>, p: Patch, pc: Pc)
    requires id < |rows| && RowOk(rows[id])
    requires rows[id].state in from ==>
      var y := Merge(rows[id], p);
      RowOk(y) && Evolves(rows[id], y) && Holds(y, pc)
    ensures GoodBlock(rows, id, TransitionThen(rows, id, from, p, pc))
  {
  }

  lemma CatchIsGood(rows: seq<Execution>, id: nat)
    requires id < |rows| && RowOk(rows[id])
    ensures GoodBlock(rows, id, CatchSubmit(rows, id))
  {
  }

  lemma TryIsGood(rows: seq<Execution>, id: nat, from: set<State>, p: Patch, pc: Pc)
    requires id < |rows| && RowOk(rows[id])
    requires rows[id].state in from ==>
      var y := Merge(rows[id], p);
      RowOk(y) && Evolves(rows[id], y) && Holds(y, pc)
    ensures GoodBlock(rows, id, TryTransition(rows, id, from, p, pc))
  {
    CatchIsGood(rows, id);
  }

  lemma AfterSignedIsGood(rows: seq<Execution>, id: nat, issued: string, r: Reply)
    requires id < |rows| && RowOk(rows[id]) && r.SignedReply?
    ensures GoodBlock(rows, id, AfterSigned(rows, id, issued, r))
  {
    CatchIsGood(rows, id);
  }

  lemma ApprovalIsGood(rows: seq<Execution>, id: nat, x: Execution, approvalOk: bool)
    requires id < |rows| && RowOk(rows[id]) && (x.state == Approved || x.state == Signing)
    ensures GoodBlock(rows, id, TakeApproval(rows, id, x, approvalOk))
  {
    MoveIsGood(rows, id, {Approved}, MoveTo(Signing), SubmitIssue);
  }

  lemma ExpireIsGood(rows: seq<Execution>, id: nat, from: State)
    requires id < |rows| && RowOk(rows[id]) && (from == Approved || from == Signing)
    ensures GoodBlock(rows, id, Expire(rows, id, from))
  {
    MoveIsGood(rows, id, {from}, MoveTo(Expired), Finished);
  }

  lemma SubmitIsGood(cfg: Config, rows: seq<Execution>, id: nat, pc: Pc, r: Reply)
    requires id < |rows| && RowOk(rows[id]) && Holds(rows[id], pc) && Fits(pc, r) && !r.Rejected?
    requires pc.SubmitHeight? || pc.ExpireRelease? || pc.SubmitValid? || InTry(pc)
    ensures GoodBlock(rows, id, ResumeSubmit(cfg, rows, id, pc, r))
  {
    match pc
    case SubmitHeight(x) =>
      ExpireIsGood(rows, id, x.state);
      ApprovalIsGood(rows, id, x, r.approvalOk);
    case ExpireRelease(from) => MoveIsGood(rows, id, {from}, MoveTo(Expired), Finished);
    case SubmitValid(x) => ApprovalIsGood(rows, id, x, r.approvalGiven);
    case SubmitIssue =>
      TryIsGood(rows, id, {Signing}, NOTHING.(authorizationId := Some(r.authorizationId)),
        SubmitSign(r.authorizationId));
    case SubmitSign(issued) => AfterSignedIsGood(rows, id, issued, r);
    case SubmitBroadcast(expected) => CatchIsGood(rows, id);
    case SubmitCommit(expected) => TryIsGood(rows, id, {Submitting}, LandedPatch(expected), Finished);
  }

  lemma ResultIsGood(rows: seq<Execution>, id: nat, result: SignerResult)
    requires id < |rows| && RowOk(rows[id])
    ensures GoodBlock(rows, id, AfterResult(rows, id, result))
  {
    ExpireIsGood(rows, id, Signing);
    if result.ResultSigned? {
      MoveIsGood(rows, id, {Signing}, SignedPatch(rows[id], result.signature), RecoverBroadcast(result.signature));
    }
  }

  lemma SettleIsGood(rows: seq<Execution>, id: nat, x: Execution, p: Patch)
    requires id < |rows| && RowOk(rows[id]) && Signed(x.state) && x.signature.Some? && rows[id].signature == x.signature
    requires p.state.Some? && Signed(p.state.value) && (p.signature.None? || p.signature == x.signature)
    requires p.lastValidBlockHeight.None?
    ensures GoodBlock(rows, id, TransitionThen(rows, id, {x.state}, p, Finished))
  {
    MoveIsGood(rows, id, {x.state}, p, Finished);
  }

  lemma OtherIsGood(cfg: Config, rows: seq<Execution>, id: nat, pc: Pc, r: Reply)
    requires id < |rows| && RowOk(rows[id]) && Holds(rows[id], pc) && Fits(pc, r) && !r.Rejected?
    requires !(pc.SubmitHeight? || pc.ExpireRelease? || pc.SubmitValid? || InTry(pc))
    ensures GoodBlock(rows, id, ResumeOther(cfg, rows, id, pc, r))
  {
    match pc
    case RecoverResult => ResultIsGood(rows, id, r.result);
    case RecoverBroadcast(expected) => MoveIsGood(rows, id, {Submitting}, MoveTo(ReconciliationRequired), Finished);
    case RecoverCommit(expected) => MoveIsGood(rows, id, {Submitting}, LandedPatch(expected), Finished);
    case ReconcileStatus(x) =>
      SettleIsGood(rows, id, x, MoveTo(ReconciliationRequired));
      if r.status.Some? {
        SettleIsGood(rows, id, x, SettledPatch(cfg, x, r.status.value));
      }
    case ReconcileHeight(x) =>
      SettleIsGood(rows, id, x, MoveTo(ReconciliationRequired));
      SettleIsGood(rows, id, x, MoveTo(Dropped));
    case ReconcileRelease(x) => SettleIsGood(rows, id, x, MoveTo(Dropped));
  }

  lemma ResumeIsGood(cfg: Config, rows: seq<Execution>, id: nat, pc: Pc, r: Reply)
    requires id < |rows| && RowOk(rows[id]) && Holds(rows[id], pc) && Fits(pc, r)
    ensures GoodBlock(rows, id, ResumeBlock(cfg, rows, id, pc, r))
  {
    if r.Rejected? {
      CatchIsGood(rows, id);
    } else if pc.SubmitHeight? || pc.ExpireRelease? || pc.SubmitValid? || InTry(pc) {
      SubmitIsGood(cfg, rows, id, pc, r);
    } else {
      OtherIsGood(cfg, rows, id, pc, r);
    }
  }

  // ---------------------------------------------------------------- every event

  /** Rows are only added, and each old row evolves. */
  ghost predicate AllEvolve(s: Sys, s': Sys) {
    && |s.rows| <= |s'.rows|
    && forall id :: 0 <= id < |s.rows| ==> Evolves(s.rows[id], s'.rows[id])
  }

  lemma HoldsSurvives(x: Execution, y: Execution, pc: Pc)
    requires Holds(x, pc) && Evolves(x, y)
    ensures Holds(y, pc)
  {
  }

  /** One row moved, one frame possibly changed or added: everything else keeps its part of the invariant. */
  lemma RowMoveKeepsInv(s: Sys, s': Sys, id: nat, b: Block)
    requires s'.queue == s.queue || (s.queue != [] && s'.queue == s.queue[1..])
    requires Inv(s) && id < |s.rows| && GoodBlock(s.rows, id, b)
    requires s'.rows == b.rows && s'.sent == Recorded(s.sent, id, b.sent)
    requires forall k :: 0 <= k < |s'.frames| ==>
      (k < |s.frames| && s'.frames[k] == s.frames[k]) || s'.frames[k] == Frame(id, b.pc)
    ensures Inv(s') && AllEvolve(s, s')
  {
    forall k | 0 <= k < |s'.frames| && s'.frames[k].pc != Finished
      ensures s'.frames[k].id < |s'.rows| && Holds(s'.rows[s'.frames[k].id], s'.frames[k].pc)
    {
      if s'.frames[k] != Frame(id, b.pc) {
        HoldsSurvives(s.rows[s.frames[k].id], s'.rows[s.frames[k].id], s.frames[k].pc);
      }
    }
  }

  /** Starting an operation on a missing row only adds a finished frame. */
  lemma StartKeepsInv(s: Sys, id: nat, b: Block, queue: seq<Listed>, current: Option<nat>)
    requires Inv(s) && b.sent.None? && (id < |s.rows| ==> GoodBlock(s.rows, id, b))
      && (id >= |s.rows| ==> b == Quietly(s.rows, Finished))
    requires queue == s.queue || (s.queue != [] && queue == s.queue[1..])
    ensures var s' := Started(s, id, b).(queue := queue, current := current);
      Inv(s') && AllEvolve(s, s')
  {
    if id < |s.rows| {
      RowMoveKeepsInv(s, Started(s, id, b).(queue := queue, current := current), id, b);
    }
  }

  lemma RecoverKeepsInv(s: Sys, id: nat, queue: seq<Listed>)
    requires Inv(s) && s.queue != [] && queue == s.queue[1..]
    ensures var s' := s.(rows := RecoverRow(s.rows, id), queue := queue, current := None);
      Inv(s') && AllEvolve(s, s')
  {
    if id < |s.rows| {
      RowMoveKeepsInv(s, s.(rows := RecoverRow(s.rows, id), queue := queue, current := None), id,
        Quietly(RecoverRow(s.rows, id), Finished));
    }
  }

  lemma PassNextKeepsInv(cfg: Config, s: Sys, ready: bool)
    requires Inv(s) && Enabled(s, PassNext(ready))
    ensures Inv(Step(cfg, s, PassNext(ready))) && AllEvolve(s, Step(cfg, s, PassNext(ready)))
  {
    var item := s.queue[0];
    var rest := s.queue[1..];
    if item.state == Signing {
      StartKeepsInv(s, item.id, BeginRecoverSigning(s.rows, item.id, item.authorizationId, ready), rest,
        Some(|s.frames|));
    } else if item.state == Submitting {
      RecoverKeepsInv(s, item.id, rest);
    } else {
      StartKeepsInv(s, item.id, BeginReconcile(s.rows, item.id), rest, Some(|s.frames|));
    }
  }

  lemma ExecuteKeepsInv(cfg: Config, s: Sys, e: Event)
    requires Inv(s) && e.Execute?
    ensures Inv(Step(cfg, s, e)) && AllEvolve(s, Step(cfg, s, e))
  {
    if !KeyTaken(s.rows, e.key) {
      var rows, n := Step(cfg, s, e).rows, |s.rows|;
      NewRowIsOk(s.rows, e.key, e.height, e.reservation, e.dryRun, e.approvalRequired);
      assert forall i :: 0 <= i < n ==> rows[i] == s.rows[i];
    }
  }

  lemma NewRowIsOk(rows: seq<Execution>, key: string, height: int, reservation: Option<string>, dryRun: bool,
      approvalRequired: bool)
    requires !KeyTaken(rows, key)
    ensures var after := ExecuteRows(rows, key, height, reservation, dryRun, approvalRequired);
      && |after| == |rows| + 1 && after[..|rows|] == rows
      && RowOk(after[|rows|]) && after[|rows|].key == key && after[|rows|].signature.None?
  {
  }

  lemma ResumeKeepsInv(cfg: Config, s: Sys, k: nat, r: Reply)
    requires Inv(s) && Enabled(s, Resume(k, r))
    ensures var s' := Step(cfg, s, Resume(k, r)); Inv(s') && AllEvolve(s, s')
  {
    var f := s.frames[k];
    ResumeIsGood(cfg, s.rows, f.id, f.pc, r);
    RowMoveKeepsInv(s, Step(cfg, s, Resume(k, r)), f.id, ResumeBlock(cfg, s.rows, f.id, f.pc, r));
  }

  lemma SynchronousKeepsInv(cfg: Config, s: Sys, e: Event)
    requires Inv(s) && (e.Refresh? || e.RecoverOne?)
    ensures Inv(Step(cfg, s, e)) && AllEvolve(s, Step(cfg, s, e))
  {
    var id := if e.Refresh? then e.refreshed else e.recovered;
    if id < |s.rows| {
      RowMoveKeepsInv(s, Step(cfg, s, e), id, Quietly(Step(cfg, s, e).rows, Finished));
    }
  }

  lemma StepKeepsInv(cfg: Config, s: Sys, e: Event)
    requires Inv(s) && Enabled(s, e)
    ensures Inv(Step(cfg, s, e)) && AllEvolve(s, Step(cfg, s, e))
  {
    match e
    case Execute(_, _, _, _, _) => ExecuteKeepsInv(cfg, s, e);
    case Refresh(_, _) => SynchronousKeepsInv(cfg, s, e);
    case RecoverOne(_) => SynchronousKeepsInv(cfg, s, e);
    case Submit(id, ready) => StartKeepsInv(s, id, BeginSubmit(s.rows, id, ready), s.queue, s.current);
    case OperatorReconcile(id) => StartKeepsInv(s, id, BeginReconcile(s.rows, id), s.queue, s.current);
    case Resume(k, r) => ResumeKeepsInv(cfg, s, k, r);
    case PassBegin(_) =>
    case PassNext(ready) => PassNextKeepsInv(cfg, s, ready);
    case Crash =>
  }

  lemma {:induction false} RunKeepsInv(cfg: Config, events: seq<Event>, s: Sys)
    requires Runs(cfg, events, s)
    ensures Inv(s)
  {
    if events != [] {
      var n := |events| - 1;
      var before :| Runs(cfg, events[..n], before) && Enabled(before, events[n]) && s == Step(cfg, before, events[n]);
      RunKeepsInv(cfg, events[..n], before);
      StepKeepsInv(cfg, before, events[n]);
    }
  }

  lemma ReachableInv(cfg: Config, s: Sys)
    requires Reachable(cfg, s)
    ensures Inv(s)
  {
    var events :| Runs(cfg, events, s);
    RunKeepsInv(cfg, events, s);
  }
}

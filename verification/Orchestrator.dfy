/** The trading orchestrator's asynchronous operations, cut at their awaits. */
module Orchestrator {
  import opened Prelude
  import opened Executions

  /** What a suspended operation on row `id` waits for, with the values it holds across the await. */
  datatype Pc =
    // submit
    | SubmitHeight(x: Execution)
    | ExpireRelease(from: State)
    | SubmitValid(x: Execution)
    | SubmitIssue
    | SubmitSign(issued: string)
    | SubmitBroadcast(expected: string)
    | SubmitCommit(expected: string)
    // recoverSigning
    | RecoverResult
    | RecoverBroadcast(expected: string)
    | RecoverCommit(expected: string)
    // reconcile
    | ReconcileStatus(x: Execution)
    | ReconcileHeight(x: Execution)
    | ReconcileRelease(x: Execution)
    | Finished

  datatype Frame = Frame(id: nat, pc: Pc)

  datatype Level = Processed | ConfirmedLevel | FinalizedLevel

  datatype SignatureStatus = SignatureStatus(failed: bool, level: Level, slot: int)

  datatype SignerResult = ResultExpired | ResultNotFound | ResultInvalid | ResultSigned(signature: string)

  /** Port answers; any of them may instead be a rejection. `approvalOk` is the approval engine's synchronous answer. */
  datatype Reply =
    | Rejected
    | Height(height: int, approvalOk: bool)
    | Valid(ok: bool, approvalGiven: bool)
    | Issued(authorizationId: string)
    | SignedReply(wellFormed: bool, signature: string, broadcast: Option<string>)
    | LandedReply(landed: string)
    | Acknowledged
    | ResultReply(result: SignerResult)
    | StatusReply(status: Option<SignatureStatus>)

  datatype Config = Config(confirmedIsFinal: bool, reservationsMounted: bool)

  predicate Fits(pc: Pc, r: Reply) {
    match pc
    case SubmitHeight(_) => r.Height? || r.Rejected?
    case ExpireRelease(_) => r.Acknowledged? || r.Rejected?
    case SubmitValid(_) => r.Valid? || r.Rejected?
    case SubmitIssue => r.Issued? || r.Rejected?
    case SubmitSign(_) => r.SignedReply? || r.Rejected?
    case SubmitBroadcast(_) => r.LandedReply? || r.Rejected?
    case SubmitCommit(_) => r.Acknowledged? || r.Rejected?
    case RecoverResult => r.ResultReply? || r.Rejected?
    case RecoverBroadcast(_) => r.LandedReply? || r.Rejected?
    case RecoverCommit(_) => r.Acknowledged? || r.Rejected?
    case ReconcileStatus(_) => r.StatusReply? || r.Rejected?
    case ReconcileHeight(_) => r.Height? || r.Rejected?
    case ReconcileRelease(_) => r.Acknowledged? || r.Rejected?
    case Finished => false
  }

  /** The effect of one synchronous block: rows, where the frame now waits, and what it sent to the cluster. */
  datatype Block = Block(rows: seq<Execution>, pc: Pc, sent: Option<string>)

  function Quietly(rows: seq<Execution>, pc: Pc): Block {
    Block(rows, pc, None)
  }

  /** Run a transition; on conflict the operation ends with nothing changed. */
  function TransitionThen(rows: seq<Execution>, id: nat, from: set<State>, p: Patch, pc: Pc): Block {
    match Cas(rows, id, from, p, None)
    case Ok(after) => Quietly(after, pc)
    case Err(_) => Quietly(rows, Finished)
  }

  // ---------------------------------------------------------------- submit

  function BeginSubmit(rows: seq<Execution>, id: nat, ready: bool): Block {
    if id >= |rows| || (rows[id].state != Approved && rows[id].state != Signing) || !ready then Quietly(rows, Finished)
    else Quietly(rows, SubmitHeight(rows[id]))
  }

  /** Burn the row: release its reservation, then move it. */
  function Expire(rows: seq<Execution>, id: nat, from: State): Block {
    if id < |rows| && rows[id].reservationId.Some? then Quietly(rows, ExpireRelease(from))
    else TransitionThen(rows, id, {from}, MoveTo(Expired), Finished)
  }

  function TakeApproval(rows: seq<Execution>, id: nat, x: Execution, approvalOk: bool): Block {
    if x.approvalId.None? || !approvalOk then Quietly(rows, Finished)
    else if x.state == Approved then TransitionThen(rows, id, {Approved}, MoveTo(Signing), SubmitIssue)
    else Quietly(rows, SubmitIssue)
  }

  function AfterHeight(cfg: Config, rows: seq<Execution>, id: nat, x: Execution, height: int, approvalOk: bool): Block {
    if height > x.quoteHeight then Expire(rows, id, x.state)
    else if x.reservationId.Some? && cfg.reservationsMounted then Quietly(rows, SubmitValid(x))
    else TakeApproval(rows, id, x, approvalOk)
  }

  /** The catch block around issue, sign and broadcast. */
  function CatchSubmit(rows: seq<Execution>, id: nat): Block {
    TransitionThen(rows, id, {Submitting}, MoveTo(ReconciliationRequired), Finished)
  }

  function SignedPatch(x: Execution, signature: string): Patch {
    NOTHING.(state := Some(Submitting), signature := Some(signature), lastValidBlockHeight := Some(x.quoteHeight))
  }

  /** The signature is stored first; the bytes go out only if that transition won. */
  function AfterSigned(rows: seq<Execution>, id: nat, issued: string, r: Reply): Block
    requires r.SignedReply?
  {
    if !r.wellFormed || id >= |rows| then CatchSubmit(rows, id)
    else
      match Cas(rows, id, {Signing}, SignedPatch(rows[id], r.signature).(authorizationId := Some(issued)), None)
      case Err(_) => CatchSubmit(rows, id)
      case Ok(after) =>
        if r.broadcast.None? then Block(after, SubmitBroadcast(r.signature), Some(r.signature))
        else if r.broadcast.value != r.signature then CatchSubmit(after, id)
        else Quietly(after, SubmitCommit(r.signature))
  }

  function LandedPatch(signature: string): Patch {
    MoveTo(Broadcast).(signature := Some(signature))
  }

  // ---------------------------------------------------------------- recoverSigning

  /** `authorizationId` is the one in the row the pass listed, not in the row as it is now. */
  function BeginRecoverSigning(rows: seq<Execution>, id: nat, authorizationId: Option<string>, ready: bool): Block {
    if authorizationId.None? then BeginSubmit(rows, id, ready)
    else if !ready then Quietly(rows, Finished)
    else Quietly(rows, RecoverResult)
  }

  function AfterResult(rows: seq<Execution>, id: nat, result: SignerResult): Block {
    match result
    case ResultExpired => Expire(rows, id, Signing)
    case ResultNotFound => Quietly(rows, Finished)
    case ResultInvalid => Quietly(rows, Finished)
    case ResultSigned(signature) =>
      if id >= |rows| then Quietly(rows, Finished)
      else
        match Cas(rows, id, {Signing}, SignedPatch(rows[id], signature), None)
        case Err(_) => Quietly(rows, Finished)
        case Ok(after) => Block(after, RecoverBroadcast(signature), Some(signature))
  }

  // ---------------------------------------------------------------- reconcile

  function BeginReconcile(rows: seq<Execution>, id: nat): Block {
    if id >= |rows| || rows[id].signature.None? then Quietly(rows, Finished)
    else Quietly(rows, ReconcileStatus(rows[id]))
  }

  function StillUnknown(rows: seq<Execution>, id: nat, x: Execution): Block {
    if x.state == ReconciliationRequired then Quietly(rows, Finished)
    else TransitionThen(rows, id, {x.state}, MoveTo(ReconciliationRequired), Finished)
  }

  function SettledPatch(cfg: Config, x: Execution, s: SignatureStatus): Patch {
    var state :=
      if s.failed then Failed
      else if s.level == FinalizedLevel || (cfg.confirmedIsFinal && s.level == ConfirmedLevel) then Finalized
      else Confirmed;
    MoveTo(state).(signature := x.signature, slot := Some(s.slot))
  }

  function AfterStatus(cfg: Config, rows: seq<Execution>, id: nat, x: Execution,
      status: Option<SignatureStatus>): Block {
    match status
    case Some(s) => TransitionThen(rows, id, {x.state}, SettledPatch(cfg, x, s), Finished)
    case None =>
      if x.lastValidBlockHeight.Some? then Quietly(rows, ReconcileHeight(x)) else StillUnknown(rows, id, x)
  }

  function AfterReconcileHeight(rows: seq<Execution>, id: nat, x: Execution, height: int): Block {
    if x.lastValidBlockHeight.None? || height <= x.lastValidBlockHeight.value then StillUnknown(rows, id, x)
    else if x.reservationId.Some? then Quietly(rows, ReconcileRelease(x))
    else TransitionThen(rows, id, {x.state}, MoveTo(Dropped), Finished)
  }

  // ---------------------------------------------------------------- resumption

  predicate InTry(pc: Pc) {
    pc.SubmitIssue? || pc.SubmitSign? || pc.SubmitBroadcast? || pc.SubmitCommit?
  }

  /** `submit` wraps issue, sign, broadcast and commit in one try block; nothing else catches. */
  function OnReject(rows: seq<Execution>, id: nat, pc: Pc): Block {
    if InTry(pc) then CatchSubmit(rows, id) else Quietly(rows, Finished)
  }

  function TryTransition(rows: seq<Execution>, id: nat, from: set<State>, p: Patch, pc: Pc): Block {
    match Cas(rows, id, from, p, None)
    case Ok(after) => Quietly(after, pc)
    case Err(_) => CatchSubmit(rows, id)
  }

  function ResumeSubmit(cfg: Config, rows: seq<Execution>, id: nat, pc: Pc, r: Reply): Block
    requires Fits(pc, r) && !r.Rejected?
    requires pc.SubmitHeight? || pc.ExpireRelease? || pc.SubmitValid? || InTry(pc)
  {
    match pc
    case SubmitHeight(x) => AfterHeight(cfg, rows, id, x, r.height, r.approvalOk)
    case ExpireRelease(from) => TransitionThen(rows, id, {from}, MoveTo(Expired), Finished)
    case SubmitValid(x) => if r.ok then TakeApproval(rows, id, x, r.approvalGiven) else Quietly(rows, Finished)
    case SubmitIssue =>
      TryTransition(rows, id, {Signing}, NOTHING.(authorizationId := Some(r.authorizationId)),
        SubmitSign(r.authorizationId))
    case SubmitSign(issued) => AfterSigned(rows, id, issued, r)
    case SubmitBroadcast(expected) =>
      if r.landed == expected then Quietly(rows, SubmitCommit(expected)) else CatchSubmit(rows, id)
    case SubmitCommit(expected) => TryTransition(rows, id, {Submitting}, LandedPatch(expected), Finished)
  }

  function ResumeOther(cfg: Config, rows: seq<Execution>, id: nat, pc: Pc, r: Reply): Block
    requires Fits(pc, r) && !r.Rejected?
    requires !(pc.SubmitHeight? || pc.ExpireRelease? || pc.SubmitValid? || InTry(pc))
  {
    match pc
    case RecoverResult => AfterResult(rows, id, r.result)
    case RecoverBroadcast(expected) =>
      if r.landed == expected then Quietly(rows, RecoverCommit(expected))
      else TransitionThen(rows, id, {Submitting}, MoveTo(ReconciliationRequired), Finished)
    case RecoverCommit(expected) => TransitionThen(rows, id, {Submitting}, LandedPatch(expected), Finished)
    case ReconcileStatus(x) => AfterStatus(cfg, rows, id, x, r.status)
    case ReconcileHeight(x) => AfterReconcileHeight(rows, id, x, r.height)
    case ReconcileRelease(x) => TransitionThen(rows, id, {x.state}, MoveTo(Dropped), Finished)
  }

  function ResumeBlock(cfg: Config, rows: seq<Execution>, id: nat, pc: Pc, r: Reply): Block
    requires Fits(pc, r)
  {
    if r.Rejected? then OnReject(rows, id, pc)
    else if pc.SubmitHeight? || pc.ExpireRelease? || pc.SubmitValid?
      || InTry(pc) then ResumeSubmit(cfg, rows, id, pc, r)
    else ResumeOther(cfg, rows, id, pc, r)
  }

  // ---------------------------------------------------------------- synchronous operations

  datatype Decision = Pending | Granted | Refused

  function RefreshApproval(rows: seq<Execution>, id: nat, d: Decision): seq<Execution> {
    if id >= |rows| || rows[id].state != AwaitingApproval || rows[id].approvalId.None? || d == Pending then rows
    else rows[id := Merge(rows[id], MoveTo(if d == Granted then Approved else Denied))]
  }

  function RecoverRow(rows: seq<Execution>, id: nat): seq<Execution> {
    if id < |rows| && rows[id].state == Submitting then rows[id := Merge(rows[id], MoveTo(ReconciliationRequired))]
    else rows
  }

  /** `execute`, once its reads and ports have answered: a key already used adds nothing, whether it is found before
    * them or refused by the table after them; a dry run is stored as such; a live one is approved at once or waits for
    * its approval. */
  function NewExecution(key: string, height: int, reservation: Option<string>, dryRun: bool): Execution {
    if dryRun then Execution(key, 0, DryRun, height, None, None, None, None, None, None)
    else Execution(key, 0, AwaitingApproval, height, None, None, reservation, None, Some(height), None)
  }

  function ExecuteRows(
    rows: seq<Execution>, key: string, height: int, reservation: Option<string>, dryRun: bool,
    approvalRequired: bool): seq<Execution>
  {
    var x := NewExecution(key, height, reservation, dryRun);
    if KeyTaken(rows, key) then rows
    else if dryRun then rows + [x]
    else rows + [Merge(x, if approvalRequired then NOTHING.(approvalId := Some(|rows|)) else MoveTo(Approved))]
  }

  // ---------------------------------------------------------------- the object

  class TradingOrchestrator {
    const cfg: Config
    const store: ExecutionStore

    constructor (cfg: Config, store: ExecutionStore)
      ensures this.cfg == cfg && this.store == store
    {
      this.cfg, this.store := cfg, store;
    }

    method Execute(key: string, height: int, reservation: Option<string>, dryRun: bool, approvalRequired: bool)
      modifies store
      ensures store.rows == ExecuteRows(old(store.rows), key, height, reservation, dryRun, approvalRequired)
    {
      var r := store.Create(NewExecution(key, height, reservation, dryRun));
      if r.Ok? && !dryRun {
        var patch := if approvalRequired then NOTHING.(approvalId := Some(r.value)) else MoveTo(Approved);
        var _ := store.Transition(r.value, {AwaitingApproval}, patch, None);
      }
    }

    method Refresh(id: nat, d: Decision)
      modifies store
      ensures store.rows == RefreshApproval(old(store.rows), id, d)
    {
      if id < |store.rows| && store.rows[id].state == AwaitingApproval && store.rows[id].approvalId.Some? {
        if d == Refused {
          var _ := store.Transition(id, {AwaitingApproval}, MoveTo(Denied), None);
        } else if d == Granted {
          var _ := store.Transition(id, {AwaitingApproval}, MoveTo(Approved), None);
        }
      }
    }

    method Recover(id: nat)
      modifies store
      ensures store.rows == RecoverRow(old(store.rows), id)
    {
      if id < |store.rows| && store.rows[id].state == Submitting {
        var _ := store.Transition(id, {Submitting}, MoveTo(ReconciliationRequired), None);
      }
    }

    /** A transition whose failure ends the operation. */
    method MoveOrStop(id: nat, from: set<State>, p: Patch, next: Pc) returns (pc: Pc)
      modifies store
      ensures Quietly(store.rows, pc) == TransitionThen(old(store.rows), id, from, p, next)
    {
      var r := store.Transition(id, from, p, None);
      pc := if r.Ok? then next else Finished;
    }

    method Catch(id: nat) returns (pc: Pc)
      modifies store
      ensures Quietly(store.rows, pc) == CatchSubmit(old(store.rows), id)
    {
      pc := MoveOrStop(id, {Submitting}, MoveTo(ReconciliationRequired), Finished);
    }

    method MoveOrCatch(id: nat, from: set<State>, p: Patch, next: Pc) returns (pc: Pc)
      modifies store
      ensures Quietly(store.rows, pc) == TryTransition(old(store.rows), id, from, p, next)
    {
      var r := store.Transition(id, from, p, None);
      if r.Ok? {
        pc := next;
      } else {
        pc := Catch(id);
      }
    }

    method Burn(id: nat, from: State) returns (pc: Pc)
      modifies store
      ensures Quietly(store.rows, pc) == Expire(old(store.rows), id, from)
    {
      if id < |store.rows| && store.rows[id].reservationId.Some? {
        pc := ExpireRelease(from);
      } else {
        pc := MoveOrStop(id, {from}, MoveTo(Expired), Finished);
      }
    }

    method ConsumeApproval(id: nat, x: Execution, approvalOk: bool) returns (pc: Pc)
      modifies store
      ensures Quietly(store.rows, pc) == TakeApproval(old(store.rows), id, x, approvalOk)
    {
      if x.approvalId.None? || !approvalOk {
        return Finished;
      }
      pc := SubmitIssue;
      if x.state == Approved {
        pc := MoveOrStop(id, {Approved}, MoveTo(Signing), SubmitIssue);
      }
    }

    method PersistSignature(id: nat, issued: string, r: Reply) returns (pc: Pc, sent: Option<string>)
      requires r.SignedReply?
      modifies store
      ensures Block(store.rows, pc, sent) == AfterSigned(old(store.rows), id, issued, r)
    {
      sent := None;
      if !r.wellFormed || id >= |store.rows| {
        pc := Catch(id);
        return;
      }
      var patch := SignedPatch(store.rows[id], r.signature).(authorizationId := Some(issued));
      var moved := store.Transition(id, {Signing}, patch, None);
      if moved.Err? {
        pc := Catch(id);
      } else if r.broadcast.None? {
        pc, sent := SubmitBroadcast(r.signature), Some(r.signature);
      } else if r.broadcast.value != r.signature {
        pc := Catch(id);
      } else {
        pc := SubmitCommit(r.signature);
      }
    }

    method ResumeSubmission(id: nat, at: Pc, r: Reply) returns (pc: Pc, sent: Option<string>)
      requires Fits(at, r) && !r.Rejected?
      requires at.SubmitHeight? || at.ExpireRelease? || at.SubmitValid? || InTry(at)
      modifies store
      ensures Block(store.rows, pc, sent) == ResumeSubmit(cfg, old(store.rows), id, at, r)
    {
      sent := None;
      match at
      case SubmitHeight(x) =>
        if r.height > x.quoteHeight {
          pc := Burn(id, x.state);
        } else if x.reservationId.Some? && cfg.reservationsMounted {
          pc := SubmitValid(x);
        } else {
          pc := ConsumeApproval(id, x, r.approvalOk);
        }
      case ExpireRelease(from) => pc := MoveOrStop(id, {from}, MoveTo(Expired), Finished);
      case SubmitValid(x) =>
        if r.ok {
          pc := ConsumeApproval(id, x, r.approvalGiven);
        } else {
          pc := Finished;
        }
      case SubmitIssue =>
        pc := MoveOrCatch(id, {Signing}, NOTHING.(authorizationId := Some(r.authorizationId)),
          SubmitSign(r.authorizationId));
      case SubmitSign(issued) => pc, sent := PersistSignature(id, issued, r);
      case SubmitBroadcast(expected) =>
        if r.landed == expected {
          pc := SubmitCommit(expected);
        } else {
          pc := Catch(id);
        }
      case SubmitCommit(expected) => pc := MoveOrCatch(id, {Submitting}, LandedPatch(expected), Finished);
    }

    method RecoverSignature(id: nat, result: SignerResult) returns (pc: Pc, sent: Option<string>)
      modifies store
      ensures Block(store.rows, pc, sent) == AfterResult(old(store.rows), id, result)
    {
      sent, pc := None, Finished;
      match result
      case ResultExpired => pc := Burn(id, Signing);
      case ResultNotFound =>
      case ResultInvalid =>
      case ResultSigned(signature) =>
        if id < |store.rows| {
          var moved := store.Transition(id, {Signing}, SignedPatch(store.rows[id], signature), None);
          if moved.Ok? {
            pc, sent := RecoverBroadcast(signature), Some(signature);
          }
        }
    }

    method MarkUnknown(id: nat, x: Execution) returns (pc: Pc)
      modifies store
      ensures Quietly(store.rows, pc) == StillUnknown(old(store.rows), id, x)
    {
      pc := Finished;
      if x.state != ReconciliationRequired {
        pc := MoveOrStop(id, {x.state}, MoveTo(ReconciliationRequired), Finished);
      }
    }

    method ResumeRecoveryOrReconcile(id: nat, at: Pc, r: Reply) returns (pc: Pc, sent: Option<string>)
      requires Fits(at, r) && !r.Rejected?
      requires !(at.SubmitHeight? || at.ExpireRelease? || at.SubmitValid? || InTry(at))
      modifies store
      ensures Block(store.rows, pc, sent) == ResumeOther(cfg, old(store.rows), id, at, r)
    {
      sent := None;
      match at
      case RecoverResult => pc, sent := RecoverSignature(id, r.result);
      case RecoverBroadcast(expected) =>
        if r.landed == expected {
          pc := RecoverCommit(expected);
        } else {
          pc := MoveOrStop(id, {Submitting}, MoveTo(ReconciliationRequired), Finished);
        }
      case RecoverCommit(expected) => pc := MoveOrStop(id, {Submitting}, LandedPatch(expected), Finished);
      case ReconcileStatus(x) =>
        if r.status.Some? {
          pc := MoveOrStop(id, {x.state}, SettledPatch(cfg, x, r.status.value), Finished);
        } else if x.lastValidBlockHeight.Some? {
          pc := ReconcileHeight(x);
        } else {
          pc := MarkUnknown(id, x);
        }
      case ReconcileHeight(x) =>
        if x.lastValidBlockHeight.None? || r.height <= x.lastValidBlockHeight.value {
          pc := MarkUnknown(id, x);
        } else if x.reservationId.Some? {
          pc := ReconcileRelease(x);
        } else {
          pc := MoveOrStop(id, {x.state}, MoveTo(Dropped), Finished);
        }
      case ReconcileRelease(x) => pc := MoveOrStop(id, {x.state}, MoveTo(Dropped), Finished);
    }

    /** Resume one suspended operation; `sent` is the signature of the bytes it put on the wire, if any. */
    method Resume(f: Frame, r: Reply) returns (pc: Pc, sent: Option<string>)
      requires Fits(f.pc, r)
      modifies store
      ensures Block(store.rows, pc, sent) == ResumeBlock(cfg, old(store.rows), f.id, f.pc, r)
    {
      sent := None;
      if r.Rejected? {
        if InTry(f.pc) {
          pc := Catch(f.id);
        } else {
          pc := Finished;
        }
      } else if f.pc.SubmitHeight? || f.pc.ExpireRelease? || f.pc.SubmitValid? || InTry(f.pc) {
        pc, sent := ResumeSubmission(f.id, f.pc, r);
      } else {
        pc, sent := ResumeRecoveryOrReconcile(f.id, f.pc, r);
      }
    }
  }
}

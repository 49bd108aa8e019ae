/** The custody boundary: signing, result lookup, broadcasting and reconciliation, cut at their awaits. */
module Signer {
  import opened Prelude
  import opened Replay

  datatype SignResult = SignResult(transaction: string, signature: string)

  /** One request about authorization `id` for the message whose hash is `hash`. */
  datatype Request = Request(id: string, hash: string, lastValidBlockHeight: Option<int>, expiresAt: int)

  datatype Pc =
    | AwaitVerify(prior: Option<SignResult>)
    | AwaitConsume(consumed: bool)
    | AwaitHeight
    | AwaitFence
    | AwaitSigned(moved: bool, result: SignResult)
    | AwaitSend(bytes: string, expected: string, heightKept: Option<int>)
    | AwaitStatus(listed: Row)
    | AwaitChainHeight(listedThen: Row)
    | Finished(answer: Option<SignResult>)

  datatype Frame = Frame(request: Request, pc: Pc)

  datatype ChainStatus = ChainStatus(failed: bool, landed: bool)

  datatype Reply =
    | Rejected
    | Verified(policyOk: bool)  // the envelope matched; policyOk says whether the policy accepts too
    | Resolved
    | Height(height: int)
    | SignMessage(outcome: Option<SignResult>)  // None: the account refused to sign
    | SendReply(returned: Option<string>)
    | StatusReply(status: Option<ChainStatus>)

  predicate Fits(pc: Pc, r: Reply) {
    match pc
    case AwaitVerify(_) => r.Verified? || r.Rejected?
    case AwaitConsume(_) => r.Resolved?
    case AwaitHeight => r.Height? || r.Rejected?
    case AwaitFence => r.SignMessage?
    case AwaitSigned(_, _) => r.Resolved?
    case AwaitSend(_, _, _) => r.SendReply? || r.Rejected?
    case AwaitStatus(_) => r.StatusReply? || r.Rejected?
    case AwaitChainHeight(_) => r.Height? || r.Rejected?
    case Finished(_) => false
  }

  /** The call is over and hands no signature back: it was refused, or it was not a signing call. */
  const ENDED := Finished(None)

  /** `signed`: the outcome of the call to `signMessage` this block made, if it made one. */
  datatype Block = Block(rows: Table, pc: Pc, signed: Option<Option<SignResult>>)

  function Quietly(rows: Table, pc: Pc): Block {
    Block(rows, pc, None)
  }

  // ---------------------------------------------------------------- the stored signature

  datatype Lookup = Missing | Found(result: SignResult) | Throws(code: string)

  /** What the durable row says about a request, without touching it. */
  function StoredFor(rows: Table, id: string, hash: string): Lookup {
    if hash == "" then Throws("request_hash_invalid")
    else if id !in rows then Missing
    else if rows[id].state == ExpiredAuthorization then Throws("authorization_expired")
    else
      match rows[id].data
      case NoData => Missing
      case Stored(requestHash, transaction, signature, _) =>
        if requestHash != hash then Throws("authorization_request_mismatch")
        else if rows[id].state != Signed || transaction == "" then Throws("authorization_in_progress")
        else Found(SignResult(transaction, signature))
      case _ => Throws("authorization_request_mismatch")
  }

  datatype ResultAnswer =
    | AnswerExpired
    | AnswerNotFound
    | AnswerThrows(code: string)
    | AnswerSigned(signature: string, transaction: Option<string>)

  /** The `result` call: the signature whenever it is stored, the bytes to the first caller that asks for them. */
  function ResultOf(rows: Table, id: string, hash: string, recoverRaw: bool): (Table, ResultAnswer) {
    if id in rows && rows[id].state == ExpiredAuthorization then (rows, AnswerExpired)
    else
      match StoredFor(rows, id, hash)
      case Missing => (rows, AnswerNotFound)
      case Throws(code) => (rows, AnswerThrows(code))
      case Found(found) =>
        if recoverRaw
          && CanRecover(rows, id) then (RecoverRow(rows, id), AnswerSigned(found.signature, Some(found.transaction)))
        else (rows, AnswerSigned(found.signature, None))
  }

  // ---------------------------------------------------------------- signEnvelope and sign

  function BeginEnvelope(rows: Table, q: Request): Block {
    if q.id == "" then Quietly(rows, ENDED)
    else
      match StoredFor(rows, q.id, q.hash)
      case Throws(_) => Quietly(rows, ENDED)
      case Missing => Quietly(rows, AwaitVerify(None))
      case Found(prior) => Quietly(rows, AwaitVerify(Some(prior)))
  }

  function Claim(rows: Table, q: Request): Block {
    Quietly(ConsumeRow(rows, q.id, q.expiresAt), AwaitConsume(CanConsume(rows, q.id, q.expiresAt)))
  }

  /** The operator path: policy has already accepted, there is no envelope to verify. */
  function BeginDirect(rows: Table, q: Request): Block {
    match StoredFor(rows, q.id, q.hash)
    case Throws(_) => Quietly(rows, ENDED)
    case Missing => Claim(rows, q)
    case Found(prior) => Quietly(rows, Finished(Some(prior)))
  }

  function AfterHeight(rows: Table, q: Request, height: int): Block {
    if q.lastValidBlockHeight.None? || height < 0 then Quietly(rows, ENDED)
    else if height <= q.lastValidBlockHeight.value then Quietly(rows, AwaitFence)
    else Quietly(MoveRow(rows, q.id, Claimed, ExpiredAuthorization, Fenced(q.lastValidBlockHeight.value, height)),
      ENDED)
  }

  /** The account signs, and the row moves in the same block. */
  function SignClaimed(rows: Table, q: Request, outcome: Option<SignResult>): Block {
    match outcome
    case None => Block(MoveRow(rows, q.id, Claimed, FailedAuthorization, NoData), ENDED, Some(None))
    case Some(result) =>
      var data := Stored(q.hash, result.transaction, result.signature, q.lastValidBlockHeight);
      Block(MoveRow(rows, q.id, Claimed, Signed, data), AwaitSigned(CanMove(rows, q.id, Claimed), result),
        Some(Some(result)))
  }

  // ---------------------------------------------------------------- broadcastSigned and reconcileTransactions

  function KeptHeight(d: Data): Option<int> {
    match d
    case Stored(_, _, _, h) => h
    case Sent(_, _, h) => h
    case Mismatched(_, h) => h
    case Settled(_, h) => h
    case Fenced(h, _) => Some(h)
    case _ => None
  }

  function BeginBroadcast(rows: Table, q: Request, bytes: string, expected: string): Block {
    Quietly(rows, AwaitSend(bytes, expected, if q.id in rows then KeptHeight(rows[q.id].data) else None))
  }

  function AfterSend(rows: Table, q: Request, bytes: string, expected: string, kept: Option<int>,
      returned: Option<string>): Block {
    if returned != Some(expected) then
      Quietly(MoveRow(rows, q.id, Signed, Reconciliation, Mismatched(expected, kept)), ENDED)
    else Quietly(MoveRow(rows, q.id, Signed, Broadcast, Sent(expected, bytes, kept)), ENDED)
  }

  function KnownSignature(d: Data): Option<string> {
    match d
    case Stored(_, _, signature, _) => Some(signature)
    case Sent(signature, _, _) => Some(signature)
    case Mismatched(expected, _) => Some(expected)
    case Settled(signature, _) => Some(signature)
    case _ => None
  }

  /** `listed` is the row as the reconciliation pass read it. */
  function BeginReconcile(rows: Table, listed: Row): Block {
    if listed.state != Broadcast && listed.state != Reconciliation then Quietly(rows, ENDED)
    else if KnownSignature(listed.data).None? || KnownSignature(listed.data).value == "" then Quietly(rows, ENDED)
    else Quietly(rows, AwaitStatus(listed))
  }

  function SettleTo(listed: Row, s: ChainStatus): Option<State> {
    if s.failed then Some(Reverted)
    else if s.landed then Some(ConfirmedOnChain)
    else if listed.state == Reconciliation then Some(Broadcast)
    else None
  }

  function AfterStatus(rows: Table, q: Request, listed: Row, status: Option<ChainStatus>): Block {
    var signature := if KnownSignature(listed.data).Some? then KnownSignature(listed.data).value else "";
    match status
    case Some(s) =>
      (match SettleTo(listed, s)
       case Some(to) =>
         Quietly(MoveRow(rows, q.id, listed.state, to, Settled(signature, KeptHeight(listed.data))), ENDED)
       case None => Quietly(rows, ENDED))
    case None =>
      if KeptHeight(listed.data).Some? then Quietly(rows, AwaitChainHeight(listed)) else Quietly(rows, ENDED)
  }

  function AfterChainHeight(rows: Table, q: Request, listed: Row, height: int): Block {
    var signature := if KnownSignature(listed.data).Some? then KnownSignature(listed.data).value else "";
    var kept := KeptHeight(listed.data);
    if kept.Some?
      && height > kept.value then Quietly(MoveRow(rows, q.id, listed.state, Dropped, Settled(signature, kept)), ENDED)
    else Quietly(rows, ENDED)
  }

  // ---------------------------------------------------------------- resumption

  function ResumeBlock(heightPort: bool, rows: Table, q: Request, pc: Pc, r: Reply): Block
    requires Fits(pc, r)
  {
    if r.Rejected? then Quietly(rows, ENDED)
    else
      match pc
      case AwaitVerify(prior) =>
        if !r.policyOk then Quietly(rows, ENDED)
        else if prior.Some? then Quietly(rows, Finished(prior))
        else Claim(rows, q)
      case AwaitConsume(consumed) =>
        if !consumed then Quietly(rows, ENDED)
        else if q.lastValidBlockHeight.Some? && heightPort then Quietly(rows, AwaitHeight)
        else Quietly(rows, AwaitFence)
      case AwaitHeight => AfterHeight(rows, q, r.height)
      case AwaitFence => SignClaimed(rows, q, r.outcome)
      case AwaitSigned(moved, result) =>
        if moved then Quietly(rows, Finished(Some(result)))
        else Quietly(MoveRow(rows, q.id, Claimed, FailedAuthorization, NoData), ENDED)
      case AwaitSend(bytes, expected, kept) => AfterSend(rows, q, bytes, expected, kept, r.returned)
      case AwaitStatus(listed) => AfterStatus(rows, q, listed, r.status)
      case AwaitChainHeight(listed) => AfterChainHeight(rows, q, listed, r.height)
  }

  // ---------------------------------------------------------------- the service object

  class SignerService {
    const replay: ReplayStore
    const heightPort: bool

    constructor (replay: ReplayStore, heightPort: bool)
      ensures this.replay == replay && this.heightPort == heightPort
    {
      this.replay, this.heightPort := replay, heightPort;
    }

    method SignEnvelope(q: Request) returns (pc: Pc)
      ensures Quietly(replay.rows, pc) == BeginEnvelope(replay.rows, q)
    {
      if q.id == "" {
        return ENDED;
      }
      match StoredFor(replay.rows, q.id, q.hash)
      case Throws(_) => pc := ENDED;
      case Missing => pc := AwaitVerify(None);
      case Found(prior) => pc := AwaitVerify(Some(prior));
    }

    method Sign(q: Request) returns (pc: Pc)
      modifies replay
      ensures Quietly(replay.rows, pc) == BeginDirect(old(replay.rows), q)
    {
      match StoredFor(replay.rows, q.id, q.hash)
      case Throws(_) => pc := ENDED;
      case Missing =>
        var consumed := replay.Consume(q.id, q.expiresAt);
        pc := AwaitConsume(consumed);
      case Found(prior) => pc := Finished(Some(prior));
    }

    method Result(id: string, hash: string, recoverRaw: bool) returns (answer: ResultAnswer)
      modifies replay
      ensures (replay.rows, answer) == ResultOf(old(replay.rows), id, hash, recoverRaw)
    {
      if id in replay.rows && replay.rows[id].state == ExpiredAuthorization {
        return AnswerExpired;
      }
      match StoredFor(replay.rows, id, hash)
      case Missing => answer := AnswerNotFound;
      case Throws(code) => answer := AnswerThrows(code);
      case Found(found) =>
        answer := AnswerSigned(found.signature, None);
        if recoverRaw {
          var claimed := replay.RecoverSigned(id);
          if claimed.Some? {
            answer := AnswerSigned(found.signature, Some(claimed.value.transaction));
          }
        }
    }

    method ReconcileStatus(q: Request, listed: Row, status: Option<ChainStatus>) returns (pc: Pc)
      modifies replay
      ensures Quietly(replay.rows, pc) == AfterStatus(old(replay.rows), q, listed, status)
    {
      var signature := if KnownSignature(listed.data).Some? then KnownSignature(listed.data).value else "";
      pc := ENDED;
      if status.Some? {
        var to := SettleTo(listed, status.value);
        if to.Some? {
          var _ := replay.Transition(q.id, listed.state, to.value, Settled(signature, KeptHeight(listed.data)));
        }
      } else if KeptHeight(listed.data).Some? {
        pc := AwaitChainHeight(listed);
      }
    }

    /** Resume one suspended call; `signed` reports the call to `signMessage` it made, if any. */
    method Resume(f: Frame, r: Reply) returns (pc: Pc, signed: Option<Option<SignResult>>)
      requires Fits(f.pc, r)
      modifies replay
      ensures Block(replay.rows, pc, signed) == ResumeBlock(heightPort, old(replay.rows), f.request, f.pc, r)
    {
      pc, signed := ENDED, None;
      var q := f.request;
      if r.Rejected? {
        return;
      }
      match f.pc
      case AwaitVerify(prior) =>
        if r.policyOk {
          if prior.Some? {
            pc := Finished(prior);
          } else {
            var consumed := replay.Consume(q.id, q.expiresAt);
            pc := AwaitConsume(consumed);
          }
        }
      case AwaitConsume(consumed) =>
        if consumed {
          pc := if q.lastValidBlockHeight.Some? && heightPort then AwaitHeight else AwaitFence;
        }
      case AwaitHeight =>
        if q.lastValidBlockHeight.Some? && r.height >= 0 {
          if r.height <= q.lastValidBlockHeight.value {
            pc := AwaitFence;
          } else {
            var _ := replay.Transition(q.id, Claimed, ExpiredAuthorization,
              Fenced(q.lastValidBlockHeight.value, r.height));
          }
        }
      case AwaitFence =>
        signed := Some(r.outcome);
        if r.outcome.Some? {
          var result := r.outcome.value;
          var moved := replay.Transition(q.id, Claimed, Signed,
            Stored(q.hash, result.transaction, result.signature, q.lastValidBlockHeight));
          pc := AwaitSigned(moved, result);
        } else {
          var _ := replay.Transition(q.id, Claimed, FailedAuthorization, NoData);
        }
      case AwaitSigned(moved, result) =>
        if moved {
          pc := Finished(Some(result));
        } else {
          var _ := replay.Transition(q.id, Claimed, FailedAuthorization, NoData);
        }
      case AwaitSend(bytes, expected, kept) =>
        if r.returned != Some(expected) {
          var _ := replay.Transition(q.id, Signed, Reconciliation, Mismatched(expected, kept));
        } else {
          var _ := replay.Transition(q.id, Signed, Broadcast, Sent(expected, bytes, kept));
        }
      case AwaitStatus(listed) => pc := ReconcileStatus(q, listed, r.status);
      case AwaitChainHeight(listed) =>
        var kept := KeptHeight(listed.data);
        if kept.Some? && r.height > kept.value {
          var signature := if KnownSignature(listed.data).Some? then KnownSignature(listed.data).value else "";
          var _ := replay.Transition(q.id, listed.state, Dropped, Settled(signature, kept));
        }
    }
  }
}

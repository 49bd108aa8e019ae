/** Whole runs of the signer: concurrent connections, restarts, broadcasts and reconciliation over one durable table. */
module SignerProtocol {
  import opened Prelude
  import opened Replay
  import opened Signer

  /** One call to `signMessage`; the outcome is None when the account refused. */
  datatype SignCall = SignCall(id: string, hash: string, outcome: Option<SignResult>)

  /** One successful answer of `signEnvelope` or `sign`. */
  datatype Answer = Answer(id: string, hash: string, result: SignResult)

  /** `signCalls`, `answers` and `released` are history; `rows` alone survives a restart. */
  datatype Sys = Sys(rows: Table, frames: seq<Frame>, signCalls: seq<SignCall>, answers: seq<Answer>,
    released: seq<string>)

  datatype Event =
    | SignEnvelope(q: Request)
    | SignDirect(q: Request)
    | Result(id: string, hash: string, recoverRaw: bool)
    | BroadcastSigned(q: Request, bytes: string, expected: string)
    | ReconcileRow(q: Request)
    | Resume(frame: nat, reply: Reply)
    | Restart

  const EMPTY := Sys(map[], [], [], [], [])

  predicate Enabled(s: Sys, e: Event) {
    match e
    case Resume(k, r) => k < |s.frames| && Fits(s.frames[k].pc, r)
    case ReconcileRow(q) => q.id in s.rows
    case _ => true
  }

  function Answered(answers: seq<Answer>, q: Request, pc: Pc): seq<Answer> {
    match pc
    case Finished(Some(result)) => answers + [Answer(q.id, q.hash, result)]
    case _ => answers
  }

  function Called(calls: seq<SignCall>, q: Request, signed: Option<Option<SignResult>>): seq<SignCall> {
    if signed.Some? then calls + [SignCall(q.id, q.hash, signed.value)] else calls
  }

  function Begun(s: Sys, q: Request, b: Block): Sys {
    s.(rows := b.rows, frames := s.frames + [Frame(q, b.pc)], answers := Answered(s.answers, q, b.pc))
  }

  function Step(heightPort: bool, s: Sys, e: Event): Sys
    requires Enabled(s, e)
  {
    match e
    case SignEnvelope(q) => Begun(s, q, BeginEnvelope(s.rows, q))
    case SignDirect(q) => Begun(s, q, BeginDirect(s.rows, q))
    case Result(id, hash, raw) =>
      var (rows, answer) := ResultOf(s.rows, id, hash, raw);
      s.(rows := rows, released := if answer.AnswerSigned? && answer.transaction.Some? then s.released + [id]
        else s.released)
    case BroadcastSigned(q, bytes, expected) => Begun(s, q, BeginBroadcast(s.rows, q, bytes, expected))
    case ReconcileRow(q) => Begun(s, q, BeginReconcile(s.rows, s.rows[q.id]))
    case Resume(k, r) =>
      var f := s.frames[k];
      var b := ResumeBlock(heightPort, s.rows, f.request, f.pc, r);
      s.(rows := b.rows, frames := s.frames[k := f.(pc := b.pc)],
         signCalls := Called(s.signCalls, f.request, b.signed), answers := Answered(s.answers, f.request, b.pc))
    case Restart => s.(frames := [])
  }

  ghost predicate Runs(heightPort: bool, events: seq<Event>, s: Sys)
    decreases |events|
  {
    if events == [] then s == EMPTY
    else
      var n := |events| - 1;
      exists before :: Runs(heightPort, events[..n], before) && Enabled(before, events[n])
        && s == Step(heightPort, before, events[n])
  }

  ghost predicate Reachable(heightPort: bool, s: Sys) {
    exists events :: Runs(heightPort, events, s)
  }

  // ---------------------------------------------------------------- the invariant

  /** The longest way a row can go from its claim to this state. */
  function Rank(state: State): nat {
    match state
    case Claimed => 0
    case Signed => 1
    case Reconciliation => 2
    case Broadcast => 3
    case _ => 4
  }

  /** The frame that won the claim and has not signed yet. */
  predicate Owner(pc: Pc) {
    (pc.AwaitConsume? && pc.consumed) || pc.AwaitHeight? || pc.AwaitFence?
  }

  predicate CalledFor(calls: seq<SignCall>, id: string) {
    exists i | 0 <= i < |calls| :: calls[i].id == id
  }

  predicate SignedAs(calls: seq<SignCall>, id: string, hash: string, result: SignResult) {
    SignCall(id, hash, Some(result)) in calls
  }

  predicate RowOk(id: string, row: Row, calls: seq<SignCall>, released: seq<string>) {
    && 1 <= row.version <= 1 + Rank(row.state) + (if row.recovered then 1 else 0)
    && (row.data.Stored? ==> row.state == Signed)
    && (row.state == Broadcast || row.state == Reconciliation ==> !row.data.NoData?)
    && (row.state == Signed ==>
      && row.data.Stored?
      && SignedAs(calls, id, row.data.requestHash, SignResult(row.data.transaction, row.data.signature)))
    && (row.state == Claimed || row.state == ExpiredAuthorization ==> !CalledFor(calls, id))
    && (row.recovered <==> id in released)
  }

  predicate FrameOk(rows: Table, calls: seq<SignCall>, f: Frame) {
    var id := f.request.id;
    match f.pc
    case AwaitVerify(prior) => prior.Some? ==> SignedAs(calls, id, f.request.hash, prior.value)
    case AwaitConsume(consumed) => consumed ==> id in rows && rows[id].state == Claimed
    case AwaitHeight => id in rows && rows[id].state == Claimed
    case AwaitFence => id in rows && rows[id].state == Claimed
    case AwaitSigned(moved, result) => moved && SignedAs(calls, id, f.request.hash, result)
    case AwaitStatus(listed) => listed.state == Broadcast || listed.state == Reconciliation
    case AwaitChainHeight(listed) => listed.state == Broadcast || listed.state == Reconciliation
    case _ => true
  }

  ghost predicate OneOwner(frames: seq<Frame>) {
    forall i, j :: 0 <= i < j < |frames| && Owner(frames[i].pc) && Owner(frames[j].pc) ==>
      frames[i].request.id != frames[j].request.id
  }

  ghost predicate CallsOk(rows: Table, calls: seq<SignCall>) {
    && (forall i, j :: 0 <= i < j < |calls| ==> calls[i].id != calls[j].id)
    && (forall i :: 0 <= i < |calls| ==> calls[i].id in rows)
  }

  ghost predicate ReleasedOk(rows: Table, released: seq<string>) {
    && (forall i, j :: 0 <= i < j < |released| ==> released[i] != released[j])
    && (forall i :: 0 <= i < |released| ==> released[i] in rows)
  }

  ghost predicate Inv(s: Sys) {
    && (forall id :: id in s.rows ==> RowOk(id, s.rows[id], s.signCalls, s.released))
    && (forall k :: 0 <= k < |s.frames| ==> FrameOk(s.rows, s.signCalls, s.frames[k]))
    && OneOwner(s.frames)
    && CallsOk(s.rows, s.signCalls)
    && ReleasedOk(s.rows, s.released)
    && (forall i :: 0 <= i < |s.answers| ==>
      SignedAs(s.signCalls, s.answers[i].id, s.answers[i].hash, s.answers[i].result))
  }

  // ---------------------------------------------------------------- one row at a time

  /** A block changes no row but that of its own id, and removes none. */
  predicate OnlyRow(rows: Table, rows': Table, id: string) {
    && rows.Keys <= rows'.Keys <= rows.Keys + {id}
    && forall other | other in rows && other != id :: rows'[other] == rows[other]
  }

  lemma CalledGrows(calls: seq<SignCall>, call: SignCall, id: string)
    ensures CalledFor(calls + [call], id) <==> CalledFor(calls, id) || call.id == id
  {
    if CalledFor(calls, id) {
      var i :| 0 <= i < |calls| && calls[i].id == id;
      assert (calls + [call])[i].id == id;
    }
    assert (calls + [call])[|calls|] == call;
  }

  /** A new call for `id` is invisible to every other row. */
  lemma OtherRowOk(id: string, row: Row, calls: seq<SignCall>, released: seq<string>, call: SignCall)
    requires RowOk(id, row, calls, released) && call.id != id
    ensures RowOk(id, row, calls + [call], released)
  {
    CalledGrows(calls, call, id);
  }

  lemma OtherFrameOk(rows: Table, rows': Table, calls: seq<SignCall>, calls': seq<SignCall>, id: string, f: Frame)
    requires FrameOk(rows, calls, f) && OnlyRow(rows, rows', id) && calls <= calls'
    requires f.request.id != id || !Owner(f.pc) || (id in rows' && rows'[id].state == Claimed)
    ensures FrameOk(rows', calls', f)
  {
  }

  /** What one resumed block does to its own row, seen from the claim to the settled end. */
  predicate GoodBlock(rows: Table, calls: seq<SignCall>, released: seq<string>, q: Request, pc: Pc, b: Block) {
    var calls' := Called(calls, q, b.signed);
    && OnlyRow(rows, b.rows, q.id)
    && (q.id in b.rows ==> RowOk(q.id, b.rows[q.id], calls', released))
    && FrameOk(b.rows, calls', Frame(q, b.pc))
    && (b.signed.Some? ==> pc == AwaitFence && q.id in rows && rows[q.id].state == Claimed)
    && (Owner(b.pc) ==> Owner(pc) || q.id !in rows)
    && (q.id in rows && rows[q.id].state == Claimed && b.rows[q.id] != rows[q.id] ==> Owner(pc) && !Owner(b.pc))
    && (b.pc.Finished? && b.pc.answer.Some? ==> SignedAs(calls', q.id, q.hash, b.pc.answer.value))
  }

  lemma MoveKeepsRow(rows: Table, calls: seq<SignCall>, released: seq<string>, id: string, from: State, to: State,
      data: Data)
    requires id in rows ==> RowOk(id, rows[id], calls, released)
    requires from != Claimed && Rank(from) < Rank(to) && to != Signed && to != ExpiredAuthorization && !data.Stored?
      && !data.NoData?
    ensures var rows' := MoveRow(rows, id, from, to, data);
      OnlyRow(rows, rows', id) && (id in rows' ==> RowOk(id, rows'[id], calls, released))
  {
  }

  lemma MoveIsGood(
    rows: Table, calls: seq<SignCall>, released: seq<string>, q: Request, pc: Pc, from: State, to: State, data: Data)
    requires q.id in rows ==> RowOk(q.id, rows[q.id], calls, released)
    requires from != Claimed && Rank(from) < Rank(to) && to != Signed && to != ExpiredAuthorization && !data.Stored?
      && !data.NoData?
    ensures GoodBlock(rows, calls, released, q, pc, Quietly(MoveRow(rows, q.id, from, to, data), ENDED))
  {
    MoveKeepsRow(rows, calls, released, q.id, from, to, data);
  }

  lemma QuietIsGood(rows: Table, calls: seq<SignCall>, released: seq<string>, q: Request, pc: Pc, next: Pc)
    requires q.id in rows ==> RowOk(q.id, rows[q.id], calls, released)
    requires FrameOk(rows, calls, Frame(q, next)) && (Owner(next) ==> Owner(pc))
    requires next.Finished? && next.answer.Some? ==> SignedAs(calls, q.id, q.hash, next.answer.value)
    ensures GoodBlock(rows, calls, released, q, pc, Quietly(rows, next))
  {
  }

  lemma SettleIsGood(heightPort: bool, rows: Table, calls: seq<SignCall>, released: seq<string>, q: Request, pc: Pc,
      r: Reply)
    requires Fits(pc, r) && !r.Rejected? && (pc.AwaitSend? || pc.AwaitStatus? || pc.AwaitChainHeight?)
    requires FrameOk(rows, calls, Frame(q, pc)) && (q.id in rows ==> RowOk(q.id, rows[q.id], calls, released))
    ensures GoodBlock(rows, calls, released, q, pc, ResumeBlock(heightPort, rows, q, pc, r))
  {
    QuietIsGood(rows, calls, released, q, pc, ENDED);
    match pc
    case AwaitSend(bytes, expected, kept) =>
      MoveIsGood(rows, calls, released, q, pc, Signed, Reconciliation, Mismatched(expected, kept));
      MoveIsGood(rows, calls, released, q, pc, Signed, Broadcast, Sent(expected, bytes, kept));
    case AwaitStatus(listed) => StatusIsGood(rows, calls, released, q, listed, r.status);
    case AwaitChainHeight(listed) =>
      var signature := if KnownSignature(listed.data).Some? then KnownSignature(listed.data).value else "";
      MoveIsGood(rows, calls, released, q, pc, listed.state, Dropped, Settled(signature, KeptHeight(listed.data)));
  }

  lemma StatusIsGood(
    rows: Table, calls: seq<SignCall>, released: seq<string>, q: Request, listed: Row, status: Option<ChainStatus>)
    requires listed.state == Broadcast || listed.state == Reconciliation
    requires q.id in rows ==> RowOk(q.id, rows[q.id], calls, released)
    ensures GoodBlock(rows, calls, released, q, AwaitStatus(listed), AfterStatus(rows, q, listed, status))
  {
    var signature := if KnownSignature(listed.data).Some? then KnownSignature(listed.data).value else "";
    QuietIsGood(rows, calls, released, q, AwaitStatus(listed), ENDED);
    QuietIsGood(rows, calls, released, q, AwaitStatus(listed), AwaitChainHeight(listed));
    if status.Some? && SettleTo(listed, status.value).Some? {
      MoveIsGood(rows, calls, released, q, AwaitStatus(listed), listed.state, SettleTo(listed, status.value).value,
                 Settled(signature, KeptHeight(listed.data)));
    }
  }

  lemma SignIsGood(rows: Table, calls: seq<SignCall>, released: seq<string>, q: Request, outcome: Option<SignResult>)
    requires FrameOk(rows, calls, Frame(q, AwaitFence)) && RowOk(q.id, rows[q.id], calls, released)
    ensures GoodBlock(rows, calls, released, q, AwaitFence, SignClaimed(rows, q, outcome))
  {
    CalledGrows(calls, SignCall(q.id, q.hash, outcome), q.id);
  }

  lemma ClaimIsGood(rows: Table, calls: seq<SignCall>, released: seq<string>, q: Request, pc: Pc)
    requires q.id in rows ==> RowOk(q.id, rows[q.id], calls, released)
    requires q.id !in rows ==> !CalledFor(calls, q.id) && q.id !in released
    ensures GoodBlock(rows, calls, released, q, pc, Claim(rows, q))
  {
  }

  lemma ResumeIsGood(heightPort: bool, rows: Table, calls: seq<SignCall>, released: seq<string>, q: Request, pc: Pc,
      r: Reply)
    requires Fits(pc, r) && FrameOk(rows, calls, Frame(q, pc))
    requires q.id in rows ==> RowOk(q.id, rows[q.id], calls, released)
    requires q.id !in rows ==> !CalledFor(calls, q.id) && q.id !in released
    ensures GoodBlock(rows, calls, released, q, pc, ResumeBlock(heightPort, rows, q, pc, r))
  {
    if r.Rejected? {
    } else if pc.AwaitSend? || pc.AwaitStatus? || pc.AwaitChainHeight? {
      SettleIsGood(heightPort, rows, calls, released, q, pc, r);
    } else if pc.AwaitFence? {
      SignIsGood(rows, calls, released, q, r.outcome);
    } else if pc.AwaitVerify? {
      ClaimIsGood(rows, calls, released, q, pc);
    }
  }

  // ---------------------------------------------------------------- every event

  lemma UnknownIdIsUntouched(s: Sys, id: string)
    requires Inv(s) && id !in s.rows
    ensures !CalledFor(s.signCalls, id) && id !in s.released
  {
  }

  /** `s'` is `s` after block `b` of frame `k`, or of a new frame. */
  predicate After(s: Sys, s': Sys, k: nat, q: Request, pc: Pc, b: Block) {
    && k <= |s.frames|
    && (k < |s.frames| ==> s.frames[k] == Frame(q, pc))
    && (k == |s.frames| ==> !Owner(pc))
    && s'.rows == b.rows && s'.signCalls == Called(s.signCalls, q, b.signed) && s'.released == s.released
    && s'.answers == Answered(s.answers, q, b.pc)
    && s'.frames == if k < |s.frames| then s.frames[k := Frame(q, b.pc)] else s.frames + [Frame(q, b.pc)]
  }

  lemma RowsStayOk(s: Sys, s': Sys, k: nat, q: Request, pc: Pc, b: Block)
    requires Inv(s) && GoodBlock(s.rows, s.signCalls, s.released, q, pc, b) && After(s, s', k, q, pc, b)
    ensures forall id :: id in s'.rows ==> RowOk(id, s'.rows[id], s'.signCalls, s'.released)
  {
    forall id | id in s'.rows ensures RowOk(id, s'.rows[id], s'.signCalls, s'.released) {
      if id != q.id && b.signed.Some? {
        OtherRowOk(id, s.rows[id], s.signCalls, s.released, SignCall(q.id, q.hash, b.signed.value));
      }
    }
  }

  lemma FramesStayOk(s: Sys, s': Sys, k: nat, q: Request, pc: Pc, b: Block)
    requires Inv(s) && GoodBlock(s.rows, s.signCalls, s.released, q, pc, b) && After(s, s', k, q, pc, b)
    ensures forall j :: 0 <= j < |s'.frames| ==> FrameOk(s'.rows, s'.signCalls, s'.frames[j])
  {
    forall j | 0 <= j < |s'.frames| ensures FrameOk(s'.rows, s'.signCalls, s'.frames[j]) {
      if j != k {
        if s.frames[j].request.id == q.id && Owner(s.frames[j].pc) {
          OwnerKeepsClaim(s, s', k, q, pc, b, j);
        }
        OtherFrameOk(s.rows, s'.rows, s.signCalls, s'.signCalls, q.id, s.frames[j]);
      }
    }
  }

  /** A block of another frame leaves an owner's claim alone. */
  lemma OwnerKeepsClaim(s: Sys, s': Sys, k: nat, q: Request, pc: Pc, b: Block, j: nat)
    requires Inv(s) && GoodBlock(s.rows, s.signCalls, s.released, q, pc, b) && After(s, s', k, q, pc, b)
    requires j < |s.frames| && j != k && s.frames[j].request.id == q.id && Owner(s.frames[j].pc)
    ensures q.id in s'.rows && s'.rows[q.id].state == Claimed
  {
    assert FrameOk(s.rows, s.signCalls, s.frames[j]);
  }

  lemma OwnersStayApart(s: Sys, s': Sys, k: nat, q: Request, pc: Pc, b: Block)
    requires Inv(s) && GoodBlock(s.rows, s.signCalls, s.released, q, pc, b) && After(s, s', k, q, pc, b)
    ensures OneOwner(s'.frames)
  {
    forall i, j | 0 <= i < j < |s'.frames| && Owner(s'.frames[i].pc) && Owner(s'.frames[j].pc)
      ensures s'.frames[i].request.id != s'.frames[j].request.id
    {
      var other := if i == k then j else i;
      if i == k || j == k {
        assert FrameOk(s.rows, s.signCalls, s.frames[other]);
      }
    }
  }

  lemma BlockKeepsInv(s: Sys, s': Sys, k: nat, q: Request, pc: Pc, b: Block)
    requires Inv(s) && GoodBlock(s.rows, s.signCalls, s.released, q, pc, b) && After(s, s', k, q, pc, b)
    ensures Inv(s')
  {
    RowsStayOk(s, s', k, q, pc, b);
    FramesStayOk(s, s', k, q, pc, b);
    OwnersStayApart(s, s', k, q, pc, b);
    CallsStayOk(s, s', q, b, pc);
  }

  lemma CallsStayOk(s: Sys, s': Sys, q: Request, b: Block, pc: Pc)
    requires Inv(s) && GoodBlock(s.rows, s.signCalls, s.released, q, pc, b)
    requires s'.rows == b.rows && s'.signCalls == Called(s.signCalls, q, b.signed) && s'.released == s.released
    ensures CallsOk(s'.rows, s'.signCalls) && ReleasedOk(s'.rows, s'.released)
  {
    if b.signed.Some? {
      assert RowOk(q.id, s.rows[q.id], s.signCalls, s.released);
    }
  }

  /** A lookup only finds what was signed for this very request. */
  lemma FoundWasSigned(s: Sys, q: Request)
    requires Inv(s) && StoredFor(s.rows, q.id, q.hash).Found?
    ensures SignedAs(s.signCalls, q.id, q.hash, StoredFor(s.rows, q.id, q.hash).result)
  {
    assert RowOk(q.id, s.rows[q.id], s.signCalls, s.released);
  }

  /** Every operation starts in good order. */
  lemma EnvelopeIsGood(s: Sys, q: Request)
    requires Inv(s)
    ensures GoodBlock(s.rows, s.signCalls, s.released, q, ENDED, BeginEnvelope(s.rows, q))
  {
    if StoredFor(s.rows, q.id, q.hash).Found? {
      FoundWasSigned(s, q);
    }
    QuietIsGood(s.rows, s.signCalls, s.released, q, ENDED, BeginEnvelope(s.rows, q).pc);
  }

  lemma DirectIsGood(s: Sys, q: Request)
    requires Inv(s)
    ensures GoodBlock(s.rows, s.signCalls, s.released, q, ENDED, BeginDirect(s.rows, q))
  {
    if StoredFor(s.rows, q.id, q.hash).Missing? {
      if q.id !in s.rows {
        UnknownIdIsUntouched(s, q.id);
      }
      ClaimIsGood(s.rows, s.signCalls, s.released, q, ENDED);
    } else {
      if StoredFor(s.rows, q.id, q.hash).Found? {
        FoundWasSigned(s, q);
      }
      QuietIsGood(s.rows, s.signCalls, s.released, q, ENDED, BeginDirect(s.rows, q).pc);
    }
  }

  lemma ReconcileIsGood(s: Sys, q: Request)
    requires Inv(s) && q.id in s.rows
    ensures GoodBlock(s.rows, s.signCalls, s.released, q, ENDED, BeginReconcile(s.rows, s.rows[q.id]))
  {
    QuietIsGood(s.rows, s.signCalls, s.released, q, ENDED, BeginReconcile(s.rows, s.rows[q.id]).pc);
  }

  lemma BeginKeepsInv(s: Sys, q: Request, b: Block)
    requires Inv(s) && GoodBlock(s.rows, s.signCalls, s.released, q, ENDED, b) && b.signed.None?
    ensures Inv(Begun(s, q, b))
  {
    BlockKeepsInv(s, Begun(s, q, b), |s.frames|, q, ENDED, b);
  }

  lemma ResultKeepsInv(heightPort: bool, s: Sys, id: string, hash: string, raw: bool)
    requires Inv(s)
    ensures Inv(Step(heightPort, s, Result(id, hash, raw)))
  {
    var s' := Step(heightPort, s, Result(id, hash, raw));
    if s'.released != s.released {
      assert id in s.rows && s.rows[id].state == Signed && !s.rows[id].recovered;
      assert RowOk(id, s.rows[id], s.signCalls, s.released);
      forall other | other in s'.rows ensures RowOk(other, s'.rows[other], s'.signCalls, s'.released) {
        assert RowOk(other, s.rows[other], s.signCalls, s.released);
      }
      forall k | 0 <= k < |s'.frames| ensures FrameOk(s'.rows, s'.signCalls, s'.frames[k]) {
        assert FrameOk(s.rows, s.signCalls, s.frames[k]);
      }
    } else {
      assert s'.rows == s.rows;
    }
  }

  lemma ResumeKeepsInv(heightPort: bool, s: Sys, k: nat, r: Reply)
    requires Inv(s) && Enabled(s, Resume(k, r))
    ensures Inv(Step(heightPort, s, Resume(k, r)))
  {
    var f := s.frames[k];
    assert FrameOk(s.rows, s.signCalls, f);
    if f.request.id in s.rows {
      assert RowOk(f.request.id, s.rows[f.request.id], s.signCalls, s.released);
    } else {
      UnknownIdIsUntouched(s, f.request.id);
    }
    ResumeIsGood(heightPort, s.rows, s.signCalls, s.released, f.request, f.pc, r);
    BlockKeepsInv(s, Step(heightPort, s, Resume(k, r)), k, f.request, f.pc,
                  ResumeBlock(heightPort, s.rows, f.request, f.pc, r));
  }

  lemma StepKeepsInv(heightPort: bool, s: Sys, e: Event)
    requires Inv(s) && Enabled(s, e)
    ensures Inv(Step(heightPort, s, e))
  {
    match e
    case SignEnvelope(q) =>
      EnvelopeIsGood(s, q);
      BeginKeepsInv(s, q, BeginEnvelope(s.rows, q));
    case SignDirect(q) =>
      DirectIsGood(s, q);
      BeginKeepsInv(s, q, BeginDirect(s.rows, q));
    case Result(id, hash, raw) => ResultKeepsInv(heightPort, s, id, hash, raw);
    case BroadcastSigned(q, bytes, expected) => BeginKeepsInv(s, q, BeginBroadcast(s.rows, q, bytes, expected));
    case ReconcileRow(q) =>
      ReconcileIsGood(s, q);
      BeginKeepsInv(s, q, BeginReconcile(s.rows, s.rows[q.id]));
    case Resume(k, r) => ResumeKeepsInv(heightPort, s, k, r);
    case Restart =>
  }

  lemma {:induction false} RunKeepsInv(heightPort: bool, events: seq<Event>, s: Sys)
    requires Runs(heightPort, events, s)
    ensures Inv(s)
  {
    if events != [] {
      var n := |events| - 1;
      var before :| Runs(heightPort, events[..n], before) && Enabled(before, events[n])
        && s == Step(heightPort, before, events[n]);
      RunKeepsInv(heightPort, events[..n], before);
      StepKeepsInv(heightPort, before, events[n]);
    }
  }

  lemma ReachableInv(heightPort: bool, s: Sys)
    requires Reachable(heightPort, s)
    ensures Inv(s)
  {
    var events :| Runs(heightPort, events, s);
    RunKeepsInv(heightPort, events, s);
  }

  // ---------------------------------------------------------------- what the signer promises

  /** Across connections and restarts `signMessage` runs at most once per authorization, and never once the
    * height fence has burned it. */
  lemma SignsAtMostOncePerAuthorization(heightPort: bool, s: Sys)
    requires Reachable(heightPort, s)
    ensures forall i, j :: 0 <= i < j < |s.signCalls| ==> s.signCalls[i].id != s.signCalls[j].id
    ensures forall i :: 0 <= i < |s.signCalls| ==>
      s.signCalls[i].id in s.rows && s.rows[s.signCalls[i].id].state != ExpiredAuthorization
  {
    ReachableInv(heightPort, s);
    forall i | 0 <= i < |s.signCalls|
      ensures s.signCalls[i].id in s.rows && s.rows[s.signCalls[i].id].state != ExpiredAuthorization
    {
      var id := s.signCalls[i].id;
      assert RowOk(id, s.rows[id], s.signCalls, s.released);
      assert CalledFor(s.signCalls, id);
    }
  }

  /** All successful answers for one authorization are the same signature over the same message. */
  lemma AnswersAgree(heightPort: bool, s: Sys, a: Answer, b: Answer)
    requires Reachable(heightPort, s) && a in s.answers && b in s.answers && a.id == b.id
    ensures a == b
  {
    ReachableInv(heightPort, s);
    var i :| 0 <= i < |s.answers| && s.answers[i] == a;
    var j :| 0 <= j < |s.answers| && s.answers[j] == b;
    assert SignedAs(s.signCalls, a.id, a.hash, a.result) && SignedAs(s.signCalls, b.id, b.hash, b.result);
  }

  /** The signed bytes leave through `result` to at most one caller. */
  lemma RawBytesReleasedOnce(heightPort: bool, s: Sys)
    requires Reachable(heightPort, s)
    ensures forall i, j :: 0 <= i < j < |s.released| ==> s.released[i] != s.released[j]
  {
    ReachableInv(heightPort, s);
  }

  predicate Climbs(rows: Table, rows': Table, id: string)
    requires id in rows
  {
    id in rows' && (rows'[id].state == rows[id].state || Rank(rows'[id].state) > Rank(rows[id].state))
  }

  lemma ResumeClimbs(heightPort: bool, rows: Table, calls: seq<SignCall>, f: Frame, r: Reply, id: string)
    requires id in rows && Fits(f.pc, r) && FrameOk(rows, calls, f)
    ensures Climbs(rows, ResumeBlock(heightPort, rows, f.request, f.pc, r).rows, id)
  {
  }

  /** One event moves a row up the rank or leaves its state alone, and claims are never forgotten. */
  lemma RowsOnlyClimb(heightPort: bool, s: Sys, e: Event, id: string)
    requires Reachable(heightPort, s) && Enabled(s, e) && id in s.rows
    ensures Climbs(s.rows, Step(heightPort, s, e).rows, id)
  {
    ReachableInv(heightPort, s);
    if e.Resume? {
      var f := s.frames[e.frame];
      assert FrameOk(s.rows, s.signCalls, f);
      ResumeClimbs(heightPort, s.rows, s.signCalls, f, e.reply, id);
    }
  }

  /** A row makes at most four state changes; its version counts them and the one release of its bytes. */
  lemma VersionIsBounded(heightPort: bool, s: Sys, id: string)
    requires Reachable(heightPort, s) && id in s.rows
    ensures s.rows[id].version <= 1 + Rank(s.rows[id].state) + (if s.rows[id].recovered then 1 else 0) <= 6
  {
    ReachableInv(heightPort, s);
    assert RowOk(id, s.rows[id], s.signCalls, s.released);
  }

  /** The compare-and-set behind a signature never loses: `replay_fencing_lost` cannot happen. */
  lemma FencingIsNeverLost(heightPort: bool, s: Sys, k: nat)
    requires Reachable(heightPort, s) && k < |s.frames| && s.frames[k].pc.AwaitSigned?
    ensures s.frames[k].pc.moved
  {
    ReachableInv(heightPort, s);
    assert FrameOk(s.rows, s.signCalls, s.frames[k]);
  }

  /** A signature that exists is retrievable exactly while its row is still `signed`: a broadcast replaces the data
    * it is looked up by. */
  lemma RetrievableExactlyWhileSigned(heightPort: bool, s: Sys, id: string, hash: string, result: SignResult)
    requires Reachable(heightPort, s) && SignCall(id, hash, Some(result)) in s.signCalls
    requires hash != "" && result.transaction != ""
    ensures id in s.rows
    ensures StoredFor(s.rows, id, hash) == Found(result) <==> s.rows[id].state == Signed
    ensures s.rows[id].state in {Broadcast, Reconciliation} ==>
      StoredFor(s.rows, id, hash) == Throws("authorization_request_mismatch")
  {
    ReachableInv(heightPort, s);
    assert RowOk(id, s.rows[id], s.signCalls, s.released);
  }
}

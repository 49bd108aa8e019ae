/** The signer's durable one-time authorization fence. */
module Replay {
  import opened Prelude

  datatype State =
    | Claimed | Signed | ExpiredAuthorization | FailedAuthorization
    | Broadcast | Reconciliation | ConfirmedOnChain | Reverted | Dropped

  /** The JSON a row carries. Only `Stored` has a request hash; a claimed or failed row has no data at all. */
  datatype Data =
    | NoData
    | Stored(requestHash: string, transaction: string, signature: string, lastValidBlockHeight: Option<int>)
    | Fenced(fenceHeight: int, seenHeight: int)
    | Sent(signatureSent: string, bytes: string, sentHeight: Option<int>)
    | Mismatched(expected: string, expectedHeight: Option<int>)
    | Settled(signatureSettled: string, settledHeight: Option<int>)

  datatype Row = Row(expiresAt: int, state: State, version: nat, data: Data, recovered: bool)

  type Table = map<string, Row>

  const MAX_SAFE_INTEGER := 0x1f_ffff_ffff_ffff

  /** INSERT OR IGNORE: only the first claim of an id succeeds, and only with an expiry that is a safe integer. */
  predicate CanConsume(t: Table, id: string, expiresAt: int) {
    id != "" && -MAX_SAFE_INTEGER <= expiresAt <= MAX_SAFE_INTEGER && id !in t
  }

  function ConsumeRow(t: Table, id: string, expiresAt: int): Table {
    if CanConsume(t, id, expiresAt) then t[id := Row(expiresAt, Claimed, 1, NoData, false)] else t
  }

  predicate CanMove(t: Table, id: string, from: State) {
    id in t && t[id].state == from
  }

  function MoveRow(t: Table, id: string, from: State, to: State, data: Data): Table {
    if CanMove(t, id, from) then t[id := t[id].(state := to, data := data, version := t[id].version + 1)] else t
  }

  predicate CanRecover(t: Table, id: string) {
    id in t && t[id].state == Signed && !t[id].recovered
  }

  function RecoverRow(t: Table, id: string): Table {
    if CanRecover(t, id) then t[id := t[id].(recovered := true, version := t[id].version + 1)] else t
  }

  class ReplayStore {
    var rows: Table

    constructor ()
      ensures rows == map[]
    {
      rows := map[];
    }

    method Consume(id: string, expiresAt: int) returns (ok: bool)
      modifies this
      ensures ok == CanConsume(old(rows), id, expiresAt)
      ensures rows == ConsumeRow(old(rows), id, expiresAt)
    {
      if id == "" || expiresAt < -MAX_SAFE_INTEGER || expiresAt > MAX_SAFE_INTEGER {
        return false;
      }
      ok := id !in rows;
      if ok {
        rows := rows[id := Row(expiresAt, Claimed, 1, NoData, false)];
      }
    }

    method Transition(id: string, from: State, to: State, data: Data) returns (ok: bool)
      modifies this
      ensures ok == CanMove(old(rows), id, from)
      ensures rows == MoveRow(old(rows), id, from, to, data)
    {
      ok := id in rows && rows[id].state == from;
      if ok {
        rows := rows[id := rows[id].(state := to, data := data, version := rows[id].version + 1)];
      }
    }

    /** The data of a signed row, to the first caller only. */
    method RecoverSigned(id: string) returns (data: Option<Data>)
      modifies this
      ensures data == if CanRecover(old(rows), id) then Some(old(rows)[id].data) else None
      ensures rows == RecoverRow(old(rows), id)
    {
      data := None;
      if id in rows && rows[id].state == Signed && !rows[id].recovered {
        var row := rows[id];
        data := Some(row.data);
        rows := rows[id := row.(recovered := true, version := row.version + 1)];
      }
    }
  }
}

/** The durable execution rows and their compare-and-set. */
module Executions {
  import opened Prelude

  datatype State =
    | AwaitingApproval | Approved | DryRun | Signing | Submitting | ReconciliationRequired
    | Broadcast | Confirmed | Finalized | Failed | Denied | Expired | Dropped

  /** A row id is its position, `key` its idempotency key; `quoteHeight` is the quote's own lastValidBlockHeight. */
  datatype Execution = Execution(
    key: string, version: nat, state: State, quoteHeight: int, approvalId: Option<nat>, authorizationId: Option<string>,
    reservationId: Option<string>, signature: Option<string>, lastValidBlockHeight: Option<int>, slot: Option<int>)

  /** The partial record merged over a row: an absent field keeps its value. */
  datatype Patch = Patch(
    state: Option<State>, approvalId: Option<nat>, authorizationId: Option<string>, signature: Option<string>,
    lastValidBlockHeight: Option<int>, slot: Option<int>)

  const NOTHING := Patch(None, None, None, None, None, None)

  function MoveTo(state: State): Patch {
    NOTHING.(state := Some(state))
  }

  function Or<T>(a: Option<T>, b: Option<T>): Option<T> {
    if a.Some? then a else b
  }

  function Merge(x: Execution, p: Patch): Execution {
    Execution(x.key, x.version + 1, if p.state.Some? then p.state.value else x.state, x.quoteHeight,
              Or(p.approvalId, x.approvalId), Or(p.authorizationId, x.authorizationId), x.reservationId,
              Or(p.signature, x.signature), Or(p.lastValidBlockHeight, x.lastValidBlockHeight), Or(p.slot, x.slot))
  }

  predicate KeyTaken(rows: seq<Execution>, key: string) {
    exists i | 0 <= i < |rows| :: rows[i].key == key
  }

  /** Err leaves the rows alone: the row is missing, not in one of the states named, or of another version. */
  function Cas(rows: seq<Execution>, id: nat, from: set<State>, p: Patch,
      version: Option<nat>): Result<seq<Execution>, string> {
    if id >= |rows| then Err("execution_not_found")
    else if rows[id].state !in from || (version.Some? && version.value != rows[id].version) then Err("state conflict")
    else Ok(rows[id := Merge(rows[id], p)])
  }

  class ExecutionStore {
    var rows: seq<Execution>

    constructor ()
      ensures rows == []
    {
      rows := [];
    }

    /** The table refuses a second row of one idempotency key. */
    method Create(x: Execution) returns (r: Result<nat, string>)
      modifies this
      ensures KeyTaken(old(rows), x.key) ==> r.Err? && rows == old(rows)
      ensures !KeyTaken(old(rows), x.key) ==> r == Ok(|old(rows)|) && rows == old(rows) + [x]
    {
      if KeyTaken(rows, x.key) {
        return Err("constraint");
      }
      r := Ok(|rows|);
      rows := rows + [x];
    }

    method Transition(id: nat, from: set<State>, p: Patch, version: Option<nat>) returns (r: Result<Execution, string>)
      modifies this
      ensures var cas := Cas(old(rows), id, from, p, version);
        match cas
        case Ok(after) => rows == after && r == Ok(after[id])
        case Err(e) => rows == old(rows) && r == Err(e)
    {
      if id >= |rows| {
        return Err("execution_not_found");
      }
      var before := rows[id];
      if before.state !in from || (version.Some? && version.value != before.version) {
        return Err("state conflict");
      }
      rows := rows[id := Merge(before, p)];
      r := Ok(rows[id]);
    }

    /** A patch under the row's own state and version: it only conflicts if the row is missing. */
    method Update(id: nat, p: Patch) returns (r: Result<Execution, string>)
      modifies this
      ensures r.Ok? <==> id < |old(rows)|
      ensures rows == if id < |old(rows)| then old(rows)[id := Merge(old(rows)[id], p)] else old(rows)
    {
      if id >= |rows| {
        return Err("execution_not_found");
      }
      r := Transition(id, {rows[id].state}, p, Some(rows[id].version));
    }
  }

  /** Of two writers that read the same version, the second is refused. */
  lemma CasExcludesStaleWriters(rows: seq<Execution>, id: nat, p: Patch, from: set<State>, p': Patch, from': set<State>)
    requires id < |rows|
    requires Cas(rows, id, from, p, Some(rows[id].version)).Ok?
    ensures Cas(Cas(rows, id, from, p, Some(rows[id].version)).value, id, from', p', Some(rows[id].version)).Err?
  {
  }
}

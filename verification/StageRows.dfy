/** The durable stage table: one guarded update per repository call. */
module StageRows {
  import opened Common

  type Token = string

  /** A JSON value, as far as the protocols can tell values apart: null or anything else. */
  datatype Value = Null | Json(text: string)

  datatype Key = Key(run: string, stage: string)

  datatype Status = PENDING | RUNNING | SUCCEEDED | FAILED | CANCELED | OUTCOME_UNKNOWN

  /** What a stage row was created for; no repository call ever changes it. */
  datatype Identity = Identity(
    schemaVersion: string, agentName: string, agentVersion: string,
    stageIndex: int, definitionVersion: string, inputHash: string)

  /** `error_type`: the class of an exception, or one of the two markers of a side effect in flight. */
  datatype ErrorType = Exception(name: string) | SIDE_EFFECT_OUTCOME_UNKNOWN | SIDE_EFFECT_RETURNED

  datatype Row = Row(
    identity: Identity,
    idempotencyKey: string,
    status: Status,
    runAttempt: int,
    attempts: nat,
    maxAttempts: nat,
    executionId: Option<Token>,
    output: Value,
    checkpoint: Option<Value>,
    errorType: Option<ErrorType>)

  type Table = map<Key, Row>

  function NewRow(identity: Identity, idempotencyKey: string, maxAttempts: nat): Row {
    Row(identity, idempotencyKey, PENDING, 0, 0, maxAttempts, None, Null, None, None)
  }

  /** `begin_attempt` on the row it addresses; `None` when the guard refuses. */
  function BeginAttempt(row: Row, runAttempt: int, token: Token): Option<Row> {
    if row.status == RUNNING || ((row.status == PENDING || row.status == FAILED) && row.attempts < row.maxAttempts) then
      Some(row.(
           status := RUNNING,
           runAttempt := runAttempt,
           attempts := if row.status == RUNNING then row.attempts else row.attempts + 1,
           executionId := Some(token),
           errorType := None))
    else None
  }

  /** `begin_side_effect_once`: only an untouched row can be claimed. */
  function BeginSideEffectOnce(row: Row, token: Token): Option<Row> {
    if row.status == PENDING && row.attempts == 0 then
      Some(row.(status := RUNNING, attempts := 1, executionId := Some(token)))
    else None
  }

  /** The writes fenced by the execution token. */
  datatype Write =
    | Checkpoint(value: Value)
    | Success(output: Value)
    | Failure(errorType: string)
    | Cancellation
    | Unknown(errorType: string)
    | DispatchMark
    | ReturnMark

  /** The statuses from which a fenced write is accepted. */
  predicate Accepts(row: Row, write: Write) {
    match write
    case Success(_) =>
      row.status == RUNNING || (row.status == OUTCOME_UNKNOWN && row.errorType == Some(SIDE_EFFECT_RETURNED))
    case ReturnMark => row.status == OUTCOME_UNKNOWN
    case _ => row.status == RUNNING
  }

  predicate CanWrite(row: Row, token: Token, write: Write) {
    row.executionId == Some(token) && Accepts(row, write)
  }

  function Written(row: Row, write: Write): Row {
    match write
    case Checkpoint(value) => row.(checkpoint := Some(value))
    case Success(output) =>
      row.(status := SUCCEEDED, output := output, checkpoint := None, errorType := None)
    case Failure(name) => row.(status := FAILED, errorType := Some(Exception(name)))
    case Cancellation => row.(status := CANCELED)
    case Unknown(name) => row.(status := OUTCOME_UNKNOWN, errorType := Some(Exception(name)))
    case DispatchMark => row.(status := OUTCOME_UNKNOWN, errorType := Some(SIDE_EFFECT_OUTCOME_UNKNOWN))
    case ReturnMark => row.(errorType := Some(SIDE_EFFECT_RETURNED))
  }

  function ResetRow(row: Row): Row {
    if row.status == FAILED then
      row.(status := PENDING, attempts := 0, executionId := None, errorType := None)
    else row
  }

  function FailedKeys(rows: Table, run: string): set<Key> {
    set k | k in rows && k.run == run && rows[k].status == FAILED
  }

  function ResetFailed(rows: Table, run: string): Table {
    map k | k in rows :: if k.run == run then ResetRow(rows[k]) else rows[k]
  }

  /** The rows a write addressed by idempotency key, rather than by stage key, applies to. */
  function Addressed(rows: Table, run: string, idempotencyKey: string, token: Token, write: Write): set<Key> {
    set k | k in rows && k.run == run && rows[k].idempotencyKey == idempotencyKey && CanWrite(rows[k], token, write)
  }

  function WriteAll(rows: Table, keys: set<Key>, write: Write): Table {
    map k | k in rows :: if k in keys then Written(rows[k], write) else rows[k]
  }

  /** No token but this one can write to the row. */
  ghost predicate Fenced(row: Row, token: Token) { forall t, w :: CanWrite(row, t, w) ==> t == token }

  /** The row still belongs to the same stage. */
  predicate SameStage(a: Row, b: Row) {
    b.identity == a.identity && b.idempotencyKey == a.idempotencyKey && b.maxAttempts == a.maxAttempts
  }

  ghost predicate OnlyChanged(before: Table, after: Table, key: Key) {
    && key in after && after.Keys == before.Keys
    && forall k :: k in before && k != key ==> after[k] == before[k]
  }

  /** The repository. Each method is one transaction on the table it owns. */
  class StageRepository {
    var rows: Table

    method GetOrCreate(key: Key, incoming: Row) returns (stored: Row)
      modifies this
      ensures key in old(rows) ==> rows == old(rows) && stored == old(rows)[key]
      ensures key !in old(rows) ==> rows == old(rows)[key := incoming] && stored == incoming
    {
      if key !in rows { rows := rows[key := incoming]; }
      stored := rows[key];
    }

    /**
     * Granted from RUNNING without charge, from PENDING and FAILED while attempts are left. Whoever began before is
     * fenced off from then on.
     */
    method Begin(key: Key, runAttempt: int, token: Token) returns (active: Option<Row>)
      modifies this
      ensures active.Some? <==>
                && key in old(rows)
                && var was := old(rows)[key];
                   || was.status == RUNNING
                   || ((was.status == PENDING || was.status == FAILED) && was.attempts < was.maxAttempts)
      ensures active.None? ==> rows == old(rows)
      ensures active.Some? ==>
                var was, row := old(rows)[key], active.value;
                && OnlyChanged(old(rows), rows, key) && rows[key] == row
                && row.status == RUNNING && row.executionId == Some(token) && Fenced(row, token)
                && row.attempts == was.attempts + (if was.status == RUNNING then 0 else 1)
                && row.output == was.output && row.checkpoint == was.checkpoint && SameStage(was, row)
                && BeginAttempt(was, runAttempt, token) == active
    {
      active := None;
      if key in rows {
        var row := rows[key];
        if || row.status == RUNNING
           || ((row.status == PENDING || row.status == FAILED) && row.attempts < row.maxAttempts) {
          if row.status != RUNNING { row := row.(attempts := row.attempts + 1); }
          row := row.(status := RUNNING, runAttempt := runAttempt, executionId := Some(token), errorType := None);
          rows := rows[key := row];
          active := Some(row);
        }
      }
    }

    /** Granted once in the life of a row: afterwards it is neither PENDING nor free of attempts. */
    method BeginOnce(key: Key, token: Token) returns (active: Option<Row>)
      modifies this
      ensures active.Some? <==> key in old(rows) && old(rows)[key].status == PENDING && old(rows)[key].attempts == 0
      ensures active.None? ==> rows == old(rows)
      ensures active.Some? ==>
                var was, row := old(rows)[key], active.value;
                && OnlyChanged(old(rows), rows, key) && rows[key] == row
                && row.status == RUNNING && row.executionId == Some(token) && Fenced(row, token) && row.attempts == 1
                && SameStage(was, row)
                && (forall other :: BeginSideEffectOnce(row, other).None?)
                && BeginSideEffectOnce(was, token) == active
    {
      active := None;
      if key in rows && rows[key].status == PENDING && rows[key].attempts == 0 {
        var row := rows[key];
        row := row.(status := RUNNING, attempts := 1, executionId := Some(token));
        rows := rows[key := row];
        active := Some(row);
      }
    }

    /** `_update_active`, through which every stage-addressed write goes. A success admits no further write. */
    method UpdateActive(key: Key, token: Token, write: Write) returns (updated: bool)
      modifies this
      ensures updated <==> key in old(rows) && CanWrite(old(rows)[key], token, write)
      ensures !updated ==> rows == old(rows)
      ensures updated ==> OnlyChanged(old(rows), rows, key)
      ensures updated ==>
                var was, row := old(rows)[key], rows[key];
                && row.executionId == was.executionId && row.attempts == was.attempts && SameStage(was, row)
                && Fenced(row, token)
                && (row.output != was.output ==> write.Success? && row.output == write.output)
                && (write.Success? ==> forall t, w :: !CanWrite(row, t, w))
                && row == Written(was, write)
    {
      updated := false;
      if key in rows && rows[key].executionId == Some(token) {
        var row := rows[key];
        var statuses := if write.Success? then {RUNNING, OUTCOME_UNKNOWN}
                        else if write.ReturnMark? then {OUTCOME_UNKNOWN} else {RUNNING};
        if row.status in statuses
           && (write.Success? ==> row.status != OUTCOME_UNKNOWN || row.errorType == Some(SIDE_EFFECT_RETURNED)) {
          rows := rows[key := Written(row, write)];
          updated := true;
        }
      }
    }

    /**
     * `mark_side_effect_dispatched`: of this run, key and token, the RUNNING rows. A marked row can then only be marked
     * returned, and only by the same token.
     */
    method MarkDispatched(run: string, idempotencyKey: string, token: Token) returns (updated: bool)
      modifies this
      ensures rows.Keys == old(rows).Keys
      ensures forall k :: k in rows ==>
                var was := old(rows)[k];
                if k.run == run && was.idempotencyKey == idempotencyKey && was.status == RUNNING
                    && was.executionId == Some(token)
                then && rows[k] == was.(status := OUTCOME_UNKNOWN, errorType := Some(SIDE_EFFECT_OUTCOME_UNKNOWN))
                     && forall t, w :: CanWrite(rows[k], t, w) ==> t == token && w == ReturnMark
                else rows[k] == was
      ensures rows == WriteAll(old(rows), Addressed(old(rows), run, idempotencyKey, token, DispatchMark), DispatchMark)
      ensures updated == (|Addressed(old(rows), run, idempotencyKey, token, DispatchMark)| == 1)
    {
      updated := |Addressed(rows, run, idempotencyKey, token, DispatchMark)| == 1;
      rows := map k | k in rows ::
        if k.run == run && rows[k].idempotencyKey == idempotencyKey && rows[k].status == RUNNING
            && rows[k].executionId == Some(token)
        then rows[k].(status := OUTCOME_UNKNOWN, errorType := Some(SIDE_EFFECT_OUTCOME_UNKNOWN))
        else rows[k];
    }

    /** `mark_side_effect_returned`: the row stays OUTCOME_UNKNOWN, and its token may now record the success. */
    method MarkReturned(run: string, idempotencyKey: string, token: Token) returns (updated: bool)
      modifies this
      ensures rows.Keys == old(rows).Keys
      ensures forall k :: k in rows ==>
                var was := old(rows)[k];
                if k.run == run && was.idempotencyKey == idempotencyKey && was.status == OUTCOME_UNKNOWN
                    && was.executionId == Some(token)
                then && rows[k] == was.(errorType := Some(SIDE_EFFECT_RETURNED))
                     && forall output :: CanWrite(rows[k], token, Success(output))
                else rows[k] == was
      ensures rows == WriteAll(old(rows), Addressed(old(rows), run, idempotencyKey, token, ReturnMark), ReturnMark)
      ensures updated == (|Addressed(old(rows), run, idempotencyKey, token, ReturnMark)| == 1)
    {
      updated := |Addressed(rows, run, idempotencyKey, token, ReturnMark)| == 1;
      rows := map k | k in rows ::
        if k.run == run && rows[k].idempotencyKey == idempotencyKey && rows[k].status == OUTCOME_UNKNOWN
            && rows[k].executionId == Some(token)
        then rows[k].(errorType := Some(SIDE_EFFECT_RETURNED))
        else rows[k];
    }

    method ResetFailedForRun(run: string) returns (count: nat)
      modifies this
      ensures rows == ResetFailed(old(rows), run)
      ensures rows.Keys == old(rows).Keys
      ensures forall k :: k in rows ==>
                rows[k] == if k.run == run && old(rows)[k].status == FAILED
                           then old(rows)[k].(status := PENDING, attempts := 0, executionId := None, errorType := None)
                           else old(rows)[k]
      ensures count == |FailedKeys(old(rows), run)|
      ensures FailedKeys(rows, run) == {}
    {
      count := |FailedKeys(rows, run)|;
      rows := ResetFailed(rows, run);
    }
  }
}

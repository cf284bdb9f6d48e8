/** The run row: its statuses, its error types, and the guarded updates of the run table. */
module RunRows {
  import opened Common

  datatype RunStatus =
    | CREATED | QUEUED | RUNNING | WAITING_TOOL | RETRYING
    | AGENT_SUCCEEDED | WAITING_CALLBACK | SUCCEEDED | FAILED | TIMEOUT | CANCELED

  datatype ErrorType =
    | VALIDATION_ERROR | ROUTE_NOT_FOUND | AGENT_NOT_AVAILABLE | AGENT_EXECUTION_ERROR
    | TOOL_TIMEOUT | TOOL_RATE_LIMITED | TOOL_UNAVAILABLE | MODEL_ERROR | RUN_TIMEOUT
    | CALLBACK_ERROR | SIDE_EFFECT_OUTCOME_UNKNOWN | INTERNAL_ERROR

  predicate Retryable(e: ErrorType) {
    e != VALIDATION_ERROR && e != ROUTE_NOT_FOUND && e != SIDE_EFFECT_OUTCOME_UNKNOWN
  }

  predicate Executing(s: RunStatus) { s == RUNNING || s == WAITING_TOOL || s == RETRYING }

  predicate Terminal(s: RunStatus) { s == SUCCEEDED || s == FAILED || s == TIMEOUT || s == CANCELED }

  /** The execution succeeded, whatever has become of its callback. */
  predicate Succeeded(s: RunStatus) { s == AGENT_SUCCEEDED || s == WAITING_CALLBACK || s == SUCCEEDED }

  /** When a queued run is due, and what decides its place in the queue. */
  datatype Schedule = Schedule(runAfter: Option<int>, priority: int, created: int)

  /** The order of the claim query: higher priority, then earlier due, no due time last, then earlier created. */
  predicate Precedes(a: Schedule, b: Schedule) {
    || a.priority > b.priority
    || (a.priority == b.priority && DueBefore(a.runAfter, b.runAfter))
    || (a.priority == b.priority && a.runAfter == b.runAfter && a.created < b.created)
  }

  predicate DueBefore(a: Option<int>, b: Option<int>) { a.Some? && (b.None? || a.value < b.value) }

  datatype Row = Row(
    status: RunStatus,
    worker: Option<string>,
    lease: Option<int>,
    attempts: nat,
    output: Option<string>,
    error: Option<ErrorType>,
    schedule: Schedule)

  /** Rows that differ at most in the lease. */
  predicate SameButLease(a: Row, b: Row) { a.(lease := None) == b.(lease := None) }

  /** The status a run settles on once its callback is done with. */
  function Settled(status: RunStatus, error: Option<ErrorType>): RunStatus {
    if status != AGENT_SUCCEEDED && status != WAITING_CALLBACK then status
    else if error == Some(RUN_TIMEOUT) then TIMEOUT
    else if error.Some? then FAILED
    else SUCCEEDED
  }

  /** Queued and due, or executing under a lease that has run out. */
  predicate Claimable(row: Row, now: int) {
    || (row.status == QUEUED && (row.schedule.runAfter.None? || row.schedule.runAfter.value <= now))
    || (Executing(row.status) && row.lease.Some? && row.lease.value <= now)
  }

  /** One row of `claim_ready`: a takeover gives back the attempt that was under way. */
  function ClaimedRow(row: Row, worker: string, expiry: int): Row {
    row.(status := RUNNING,
         attempts := if Executing(row.status) && row.attempts > 0 then row.attempts - 1 else row.attempts,
         worker := Some(worker),
         lease := Some(expiry))
  }

  /** The run table. */
  class RunRepository {
    var rows: map<string, Row>

    /** Writes every column, but only while status, and if asked worker and lease, are as expected. */
    method UpdateIfCurrent(id: string, incoming: Row, expected: set<RunStatus>,
                           matchWorker: bool, worker: Option<string>, matchLease: bool, lease: Option<int>)
      returns (updated: bool)
      modifies this
      ensures updated == (id in old(rows) && old(rows)[id].status in expected
                          && (matchWorker ==> old(rows)[id].worker == worker)
                          && (matchLease ==> old(rows)[id].lease == lease))
      ensures rows == if updated then old(rows)[id := incoming] else old(rows)
    {
      updated := id in rows && rows[id].status in expected
                 && (matchWorker ==> rows[id].worker == worker) && (matchLease ==> rows[id].lease == lease);
      if updated { rows := rows[id := incoming]; }
    }

    /** `locked` are the rows another transaction holds; they are skipped. */
    method ClaimReady(worker: string, now: int, expiry: int, limit: nat, excluded: set<string>, locked: set<string>)
      returns (claimed: set<string>)
      modifies this
      ensures |claimed| <= limit
      ensures forall id :: id in claimed ==>
                id in old(rows) && id !in excluded + locked && Claimable(old(rows)[id], now)
      ensures |claimed| < limit ==>
                forall id :: id in old(rows) && id !in excluded + locked && Claimable(old(rows)[id], now)
                             ==> id in claimed
      ensures forall id, other ::
                && id in claimed && other in old(rows) && other !in claimed
                && other !in excluded + locked && Claimable(old(rows)[other], now)
                ==> var a, b := old(rows)[id].schedule, old(rows)[other].schedule;
                    && a.priority >= b.priority
                    && (a.priority == b.priority ==>
                          b.runAfter.None? || (a.runAfter.Some? && a.runAfter.value <= b.runAfter.value))
                    && (a.priority == b.priority && a.runAfter == b.runAfter ==> a.created <= b.created)
      ensures rows.Keys == old(rows).Keys
      ensures forall id :: id in rows ==>
                rows[id] == if id in claimed then ClaimedRow(old(rows)[id], worker, expiry) else old(rows)[id]
    {
      hide ClaimedRow; hide ClaimedFrom; hide Ready; hide Precedes; hide FirstOf;
      ghost var was := rows;
      var ready := Ready(rows, now, excluded, locked);
      claimed := {};
      ClaimNone(rows, ready, worker, expiry);
      while |claimed| < limit && claimed != ready
        invariant claimed <= ready && |claimed| <= limit
        invariant ClaimedFrom(was, rows, claimed, worker, expiry)
        invariant FirstOf(was, ready, claimed)
        decreases |ready - claimed|
      {
        ReadyIsKnown(was, now, excluded, locked);
        NotAllClaimed(ready, claimed);
        UnclaimedIsUnchanged(was, rows, claimed, worker, expiry);
        var id := PickFirst(rows, ready - claimed);
        ClaimFirst(was, rows, ready, claimed, id);
        ClaimOne(was, rows, claimed, worker, expiry, id);
        rows := rows[id := ClaimedRow(rows[id], worker, expiry)];
        claimed := claimed + {id};
      }
      ClaimsAreReady(was, rows, now, excluded, locked, claimed, worker, expiry);
    }
  }

  function Ready(rows: map<string, Row>, now: int, excluded: set<string>, locked: set<string>): set<string> {
    set id | id in rows && id !in excluded + locked && Claimable(rows[id], now)
  }

  /** Exactly the rows in `claimed` have been claimed. */
  ghost predicate ClaimedFrom(
      was: map<string, Row>, rows: map<string, Row>, claimed: set<string>, worker: string, expiry: int)
  {
    && rows.Keys == was.Keys
    && forall id :: id in rows ==> rows[id] == if id in claimed then ClaimedRow(was[id], worker, expiry) else was[id]
  }

  /** No row left over comes before one that was taken. */
  ghost predicate FirstOf(was: map<string, Row>, ready: set<string>, claimed: set<string>) {
    forall id, other :: id in claimed && id in was && other in ready - claimed && other in was ==>
      !Precedes(was[other].schedule, was[id].schedule)
  }

  lemma PrecedesIsTransitive(a: Schedule, b: Schedule, c: Schedule)
    requires Precedes(a, b) && Precedes(b, c)
    ensures Precedes(a, c) && !Precedes(c, a)
  {
  }

  /** One of the rows that come first in the order of the query. */
  method PickFirst(rows: map<string, Row>, ids: set<string>) returns (first: string)
    requires ids != {} && ids <= rows.Keys
    ensures first in ids && forall id :: id in ids ==> !Precedes(rows[id].schedule, rows[first].schedule)
  {
    hide Precedes;
    first :| first in ids;
    assert !Precedes(rows[first].schedule, rows[first].schedule) by { NotBeforeItself(rows[first].schedule); }
    var left := ids - {first};
    while left != {}
      invariant left <= ids && first in ids - left
      invariant forall id :: id in ids - left ==> !Precedes(rows[id].schedule, rows[first].schedule)
      decreases |left|
    {
      var id :| id in left;
      left := left - {id};
      if Precedes(rows[id].schedule, rows[first].schedule) {
        forall u | u in ids - left ensures !Precedes(rows[u].schedule, rows[id].schedule) {
          if u == id {
            NotBeforeItself(rows[id].schedule);
          } else if Precedes(rows[u].schedule, rows[id].schedule) {
            PrecedesIsTransitive(rows[u].schedule, rows[id].schedule, rows[first].schedule);
          }
        }
        first := id;
      }
    }
  }

  lemma NotBefore(b: Schedule, a: Schedule)
    requires !Precedes(b, a)
    ensures a.priority >= b.priority
    ensures a.priority == b.priority ==>
              b.runAfter.None? || (a.runAfter.Some? && a.runAfter.value <= b.runAfter.value)
    ensures a.priority == b.priority && a.runAfter == b.runAfter ==> a.created <= b.created
  {
  }

  lemma NotBeforeItself(a: Schedule)
    ensures !Precedes(a, a)
  {
  }

  lemma ClaimNone(rows: map<string, Row>, ready: set<string>, worker: string, expiry: int)
    ensures ClaimedFrom(rows, rows, {}, worker, expiry) && FirstOf(rows, ready, {})
  {
  }

  lemma ReadyIsKnown(rows: map<string, Row>, now: int, excluded: set<string>, locked: set<string>)
    ensures Ready(rows, now, excluded, locked) <= rows.Keys
  {
  }

  lemma NotAllClaimed(ready: set<string>, claimed: set<string>)
    requires claimed <= ready && claimed != ready
    ensures ready - claimed != {}
  {
    assert ready == claimed + (ready - claimed);
  }

  lemma UnclaimedIsUnchanged(
      was: map<string, Row>, rows: map<string, Row>, claimed: set<string>, worker: string, expiry: int)
    requires ClaimedFrom(was, rows, claimed, worker, expiry)
    ensures rows.Keys == was.Keys && forall id :: id in rows && id !in claimed ==> rows[id] == was[id]
  {
  }

  lemma ClaimFirst(was: map<string, Row>, rows: map<string, Row>, ready: set<string>, claimed: set<string>, id: string)
    requires FirstOf(was, ready, claimed) && claimed <= ready && ready <= was.Keys == rows.Keys && id in ready - claimed
    requires forall u :: u in rows && u !in claimed ==> rows[u] == was[u]
    requires forall u :: u in ready - claimed ==> !Precedes(rows[u].schedule, rows[id].schedule)
    ensures FirstOf(was, ready, claimed + {id})
  {
    hide Precedes;
    forall a, b | a in claimed + {id} && a in was && b in ready - (claimed + {id}) && b in was
      ensures !Precedes(was[b].schedule, was[a].schedule)
    {
      assert b in ready - claimed;
      if a == id { assert rows[b] == was[b] && rows[a] == was[a]; }
    }
  }

  lemma ClaimOne(
      was: map<string, Row>, rows: map<string, Row>, claimed: set<string>, worker: string, expiry: int, id: string)
    requires ClaimedFrom(was, rows, claimed, worker, expiry) && id in was && id !in claimed
    ensures id in rows
    ensures ClaimedFrom(was, rows[id := ClaimedRow(rows[id], worker, expiry)], claimed + {id}, worker, expiry)
  {
    hide ClaimedRow;
  }

  lemma ClaimsAreReady(
      was: map<string, Row>, rows: map<string, Row>, now: int, excluded: set<string>, locked: set<string>,
      claimed: set<string>, worker: string, expiry: int)
    requires ClaimedFrom(was, rows, claimed, worker, expiry) && claimed <= Ready(was, now, excluded, locked)
    requires FirstOf(was, Ready(was, now, excluded, locked), claimed)
    ensures forall id :: id in claimed ==> id in was && id !in excluded + locked && Claimable(was[id], now)
    ensures claimed == Ready(was, now, excluded, locked) ==>
              forall id :: id in was && id !in excluded + locked && Claimable(was[id], now) ==> id in claimed
    ensures forall id, other ::
              && id in claimed && other in was && other !in claimed
              && other !in excluded + locked && Claimable(was[other], now)
              ==> var a, b := was[id].schedule, was[other].schedule;
                  && a.priority >= b.priority
                  && (a.priority == b.priority ==>
                        b.runAfter.None? || (a.runAfter.Some? && a.runAfter.value <= b.runAfter.value))
                  && (a.priority == b.priority && a.runAfter == b.runAfter ==> a.created <= b.created)
    ensures rows.Keys == was.Keys
    ensures forall id :: id in rows ==>
              rows[id] == if id in claimed then ClaimedRow(was[id], worker, expiry) else was[id]
  {
    hide ClaimedRow; hide Claimable; hide Precedes;
    forall id, other | && id in claimed && other in was && other !in claimed
                       && other !in excluded + locked && Claimable(was[other], now)
      ensures var a, b := was[id].schedule, was[other].schedule;
              && a.priority >= b.priority
              && (a.priority == b.priority ==>
                    b.runAfter.None? || (a.runAfter.Some? && a.runAfter.value <= b.runAfter.value))
              && (a.priority == b.priority && a.runAfter == b.runAfter ==> a.created <= b.created)
    {
      assert id in Ready(was, now, excluded, locked) && other in Ready(was, now, excluded, locked) - claimed;
      NotBefore(was[other].schedule, was[id].schedule);
    }
    forall id | id in claimed ensures id in was && id !in excluded + locked && Claimable(was[id], now) {
      assert id in Ready(was, now, excluded, locked);
    }
  }
}

/**
 * One run, executed under leases by any number of workers that claim it, lose it, take it over, crash, or see it
 * canceled. Every read and every conditional write of the run row is one event, so a worker always acts on a copy
 * of the row that may be out of date, and its writes replace every column.
 *
 * A worker is a process with its own id; it has at most one executor of the run at a time (`_start_background`).
 */
module RunLease {
  import opened Common
  import opened RunRows

  /** Where an executor stands; the rows are the copies it holds. */
  datatype Pc =
    | Fresh                                       // claimed, nothing read yet
    | Top(next: nat, run: Row)                    // about to enter attempt `next`
    | Starting(n: nat, run: Row)                  // row read, attempt not yet recorded
    | Working(n: nat, run: Row)                   // the agent is running
    | Touching(n: nat, run: Row, side: Row)       // a tool call or stage is about to update the row
    | Committing(n: nat, run: Row)                // result in hand
    | Failing(n: nat, run: Row)                   // attempt failed, not yet recorded
    | Recovering(run: Row)                        // an error handler supplied the result
    | Closing(run: Row)                           // no attempts left
    | Settling(run: Row)                          // final status recorded; callback to be prepared
    | Leaving                                     // lease to be released
    | Releasing(run: Row)
    | Aborting(run: Row)                          // an exception escaped the executor

  /**
   * `renewals` are the workers whose renewal has found the row its own and will write the new lease; `cancels` and
   * `reclaims` hold rows read by others. `commits` lists the results committed. `started` and `refunds` count
   * attempts; `lost` is by how much writes of stale copies have lowered the stored count.
   */
  datatype State = State(
    row: Row, now: int, execs: map<string, Pc>, renewals: set<string>, cancels: map<nat, Row>, reclaims: map<nat, Row>,
    commits: seq<string>, started: nat, refunds: nat, lost: int)

  /** A queued run. */
  function Init(schedule: Schedule): State {
    State(Row(QUEUED, None, None, 0, None, None, schedule), 0, map[], {}, map[], map[], [], 0, 0, 0)
  }

  datatype Event =
    | Tick(now: int)
    | Claim(worker: string, expiry: int)
    | RenewRead(worker: string)
    | RenewWrite(worker: string, expiry: int)
    | Stop(worker: string)                        // the executor returns, is canceled, or dies with its process
    | Load(worker: string)
    | Enter(worker: string)                       // loop head: read the row, or leave the loop
    | Start(worker: string)
    | Touch(worker: string)
    | TouchWrite(worker: string, waiting: bool)
    | Finish(worker: string, output: string)      // the agent returned; the row is read again
    | Commit(worker: string)
    | Fail(worker: string, status: RunStatus, error: ErrorType)
    | Recover(worker: string, output: string)
    | FailWrite(worker: string)
    | Close(worker: string)
    | Prepare(worker: string, wait: bool)
    | ReadForRelease(worker: string)
    | Release(worker: string)
    | Abort(worker: string)
    | AbortWrite(worker: string)
    | CancelRead(id: nat)
    | CancelWrite(id: nat)
    | ReclaimRead(id: nat)
    | ReclaimWrite(id: nat)

  /** What an executor does to the row and to itself: `None` means it returns. */
  datatype Effect = Effect(row: Row, next: Option<Pc>, commit: Option<string>, starts: nat)

  /** A conditional write by `w`; if it is refused the executor returns. */
  function Owned(
      row: Row, w: string, incoming: Row, expected: bool, next: Option<Pc>, commit: Option<string>, starts: nat): Effect
  {
    if expected && row.worker == Some(w) then Effect(incoming, next, commit, starts) else Effect(row, None, None, 0)
  }

  /** `_update_owned` is that step: nothing is written to a row that another worker owns, or nobody. */
  method UpdateOwned(repository: RunRepository, id: string, run: Row, expected: set<RunStatus>, w: string)
    returns (updated: bool)
    modifies repository
    ensures id !in old(repository.rows) ==> !updated
    ensures id in old(repository.rows) ==>
              var was := old(repository.rows)[id];
              var effect := Owned(was, w, run, was.status in expected, Some(Leaving), None, 0);
              && id in repository.rows && repository.rows[id] == effect.row
              && (updated <==> effect.next.Some?)
              && (was.worker != Some(w) ==> repository.rows[id] == was)
    ensures repository.rows.Keys == old(repository.rows).Keys
    ensures forall k :: k in repository.rows && k != id ==> repository.rows[k] == old(repository.rows)[k]
  {
    updated := repository.UpdateIfCurrent(id, run, expected, true, Some(w), false, None);
  }

  function Stay(row: Row, pc: Pc): Effect { Effect(row, Some(pc), None, 0) }

  predicate FailureStatus(status: RunStatus, n: nat, max: nat) {
    status == FAILED || status == TIMEOUT || (status == RETRYING && n < max)
  }

  function Act(row: Row, max: nat, w: string, pc: Pc, e: Event): Effect {
    if e.Abort? then Stay(row, Aborting(row)) else
    match pc
    case Fresh => if e.Load? then Stay(row, Top(row.attempts + 1, row)) else Stay(row, pc)
    case Top(n, run) =>
      if !e.Enter? then Stay(row, pc)
      else if n > max then Stay(row, Closing(run))
      else if row.status == CANCELED then Effect(row, None, None, 0)
      else Stay(row, Starting(n, row))
    case Starting(n, run) =>
      var run' := run.(status := if n == 1 then RUNNING else RETRYING, attempts := n);
      if e.Start? then Owned(row, w, run', row.status == run.status, Some(Working(n, run')), None, 1) else Stay(row, pc)
    case Working(n, run) =>
      if e.Touch? then Stay(row, Touching(n, run, row))
      else if e.Finish? then
        Stay(row, Committing(n, row.(output := Some(e.output), error := None, status := AGENT_SUCCEEDED)))
      else if e.Fail? && FailureStatus(e.status, n, max) then
        Stay(row, Failing(n, run.(status := e.status, error := Some(e.error))))
      else Stay(row, pc)
    case Touching(n, run, side) =>
      if !e.TouchWrite? then Stay(row, pc)
      else if row.status == side.status && row.worker == run.worker then
        Stay(if e.waiting then side.(status := WAITING_TOOL) else side, Working(n, run))
      else Effect(row, None, None, 0)
    case Committing(n, run) =>
      if e.Commit? then Owned(row, w, run, Executing(row.status), Some(Settling(run)), run.output, 0)
      else if e.Fail? && FailureStatus(e.status, n, max) then
        Stay(row, Failing(n, run.(status := e.status, error := Some(e.error))))
      else Stay(row, pc)
    case Failing(n, run) =>
      if e.Recover? then Stay(row, Recovering(run.(output := Some(e.output), error := None, status := SUCCEEDED)))
      else if e.FailWrite? then
        var next := if run.error.Some? && !Retryable(run.error.value) then Closing(run) else Top(n + 1, run);
        Owned(row, w, run, Executing(row.status), Some(next), None, 0)
      else Stay(row, pc)
    case Recovering(run) =>
      if e.Commit? then Owned(row, w, run, Executing(row.status), Some(Settling(run)), run.output, 0) else Stay(row, pc)
    case Closing(run) =>
      if e.Close? then Owned(row, w, run, row.status == run.status, Some(Settling(run)), None, 0) else Stay(row, pc)
    case Settling(run) =>
      if e.Prepare? then
        var status := if !e.wait then Settled(run.status, run.error)
                      else if run.status == AGENT_SUCCEEDED || run.status == SUCCEEDED then WAITING_CALLBACK
                      else run.status;
        Stay(if row.status == run.status && row.worker == run.worker then run.(status := status) else row, Leaving)
      else if e.ReadForRelease? then Stay(row, Releasing(row))
      else Stay(row, pc)
    case Leaving => if e.ReadForRelease? then Stay(row, Releasing(row)) else Stay(row, pc)
    case Releasing(run) =>
      if e.Release? then Owned(row, w, run.(worker := None, lease := None), row.status == run.status, None, None, 0)
      else Stay(row, pc)
    case Aborting(run) =>
      if e.AbortWrite? then
        Owned(row, w, run.(status := FAILED, error := Some(INTERNAL_ERROR)),
              Executing(row.status) || row.status == QUEUED, None, None, 0)
      else Stay(row, pc)
  }

  function ExecStep(s: State, max: nat, w: string, e: Event): State
    requires w in s.execs
  {
    var effect := Act(s.row, max, w, s.execs[w], e);
    s.(row := effect.row,
       execs := if effect.next.Some? then s.execs[w := effect.next.value] else s.execs - {w},
       commits := if effect.commit.Some? then s.commits + [effect.commit.value] else s.commits,
       started := s.started + effect.starts)
  }

  predicate CanCancel(s: State, c: nat) {
    c in s.cancels && !Terminal(s.cancels[c].status) && s.row.status == s.cancels[c].status
  }

  /** `reclaim_expired_leases` compares status, worker and lease with what it read, but not the attempts. */
  predicate CanReclaim(s: State, c: nat) {
    && c in s.reclaims
    && s.row.status == s.reclaims[c].status
    && s.row.worker == s.reclaims[c].worker
    && s.row.lease == s.reclaims[c].lease
  }

  function Step(s: State, max: nat, e: Event): State {
    match e
    case Tick(now) => if s.now <= now then s.(now := now) else s
    case Claim(w, expiry) =>
      if w !in s.execs && Claimable(s.row, s.now) then
        var refund := if Executing(s.row.status) && s.row.attempts > 0 then 1 else 0;
        s.(row := ClaimedRow(s.row, w, expiry), refunds := s.refunds + refund, execs := s.execs[w := Fresh])
      else s
    case RenewRead(w) =>
      if s.row.worker == Some(w) && Executing(s.row.status) then s.(renewals := s.renewals + {w}) else s
    case RenewWrite(w, expiry) =>
      if w in s.renewals then s.(row := s.row.(lease := Some(expiry)), renewals := s.renewals - {w}) else s
    case Stop(w) => s.(execs := s.execs - {w})
    case CancelRead(c) => s.(cancels := s.cancels[c := s.row])
    case CancelWrite(c) =>
      if CanCancel(s, c) then
        s.(row := s.cancels[c].(status := CANCELED, worker := None, lease := None), cancels := s.cancels - {c},
           lost := s.lost + (s.row.attempts - s.cancels[c].attempts))
      else s
    case ReclaimRead(c) =>
      if Executing(s.row.status) && s.row.lease.Some? && s.row.lease.value <= s.now
      then s.(reclaims := s.reclaims[c := s.row]) else s
    case ReclaimWrite(c) =>
      if CanReclaim(s, c) then
        var run := s.reclaims[c];
        s.(row := run.(status := QUEUED, worker := None, lease := None,
                       attempts := if run.attempts > 0 then run.attempts - 1 else 0),
           reclaims := s.reclaims - {c},
           refunds := s.refunds + (if run.attempts > 0 then 1 else 0),
           lost := s.lost + (s.row.attempts - run.attempts))
      else s
    case _ => if e.worker in s.execs then ExecStep(s, max, e.worker, e) else s
  }

  function Run(s: State, max: nat, es: seq<Event>): State
    decreases |es|
  {
    if es == [] then s else Run(Step(s, max, es[0]), max, es[1..])
  }

  // -- Invariant ---------------------------------------------------------------------------------------------

  /** The run is neither decided nor canceled. */
  predicate Open(row: Row, commits: seq<string>) { commits == [] && !Succeeded(row.status) && row.status != CANCELED }

  predicate Copy(row: Row, w: string, run: Row) { run.worker == Some(w) && run.attempts == row.attempts }

  /** What an executor that still owns the row knows about it. */
  predicate PcMatches(row: Row, commits: seq<string>, w: string, pc: Pc) {
    match pc
    case Fresh => Open(row, commits)
    case Top(n, run) =>
      && Open(row, commits) && Copy(row, w, run) && n == row.attempts + 1
      && !Succeeded(run.status) && run.status != CANCELED
    case Starting(n, run) => Open(row, commits) && Copy(row, w, run) && n == row.attempts + 1
    case Working(n, run) => Open(row, commits) && Copy(row, w, run) && n == row.attempts
    case Touching(n, run, side) => Open(row, commits) && Copy(row, w, run) && Copy(row, w, side) && n == row.attempts
    case Committing(n, run) => Open(row, commits) && Copy(row, w, run) && n == row.attempts
    case Failing(n, run) => Open(row, commits) && Copy(row, w, run) && n == row.attempts
    case Recovering(run) => Open(row, commits) && Copy(row, w, run)
    case Closing(run) => Open(row, commits) && Copy(row, w, run) && !Succeeded(run.status) && run.status != CANCELED
    case Settling(run) => SameButLease(row, run)
    case Leaving => true
    case Releasing(run) => SameButLease(row, run)
    case Aborting(run) => SameButLease(row, run)
  }

  /** What holds of an executor's copies whoever owns the row. */
  predicate PcSane(w: string, max: nat, pc: Pc) {
    match pc
    case Fresh => true
    case Top(n, run) => run.attempts <= max
    case Starting(n, run) => n <= max
    case Working(n, run) => n <= max && run.worker == Some(w) && run.attempts == n
    case Touching(n, run, side) => n <= max && run.worker == Some(w) && run.attempts == n && side.attempts <= max
    case Committing(n, run) =>
      n <= max && run.attempts <= max && run.status == AGENT_SUCCEEDED && run.output.Some? && run.error.None?
    case Failing(n, run) => n <= max && run.attempts <= max && !Succeeded(run.status) && run.status != CANCELED
    case Recovering(run) => run.attempts <= max && run.status == SUCCEEDED && run.output.Some? && run.error.None?
    case Closing(run) => run.attempts <= max
    case Settling(run) => run.worker == Some(w) && run.attempts <= max
    case Leaving => true
    case Releasing(run) => run.attempts <= max
    case Aborting(run) => run.attempts <= max
  }

  predicate ExecOk(s: State, max: nat, w: string) {
    w in s.execs ==>
      && PcSane(w, max, s.execs[w])
      && (s.row.worker == Some(w) ==> PcMatches(s.row, s.commits, w, s.execs[w]))
  }

  /** The row against the history: a success status means exactly one commit, whose output the row holds. */
  predicate RowOk(row: Row, commits: seq<string>, max: nat) {
    && |commits| <= 1
    && (Succeeded(row.status) ==> |commits| == 1 && row.error.None?)
    && (|commits| == 1 ==> (Succeeded(row.status) || row.status == CANCELED) && row.output == Some(commits[0]))
    && (row.status == CANCELED ==> row.worker.None?)
    && row.attempts <= max
  }

  predicate CancelOk(s: State, max: nat, c: nat) {
    && (c in s.cancels ==> s.cancels[c].attempts <= max
                           && (Succeeded(s.cancels[c].status) ==>
                                 |s.commits| == 1 && s.cancels[c].output == Some(s.commits[0])))
    && (c in s.reclaims ==> s.reclaims[c].attempts <= max && Executing(s.reclaims[c].status))
  }

  ghost predicate Inv(s: State, max: nat) {
    && RowOk(s.row, s.commits, max)
    && s.row.attempts + s.refunds + s.lost == s.started
    && (forall w :: ExecOk(s, max, w))
    && (forall c :: CancelOk(s, max, c))
  }

  /** The event left the executor alone, and changed the row, but for the lease, only if it ended up not owning it. */
  lemma OthersKept(s: State, s': State, max: nat, v: string)
    requires ExecOk(s, max, v)
    requires v in s'.execs ==> v in s.execs && s'.execs[v] == s.execs[v]
    requires s'.row.worker == Some(v) ==> SameButLease(s.row, s'.row) && s'.commits == s.commits
    ensures ExecOk(s', max, v)
  {
  }

  /** One action of an executor, against the row alone. */
  predicate EffectOk(row: Row, commits: seq<string>, max: nat, w: string, effect: Effect) {
    && NextOk(effect, if effect.commit.Some? then commits + [effect.commit.value] else commits, max, w)
    && (row.worker != Some(w) ==> effect.row == row && effect.commit.None? && effect.starts == 0)
    && (row.worker == Some(w) ==> effect.row.worker == Some(w) || effect.row.worker.None?)
    && (effect.commit.Some? ==> commits == [])
    && effect.row.attempts == row.attempts + effect.starts
  }

  predicate NextOk(effect: Effect, commits: seq<string>, max: nat, w: string) {
    && RowOk(effect.row, commits, max)
    && (effect.next.Some? ==> PcSane(w, max, effect.next.value))
    && (effect.next.Some? && effect.row.worker == Some(w) ==> PcMatches(effect.row, commits, w, effect.next.value))
  }

  predicate ExecReady(row: Row, commits: seq<string>, max: nat, w: string, pc: Pc) {
    RowOk(row, commits, max) && PcSane(w, max, pc) && (row.worker == Some(w) ==> PcMatches(row, commits, w, pc))
  }

  lemma StartingActsOk(row: Row, commits: seq<string>, max: nat, w: string, pc: Pc, e: Event)
    requires ExecReady(row, commits, max, w, pc) && (pc.Fresh? || pc.Top? || pc.Starting?)
    ensures EffectOk(row, commits, max, w, Act(row, max, w, pc, e))
  {
  }

  lemma WorkingActsOk(row: Row, commits: seq<string>, max: nat, w: string, pc: Pc, e: Event)
    requires ExecReady(row, commits, max, w, pc) && (pc.Working? || pc.Touching?)
    ensures EffectOk(row, commits, max, w, Act(row, max, w, pc, e))
  {
  }

  lemma CommittingActsOk(row: Row, commits: seq<string>, max: nat, w: string, pc: Pc, e: Event)
    requires ExecReady(row, commits, max, w, pc) && (pc.Committing? || pc.Recovering?)
    ensures EffectOk(row, commits, max, w, Act(row, max, w, pc, e))
  {
  }

  lemma FailingActsOk(row: Row, commits: seq<string>, max: nat, w: string, pc: Pc, e: Event)
    requires ExecReady(row, commits, max, w, pc) && (pc.Failing? || pc.Closing?)
    ensures EffectOk(row, commits, max, w, Act(row, max, w, pc, e))
  {
  }

  lemma SettlingActsOk(row: Row, commits: seq<string>, max: nat, w: string, pc: Pc, e: Event)
    requires ExecReady(row, commits, max, w, pc) && (pc.Settling? || pc.Leaving?)
    ensures EffectOk(row, commits, max, w, Act(row, max, w, pc, e))
  {
  }

  lemma ReleasingActsOk(row: Row, commits: seq<string>, max: nat, w: string, pc: Pc, e: Event)
    requires ExecReady(row, commits, max, w, pc) && (pc.Releasing? || pc.Aborting?)
    ensures EffectOk(row, commits, max, w, Act(row, max, w, pc, e))
  {
  }

  lemma ExecKeepsInv(s: State, max: nat, w: string, e: Event)
    requires Inv(s, max) && w in s.execs
    ensures Inv(ExecStep(s, max, w, e), max)
  {
    hide Act; hide PcMatches; hide PcSane;
    var s' := ExecStep(s, max, w, e);
    var pc := s.execs[w];
    assert ExecOk(s, max, w);
    if pc.Fresh? || pc.Top? || pc.Starting? { StartingActsOk(s.row, s.commits, max, w, pc, e); }
    else if pc.Working? || pc.Touching? { WorkingActsOk(s.row, s.commits, max, w, pc, e); }
    else if pc.Committing? || pc.Recovering? { CommittingActsOk(s.row, s.commits, max, w, pc, e); }
    else if pc.Failing? || pc.Closing? { FailingActsOk(s.row, s.commits, max, w, pc, e); }
    else if pc.Settling? || pc.Leaving? { SettlingActsOk(s.row, s.commits, max, w, pc, e); }
    else { ReleasingActsOk(s.row, s.commits, max, w, pc, e); }
    forall v ensures ExecOk(s', max, v) {
      assert ExecOk(s, max, v);
      if v != w { OthersKept(s, s', max, v); }
    }
    forall c ensures CancelOk(s', max, c) { assert CancelOk(s, max, c); }
  }

  lemma ClaimKeepsInv(s: State, max: nat, w: string, expiry: int)
    requires Inv(s, max)
    ensures Inv(Step(s, max, Claim(w, expiry)), max)
  {
    var s' := Step(s, max, Claim(w, expiry));
    assert ExecOk(s, max, w);
    forall v ensures ExecOk(s', max, v) {
      assert ExecOk(s, max, v);
      if v != w { OthersKept(s, s', max, v); }
    }
    forall c ensures CancelOk(s', max, c) { assert CancelOk(s, max, c); }
  }

  predicate Outside(e: Event) { e.CancelRead? || e.CancelWrite? || e.ReclaimRead? || e.ReclaimWrite? }

  predicate Quiet(e: Event) { e.Tick? || e.RenewRead? || e.RenewWrite? || e.Stop? }

  /** Events of no executor that at most take the row away from its owner. */
  lemma OutsideKeepsInv(s: State, max: nat, e: Event)
    requires Inv(s, max) && (Outside(e))
    ensures Inv(Step(s, max, e), max)
  {
    hide PcMatches; hide PcSane; hide Act; hide Run;
    var s' := Step(s, max, e);
    assert CancelOk(s, max, e.id);
    forall v ensures ExecOk(s', max, v) {
      assert ExecOk(s, max, v);
      if s'.row == s.row { OthersKept(s, s', max, v); }
    }
    forall c ensures CancelOk(s', max, c) { assert CancelOk(s, max, c); }
  }

  lemma QuietKeepsInv(s: State, max: nat, e: Event)
    requires Inv(s, max) && (Quiet(e))
    ensures Inv(Step(s, max, e), max)
  {
    hide PcMatches; hide PcSane;
    var s' := Step(s, max, e);
    forall v ensures ExecOk(s', max, v) {
      assert ExecOk(s, max, v);
      OthersKept(s, s', max, v);
    }
    forall c ensures CancelOk(s', max, c) { assert CancelOk(s, max, c); }
  }

  lemma StepKeepsInv(s: State, max: nat, e: Event)
    requires Inv(s, max)
    ensures Inv(Step(s, max, e), max)
  {
    if e.Claim? { ClaimKeepsInv(s, max, e.worker, e.expiry); }
    else if Outside(e) { OutsideKeepsInv(s, max, e); }
    else if Quiet(e) { QuietKeepsInv(s, max, e); }
    else {
      hide Inv; hide ExecStep;
      if e.worker in s.execs { ExecKeepsInv(s, max, e.worker, e); }
    }
  }

  lemma {:induction false} RunKeepsInv(s: State, max: nat, es: seq<Event>)
    requires Inv(s, max)
    ensures Inv(Run(s, max, es), max)
    decreases |es|
  {
    hide Inv; hide Step;
    if es != [] {
      StepKeepsInv(s, max, es[0]);
      RunKeepsInv(Step(s, max, es[0]), max, es[1..]);
    }
  }

  lemma Reachable(schedule: Schedule, max: nat, es: seq<Event>)
    ensures Inv(Run(Init(schedule), max, es), max)
  {
    assert Inv(Init(schedule), max);
    RunKeepsInv(Init(schedule), max, es);
  }

  // -- What every run keeps ----------------------------------------------------------------------------------

  /**
   * Commit once: over every interleaving at most one result is committed, and a success status shows exactly that one.
   */
  lemma CommitOnce(schedule: Schedule, max: nat, es: seq<Event>)
    ensures var s := Run(Init(schedule), max, es);
            && |s.commits| <= 1
            && (Succeeded(s.row.status) ==> |s.commits| == 1)
            && (|s.commits| == 1 ==>
                  s.row.output == Some(s.commits[0]) && (Succeeded(s.row.status) || s.row.status == CANCELED))
            && (Succeeded(s.row.status) ==> s.row.error.None?)
  {
    Reachable(schedule, max, es);
  }

  lemma StepKeepsCommits(s: State, max: nat, e: Event)
    ensures s.commits <= Step(s, max, e).commits
  {
    hide Act;
  }

  lemma {:induction false} RunKeepsCommits(s: State, max: nat, es: seq<Event>)
    ensures s.commits <= Run(s, max, es).commits
    decreases |es|
  {
    hide Step;
    if es != [] {
      StepKeepsCommits(s, max, es[0]);
      RunKeepsCommits(Step(s, max, es[0]), max, es[1..]);
    }
  }

  lemma {:induction false} RunConcat(s: State, max: nat, a: seq<Event>, b: seq<Event>)
    ensures Run(Run(s, max, a), max, b) == Run(s, max, a + b)
    decreases |a|
  {
    hide Step;
    if a == [] {
      assert a + b == b;
    } else {
      assert (a + b)[0] == a[0] && (a + b)[1..] == a[1..] + b;
      RunConcat(Step(s, max, a[0]), max, a[1..], b);
    }
  }

  /** Once committed, the output never changes, whoever claims, renews, cancels or writes afterwards. */
  lemma CommittedOutputIsFinal(schedule: Schedule, max: nat, es: seq<Event>, more: seq<Event>)
    requires |Run(Init(schedule), max, es).commits| == 1
    ensures var s := Run(Init(schedule), max, es);
            Run(s, max, more).commits == s.commits && Run(s, max, more).row.output == s.row.output == Some(s.commits[0])
  {
    var s := Run(Init(schedule), max, es);
    RunKeepsCommits(s, max, more);
    RunConcat(Init(schedule), max, es, more);
    CommitOnce(schedule, max, es);
    CommitOnce(schedule, max, es + more);
  }

  lemma CanceledStep(s: State, max: nat, e: Event)
    requires Inv(s, max) && s.row.status == CANCELED
    ensures SameButLease(s.row, Step(s, max, e).row)
  {
    hide Act; hide PcMatches; hide PcSane;
    if e.Claim? || Outside(e) || Quiet(e) {
      if e.ReclaimWrite? { assert CancelOk(s, max, e.id); }
      CanceledOutside(s, max, e);
    } else {
      hide RowOk; hide CancelOk;
      assert s.row.worker.None? by { CanceledHasNoOwner(s, max); }
      assert ExecOk(s, max, e.worker);
      if e.worker in s.execs { CanceledAct(s.row, max, e.worker, s.execs[e.worker], e); }
    }
  }

  lemma CanceledHasNoOwner(s: State, max: nat)
    requires Inv(s, max) && s.row.status == CANCELED
    ensures s.row.worker.None?
  {
  }

  lemma CanceledOutside(s: State, max: nat, e: Event)
    requires s.row.status == CANCELED
    requires e.Claim? || Outside(e) || Quiet(e)
    requires e.ReclaimWrite? ==> CancelOk(s, max, e.id)
    ensures SameButLease(s.row, Step(s, max, e).row)
  {
  }

  lemma CanceledAct(row: Row, max: nat, w: string, pc: Pc, e: Event)
    requires row.worker.None? && PcSane(w, max, pc)
    ensures Act(row, max, w, pc, e).row == row
  {
  }

  /** CANCELED is never left, and nothing about a canceled run changes but the lease, which a late renewal may set. */
  lemma {:induction false} CanceledIsFinal(s: State, max: nat, more: seq<Event>)
    requires Inv(s, max) && s.row.status == CANCELED
    ensures SameButLease(s.row, Run(s, max, more).row)
    decreases |more|
  {
    hide Inv; hide Step;
    if more != [] {
      CanceledStep(s, max, more[0]);
      StepKeepsInv(s, max, more[0]);
      CanceledIsFinal(Step(s, max, more[0]), max, more[1..]);
    }
  }

  lemma CanceledForever(schedule: Schedule, max: nat, es: seq<Event>, more: seq<Event>)
    requires Run(Init(schedule), max, es).row.status == CANCELED
    ensures SameButLease(Run(Init(schedule), max, es).row, Run(Run(Init(schedule), max, es), max, more).row)
  {
    Reachable(schedule, max, es);
    CanceledIsFinal(Run(Init(schedule), max, es), max, more);
  }

  /** The event does not write back an attempt count that has changed since it was read. */
  predicate UpToDate(s: State, e: Event) {
    && (e.CancelWrite? && CanCancel(s, e.id) ==> s.cancels[e.id].attempts == s.row.attempts)
    && (e.ReclaimWrite? && CanReclaim(s, e.id) ==> s.reclaims[e.id].attempts == s.row.attempts)
  }

  ghost predicate AllUpToDate(s: State, max: nat, es: seq<Event>)
    decreases |es|
  {
    es == [] || (UpToDate(s, es[0]) && AllUpToDate(Step(s, max, es[0]), max, es[1..]))
  }

  /** Of all events, exactly the stale cancels and reclaims upset the balance of attempts. */
  lemma BalanceIsKeptIffUpToDate(s: State, max: nat, e: Event)
    requires Inv(s, max)
    ensures var s' := Step(s, max, e);
            s'.row.attempts + s'.refunds - s'.started == s.row.attempts + s.refunds - s.started <==> UpToDate(s, e)
  {
    hide Inv;
    StepKeepsInv(s, max, e);
    Balance(s, max);
    Balance(Step(s, max, e), max);
    LostIffStale(s, max, e);
  }

  lemma Balance(s: State, max: nat)
    requires Inv(s, max)
    ensures s.row.attempts + s.refunds + s.lost == s.started && s.row.attempts <= max
  {
  }

  lemma LostIffStale(s: State, max: nat, e: Event)
    ensures Step(s, max, e).lost == s.lost <==> UpToDate(s, e)
  {
    hide Act;
  }

  lemma {:induction false} NothingIsLost(s: State, max: nat, es: seq<Event>)
    requires AllUpToDate(s, max, es)
    ensures Run(s, max, es).lost == s.lost
    decreases |es|
  {
    hide Step;
    if es != [] {
      LostIffStale(s, max, es[0]);
      NothingIsLost(Step(s, max, es[0]), max, es[1..]);
    }
  }

  /**
   * Attempt conservation over every run: the stored count, the attempts given back and those that stale writes lost
   * make up the attempts started. Nothing is lost as long as no cancel or reclaim writes back a stale count, and then
   * the attempts started never exceed the maximum and the refunds.
   */
  lemma AttemptsAreConserved(schedule: Schedule, max: nat, es: seq<Event>)
    ensures var s := Run(Init(schedule), max, es);
            && s.row.attempts + s.refunds + s.lost == s.started
            && s.row.attempts <= max
            && s.started <= max + s.refunds + s.lost
            && (AllUpToDate(Init(schedule), max, es) ==> s.lost == 0)
  {
    hide Run; hide AllUpToDate; hide Inv;
    Reachable(schedule, max, es);
    Balance(Run(Init(schedule), max, es), max);
    if AllUpToDate(Init(schedule), max, es) { NothingIsLost(Init(schedule), max, es); }
  }

  /**
   * And it can go wrong: the owner, late with its renewal, starts a second attempt between the reclaimer's read and
   * write.
   */
  lemma ReclaimCanLoseAnAttempt() returns (es: seq<Event>)
    ensures var s := Run(Init(AT_ONCE), 3, es);
            s.row.status == QUEUED && s.started == 2 && s.refunds == 1 && s.row.attempts == 0 && s.lost == 1
  {
    hide Run;
    var w := "w";
    var first := [Claim(w, 5), Load(w), Enter(w), Start(w)];
    var second := [Fail(w, RETRYING, AGENT_EXECUTION_ERROR), FailWrite(w), Tick(5), ReclaimRead(0)];
    var third := [Tick(5), Enter(w), Start(w), ReclaimWrite(0)];
    FirstAttemptStarts(w);
    FirstAttemptFails(w);
    var s := ReclaimerRead(w);
    SecondAttemptIsLost(w);
    RunConcat(Init(AT_ONCE), 3, first, second);
    RunConcat(Init(AT_ONCE), 3, first + second, third);
    es := first + second + third;
  }

  const AT_ONCE := Schedule(None, 0, 0)

  function FirstAttempt(w: string): State {
    var row := Row(RUNNING, Some(w), Some(5), 1, None, None, AT_ONCE);
    Init(AT_ONCE).(row := row, execs := map[w := Working(1, row)], started := 1)
  }

  function ReclaimerRead(w: string): State {
    var row := Row(RETRYING, Some(w), Some(5), 1, None, Some(AGENT_EXECUTION_ERROR), AT_ONCE);
    Init(AT_ONCE).(row := row, execs := map[w := Top(2, row)], started := 1, now := 5, reclaims := map[0 := row])
  }

  lemma FirstAttemptStarts(w: string)
    ensures Run(Init(AT_ONCE), 3, [Claim(w, 5), Load(w), Enter(w), Start(w)]) == FirstAttempt(w)
  {
    hide Run; hide Act;
    var row := Row(RUNNING, Some(w), Some(5), 0, None, None, AT_ONCE);
    var s := Init(AT_ONCE).(row := row, execs := map[w := Fresh]);
    assert Step(Init(AT_ONCE), 3, Claim(w, 5)) == s;
    LoadAndStart(s, w, row);
    hide Step;
    RunOfFour(Init(AT_ONCE), 3, Claim(w, 5), Load(w), Enter(w), Start(w));
  }

  lemma LoadAndStart(s: State, w: string, row: Row)
    requires row == Row(RUNNING, Some(w), Some(5), 0, None, None, AT_ONCE)
    requires s == Init(AT_ONCE).(row := row, execs := map[w := Fresh])
    ensures Step(Step(Step(s, 3, Load(w)), 3, Enter(w)), 3, Start(w)) == FirstAttempt(w)
  {
    hide Run;
    var started := row.(attempts := 1);
    assert Act(row, 3, w, Fresh, Load(w)) == Stay(row, Top(1, row));
    assert Act(row, 3, w, Top(1, row), Enter(w)) == Stay(row, Starting(1, row));
    assert Act(row, 3, w, Starting(1, row), Start(w)) == Effect(started, Some(Working(1, started)), None, 1);
    hide Act;
    assert Step(s, 3, Load(w)) == s.(execs := map[w := Top(1, row)]);
    assert Step(s.(execs := map[w := Top(1, row)]), 3, Enter(w)) == s.(execs := map[w := Starting(1, row)]);
  }

  lemma FailureIsRecorded(s: State, w: string, row: Row)
    requires s == FirstAttempt(w) && row == ReclaimerRead(w).row
    ensures Step(Step(s, 3, Fail(w, RETRYING, AGENT_EXECUTION_ERROR)), 3, FailWrite(w))
         == s.(row := row, execs := map[w := Top(2, row)])
  {
    hide Run;
    var a := Step(s, 3, Fail(w, RETRYING, AGENT_EXECUTION_ERROR));
    assert Act(s.row, 3, w, Working(1, s.row), Fail(w, RETRYING, AGENT_EXECUTION_ERROR))
        == Stay(s.row, Failing(1, row));
    assert a == s.(execs := map[w := Failing(1, row)]);
    assert Act(s.row, 3, w, Failing(1, row), FailWrite(w)) == Effect(row, Some(Top(2, row)), None, 0);
  }

  lemma FirstAttemptFails(w: string)
    ensures var es := [Fail(w, RETRYING, AGENT_EXECUTION_ERROR), FailWrite(w), Tick(5), ReclaimRead(0)];
            Run(FirstAttempt(w), 3, es) == ReclaimerRead(w)
  {
    hide Run; hide Act;
    var s := FirstAttempt(w);
    var row := ReclaimerRead(w).row;
    FailureIsRecorded(s, w, row);
    RunOfFour(s, 3, Fail(w, RETRYING, AGENT_EXECUTION_ERROR), FailWrite(w), Tick(5), ReclaimRead(0));
  }

  lemma SecondAttemptIsLost(w: string)
    ensures var s := Run(ReclaimerRead(w), 3, [Tick(5), Enter(w), Start(w), ReclaimWrite(0)]);
            s.row.status == QUEUED && s.started == 2 && s.refunds == 1 && s.row.attempts == 0 && s.lost == 1
  {
    hide Run;
    var s := ReclaimerRead(w);
    var late := s.row.(attempts := 2);
    assert Act(s.row, 3, w, Top(2, s.row), Enter(w)) == Stay(s.row, Starting(2, s.row));
    assert Act(s.row, 3, w, Starting(2, s.row), Start(w)) == Effect(late, Some(Working(2, late)), None, 1);
    hide Act;
    var a := Step(s, 3, Enter(w));
    assert a == s.(execs := map[w := Starting(2, s.row)]);
    var b := Step(a, 3, Start(w));
    assert b.row == late && b.started == 2 && b.reclaims == s.reclaims && b.refunds == b.lost == 0;
    RunOfFour(s, 3, Tick(5), Enter(w), Start(w), ReclaimWrite(0));
  }

  lemma RunOfFour(s: State, max: nat, a: Event, b: Event, c: Event, d: Event)
    ensures Run(s, max, [a, b, c, d]) == Step(Step(Step(Step(s, max, a), max, b), max, c), max, d)
  {
    hide Step;
    assert [a, b, c, d][1..] == [b, c, d] && [b, c, d][1..] == [c, d] && [c, d][1..] == [d] && [d][1..] == [];
    var s1 := Step(s, max, a);
    var s2 := Step(s1, max, b);
    var s3 := Step(s2, max, c);
    assert Run(s3, max, [d]) == Run(Step(s3, max, d), max, []);
    assert Run(s2, max, [c, d]) == Run(s3, max, [d]);
    assert Run(s1, max, [b, c, d]) == Run(s2, max, [c, d]);
  }
}

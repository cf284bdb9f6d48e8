/** Where committed results come from, and what an executor achieves while nobody interferes. */
module RunLeaseRuns {
  import opened Common
  import opened RunRows
  import opened RunLease

  // -- Provenance ----------------------------------------------------------------------------------------------

  /** By event `i` the agent of `w`, or an error handler for it, produced `output`. */
  predicate ProducedAt(es: seq<Event>, i: nat, w: string, output: string) {
    i < |es| && (es[i] == Finish(w, output) || es[i] == Recover(w, output))
  }

  ghost predicate Produced(es: seq<Event>, w: string, output: string) { exists i: nat :: ProducedAt(es, i, w, output) }

  /** `w` produced the output at `i` and committed it at `j`. */
  predicate CommittedAt(es: seq<Event>, i: nat, j: nat, w: string, output: string) {
    i < j < |es| && ProducedAt(es, i, w, output) && es[j] == Commit(w)
  }

  ghost predicate Committed(es: seq<Event>, output: string) {
    exists i: nat, j: nat, w :: CommittedAt(es, i, j, w, output)
  }

  predicate InHand(pc: Pc) { pc.Committing? || pc.Recovering? }

  ghost predicate Accounted(es: seq<Event>, s: State) {
    && (forall w :: w in s.execs && InHand(s.execs[w]) && s.execs[w].run.output.Some? ==>
          Produced(es, w, s.execs[w].run.output.value))
    && (forall i :: 0 <= i < |s.commits| ==> Committed(es, s.commits[i]))
  }

  /** A result comes into an executor's hands only from its agent or error handler, and only that is committed. */
  lemma ActHandsOver(row: Row, max: nat, w: string, pc: Pc, e: Event)
    ensures var f := Act(row, max, w, pc, e);
            && (f.next.Some? && InHand(f.next.value) && f.next.value != pc ==>
                  (e.Finish? || e.Recover?) && f.next.value.run.output == Some(e.output))
            && (f.commit.Some? ==> e.Commit? && InHand(pc) && pc.run.output == f.commit)
  {
  }

  lemma ProducedLonger(es: seq<Event>, e: Event, w: string, output: string)
    requires Produced(es, w, output)
    ensures Produced(es + [e], w, output)
  {
    var i: nat :| ProducedAt(es, i, w, output);
    assert ProducedAt(es + [e], i, w, output);
  }

  lemma CommittedLonger(es: seq<Event>, e: Event, output: string)
    requires Committed(es, output)
    ensures Committed(es + [e], output)
  {
    var i: nat, j: nat, w :| CommittedAt(es, i, j, w, output);
    assert ProducedAt(es + [e], i, w, output);
    assert CommittedAt(es + [e], i, j, w, output);
  }

  lemma ProducedNow(es: seq<Event>, e: Event)
    requires e.Finish? || e.Recover?
    ensures Produced(es + [e], e.worker, e.output)
  {
    assert ProducedAt(es + [e], |es|, e.worker, e.output);
  }

  lemma CommittedNow(es: seq<Event>, w: string, output: string)
    requires Produced(es, w, output)
    ensures Committed(es + [Commit(w)], output)
  {
    var i: nat :| ProducedAt(es, i, w, output);
    assert ProducedAt(es + [Commit(w)], i, w, output);
    assert CommittedAt(es + [Commit(w)], i, |es|, w, output);
  }

  predicate ByExecutor(e: Event) { !e.Claim? && !Outside(e) && !Quiet(e) }

  lemma ExecutorAccounts(es: seq<Event>, s: State, max: nat, e: Event)
    requires Accounted(es, s) && ByExecutor(e)
    ensures Accounted(es + [e], Step(s, max, e))
  {
    hide Act; hide Run; hide Produced; hide Committed;
    var s' := Step(s, max, e);
    if e.worker in s.execs { ActHandsOver(s.row, max, e.worker, s.execs[e.worker], e); }
    forall w | w in s'.execs && InHand(s'.execs[w]) && s'.execs[w].run.output.Some?
      ensures Produced(es + [e], w, s'.execs[w].run.output.value)
    {
      if w in s.execs && s'.execs[w] == s.execs[w] { ProducedLonger(es, e, w, s.execs[w].run.output.value); }
      else { ProducedNow(es, e); }
    }
    forall i | 0 <= i < |s'.commits| ensures Committed(es + [e], s'.commits[i]) {
      if i < |s.commits| { CommittedLonger(es, e, s.commits[i]); } else { CommittedNow(es, e.worker, s'.commits[i]); }
    }
  }

  lemma OthersAccount(es: seq<Event>, s: State, max: nat, e: Event)
    requires Accounted(es, s) && !ByExecutor(e)
    ensures Accounted(es + [e], Step(s, max, e))
  {
    hide Run; hide Produced; hide Committed; hide Claimable; hide ClaimedRow;
    var s' := Step(s, max, e);
    forall w | w in s'.execs && InHand(s'.execs[w]) && s'.execs[w].run.output.Some?
      ensures Produced(es + [e], w, s'.execs[w].run.output.value)
    {
      ProducedLonger(es, e, w, s.execs[w].run.output.value);
    }
    forall i | 0 <= i < |s'.commits| ensures Committed(es + [e], s'.commits[i]) {
      CommittedLonger(es, e, s.commits[i]);
    }
  }

  lemma {:induction false} RunAccounts(schedule: Schedule, max: nat, es: seq<Event>)
    ensures Accounted(es, Run(Init(schedule), max, es))
    decreases |es|
  {
    if es != [] {
      var front, e := es[..|es| - 1], es[|es| - 1];
      RunAccounts(schedule, max, front);
      RunConcat(Init(schedule), max, front, [e]);
      var s := Run(Init(schedule), max, front);
      LastStep(s, max, e);
      hide Accounted; hide Run; hide Step;
      assert es == front + [e];
      if ByExecutor(e) { ExecutorAccounts(front, s, max, e); } else { OthersAccount(front, s, max, e); }
    }
  }

  lemma LastStep(s: State, max: nat, e: Event)
    ensures Run(s, max, [e]) == Step(s, max, e)
  {
    hide Step;
    assert [e][1..] == [];
    assert Run(Step(s, max, e), max, []) == Step(s, max, e);
  }

  /** Provenance: what a run commits was produced by the agent, or an error handler, of the worker that commits it. */
  lemma CommitsWereProduced(schedule: Schedule, max: nat, es: seq<Event>, i: nat)
    requires i < |Run(Init(schedule), max, es).commits|
    ensures Committed(es, Run(Init(schedule), max, es).commits[i])
  {
    RunAccounts(schedule, max, es);
  }

  // -- An attempt ----------------------------------------------------------------------------------------------

  /** `w` owns the row, which is in execution, and stands at `pc`. */
  predicate At(s: State, w: string, pc: Pc) {
    && w in s.execs && s.execs[w] == pc && s.row.worker == Some(w)
    && (s.row.status == RUNNING || s.row.status == WAITING_TOOL || s.row.status == RETRYING)
  }

  /** A claimed run with attempts left starts the next one; the first is RUNNING, later ones are RETRYING. */
  lemma AttemptStarts(s: State, max: nat, w: string)
    requires At(s, w, Fresh) && s.row.attempts < max
    ensures var s' := Run(s, max, [Load(w), Enter(w), Start(w)]);
            var row := s.row.(attempts := s.row.attempts + 1,
                              status := if s.row.attempts == 0 then RUNNING else RETRYING);
            && At(s', w, Working(row.attempts, row)) && s'.row == row
            && s'.started == s.started + 1 && s'.commits == s.commits
  {
    hide Run;
    var n := s.row.attempts + 1;
    var row := s.row.(attempts := n, status := if n == 1 then RUNNING else RETRYING);
    assert Act(s.row, max, w, Fresh, Load(w)) == Stay(s.row, Top(n, s.row));
    assert Act(s.row, max, w, Top(n, s.row), Enter(w)) == Stay(s.row, Starting(n, s.row));
    assert Act(s.row, max, w, Starting(n, s.row), Start(w)) == Effect(row, Some(Working(n, row)), None, 1);
    hide Act;
    var a := Step(s, max, Load(w));
    assert a == s.(execs := s.execs[w := Top(n, s.row)]);
    var b := Step(a, max, Enter(w));
    assert b == s.(execs := s.execs[w := Starting(n, s.row)]);
    RunOfThree(s, max, Load(w), Enter(w), Start(w));
  }

  lemma RunOfTwo(s: State, max: nat, a: Event, b: Event)
    ensures Run(s, max, [a, b]) == Step(Step(s, max, a), max, b)
  {
    hide Step;
    LastStep(s, max, a);
    LastStep(Step(s, max, a), max, b);
    RunConcat(s, max, [a], [b]);
    assert [a] + [b] == [a, b];
  }

  lemma RunOfThree(s: State, max: nat, a: Event, b: Event, c: Event)
    ensures Run(s, max, [a, b, c]) == Step(Step(Step(s, max, a), max, b), max, c)
  {
    hide Step;
    RunOfTwo(s, max, a, b);
    LastStep(Step(Step(s, max, a), max, b), max, c);
    RunConcat(s, max, [a, b], [c]);
    assert [a, b] + [c] == [a, b, c];
  }

  /** Without attempts left none is started, and a canceled run is given up at the head of the loop. */
  lemma LoopHeadStops(s: State, max: nat, w: string, n: nat, run: Row)
    requires w in s.execs && s.execs[w] == Top(n, run)
    ensures var s' := Step(s, max, Enter(w));
            && s'.row == s.row && s'.started == s.started
            && (n > max ==> w in s'.execs && s'.execs[w] == Closing(run))
            && (n <= max && s.row.status == CANCELED <==> w !in s'.execs)
            && (n <= max && s.row.status != CANCELED <==> w in s'.execs && s'.execs[w] == Starting(n, s.row))
  {
    hide Run;
  }

  /** The agent's result is committed as it is. */
  lemma ResultIsCommitted(s: State, max: nat, w: string, n: nat, run: Row, output: string)
    requires Inv(s, max) && At(s, w, Working(n, run))
    ensures var s' := Run(s, max, [Finish(w, output), Commit(w)]);
            && s'.row == s.row.(status := AGENT_SUCCEEDED, output := Some(output), error := None)
            && s'.commits == [output] && w in s'.execs && s'.execs[w] == Settling(s'.row)
  {
    assert s.commits == [] by { assert ExecOk(s, max, w); }
    hide Run; hide Inv;
    var row := s.row.(status := AGENT_SUCCEEDED, output := Some(output), error := None);
    assert Act(s.row, max, w, Working(n, run), Finish(w, output)) == Stay(s.row, Committing(n, row));
    assert Act(s.row, max, w, Committing(n, row), Commit(w)) == Effect(row, Some(Settling(row)), Some(output), 0);
    hide Act;
    assert Step(s, max, Finish(w, output)) == s.(execs := s.execs[w := Committing(n, row)]);
    RunOfTwo(s, max, Finish(w, output), Commit(w));
  }

  /** The three errors that no retry can mend. */
  predicate Fatal(error: ErrorType) {
    error == VALIDATION_ERROR || error == ROUTE_NOT_FOUND || error == SIDE_EFFECT_OUTCOME_UNKNOWN
  }

  /**
   * A failed attempt is recorded with its status and error. It is the last exactly if the error is one that no retry
   * can mend; otherwise the loop goes on to the next attempt.
   */
  lemma FailureIsWritten(s: State, max: nat, w: string, n: nat, run: Row, status: RunStatus, error: ErrorType)
    requires At(s, w, Working(n, run)) && (status == FAILED || status == TIMEOUT || (status == RETRYING && n < max))
    ensures var s' := Run(s, max, [Fail(w, status, error), FailWrite(w)]);
            && s'.row == run.(status := status, error := Some(error)) && s'.commits == s.commits
            && w in s'.execs && s'.execs[w] == if Fatal(error) then Closing(s'.row) else Top(n + 1, s'.row)
  {
    hide Run; hide Act;
    var row := run.(status := status, error := Some(error));
    FailureActs(s.row, max, w, n, run, row, status, error);
    hide Fatal;
    assert Step(s, max, Fail(w, status, error)) == s.(execs := s.execs[w := Failing(n, row)]);
    RunOfTwo(s, max, Fail(w, status, error), FailWrite(w));
  }

  /** An attempt fails as FAILED or TIMEOUT, or as RETRYING while attempts are left, and in no other way. */
  lemma FailureIff(s: State, max: nat, w: string, n: nat, run: Row, status: RunStatus, error: ErrorType)
    requires At(s, w, Working(n, run))
    ensures var s' := Step(s, max, Fail(w, status, error));
            && s'.row == s.row && w in s'.execs
            && s'.execs[w] == if status == FAILED || status == TIMEOUT || (status == RETRYING && n < max)
                              then Failing(n, run.(status := status, error := Some(error))) else Working(n, run)
  {
    hide Run;
  }

  lemma FailureActs(
      row: Row, max: nat, w: string, n: nat, run: Row, failed: Row, status: RunStatus, error: ErrorType)
    requires row.worker == Some(w) && Executing(row.status)
    requires status == FAILED || status == TIMEOUT || (status == RETRYING && n < max)
    requires failed == run.(status := status, error := Some(error))
    ensures Act(row, max, w, Working(n, run), Fail(w, status, error)) == Stay(row, Failing(n, failed))
    ensures var next := if Fatal(error) then Closing(failed) else Top(n + 1, failed);
            Act(row, max, w, Failing(n, failed), FailWrite(w)) == Effect(failed, Some(next), None, 0)
  {
  }

  lemma NothingCommitted(s: State, max: nat, w: string, n: nat, run: Row)
    requires Inv(s, max) && At(s, w, Working(n, run))
    ensures s.commits == []
  {
    assert ExecOk(s, max, w);
  }

  lemma RecoveryActs(
      row: Row, max: nat, w: string, n: nat, run: Row, failed: Row, made: Row, status: RunStatus, error: ErrorType,
      output: string)
    requires row.worker == Some(w) && Executing(row.status)
    requires status == FAILED || status == TIMEOUT || (status == RETRYING && n < max)
    requires failed == run.(status := status, error := Some(error))
    requires made == failed.(status := SUCCEEDED, output := Some(output), error := None)
    ensures Act(row, max, w, Working(n, run), Fail(w, status, error)) == Stay(row, Failing(n, failed))
    ensures Act(row, max, w, Failing(n, failed), Recover(w, output)) == Stay(row, Recovering(made))
    ensures Act(row, max, w, Recovering(made), Commit(w)) == Effect(made, Some(Settling(made)), Some(output), 0)
  {
  }

  /** An error handler's result takes the place of the failure. */
  lemma RecoveryIsCommitted(
      s: State, max: nat, w: string, n: nat, run: Row, status: RunStatus, error: ErrorType, output: string)
    requires Inv(s, max) && At(s, w, Working(n, run))
    requires status == FAILED || status == TIMEOUT || (status == RETRYING && n < max)
    ensures var s' := Run(s, max, [Fail(w, status, error), Recover(w, output), Commit(w)]);
            && s'.row.status == SUCCEEDED && s'.row.output == Some(output) && s'.row.error.None?
            && s'.commits == [output] && w in s'.execs && s'.execs[w] == Settling(s'.row)
  {
    hide Run; hide Act;
    NothingCommitted(s, max, w, n, run);
    hide Inv;
    var failed := run.(status := status, error := Some(error));
    var row := failed.(status := SUCCEEDED, output := Some(output), error := None);
    RecoveryActs(s.row, max, w, n, run, failed, row, status, error, output);
    assert Step(s, max, Fail(w, status, error)) == s.(execs := s.execs[w := Failing(n, failed)]);
    assert Step(s.(execs := s.execs[w := Failing(n, failed)]), max, Recover(w, output))
        == s.(execs := s.execs[w := Recovering(row)]);
    RunOfThree(s, max, Fail(w, status, error), Recover(w, output), Commit(w));
  }

  /**
   * The end of an execution: without a callback a committed success becomes SUCCEEDED, with one WAITING_CALLBACK, any
   * other status stays; then the lease is released and the executor is gone.
   */
  lemma ExecutionEnds(s: State, max: nat, w: string, wait: bool)
    requires w in s.execs && s.execs[w] == Settling(s.row) && s.row.worker == Some(w)
    requires || ((s.row.status == AGENT_SUCCEEDED || s.row.status == SUCCEEDED) && s.row.error.None?)
             || s.row.status == FAILED || s.row.status == TIMEOUT
    ensures var s' := Run(s, max, [Prepare(w, wait), ReadForRelease(w), Release(w)]);
            && s'.row.worker.None? && s'.row.lease.None? && w !in s'.execs && s'.commits == s.commits
            && s'.row.output == s.row.output && s'.row.error == s.row.error && s'.row.attempts == s.row.attempts
            && s'.row.status == if s.row.status == FAILED || s.row.status == TIMEOUT then s.row.status
                                else if wait then WAITING_CALLBACK else SUCCEEDED
  {
    hide Run;
    var status := if s.row.status == FAILED || s.row.status == TIMEOUT then s.row.status
                  else if wait then WAITING_CALLBACK else SUCCEEDED;
    var row := s.row.(status := status);
    assert Act(s.row, max, w, Settling(s.row), Prepare(w, wait)) == Stay(row, Leaving);
    hide Act;
    var a := Step(s, max, Prepare(w, wait));
    assert a == s.(row := row, execs := s.execs[w := Leaving]);
    LeaseIsReleased(a, max, w);
    hide Step;
    RunOfThree(s, max, Prepare(w, wait), ReadForRelease(w), Release(w));
  }

  lemma LeaseIsReleased(s: State, max: nat, w: string)
    requires w in s.execs && s.execs[w] == Leaving && s.row.worker == Some(w)
    ensures Step(Step(s, max, ReadForRelease(w)), max, Release(w))
         == s.(row := s.row.(worker := None, lease := None), execs := s.execs - {w})
  {
    hide Run;
    var row := s.row.(worker := None, lease := None);
    assert Act(s.row, max, w, Leaving, ReadForRelease(w)) == Stay(s.row, Releasing(s.row));
    assert Act(s.row, max, w, Releasing(s.row), Release(w)) == Effect(row, None, None, 0);
    hide Act;
    assert Step(s, max, ReadForRelease(w)) == s.(execs := s.execs[w := Releasing(s.row)]);
    assert s.execs[w := Releasing(s.row)] - {w} == s.execs - {w};
  }

  /** With no attempts left the failure is final: it is written once more and settled. */
  lemma FailureIsClosed(s: State, max: nat, w: string, run: Row)
    requires w in s.execs && s.execs[w] == Closing(run) && s.row.worker == Some(w) && s.row.status == run.status
    ensures var s' := Step(s, max, Close(w));
            s'.row == run && w in s'.execs && s'.execs[w] == Settling(run) && s'.commits == s.commits
  {
    hide Run;
  }

  /** An exception that escapes the executor is recorded as an internal error. */
  lemma AbortIsWritten(s: State, max: nat, w: string, pc: Pc)
    requires At(s, w, pc)
    ensures var s' := Run(s, max, [Abort(w), AbortWrite(w)]);
            && s'.row == s.row.(status := FAILED, error := Some(INTERNAL_ERROR))
            && w !in s'.execs && s'.commits == s.commits
  {
    hide Run;
    var row := s.row.(status := FAILED, error := Some(INTERNAL_ERROR));
    assert Act(s.row, max, w, pc, Abort(w)) == Stay(s.row, Aborting(s.row));
    assert Act(s.row, max, w, Aborting(s.row), AbortWrite(w)) == Effect(row, None, None, 0);
    hide Act;
    assert Step(s, max, Abort(w)) == s.(execs := s.execs[w := Aborting(s.row)]);
    RunOfTwo(s, max, Abort(w), AbortWrite(w));
  }

  /** A tool call marks the run as waiting, a stage leaves the status; the attempt goes on. */
  lemma TouchIsWritten(s: State, max: nat, w: string, n: nat, run: Row, waiting: bool)
    requires At(s, w, Working(n, run)) && run.worker == Some(w)
    ensures var s' := Run(s, max, [Touch(w), TouchWrite(w, waiting)]);
            && s'.row == (if waiting then s.row.(status := WAITING_TOOL) else s.row)
            && w in s'.execs && s'.execs[w] == Working(n, run)
  {
    hide Run;
    var row := if waiting then s.row.(status := WAITING_TOOL) else s.row;
    assert Act(s.row, max, w, Working(n, run), Touch(w)) == Stay(s.row, Touching(n, run, s.row));
    assert Act(s.row, max, w, Touching(n, run, s.row), TouchWrite(w, waiting)) == Stay(row, Working(n, run));
    hide Act;
    assert Step(s, max, Touch(w)) == s.(execs := s.execs[w := Touching(n, run, s.row)]);
    RunOfTwo(s, max, Touch(w), TouchWrite(w, waiting));
  }

  // -- Leases --------------------------------------------------------------------------------------------------

  /** A run is claimed exactly if it is queued and due, or in execution under a lease that has run out. */
  lemma ClaimIff(s: State, max: nat, w: string, expiry: int)
    requires w !in s.execs
    ensures var s', row := Step(s, max, Claim(w, expiry)), s.row;
            var executing := row.status == RUNNING || row.status == WAITING_TOOL || row.status == RETRYING;
            var due := row.status == QUEUED && (row.schedule.runAfter.None? || row.schedule.runAfter.value <= s.now);
            var expired := executing && row.lease.Some? && row.lease.value <= s.now;
            && (w in s'.execs <==> due || expired)
            && (w !in s'.execs ==> s' == s)
            && (w in s'.execs ==>
                  && s'.execs == s.execs[w := Fresh] && s'.row.status == RUNNING
                  && s'.row.worker == Some(w) && s'.row.lease == Some(expiry)
                  && s'.row.attempts == (if expired && row.attempts > 0 then row.attempts - 1 else row.attempts)
                  && s'.row.output == row.output && s'.row.error == row.error && s'.row.schedule == row.schedule)
  {
    hide Run;
  }

  /** The owner of a run in execution extends its lease, and until that has run out nobody takes the run over. */
  lemma LeaseProtects(s: State, max: nat, w: string, pc: Pc, expiry: int, v: string, other: int, c: nat)
    requires At(s, w, pc) && s.now < expiry && v !in s.execs
    ensures var s' := Run(s, max, [RenewRead(w), RenewWrite(w, expiry)]);
            && s'.row == s.row.(lease := Some(expiry)) && s'.execs == s.execs
            && Step(s', max, Claim(v, other)) == s' && Step(s', max, ReclaimRead(c)) == s'
  {
    hide Run;
    RunOfTwo(s, max, RenewRead(w), RenewWrite(w, expiry));
  }

  /** A cancellation that nothing comes between goes through exactly if the run is not finished. */
  lemma CancelIff(s: State, max: nat, c: nat)
    ensures var s' := Run(s, max, [CancelRead(c), CancelWrite(c)]);
            var status := s.row.status;
            var finished := status == SUCCEEDED || status == FAILED || status == TIMEOUT || status == CANCELED;
            s'.row == if finished then s.row else s.row.(status := CANCELED, worker := None, lease := None)
  {
    hide Run;
    RunOfTwo(s, max, CancelRead(c), CancelWrite(c));
  }

  /** A run whose lease has run out is put back into the queue with its attempt given back. */
  lemma ExpiredIsReclaimed(s: State, max: nat, w: string, pc: Pc, c: nat)
    requires At(s, w, pc) && s.row.lease.Some? && s.row.lease.value <= s.now
    ensures var s' := Run(s, max, [ReclaimRead(c), ReclaimWrite(c)]);
            s'.row == s.row.(status := QUEUED, worker := None, lease := None,
                             attempts := if s.row.attempts > 0 then s.row.attempts - 1 else 0)
  {
    hide Run;
    RunOfTwo(s, max, ReclaimRead(c), ReclaimWrite(c));
  }
}

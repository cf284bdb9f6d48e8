/** What a call is given: replay of finished stages, and completion of the others when nobody interferes. */
module StageCompletion {
  import opened Common
  import opened StageRows
  import opened StageProtocol
  import opened StageInvariant
  import opened StageSafety
  import opened StageReplay
  import opened StageDispatch

  // -- Opening -------------------------------------------------------------------------------------------------

  /** The row a first call creates. */
  predicate Untouched(row: Row) {
    && row.status == PENDING && row.attempts == 0 && row.executionId.None? && row.output == Null
    && row.checkpoint.None? && row.errorType.None?
  }

  /**
   * A stage call that opens is answered at once exactly if its row succeeded for the same identity, raises exactly if
   * the row is of another identity, canceled or of unknown outcome, and otherwise goes on to begin. It creates the row
   * if there is none and changes no other.
   */
  lemma OpenStageIff(s: System, id: nat, k: Key, x: Identity, idempotencyKey: string, max: nat)
    requires id !in s.calls && x.stageIndex >= 0 && x.schemaVersion == "1"
    ensures var s' := Step(s, OpenStage(id, k, x, idempotencyKey, max));
            && id in s'.calls && s'.calls[id].key == k && s'.calls[id].kind == StageCall(x)
            && k in s'.rows && s'.rows == s.rows[k := s'.rows[k]]
            && (if k in s.rows then s'.rows[k] == s.rows[k]
                else && Untouched(s'.rows[k]) && s'.rows[k].identity == x && s'.rows[k].idempotencyKey == idempotencyKey
                     && s'.rows[k].maxAttempts == (if max >= 1 then max else 1))
            && (forall v :: s'.calls[id].pc == Returned(v) <==>
                  s'.rows[k].identity == x && s'.rows[k].status == SUCCEEDED && v == s'.rows[k].output)
            && (s'.calls[id].pc == Raised <==>
                  s'.rows[k].identity != x || s'.rows[k].status == CANCELED || s'.rows[k].status == OUTCOME_UNKNOWN)
            && (s'.calls[id].pc == Loaded <==>
                  && s'.rows[k].identity == x
                  && (s'.rows[k].status == PENDING || s'.rows[k].status == RUNNING || s'.rows[k].status == FAILED))
            && s'.log == s.log + if s'.calls[id].pc.Returned? then [Answer(k, StageCall(x), s'.rows[k].output)] else []
  {
    hide Run;
  }

  /** The same for a tool operation: answered exactly by a recorded output that is not null, of whatever identity. */
  lemma OpenToolIff(s: System, id: nat, k: Key, durableKey: string, x: Identity)
    requires id !in s.calls && x.stageIndex < 0
    ensures var s' := Step(s, OpenTool(id, k, durableKey, x));
            && id in s'.calls && s'.calls[id].key == k && s'.calls[id].kind == ToolCall(durableKey)
            && k in s'.rows && s'.rows == s.rows[k := s'.rows[k]]
            && (if k in s.rows then s'.rows[k] == s.rows[k]
                else && Untouched(s'.rows[k]) && s'.rows[k].identity == x && s'.rows[k].idempotencyKey == durableKey
                     && s'.rows[k].maxAttempts == 1)
            && (forall v :: s'.calls[id].pc == Returned(v) <==>
                  s'.rows[k].status == SUCCEEDED && v == s'.rows[k].output && v != Null)
            && (s'.calls[id].pc == Raised <==> s'.rows[k].status == RUNNING || s'.rows[k].status == OUTCOME_UNKNOWN)
            && (s'.calls[id].pc.Cleared? <==> s'.rows[k].status == SUCCEEDED && s'.rows[k].output == Null)
            && (s'.calls[id].pc == Loaded <==>
                  s'.rows[k].status == PENDING || s'.rows[k].status == FAILED || s'.rows[k].status == CANCELED)
            && s'.log == s.log + if s'.calls[id].pc.Returned?
                                 then [Answer(k, ToolCall(durableKey), s'.rows[k].output)] else []
  {
    hide Run;
  }

  // -- Replay --------------------------------------------------------------------------------------------------

  /** What the workflow asks for at each point before the last output. */
  function StagesOf(w: Workflow, outputs: seq<Value>): seq<Next> {
    seq(|outputs|, i requires 0 <= i < |outputs| => w(outputs[..i]))
  }

  /** The first `n` of the stages, opened by new calls. */
  function OpenAll(stages: seq<Next>, first: nat, n: nat): seq<Event>
    requires n <= |stages| && forall next :: next in stages ==> next.RunStage?
  {
    if n == 0 then []
    else
      var next := stages[n - 1];
      OpenAll(stages, first, n - 1) + [OpenStage(first + n - 1, next.key, next.identity, "", 1)]
  }

  /** `run_stage` numbers its stages from zero and writes schema version 1. */
  predicate Plain(next: Next) {
    next.RunStage? && next.identity.stageIndex >= 0 && next.identity.schemaVersion == "1"
  }

  /** The stage has succeeded with that output, for the identity asked for. */
  predicate Finished(s: System, next: Next, output: Value) {
    && Plain(next) && next.key in s.rows
    && s.rows[next.key].status == SUCCEEDED && s.rows[next.key].output == output
    && s.rows[next.key].identity == next.identity
  }

  predicate ReturnedTo(s: System, id: nat, v: Value) { id in s.calls && s.calls[id].pc == Returned(v) }

  ghost predicate Replayed(s: System, s': System, outputs: seq<Value>, first: nat, n: nat) {
    && s'.rows == s.rows
    && (forall i :: 0 <= i < n && i < |outputs| ==> ReturnedTo(s', first + i, outputs[i]))
    && (forall j :: j in s'.calls ==> j < first + n)
    && s.log <= s'.log && (forall j :: |s.log| <= j < |s'.log| ==> s'.log[j].Answer?)
  }

  lemma {:induction false} ReplayPrefix(s: System, stages: seq<Next>, outputs: seq<Value>, first: nat, n: nat)
    requires n <= |stages| == |outputs| && (forall next :: next in stages ==> next.RunStage?)
    requires forall i :: 0 <= i < |stages| ==> Finished(s, stages[i], outputs[i])
    requires forall j :: j in s.calls ==> j < first
    ensures Replayed(s, Run(s, OpenAll(stages, first, n)), outputs, first, n)
    decreases n
  {
    hide Step; hide Run; hide Replayed; hide Finished;
    if n == 0 {
      NothingReplayed(s, outputs, first);
    } else {
      ReplayPrefix(s, stages, outputs, first, n - 1);
      ReplayEvent(s, OpenAll(stages, first, n - 1), outputs, first, n - 1, stages[n - 1]);
    }
  }

  lemma NothingReplayed(s: System, outputs: seq<Value>, first: nat)
    requires forall j :: j in s.calls ==> j < first
    ensures Replayed(s, Run(s, []), outputs, first, 0)
  {
    hide Step;
  }

  lemma ReplayEvent(s: System, es: seq<Event>, outputs: seq<Value>, first: nat, i: nat, next: Next)
    requires i < |outputs| && Replayed(s, Run(s, es), outputs, first, i)
    requires Finished(s, next, outputs[i]) && next.RunStage?
    ensures Replayed(s, Run(s, es + [OpenStage(first + i, next.key, next.identity, "", 1)]), outputs, first, i + 1)
  {
    hide Run; hide Step; hide Replayed; hide Finished;
    var e := OpenStage(first + i, next.key, next.identity, "", 1);
    ReplayOneMore(s, Run(s, es), outputs, first, i, next, e);
    RunConcat(s, es, [e]);
    RunOfOne(Run(s, es), e);
  }

  lemma ReplayOneMore(s: System, s1: System, outputs: seq<Value>, first: nat, i: nat, next: Next, e: Event)
    requires i < |outputs| && Replayed(s, s1, outputs, first, i) && Finished(s, next, outputs[i])
    requires e == OpenStage(first + i, next.key, next.identity, "", 1)
    ensures Replayed(s, Step(s1, e), outputs, first, i + 1)
  {
    hide Run;
    ReplayOne(s1, first + i, next.key, next.identity, outputs[i]);
    var s' := Step(s1, e);
    hide Step;
    assert s.log <= s1.log <= s'.log;
    forall j | 0 <= j < i + 1 && j < |outputs| ensures ReturnedTo(s', first + j, outputs[j]) {
      if j < i { assert ReturnedTo(s1, first + j, outputs[j]); }
    }
  }

  lemma ReplayOne(s: System, id: nat, k: Key, x: Identity, v: Value)
    requires id !in s.calls && x.stageIndex >= 0 && x.schemaVersion == "1"
    requires k in s.rows && s.rows[k].status == SUCCEEDED && s.rows[k].output == v && s.rows[k].identity == x
    ensures var s' := Step(s, OpenStage(id, k, x, "", 1));
            && s'.rows == s.rows && s'.calls == s.calls[id := Call(k, StageCall(x), Returned(v))]
            && s'.log == s.log + [Answer(k, StageCall(x), v)]
  {
    hide Run;
  }

  lemma StoredAnswer(s: System, k: Key, kind: Kind, v: Value)
    requires Inv(s) && AnsweredWith(s, k, kind, v)
    ensures k in s.rows && s.rows[k].status == SUCCEEDED && s.rows[k].output == v
    ensures kind.StageCall? ==> s.rows[k].identity == kind.identity
  {
    var i :| 0 <= i < |s.log| && s.log[i] == Answer(k, kind, v);
    assert EntryOk(s, i);
  }

  lemma PassIsFinished(s: System, w: Workflow, outputs: seq<Value>, i: nat)
    requires Inv(s) && CompletedPass(s, w, outputs) && i < |outputs| && Plain(w(outputs[..i]))
    ensures Finished(s, w(outputs[..i]), outputs[i])
  {
    hide Inv;
    var next := w(outputs[..i]);
    StoredAnswer(s, next.key, StageCall(next.identity), outputs[i]);
  }

  /**
   * Replay: once a pass has completed, a new one that opens the stages of the workflow in order is given the same
   * outputs, all from the table: no row changes, no attempt begins and no operation starts.
   */
  lemma CompletedPassIsReplayed(es: seq<Event>, w: Workflow, outputs: seq<Value>, first: nat)
    requires CompletedPass(Run(INITIAL, es), w, outputs)
    requires forall i :: 0 <= i < |outputs| ==> Plain(w(outputs[..i]))
    requires forall j :: j in Run(INITIAL, es).calls ==> j < first
    ensures forall next :: next in StagesOf(w, outputs) ==> next.RunStage?
    ensures var s := Run(INITIAL, es);
            var s' := Run(s, OpenAll(StagesOf(w, outputs), first, |outputs|));
            && s'.rows == s.rows
            && (forall i :: 0 <= i < |outputs| ==> ReturnedTo(s', first + i, outputs[i]))
            && s.log <= s'.log
            && (forall j :: |s.log| <= j < |s'.log| ==> !s'.log[j].Began? && !s'.log[j].OperationStarted?)
  {
    hide Run; hide Inv; hide Step;
    var s, stages := Run(INITIAL, es), StagesOf(w, outputs);
    Reachable(es);
    forall i | 0 <= i < |stages| ensures Finished(s, stages[i], outputs[i]) { PassIsFinished(s, w, outputs, i); }
    hide CompletedPass; hide Finished;
    ReplayPrefix(s, stages, outputs, first, |outputs|);
  }

  /** One stage: in every reachable state a succeeded stage is answered with its stored output. */
  lemma FinishedStageIsReplayed(es: seq<Event>, id: nat, k: Key, idempotencyKey: string, max: nat)
    requires var s := Run(INITIAL, es);
             && id !in s.calls && k in s.rows && s.rows[k].status == SUCCEEDED
             && s.rows[k].identity.stageIndex >= 0 && s.rows[k].identity.schemaVersion == "1"
    ensures var s := Run(INITIAL, es);
            var s' := Step(s, OpenStage(id, k, s.rows[k].identity, idempotencyKey, max));
            && id in s'.calls && s'.calls[id].pc == Returned(s.rows[k].output) && s'.rows == s.rows
            && s'.log == s.log + [Answer(k, StageCall(s.rows[k].identity), s.rows[k].output)]
  {
    hide Run;
    var s := Run(INITIAL, es);
    OpenStageIff(s, id, k, s.rows[k].identity, idempotencyKey, max);
    hide Step;
    assert s.rows[k := s.rows[k]] == s.rows;
  }

  // -- Completion of a stage -----------------------------------------------------------------------------------

  /** A stage call is granted its attempt exactly if the stage is RUNNING, or PENDING or FAILED with attempts left. */
  lemma BeginIff(s: System, id: nat, token: Token, n: int)
    requires id in s.calls && s.calls[id].pc == Loaded && s.calls[id].kind.StageCall? && s.calls[id].key in s.rows
    requires token != "" && token !in s.issued
    ensures var k := s.calls[id].key;
            var s', row := Step(s, Begin(id, token, n)), s.rows[k];
            var granted := || row.status == RUNNING
                           || ((row.status == PENDING || row.status == FAILED) && row.attempts < row.maxAttempts);
            && s'.calls == s.calls[id := s.calls[id].(pc := if granted then Begun(token) else Raised)]
            && s'.issued == s.issued[token := id]
            && (granted ==>
                  && k in s'.rows && s'.rows == s.rows[k := s'.rows[k]]
                  && s'.rows[k].status == RUNNING && s'.rows[k].executionId == Some(token)
                  && s'.rows[k].attempts == row.attempts + (if row.status == RUNNING then 0 else 1)
                  && s'.rows[k].checkpoint == row.checkpoint && s'.log == s.log + [Began(k, token, row.status)])
            && (!granted ==> s'.rows == s.rows && s'.log == s.log)
  {
    hide Run;
  }

  /** While its token is the row's, a running operation saves its checkpoint. */
  lemma CheckpointIsSaved(s: System, id: nat, v: Value)
    requires id in s.calls && s.calls[id].pc.Operating? && s.calls[id].key in s.rows
    ensures var k, t := s.calls[id].key, s.calls[id].pc.token;
            var s' := Step(s, SaveCheckpoint(id, v));
            && s'.calls == s.calls && k in s'.rows
            && (s.rows[k].status == RUNNING && s.rows[k].executionId == Some(t) ==>
                  s'.rows == s.rows[k := s.rows[k].(checkpoint := Some(v))])
            && (s.rows[k].status != RUNNING || s.rows[k].executionId != Some(t) ==> s'.rows == s.rows)
  {
    hide Run;
    var c := s.calls[id];
    assert s.calls[id := c] == s.calls;
  }

  /**
   * The end of an operation is recorded as what it is while the token is the row's: a result as SUCCEEDED with that
   * output, which is returned; a cancellation, an unknown outcome and a failure as CANCELED, OUTCOME_UNKNOWN and
   * FAILED, which are raised. Otherwise the row is left alone and nothing is returned.
   */
  lemma EndingIsRecorded(s: System, id: nat)
    requires id in s.calls && s.calls[id].pc.Ended? && s.calls[id].key in s.rows
    ensures var k, pc := s.calls[id].key, s.calls[id].pc;
            var s' := Step(s, Commit(id));
            && id in s'.calls && k in s'.rows && s'.rows == s.rows[k := s'.rows[k]]
            && (s.rows[k].status == RUNNING && s.rows[k].executionId == Some(pc.token) ==>
                  match pc.ending
                  case Produced(v) =>
                    && s'.calls[id].pc == Returned(v)
                    && s'.rows[k] == s.rows[k].(status := SUCCEEDED, output := v, checkpoint := None, errorType := None)
                  case RunCanceled => s'.calls[id].pc == Raised && s'.rows[k] == s.rows[k].(status := CANCELED)
                  case OutcomeUnknown(name) =>
                    && s'.calls[id].pc == Raised
                    && s'.rows[k] == s.rows[k].(status := OUTCOME_UNKNOWN, errorType := Some(Exception(name)))
                  case Crashed(name) =>
                    && s'.calls[id].pc == Raised
                    && s'.rows[k] == s.rows[k].(status := FAILED, errorType := Some(Exception(name))))
            && (s.rows[k].executionId != Some(pc.token) ==> s'.rows == s.rows && !s'.calls[id].pc.Returned?)
  {
    hide Run;
    EndsSameRows(s, s.calls[id].key);
  }

  lemma EndsSameRows(s: System, k: Key)
    requires k in s.rows
    ensures s.rows[k := s.rows[k]] == s.rows
  {
  }

  /** A call whose success was refused reads the row again and raises, through an unknown outcome if that is stored. */
  lemma RefusedRaises(s: System, id: nat)
    requires id in s.calls && s.calls[id].pc.Refused? && s.calls[id].key in s.rows
    ensures var s1 := Step(s, ReadAgain(id));
            && id in s1.calls && s1.rows == s.rows
            && (s1.calls[id].pc == Raised <==> s.rows[s.calls[id].key].status != OUTCOME_UNKNOWN)
            && (s1.calls[id].pc != Raised ==>
                  var s2 := Step(s1, Commit(id)); id in s2.calls && s2.calls[id].pc == Raised)
  {
    hide Run;
  }

  /** Begin, run, commit: undisturbed, a granted call returns what its operation produced, and the row keeps it. */
  lemma StageCompletes(s: System, id: nat, token: Token, n: int, v: Value)
    requires id in s.calls && s.calls[id].pc == Loaded && s.calls[id].kind.StageCall? && s.calls[id].key in s.rows
    requires token != "" && token !in s.issued
    requires var row := s.rows[s.calls[id].key];
             || row.status == RUNNING
             || ((row.status == PENDING || row.status == FAILED) && row.attempts < row.maxAttempts)
    ensures var k := s.calls[id].key;
            var s' := Run(s, [Begin(id, token, n), StartOperation(id), EndOperation(id, Produced(v))] + [Commit(id)]);
            && id in s'.calls && s'.calls[id].pc == Returned(v)
            && k in s'.rows && s'.rows[k].status == SUCCEEDED && s'.rows[k].output == v
            && OperationStarted(k, token) in s'.log
  {
    hide Run; hide Step;
    var k := s.calls[id].key;
    BeginIff(s, id, token, n);
    var s1 := Step(s, Begin(id, token, n));
    StartAndEnd(s1, id, token, v);
    var s3 := Step(Step(s1, StartOperation(id)), EndOperation(id, Produced(v)));
    EndingIsRecorded(s3, id);
    LogGrows3(s3, id);
    assert Step(s3, Commit(id)).log[|s3.log| - 1] == OperationStarted(k, token);
    RunOfThree(s, Begin(id, token, n), StartOperation(id), EndOperation(id, Produced(v)));
    RunOfOne(s3, Commit(id));
    RunConcat(s, [Begin(id, token, n), StartOperation(id), EndOperation(id, Produced(v))], [Commit(id)]);
  }

  lemma StartAndEnd(s: System, id: nat, token: Token, v: Value)
    requires id in s.calls && s.calls[id].pc == Begun(token)
    ensures var s' := Step(Step(s, StartOperation(id)), EndOperation(id, Produced(v)));
            && s'.rows == s.rows && s'.calls == s.calls[id := s.calls[id].(pc := Ended(token, Produced(v)))]
            && s'.log == s.log + [OperationStarted(s.calls[id].key, token)]
  {
    hide Run;
    var s1 := Step(s, StartOperation(id));
    assert s1.rows == s.rows && s1.calls == s.calls[id := s.calls[id].(pc := Operating(token))];
  }

  lemma LogGrows3(s: System, id: nat)
    ensures s.log <= Step(s, Commit(id)).log
  {
    hide Step;
    StepLog(s, Commit(id));
  }

  /** An operator's retry makes every FAILED stage of the run new again, and touches nothing else. */
  lemma RetryResets(s: System, run: string)
    ensures var s' := Step(s, OperatorRetry(run));
            && s'.rows.Keys == s.rows.Keys && s'.calls == s.calls
            && (forall k :: k in s.rows ==>
                  var row := s.rows[k];
                  s'.rows[k] == if k.run == run && row.status == FAILED
                                then row.(status := PENDING, attempts := 0, executionId := None, errorType := None)
                                else row)
            && s'.log == s.log + [ResetRows(set k | k in s.rows && k.run == run && s.rows[k].status == FAILED)]
  {
    hide Run;
  }

  /** A tool operation is claimed exactly if its row is PENDING and was never tried; otherwise the call raises. */
  lemma ClaimIff(s: System, id: nat, token: Token)
    requires id in s.calls && s.calls[id].pc == Loaded && s.calls[id].kind.ToolCall? && s.calls[id].key in s.rows
    requires token != "" && token !in s.issued
    ensures var k := s.calls[id].key;
            var s', row := Step(s, Claim(id, token)), s.rows[k];
            var granted := row.status == PENDING && row.attempts == 0;
            && s'.calls == s.calls[id := s.calls[id].(pc := if granted then Claimed(token) else Raised)]
            && (!granted ==> s'.rows == s.rows)
            && (granted ==>
                  s'.rows == s.rows[k := row.(status := RUNNING, attempts := 1, executionId := Some(token))])
  {
    hide Run;
  }

  // -- Completion of a tool operation --------------------------------------------------------------------------

  /** The row of a call on its way, and the call. */
  predicate ToolAt(s: System, id: nat, k: Key, row: Row, durableKey: string, pc: Pc) {
    id in s.calls && s.calls[id] == Call(k, ToolCall(durableKey), pc) && k in s.rows && s.rows[k] == row
  }

  lemma ToolClaims(s: System, id: nat, k: Key, durableKey: string, x: Identity, token: Token)
    requires id !in s.calls && k !in s.rows && x.stageIndex < 0 && token != "" && token !in s.issued
    ensures var row := NewRow(x, durableKey, 1).(status := RUNNING, attempts := 1, executionId := Some(token));
            var s' := Step(Step(s, OpenTool(id, k, durableKey, x)), Claim(id, token));
            ToolAt(s', id, k, row, durableKey, Claimed(token)) && s'.log == s.log + [Began(k, token, PENDING)]
  {
    hide Run;
    var s1 := Step(s, OpenTool(id, k, durableKey, x));
    assert ToolAt(s1, id, k, NewRow(x, durableKey, 1), durableKey, Loaded) && s1.issued == s.issued && s1.log == s.log;
  }

  /** A mark by the owner of the token reaches its own row. */
  lemma ToolMarks(
      s: System, id: nat, k: Key, row: Row, durableKey: string, token: Token, pc: Pc, write: Write, next: Pc)
    requires Inv(s) && ToolAt(s, id, k, row, durableKey, pc) && Owns(s, id, token)
    requires row.idempotencyKey == durableKey && CanWrite(row, token, write)
    ensures var s' := MarkStep(s, id, token, write, next);
            ToolAt(s', id, k, Written(row, write), durableKey, next) && s'.log == s.log + [Wrote(k, token, write)]
            && s'.issued == s.issued
  {
    hide Inv; hide Run; hide Step;
    MarkTouchesOwnRow(s, id, token, write);
    assert k in Addressed(s.rows, k.run, durableKey, token, write);
  }

  lemma ToolDispatches(s: System, id: nat, k: Key, row: Row, durableKey: string, token: Token, text: string)
    requires Inv(s) && ToolAt(s, id, k, row, durableKey, Claimed(token)) && Owns(s, id, token)
    requires row.idempotencyKey == durableKey && row.status == RUNNING && row.executionId == Some(token)
    ensures var s' := Step(Step(Step(s, RecordDispatch(id)), Invoke(id)), Respond(id, text));
            && ToolAt(s', id, k, Written(row, DispatchMark), durableKey, Answered(token, Json(text)))
            && s'.log == s.log + [Wrote(k, token, DispatchMark)] + [Invoked(k)] && s'.issued == s.issued
  {
    hide Inv; hide Run; hide Written;
    ToolMarks(s, id, k, row, durableKey, token, Claimed(token), DispatchMark, Cleared(token));
    hide MarkStep;
    var s1 := Step(s, RecordDispatch(id));
    assert ToolAt(s1, id, k, Written(row, DispatchMark), durableKey, Cleared(token));
    var s2 := Step(s1, Invoke(id));
    assert ToolAt(s2, id, k, Written(row, DispatchMark), durableKey, Calling(token));
  }

  lemma ToolRecords(s: System, id: nat, k: Key, row: Row, durableKey: string, token: Token, v: Value)
    requires Inv(s) && ToolAt(s, id, k, row, durableKey, Answered(token, v)) && Owns(s, id, token)
    requires row.idempotencyKey == durableKey && row.status == OUTCOME_UNKNOWN && row.executionId == Some(token)
    ensures var s' := Step(Step(s, RecordReturn(id)), RecordSuccess(id));
            && id in s'.calls && s'.calls[id].pc == Returned(v)
            && k in s'.rows && s'.rows[k].status == SUCCEEDED && s'.rows[k].output == v
            && s'.log == s.log + [Wrote(k, token, ReturnMark)] + [Wrote(k, token, Success(v))]
                         + [Answer(k, ToolCall(durableKey), v)]
  {
    hide Inv; hide Run;
    ToolMarks(s, id, k, row, durableKey, token, Answered(token, v), ReturnMark, Confirmed(token, v));
    hide MarkStep;
    var s1 := Step(s, RecordReturn(id));
    assert ToolAt(s1, id, k, Written(row, ReturnMark), durableKey, Confirmed(token, v));
  }

  /**
   * A tool operation that nobody has tried before is carried out: undisturbed, it is claimed, recorded as dispatched,
   * called exactly once, and its response is recorded and returned.
   */
  lemma ToolOperationCompletes(
      es: seq<Event>, id: nat, k: Key, durableKey: string, x: Identity, token: Token, text: string)
    requires var s := Run(INITIAL, es); id !in s.calls && k !in s.rows && token !in s.issued
    requires x.stageIndex < 0 && token != ""
    ensures var s := Run(INITIAL, es);
            var s' := Run(s, [OpenTool(id, k, durableKey, x), Claim(id, token)]
                             + [RecordDispatch(id), Invoke(id), Respond(id, text)]
                             + [RecordReturn(id), RecordSuccess(id)]);
            && id in s'.calls && s'.calls[id].pc == Returned(Json(text))
            && k in s'.rows && s'.rows[k].status == SUCCEEDED && s'.rows[k].output == Json(text)
            && Invocations(s'.log, k) == 1
  {
    hide Run; hide Step; hide Inv; hide Invocations; hide Written; hide ToolAt;
    var s := Run(INITIAL, es);
    Reachable(es);
    var row := NewRow(x, durableKey, 1).(status := RUNNING, attempts := 1, executionId := Some(token));
    var a := [OpenTool(id, k, durableKey, x), Claim(id, token)];
    var b, c := [RecordDispatch(id), Invoke(id), Respond(id, text)], [RecordReturn(id), RecordSuccess(id)];
    ToolClaims(s, id, k, durableKey, x, token);
    RunOfTwo(s, a[0], a[1]);
    var s1 := Run(s, a);
    RunKeepsInv(s, a);
    OwnsItsToken(s1, id, k, row, durableKey, token);
    ToolDispatches(s1, id, k, row, durableKey, token, text);
    RunOfThree(s1, b[0], b[1], b[2]);
    var s2 := Run(s1, b);
    RunKeepsInv(s1, b);
    DispatchMarked(row, token);
    ToolRecords(s2, id, k, Written(row, DispatchMark), durableKey, token, Json(text));
    RunOfTwo(s2, c[0], c[1]);
    RunConcat(s, a, b);
    RunConcat(s, a + b, c);
    CountInvocations(s, k, token, durableKey, Json(text));
  }

  lemma RunOfTwo(s: System, a: Event, b: Event)
    ensures Run(s, [a, b]) == Step(Step(s, a), b)
  {
    hide Step;
    RunOfOne(s, a);
    RunOfOne(Step(s, a), b);
    RunConcat(s, [a], [b]);
    assert [a] + [b] == [a, b];
  }

  lemma OwnsItsToken(s: System, id: nat, k: Key, row: Row, durableKey: string, token: Token)
    requires Inv(s) && ToolAt(s, id, k, row, durableKey, Claimed(token))
    ensures Owns(s, id, token)
  {
    assert CallOk(s, id);
  }

  lemma DispatchMarked(row: Row, token: Token)
    requires row.executionId == Some(token)
    ensures var r := Written(row, DispatchMark);
            r.idempotencyKey == row.idempotencyKey && r.status == OUTCOME_UNKNOWN && r.executionId == Some(token)
  {
  }

  lemma CountInvocations(s: System, k: Key, token: Token, durableKey: string, v: Value)
    requires Inv(s) && k !in s.rows
    ensures Invocations(s.log + [Began(k, token, PENDING)] + [Wrote(k, token, DispatchMark)] + [Invoked(k)]
                        + [Wrote(k, token, ReturnMark)] + [Wrote(k, token, Success(v))]
                        + [Answer(k, ToolCall(durableKey), v)], k) == 1
  {
    assert KeyOk(s, k);
    hide Inv; hide Invocations; hide Charged; hide LastBegun;
    var l1 := s.log + [Began(k, token, PENDING)];
    var l2 := l1 + [Wrote(k, token, DispatchMark)];
    var l3 := l2 + [Invoked(k)];
    var l4 := l3 + [Wrote(k, token, ReturnMark)];
    var l5 := l4 + [Wrote(k, token, Success(v))];
    Appended(s.log, Began(k, token, PENDING), k);
    Appended(l1, Wrote(k, token, DispatchMark), k);
    Appended(l2, Invoked(k), k);
    Appended(l3, Wrote(k, token, ReturnMark), k);
    Appended(l4, Wrote(k, token, Success(v)), k);
    Appended(l5, Answer(k, ToolCall(durableKey), v), k);
  }
}

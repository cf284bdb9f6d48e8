/** What every run of the stage protocol keeps. */
module StageSafety {
  import opened Common
  import opened StageRows
  import opened StageProtocol
  import opened StageInvariant

  lemma OpenStageKeepsInv(s: System, id: nat, key: Key, identity: Identity, idempotencyKey: string, maxAttempts: nat)
    requires Inv(s) && id !in s.calls
    ensures Inv(OpenStageStep(s, id, key, identity, idempotencyKey, maxAttempts))
  {
    hide Inv;
    var max := if maxAttempts < 1 then 1 else maxAttempts;
    var row := if key in s.rows then s.rows[key] else NewRow(identity, idempotencyKey, max);
    var rows := s.rows[key := row];
    assert key in s.rows ==> rows == s.rows;
    var matches := row.identity.schemaVersion == "1" && row.identity == identity;
    var call := Call(key, StageCall(identity), if matches then Loaded else Raised);
    var s0 := s.(rows := rows, calls := s.calls[id := call]);
    OpenKeepsInv(s, id, s0.calls[id], row);
    var s' := OpenStageStep(s, id, key, identity, idempotencyKey, maxAttempts);
    if !matches {
      assert s' == s0;
    } else if row.status == SUCCEEDED {
      MoveKeepsInv(s0, id, Returned(row.output), [Answer(key, StageCall(identity), row.output)]);
      assert s' == Move(s0, id, Returned(row.output)).(log := s0.log + [Answer(key, StageCall(identity), row.output)]);
    } else if row.status == CANCELED || row.status == OUTCOME_UNKNOWN {
      MoveKeepsInv(s0, id, Raised, []);
      assert s' == Move(s0, id, Raised).(log := s0.log + []);
    }
  }

  lemma OpenToolKeepsInv(s: System, id: nat, key: Key, durableKey: string, identity: Identity)
    requires Inv(s) && id !in s.calls
    ensures Inv(OpenToolStep(s, id, key, durableKey, identity))
  {
    hide Inv;
    var row := if key in s.rows then s.rows[key] else NewRow(identity, durableKey, 1);
    var rows := s.rows[key := row];
    assert key in s.rows ==> rows == s.rows;
    var s0 := s.(rows := rows, calls := s.calls[id := Call(key, ToolCall(durableKey), Loaded)]);
    OpenKeepsInv(s, id, s0.calls[id], row);
    var s' := OpenToolStep(s, id, key, durableKey, identity);
    if row.status == SUCCEEDED && row.output != Null {
      MoveKeepsInv(s0, id, Returned(row.output), [Answer(key, ToolCall(durableKey), row.output)]);
      assert s' == Move(s0, id, Returned(row.output)).(log := s0.log + [Answer(key, ToolCall(durableKey), row.output)]);
    } else if row.status == SUCCEEDED {
      var token := if row.executionId.Some? then row.executionId.value else "";
      MoveKeepsInv(s0, id, Cleared(token), []);
      assert s' == Move(s0, id, Cleared(token)).(log := s0.log + []);
    } else if row.status == RUNNING || row.status == OUTCOME_UNKNOWN {
      MoveKeepsInv(s0, id, Raised, []);
      assert s' == Move(s0, id, Raised).(log := s0.log + []);
    }
  }

  /** The parts of the invariant one call can rely on. */
  lemma CallFacts(s: System, id: nat)
    requires Inv(s) && id in s.calls
    ensures CallOk(s, id)
  {
  }

  lemma BeginEventKeepsInv(s: System, e: Event)
    requires Inv(s) && (e.Begin? || e.Claim?)
    ensures Inv(Step(s, e))
  {
    hide Inv; hide Begins; hide BeginAttempt; hide BeginSideEffectOnce;
    if Step(s, e) != s {
      var row := s.rows[s.calls[e.id].key];
      match e
      case Begin(id, token, n) =>
        BothBegin(row, n, token);
        BeginKeepsInv(s, id, token, BeginAttempt(row, n, token), Begun(token));
      case Claim(id, token) =>
        BothBegin(row, 0, token);
        BeginKeepsInv(s, id, token, BeginSideEffectOnce(row, token), Claimed(token));
    }
  }

  lemma WriteEventKeepsInv(s: System, e: Event)
    requires Inv(s) && (e.SaveCheckpoint? || e.Commit? || e.RecordSuccess?)
    ensures Inv(Step(s, e))
  {
    hide Inv; hide WriteStep; hide Finish;
    if e.id in s.calls && Step(s, e) != s {
      CallFacts(s, e.id);
      var pc := s.calls[e.id].pc;
      match e
      case SaveCheckpoint(id, value) => CommitKeepsInv(s, id, pc.token, Checkpoint(value), pc, pc);
      case RecordSuccess(id) => SuccessKeepsInv(s, id, pc.token, pc.output, Raised);
      case Commit(id) =>
        match pc.ending
        case Produced(v) => SuccessKeepsInv(s, id, pc.token, v, Refused(pc.token));
        case RunCanceled => CommitKeepsInv(s, id, pc.token, Cancellation, Raised, Raised);
        case OutcomeUnknown(name) => CommitKeepsInv(s, id, pc.token, Unknown(name), Raised, Raised);
        case Crashed(name) => CommitKeepsInv(s, id, pc.token, Failure(name), Raised, Raised);
    }
  }

  lemma QuietEventKeepsInv(s: System, e: Event)
    requires Inv(s) && (e.StartOperation? || e.EndOperation? || e.ReadAgain? || e.Respond?)
    ensures Inv(Step(s, e))
  {
    hide Inv;
    if e.id in s.calls && Step(s, e) != s {
      CallFacts(s, e.id);
      var c := s.calls[e.id];
      var pc' := Step(s, e).calls[e.id].pc;
      var notes := if e.StartOperation? then [OperationStarted(c.key, c.pc.token)] else [];
      MoveKeepsInv(s, e.id, pc', notes);
      assert Step(s, e) == Move(s, e.id, pc').(log := s.log + notes);
    }
  }

  lemma StepKeepsInv(s: System, e: Event)
    requires Inv(s)
    ensures Inv(Step(s, e))
  {
    hide Inv; hide OpenStageStep; hide OpenToolStep; hide MarkStep;
    match e
    case OpenStage(id, key, x, i, m) =>
      if id !in s.calls && x.stageIndex >= 0 { OpenStageKeepsInv(s, id, key, x, i, m); }
    case OpenTool(id, key, d, x) => if id !in s.calls && x.stageIndex < 0 { OpenToolKeepsInv(s, id, key, d, x); }
    case Begin(_, _, _) => BeginEventKeepsInv(s, e);
    case Claim(_, _) => BeginEventKeepsInv(s, e);
    case SaveCheckpoint(_, _) => WriteEventKeepsInv(s, e);
    case Commit(_) => WriteEventKeepsInv(s, e);
    case RecordSuccess(_) => WriteEventKeepsInv(s, e);
    case StartOperation(_) => QuietEventKeepsInv(s, e);
    case EndOperation(_, _) => QuietEventKeepsInv(s, e);
    case ReadAgain(_) => QuietEventKeepsInv(s, e);
    case Respond(_, _) => QuietEventKeepsInv(s, e);
    case RecordDispatch(id) =>
      if id in s.calls && s.calls[id].pc.Claimed? && s.calls[id].kind.ToolCall? {
        CallFacts(s, id);
        MarkKeepsInv(s, id, s.calls[id].pc.token, DispatchMark, Cleared(s.calls[id].pc.token));
      }
    case RecordReturn(id) =>
      if id in s.calls && s.calls[id].pc.Answered? && s.calls[id].kind.ToolCall? {
        CallFacts(s, id);
        var pc := s.calls[id].pc;
        MarkKeepsInv(s, id, pc.token, ReturnMark, Confirmed(pc.token, pc.output));
      }
    case Invoke(id) => if id in s.calls && s.calls[id].pc.Cleared? { InvokeKeepsInv(s, id); }
    case OperatorRetry(run) => RetryKeepsInv(s, run);
  }

  lemma {:induction false} RunKeepsInv(s: System, es: seq<Event>)
    requires Inv(s)
    ensures Inv(Run(s, es))
    decreases |es|
  {
    hide Inv; hide Step;
    if es != [] {
      StepKeepsInv(s, es[0]);
      RunKeepsInv(Step(s, es[0]), es[1..]);
    }
  }

  lemma Reachable(es: seq<Event>)
    ensures Inv(Run(INITIAL, es))
  {
    assert Inv(INITIAL);
    RunKeepsInv(INITIAL, es);
  }

  lemma StepAfterSuccess(s: System, e: Event, k: Key)
    requires Inv(s) && k in s.rows && s.rows[k].status == SUCCEEDED && s.rows[k].output != Null
    ensures Invocations(Step(s, e).log, k) == Invocations(s.log, k)
  {
    var s' := Step(s, e);
    if e.Invoke? && e.id in s.calls && s.calls[e.id].pc.Cleared? {
      assert CallOk(s, e.id);
      Appended(s.log, Invoked(s.calls[e.id].key), k);
    } else if !e.Invoke? {
      StepLog(s, e);
      LogInvocations(s.log, s'.log, k);
    }
  }

  /** `log'` is `log` and at most two entries more, none of them an invocation. */
  ghost predicate Quiet(log: seq<Entry>, log': seq<Entry>) {
    && |log| <= |log'| <= |log| + 2 && log'[..|log|] == log
    && forall i :: |log| <= i < |log'| ==> !log'[i].Invoked?
  }

  lemma WriteLog(s: System, id: nat, token: Token, write: Write, accepted: Pc, refused: Pc)
    requires id in s.calls
    ensures var s' := WriteStep(s, id, token, write, accepted, refused);
            Quiet(s.log, s'.log) && |s'.log| <= |s.log| + 1 && id in s'.calls
  {
    hide CanWrite; hide Written; hide Step; hide Run;
    var s' := WriteStep(s, id, token, write, accepted, refused);
    assert s'.log == s.log || s'.log == s.log + [Wrote(s.calls[id].key, token, write)];
  }

  lemma CommitLog(s: System, e: Event)
    requires e.SaveCheckpoint? || e.Commit? || e.RecordSuccess?
    ensures Quiet(s.log, Step(s, e).log)
  {
    hide WriteStep; hide Run;
    if e.id in s.calls && Step(s, e) != s {
      var pc := s.calls[e.id].pc;
      match e
      case SaveCheckpoint(id, value) => WriteLog(s, id, pc.token, Checkpoint(value), pc, pc);
      case RecordSuccess(id) => WriteLog(s, id, pc.token, Success(pc.output), Returned(pc.output), Raised);
      case Commit(id) =>
        match pc.ending
        case Produced(v) => WriteLog(s, id, pc.token, Success(v), Returned(v), Refused(pc.token));
        case RunCanceled => WriteLog(s, id, pc.token, Cancellation, Raised, Raised);
        case OutcomeUnknown(name) => WriteLog(s, id, pc.token, Unknown(name), Raised, Raised);
        case Crashed(name) => WriteLog(s, id, pc.token, Failure(name), Raised, Raised);
    }
  }

  lemma OpenLog(s: System, e: Event)
    requires e.OpenStage? || e.OpenTool?
    ensures Quiet(s.log, Step(s, e).log)
  {
    hide NewRow; hide Run;
  }

  lemma OtherLog(s: System, e: Event)
    requires !e.Invoke? && !e.OpenStage? && !e.OpenTool? && !e.SaveCheckpoint? && !e.Commit? && !e.RecordSuccess?
    ensures Quiet(s.log, Step(s, e).log)
  {
    hide BeginAttempt; hide BeginSideEffectOnce; hide Addressed; hide WriteAll;
    hide ResetFailed; hide FailedKeys; hide FreshToken; hide Run;
  }

  /** Events other than `Invoke` append at most two entries, none of them an invocation. */
  lemma StepLog(s: System, e: Event)
    requires !e.Invoke?
    ensures Quiet(s.log, Step(s, e).log)
  {
    hide Step; hide Quiet;
    if e.OpenStage? || e.OpenTool? { OpenLog(s, e); }
    else if e.SaveCheckpoint? || e.Commit? || e.RecordSuccess? { CommitLog(s, e); }
    else { OtherLog(s, e); }
  }

  lemma LogInvocations(log: seq<Entry>, log': seq<Entry>, k: Key)
    requires Quiet(log, log')
    ensures Invocations(log', k) == Invocations(log, k)
  {
    if |log'| == |log| {
      assert log' == log;
    } else {
      assert log'[..|log'| - 1][..|log|] == log;
      LogInvocations(log, log'[..|log'| - 1], k);
    }
  }

  lemma {:induction false} RunAfterSuccess(s: System, es: seq<Event>, k: Key)
    requires Inv(s) && k in s.rows && s.rows[k].status == SUCCEEDED && s.rows[k].output != Null
    ensures Invocations(Run(s, es).log, k) == Invocations(s.log, k)
    decreases |es|
  {
    hide Inv; hide Step; hide Invocations;
    if es != [] {
      StepAfterSuccess(s, es[0], k);
      StepKeepsInv(s, es[0]);
      StepKeepsKey(s, es[0], k);
      RunAfterSuccess(Step(s, es[0]), es[1..], k);
    }
  }
}

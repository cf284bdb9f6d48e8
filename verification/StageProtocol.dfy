/**
 * Any number of workers running durable stages and side-effecting tool calls against one stage table.
 *
 * Every store call is one atomic event; a worker that crashes is one whose events stop. Operator retries
 * reset FAILED stages at any moment. Events that a call is not ready for change nothing, so every sequence
 * of events is a run of the system.
 */
module StageProtocol {
  import opened Common
  import opened StageRows

  datatype Ending =
    | Produced(output: Value)
    | RunCanceled
    | OutcomeUnknown(errorType: string)
    | Crashed(errorType: string)

  /** Where one call of `run_stage`, or one call of a side-effecting tool, stands. */
  datatype Pc =
    | Loaded                                   // row read: not finished, not refused
    | Begun(token: Token)                      // begin_attempt granted, operation not started yet
    | Operating(token: Token)
    | Ended(token: Token, ending: Ending)      // operation over, its store write still to come
    | Refused(token: Token)                    // mark_succeeded returned False, row to be read again
    | Claimed(token: Token)                    // begin_side_effect_once granted
    | Cleared(token: Token)                    // allowed to make the external call
    | Calling(token: Token)                    // external call made
    | Answered(token: Token, output: Value)    // response accepted, not recorded
    | Confirmed(token: Token, output: Value)   // mark_side_effect_returned done
    | Returned(output: Value)
    | Raised

  /** A tool call carries its durable key; nothing is assumed about how keys are formed. */
  datatype Kind = StageCall(identity: Identity) | ToolCall(durableKey: string)

  datatype Call = Call(key: Key, kind: Kind, pc: Pc)

  /** What an observer with a perfect memory has seen. */
  datatype Entry =
    | Began(key: Key, token: Token, found: Status)
    | Wrote(key: Key, token: Token, write: Write)
    | ResetRows(keys: set<Key>)
    | OperationStarted(key: Key, token: Token)
    | Invoked(key: Key)
    | Answer(key: Key, kind: Kind, output: Value)

  /** `issued` remembers which call drew each execution token. */
  datatype System = System(rows: Table, calls: map<nat, Call>, issued: map<Token, nat>, log: seq<Entry>)

  const INITIAL := System(map[], map[], map[], [])

  datatype Event =
    | OpenStage(id: nat, key: Key, identity: Identity, idempotencyKey: string, maxAttempts: nat)
    | Begin(id: nat, token: Token, runAttempt: int)
    | StartOperation(id: nat)
    | SaveCheckpoint(id: nat, value: Value)
    | EndOperation(id: nat, ending: Ending)
    | Commit(id: nat)
    | ReadAgain(id: nat)
    | OpenTool(id: nat, key: Key, durableKey: string, identity: Identity)
    | Claim(id: nat, token: Token)
    | RecordDispatch(id: nat)
    | Invoke(id: nat)
    | Respond(id: nat, text: string)           // `_invoke` yields an object, never null
    | RecordReturn(id: nat)
    | RecordSuccess(id: nat)
    | OperatorRetry(run: string)

  function Move(s: System, id: nat, pc: Pc): System
    requires id in s.calls
  {
    s.(calls := s.calls[id := s.calls[id].(pc := pc)])
  }

  function Finish(s: System, id: nat, output: Value): System
    requires id in s.calls
  {
    var c := s.calls[id];
    Move(s, id, Returned(output)).(log := s.log + [Answer(c.key, c.kind, output)])
  }

  /** `run_stage` up to the point where it would draw a token. */
  function OpenStageStep(
      s: System, id: nat, key: Key, identity: Identity, idempotencyKey: string, maxAttempts: nat): System {
    var max := if maxAttempts < 1 then 1 else maxAttempts;
    var rows := if key in s.rows then s.rows else s.rows[key := NewRow(identity, idempotencyKey, max)];
    var row := rows[key];
    var s1 := s.(rows := rows, calls := s.calls[id := Call(key, StageCall(identity), Loaded)]);
    if row.identity.schemaVersion != "1" || row.identity != identity then Move(s1, id, Raised)
    else if row.status == SUCCEEDED then Finish(s1, id, row.output)
    else if row.status == CANCELED || row.status == OUTCOME_UNKNOWN then Move(s1, id, Raised)
    else s1
  }

  /** `_prepare_side_effect_operation` up to the claim. A recorded null output falls through to the call. */
  function OpenToolStep(s: System, id: nat, key: Key, durableKey: string, identity: Identity): System {
    var rows := if key in s.rows then s.rows else s.rows[key := NewRow(identity, durableKey, 1)];
    var row := rows[key];
    var s1 := s.(rows := rows, calls := s.calls[id := Call(key, ToolCall(durableKey), Loaded)]);
    if row.status == SUCCEEDED then
      if row.output != Null then Finish(s1, id, row.output)
      else Move(s1, id, Cleared(if row.executionId.Some? then row.executionId.value else ""))
    else if row.status == RUNNING || row.status == OUTCOME_UNKNOWN then Move(s1, id, Raised)
    else s1
  }

  /** The effect of drawing a token that the guard accepts, or of being refused. */
  function BeginStep(s: System, id: nat, token: Token, granted: Option<Row>, pc: Pc): System
    requires id in s.calls && s.calls[id].key in s.rows
  {
    var key := s.calls[id].key;
    var s1 := s.(issued := s.issued[token := id]);
    if granted.None? then Move(s1, id, Raised)
    else Move(s1.(rows := s.rows[key := granted.value],
                  log := s.log + [Began(key, token, s.rows[key].status)]), id, pc)
  }

  /** A fenced write addressed by stage key, and where the call goes when it is accepted or refused. */
  function WriteStep(s: System, id: nat, token: Token, write: Write, accepted: Pc, refused: Pc): System
    requires id in s.calls
  {
    var key := s.calls[id].key;
    if key in s.rows && CanWrite(s.rows[key], token, write) then
      Move(s.(rows := s.rows[key := Written(s.rows[key], write)],
              log := s.log + [Wrote(key, token, write)]), id, accepted)
    else Move(s, id, refused)
  }

  /** A fenced write addressed by run and idempotency key. */
  function MarkStep(s: System, id: nat, token: Token, write: Write, accepted: Pc): System
    requires id in s.calls && s.calls[id].kind.ToolCall?
  {
    var key := s.calls[id].key;
    var keys := Addressed(s.rows, key.run, s.calls[id].kind.durableKey, token, write);
    var rows := WriteAll(s.rows, keys, write);
    if |keys| == 1 then
      Move(s.(rows := rows, log := s.log + [Wrote(key, token, write)]), id, accepted)
    else Move(s.(rows := rows), id, Raised)
  }

  function CommitStep(s: System, id: nat, token: Token, ending: Ending): System
    requires id in s.calls
  {
    match ending
    case Produced(output) =>
      var s1 := WriteStep(s, id, token, Success(output), Returned(output), Refused(token));
      if s1.calls[id].pc.Returned? then Finish(s1, id, output) else s1
    case RunCanceled => WriteStep(s, id, token, Cancellation, Raised, Raised)
    case OutcomeUnknown(name) => WriteStep(s, id, token, Unknown(name), Raised, Raised)
    case Crashed(name) => WriteStep(s, id, token, Failure(name), Raised, Raised)
  }

  function RecordSuccessStep(s: System, id: nat, token: Token, output: Value): System
    requires id in s.calls
  {
    var s1 := WriteStep(s, id, token, Success(output), Returned(output), Raised);
    if s1.calls[id].pc.Returned? then Finish(s1, id, output) else s1
  }

  predicate FreshToken(s: System, token: Token) { token != "" && token !in s.issued }

  function Step(s: System, e: Event): System {
    match e
    case OpenStage(id, key, identity, idempotencyKey, maxAttempts) =>
      if id in s.calls || identity.stageIndex < 0 then s
      else OpenStageStep(s, id, key, identity, idempotencyKey, maxAttempts)
    case Begin(id, token, runAttempt) =>
      if id in s.calls && s.calls[id].pc.Loaded? && s.calls[id].kind.StageCall? && s.calls[id].key in s.rows
         && FreshToken(s, token)
      then BeginStep(s, id, token, BeginAttempt(s.rows[s.calls[id].key], runAttempt, token), Begun(token))
      else s
    case StartOperation(id) =>
      if id in s.calls && s.calls[id].pc.Begun? then
        var c := s.calls[id];
        Move(s, id, Operating(c.pc.token)).(log := s.log + [OperationStarted(c.key, c.pc.token)])
      else s
    case SaveCheckpoint(id, value) =>
      if id in s.calls && s.calls[id].pc.Operating? then
        var t := s.calls[id].pc.token;
        WriteStep(s, id, t, Checkpoint(value), Operating(t), Operating(t))
      else s
    case EndOperation(id, ending) =>
      if id in s.calls && s.calls[id].pc.Operating? then Move(s, id, Ended(s.calls[id].pc.token, ending)) else s
    case Commit(id) =>
      if id in s.calls && s.calls[id].pc.Ended? then CommitStep(s, id, s.calls[id].pc.token, s.calls[id].pc.ending)
      else s
    case ReadAgain(id) =>
      if id in s.calls && s.calls[id].pc.Refused? then
        var c := s.calls[id];
        if c.key in s.rows && s.rows[c.key].status == OUTCOME_UNKNOWN then
          Move(s, id, Ended(c.pc.token, OutcomeUnknown("")))
        else Move(s, id, Raised)
      else s
    case OpenTool(id, key, durableKey, identity) =>
      if id in s.calls || identity.stageIndex >= 0 then s else OpenToolStep(s, id, key, durableKey, identity)
    case Claim(id, token) =>
      if id in s.calls && s.calls[id].pc.Loaded? && s.calls[id].kind.ToolCall? && s.calls[id].key in s.rows
         && FreshToken(s, token)
      then BeginStep(s, id, token, BeginSideEffectOnce(s.rows[s.calls[id].key], token), Claimed(token))
      else s
    case RecordDispatch(id) =>
      if id in s.calls && s.calls[id].pc.Claimed? && s.calls[id].kind.ToolCall? then
        var t := s.calls[id].pc.token;
        MarkStep(s, id, t, DispatchMark, Cleared(t))
      else s
    case Invoke(id) =>
      if id in s.calls && s.calls[id].pc.Cleared? then
        var c := s.calls[id];
        Move(s, id, Calling(c.pc.token)).(log := s.log + [Invoked(c.key)])
      else s
    case Respond(id, text) =>
      if id in s.calls && s.calls[id].pc.Calling? then Move(s, id, Answered(s.calls[id].pc.token, Json(text))) else s
    case RecordReturn(id) =>
      if id in s.calls && s.calls[id].pc.Answered? && s.calls[id].kind.ToolCall? then
        var pc := s.calls[id].pc;
        MarkStep(s, id, pc.token, ReturnMark, Confirmed(pc.token, pc.output))
      else s
    case RecordSuccess(id) =>
      if id in s.calls && s.calls[id].pc.Confirmed? then
        RecordSuccessStep(s, id, s.calls[id].pc.token, s.calls[id].pc.output)
      else s
    case OperatorRetry(run) =>
      s.(rows := ResetFailed(s.rows, run), log := s.log + [ResetRows(FailedKeys(s.rows, run))])
  }

  function Run(s: System, es: seq<Event>): System
    decreases |es|
  {
    if es == [] then s else Run(Step(s, es[0]), es[1..])
  }
}

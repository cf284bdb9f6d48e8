/**
 * When a stage operation can start although its stage has already succeeded. The window is between `begin_attempt` and
 * the operation: the call is `Begun` and another one finishes the stage meanwhile.
 */
module StageLateStart {
  import opened Common
  import opened StageRows
  import opened StageProtocol
  import opened StageInvariant
  import opened StageSafety
  import opened StageReplay

  /** No attempt on `k` begins between the two logs. */
  ghost predicate NoBegin(log: seq<Entry>, log': seq<Entry>, k: Key) {
    && log <= log'
    && forall i :: |log| <= i < |log'| ==> !(log'[i].Began? && log'[i].key == k)
  }

  /** The call that drew the row's token can still bring the row to success. */
  predicate OwnerCanSucceed(row: Row, c: Call, t: Token) {
    match c.pc
    case Begun(u) => u == t && Accepts(row, Success(Null))
    case Operating(u) => u == t && Accepts(row, Success(Null))
    case Ended(u, ending) => u == t && ending.Produced? && Accepts(row, Success(Null))
    case Claimed(u) => u == t && row.status == RUNNING && c.kind == ToolCall(row.idempotencyKey)
    case Cleared(u) => u == t && row.status == OUTCOME_UNKNOWN && c.kind == ToolCall(row.idempotencyKey)
    case Calling(u) => u == t && row.status == OUTCOME_UNKNOWN && c.kind == ToolCall(row.idempotencyKey)
    case Answered(u, _) => u == t && row.status == OUTCOME_UNKNOWN && c.kind == ToolCall(row.idempotencyKey)
    case Confirmed(u, _) => u == t && Accepts(row, Success(Null))
    case _ => false
  }

  /** The stage of `k` has succeeded, or can without a new attempt. */
  predicate CanSucceed(s: System, k: Key) {
    && k in s.rows
    && (s.rows[k].status == SUCCEEDED
        || (&& s.rows[k].executionId.Some?
            && s.rows[k].executionId.value in s.issued
            && s.issued[s.rows[k].executionId.value] in s.calls
            && OwnerCanSucceed(s.rows[k], s.calls[s.issued[s.rows[k].executionId.value]], s.rows[k].executionId.value)))
  }

  // -- Without the owner's help, no success ----------------------------------------------------------------------

  ghost predicate StepNoBegin(s: System, e: Event, k: Key) { NoBegin(s.log, Step(s, e).log, k) }

  /** What an event may do to the row of `k` and to the call that owns it, if no attempt begins. */
  lemma NoHopeKept(s: System, e: Event, k: Key)
    requires Inv(s) && k in s.rows && StepNoBegin(s, e, k) && CanSucceed(Step(s, e), k)
    ensures CanSucceed(s, k)
  {
    hide CanSucceed; hide StepNoBegin; hide Step; hide Inv;
    if e.SaveCheckpoint? { CheckpointNeedsHope(s, e, k); }
    else if e.Commit? { CommitNeedsHope(s, e, k); }
    else if e.RecordSuccess? { SuccessNeedsHope(s, e, k); }
    else if e.RecordDispatch? || e.RecordReturn? { MarkNeedsHope(s, e, k); }
    else if e.Begin? || e.Claim? { BeginNeedsHope(s, e, k); }
    else if e.OpenStage? || e.OpenTool? { OpenNeedsHope(s, e, k); }
    else { MoveNeedsHope(s, e, k); }
  }

  lemma CheckpointNeedsHope(s: System, e: Event, k: Key)
    requires Inv(s) && k in s.rows && e.SaveCheckpoint? && CanSucceed(Step(s, e), k)
    ensures CanSucceed(s, k)
  {
    hide Inv; hide Run;
    if e.id in s.calls { CallFacts(s, e.id); }
    RowFacts(s, k);
  }

  lemma CommitNeedsHope(s: System, e: Event, k: Key)
    requires Inv(s) && k in s.rows && e.Commit? && CanSucceed(Step(s, e), k)
    ensures CanSucceed(s, k)
  {
    hide Inv; hide Run; hide CanSucceed; hide CommitStep;
    if e.id in s.calls && s.calls[e.id].pc.Ended? {
      var pc := s.calls[e.id].pc;
      if pc.ending.Produced? { ProducedNeedsHope(s, e.id, k); } else { OtherEndingNeedsHope(s, e.id, k); }
    }
  }

  lemma ProducedNeedsHope(s: System, id: nat, k: Key)
    requires Inv(s) && k in s.rows && id in s.calls && s.calls[id].pc.Ended? && s.calls[id].pc.ending.Produced?
    requires CanSucceed(CommitStep(s, id, s.calls[id].pc.token, s.calls[id].pc.ending), k)
    ensures CanSucceed(s, k)
  {
    hide Inv; hide Run; hide Step;
    CallFacts(s, id);
    RowFacts(s, k);
  }

  lemma OtherEndingNeedsHope(s: System, id: nat, k: Key)
    requires Inv(s) && k in s.rows && id in s.calls && s.calls[id].pc.Ended? && !s.calls[id].pc.ending.Produced?
    requires CanSucceed(CommitStep(s, id, s.calls[id].pc.token, s.calls[id].pc.ending), k)
    ensures CanSucceed(s, k)
  {
    hide Inv; hide Run; hide Step;
    CallFacts(s, id);
    RowFacts(s, k);
  }

  lemma SuccessNeedsHope(s: System, e: Event, k: Key)
    requires Inv(s) && k in s.rows && e.RecordSuccess? && CanSucceed(Step(s, e), k)
    ensures CanSucceed(s, k)
  {
    hide Inv; hide Run;
    if e.id in s.calls { CallFacts(s, e.id); }
    RowFacts(s, k);
  }

  lemma MarkNeedsHope(s: System, e: Event, k: Key)
    requires Inv(s) && k in s.rows && (e.RecordDispatch? || e.RecordReturn?)
    requires CanSucceed(Step(s, e), k)
    ensures CanSucceed(s, k)
  {
    hide Inv; hide Run; hide CanSucceed; hide MarkStep;
    if e.id in s.calls && s.calls[e.id].kind.ToolCall? {
      var pc := s.calls[e.id].pc;
      if e.RecordDispatch? && pc.Claimed? { MarkStepNeedsHope(s, e.id, DispatchMark, Cleared(pc.token), k); }
      if e.RecordReturn? && pc.Answered? { MarkStepNeedsHope(s, e.id, ReturnMark, Confirmed(pc.token, pc.output), k); }
    }
  }

  /** A mark changes the row of the call that makes it and moves that call, or makes it raise and changes nothing. */
  lemma MarkShape(s: System, id: nat, write: Write, accepted: Pc)
    requires Inv(s) && id in s.calls && s.calls[id].kind.ToolCall?
    requires (s.calls[id].pc.Claimed? && write == DispatchMark) || (s.calls[id].pc.Answered? && write == ReturnMark)
    ensures var key, token := s.calls[id].key, s.calls[id].pc.token;
            var s' := MarkStep(s, id, token, write, accepted);
            || s' == Move(s, id, Raised)
            || (&& key in s.rows && CanWrite(s.rows[key], token, write) && Owns(s, id, token)
                && s.calls[id].kind == ToolCall(s.rows[key].idempotencyKey)
                && s'.rows == s.rows[key := Written(s.rows[key], write)]
                && s'.calls == s.calls[id := s.calls[id].(pc := accepted)] && s'.issued == s.issued)
  {
    hide Inv; hide Run; hide Step;
    CallFacts(s, id);
    var key, token := s.calls[id].key, s.calls[id].pc.token;
    var keys := Addressed(s.rows, key.run, s.calls[id].kind.durableKey, token, write);
    MarkTouchesOwnRow(s, id, token, write);
    hide CanWrite; hide Written;
    if keys == {} {
      assert WriteAll(s.rows, keys, write) == s.rows;
    } else {
      assert key in keys;
      assert WriteAll(s.rows, keys, write) == s.rows[key := Written(s.rows[key], write)];
    }
  }

  lemma RaisedNeedsHope(s: System, id: nat, k: Key)
    requires id in s.calls && CanSucceed(Move(s, id, Raised), k)
    ensures CanSucceed(s, k)
  {
  }

  lemma MarkStepNeedsHope(s: System, id: nat, write: Write, accepted: Pc, k: Key)
    requires Inv(s) && k in s.rows && id in s.calls && s.calls[id].kind.ToolCall?
    requires (s.calls[id].pc.Claimed? && write == DispatchMark) || (s.calls[id].pc.Answered? && write == ReturnMark)
    requires CanSucceed(MarkStep(s, id, s.calls[id].pc.token, write, accepted), k)
    ensures CanSucceed(s, k)
  {
    hide Inv; hide Run; hide Step; hide MarkStep; hide Move; hide Written;
    RowFacts(s, k);
    MarkShape(s, id, write, accepted);
    if MarkStep(s, id, s.calls[id].pc.token, write, accepted) == Move(s, id, Raised) { RaisedNeedsHope(s, id, k); }
  }

  lemma BeginNeedsHope(s: System, e: Event, k: Key)
    requires Inv(s) && k in s.rows && (e.Begin? || e.Claim?) && StepNoBegin(s, e, k)
    requires CanSucceed(Step(s, e), k)
    ensures CanSucceed(s, k)
  {
    hide Inv; hide Run; hide BeginAttempt; hide BeginSideEffectOnce;
    RowFacts(s, k);
    var s' := Step(s, e);
    if s' != s && |s'.log| > |s.log| { assert s'.log[|s.log|].Began? && s'.log[|s.log|].key == s.calls[e.id].key; }
  }

  lemma OpenNeedsHope(s: System, e: Event, k: Key)
    requires Inv(s) && k in s.rows && (e.OpenStage? || e.OpenTool?)
    requires CanSucceed(Step(s, e), k)
    ensures CanSucceed(s, k)
  {
    hide Inv; hide Run; hide NewRow;
    RowFacts(s, k);
  }

  lemma MoveNeedsHope(s: System, e: Event, k: Key)
    requires Inv(s) && k in s.rows
    requires e.StartOperation? || e.EndOperation? || e.ReadAgain? || e.Invoke? || e.Respond? || e.OperatorRetry?
    requires CanSucceed(Step(s, e), k)
    ensures CanSucceed(s, k)
  {
    hide Inv; hide Run; hide FailedKeys;
    RowFacts(s, k);
  }

  lemma RowFacts(s: System, k: Key)
    requires Inv(s) && k in s.rows
    ensures s.rows[k].executionId.Some? ==>
              && s.rows[k].executionId.value in s.issued
              && s.issued[s.rows[k].executionId.value] in s.calls
              && s.calls[s.issued[s.rows[k].executionId.value]].key == k
  {
    assert KeyOk(s, k);
  }

  lemma {:induction false} NoSuccessWithoutHope(s: System, more: seq<Event>, k: Key)
    requires Inv(s) && k in s.rows && NoBegin(s.log, Run(s, more).log, k)
    requires k in Run(s, more).rows && Run(s, more).rows[k].status == SUCCEEDED
    ensures CanSucceed(s, k)
    decreases |more|
  {
    hide Inv; hide Step;
    if more != [] {
      var s1 := Step(s, more[0]);
      LogGrows(s, more[0]);
      RunExtendsLog(s1, more[1..]);
      NoBeginSplits(s.log, s1.log, Run(s, more).log, k);
      StepKeepsInv(s, more[0]);
      StepKeepsKey(s, more[0], k);
      NoSuccessWithoutHope(s1, more[1..], k);
      NoHopeKept(s, more[0], k);
    }
  }

  lemma LogGrows(s: System, e: Event)
    ensures s.log <= Step(s, e).log
  {
    hide Step;
    if e.Invoke? { InvokeLog(s, e); } else { StepLog(s, e); }
  }

  lemma NoBeginSplits(a: seq<Entry>, b: seq<Entry>, c: seq<Entry>, k: Key)
    requires a <= b <= c && NoBegin(a, c, k)
    ensures NoBegin(a, b, k) && NoBegin(b, c, k)
  {
  }

  lemma NoBeginJoins(a: seq<Entry>, b: seq<Entry>, c: seq<Entry>, k: Key)
    requires NoBegin(a, b, k) && NoBegin(b, c, k)
    ensures NoBegin(a, c, k)
  {
  }

  /** Without a begin the last begun token stays, or is reset. */
  lemma {:induction false} LastBegunStays(log: seq<Entry>, log': seq<Entry>, k: Key)
    requires NoBegin(log, log', k)
    ensures LastBegun(log', k) == LastBegun(log, k) || LastBegun(log', k) == None
    decreases |log'|
  {
    if |log'| == |log| {
      assert log' == log;
    } else {
      var shorter := log'[..|log'| - 1];
      NoBeginSplits(log, shorter, log', k);
      LastBegunStays(log, shorter, k);
    }
  }

  // -- With it, success --------------------------------------------------------------------------------------------

  /** How far the owner still is from success. */
  function Distance(pc: Pc): nat {
    match pc
    case Claimed(_) => 5
    case Cleared(_) => 4
    case Calling(_) => 3
    case Answered(_, _) => 2
    case Confirmed(_, _) => 1
    case Begun(_) => 3
    case Operating(_) => 2
    case Ended(_, _) => 1
    case _ => 0
  }

  function NextEvent(id: nat, pc: Pc): Event {
    match pc
    case Claimed(_) => RecordDispatch(id)
    case Cleared(_) => Invoke(id)
    case Calling(_) => Respond(id, "")
    case Answered(_, _) => RecordReturn(id)
    case Confirmed(_, _) => RecordSuccess(id)
    case Begun(_) => StartOperation(id)
    case Operating(_) => EndOperation(id, Produced(Null))
    case _ => Commit(id)
  }

  /** The owner `o` of the row's token gets one step closer, and nobody else moves. */
  ghost predicate Closer(s: System, s': System, k: Key, o: nat) {
    && k in s.rows && k in s'.rows && o in s.calls && o in s'.calls
    && (s'.rows[k].status == SUCCEEDED || Distance(s'.calls[o].pc) < Distance(s.calls[o].pc))
    && s'.rows[k].executionId == s.rows[k].executionId
    && CanSucceed(s', k)
    && (forall j :: j in s.calls && j != o ==> j in s'.calls && s'.calls[j] == s.calls[j])
    && s'.issued == s.issued
    && NoBegin(s.log, s'.log, k)
  }

  lemma OwnerWrites(s: System, k: Key, o: nat)
    requires Inv(s) && CanSucceed(s, k) && s.rows[k].status != SUCCEEDED && o == s.issued[s.rows[k].executionId.value]
    requires s.calls[o].pc.Ended? || s.calls[o].pc.Confirmed?
    ensures Closer(s, Step(s, NextEvent(o, s.calls[o].pc)), k, o)
  {
    hide Inv; hide Run;
    RowFacts(s, k);
  }

  lemma OwnerMarks(s: System, k: Key, o: nat)
    requires Inv(s) && CanSucceed(s, k) && s.rows[k].status != SUCCEEDED && o == s.issued[s.rows[k].executionId.value]
    requires s.calls[o].pc.Claimed? || s.calls[o].pc.Answered?
    ensures Closer(s, Step(s, NextEvent(o, s.calls[o].pc)), k, o)
  {
    hide Inv; hide Run;
    RowFacts(s, k);
    CallFacts(s, o);
    var write := if s.calls[o].pc.Claimed? then DispatchMark else ReturnMark;
    var token := s.calls[o].pc.token;
    MarkTouchesOwnRow(s, o, token, write);
    assert k in Addressed(s.rows, k.run, s.calls[o].kind.durableKey, token, write);
  }

  lemma OwnerMoves(s: System, k: Key, o: nat)
    requires Inv(s) && CanSucceed(s, k) && s.rows[k].status != SUCCEEDED && o == s.issued[s.rows[k].executionId.value]
    requires var pc := s.calls[o].pc; pc.Begun? || pc.Operating? || pc.Cleared? || pc.Calling?
    ensures Closer(s, Step(s, NextEvent(o, s.calls[o].pc)), k, o)
  {
    hide Inv; hide Run;
    RowFacts(s, k);
  }

  /** The owner alone can bring the row to success: no attempt begins, and every other call stays where it is. */
  lemma {:induction false} OwnerSucceeds(s: System, k: Key, o: nat) returns (more: seq<Event>)
    requires Inv(s) && CanSucceed(s, k)
    requires s.rows[k].status != SUCCEEDED ==> o == s.issued[s.rows[k].executionId.value]
    ensures var s' := Run(s, more);
            && k in s'.rows && s'.rows[k].status == SUCCEEDED && NoBegin(s.log, s'.log, k)
            && (forall j :: j in s.calls && j != o ==> j in s'.calls && s'.calls[j] == s.calls[j])
    decreases if s.rows[k].status == SUCCEEDED || o !in s.calls then 0 else 1 + Distance(s.calls[o].pc)
  {
    more := [];
    if s.rows[k].status != SUCCEEDED {
      var e := NextEvent(o, s.calls[o].pc);
      var s1 := Step(s, e);
      if s.calls[o].pc.Ended? || s.calls[o].pc.Confirmed? { OwnerWrites(s, k, o); }
      else if s.calls[o].pc.Claimed? || s.calls[o].pc.Answered? { OwnerMarks(s, k, o); }
      else { OwnerMoves(s, k, o); }
      hide Step; hide Inv; hide CanSucceed;
      StepKeepsInv(s, e);
      var rest := OwnerSucceeds(s1, k, o);
      NoBeginJoins(s.log, s1.log, Run(s1, rest).log, k);
      more := [e] + rest;
      assert more[0] == e && more[1..] == rest;
    }
  }

  // -- The exact condition -----------------------------------------------------------------------------------------

  /** After `more`, in which no attempt on its stage begins, the call has not started and its stage has succeeded. */
  ghost predicate LateAfter(s: System, more: seq<Event>, id: nat)
    requires id in s.calls
  {
    var s', k := Run(s, more), s.calls[id].key;
    && NoBegin(s.log, s'.log, k)
    && id in s'.calls && s'.calls[id] == s.calls[id]
    && k in s'.rows && s'.rows[k].status == SUCCEEDED
  }

  /** The row of the call's stage carries a token that is not the call's. */
  predicate Superseded(s: System, id: nat)
    requires id in s.calls && s.calls[id].pc.Begun?
  {
    s.calls[id].key in s.rows && s.rows[s.calls[id].key].executionId != Some(s.calls[id].pc.token)
  }

  lemma LateMeansSuperseded(s: System, more: seq<Event>, id: nat)
    requires Inv(s) && id in s.calls && s.calls[id].pc.Begun? && LateAfter(s, more, id)
    ensures Superseded(s, id)
  {
    hide Run; hide Charged; hide Invocations; hide LastBegun;
    var s', k := Run(s, more), s.calls[id].key;
    RunKeepsInv(s, more);
    LastBegunStays(s.log, s'.log, k);
    assert CallOk(s, id) && CallOk(s', id);
    assert KeyOk(s, k) && KeyOk(s', k);
  }

  /**
   * An operation that has not started can come to start after its stage succeeded, without any further attempt being
   * begun, if and only if another token has taken the stage over and the call that drew it can still succeed, or has.
   */
  lemma LateStartIff(es: seq<Event>, id: nat)
    requires id in Run(INITIAL, es).calls && Run(INITIAL, es).calls[id].pc.Begun?
    ensures var s := Run(INITIAL, es);
            (exists more :: LateAfter(s, more, id)) <==> Superseded(s, id) && CanSucceed(s, s.calls[id].key)
  {
    var s := Run(INITIAL, es);
    Reachable(es);
    CallFacts(s, id);
    var k := s.calls[id].key;
    RowFacts(s, k);
    hide Run; hide Inv; hide CanSucceed;
    forall more | LateAfter(s, more, id) ensures Superseded(s, id) && CanSucceed(s, k) {
      LateMeansSuperseded(s, more, id);
      NoSuccessWithoutHope(s, more, k);
    }
    if Superseded(s, id) && CanSucceed(s, k) {
      var o := OwnerOf(s, k, id);
      var more := OwnerSucceeds(s, k, o);
      assert LateAfter(s, more, id);
    }
  }

  /** The owner of the row is another call, or the row has succeeded and it does not matter. */
  lemma OwnerOf(s: System, k: Key, id: nat) returns (o: nat)
    requires Inv(s) && id in s.calls && s.calls[id].pc.Begun? && s.calls[id].key == k
    requires Superseded(s, id) && CanSucceed(s, k)
    ensures o != id && (s.rows[k].status != SUCCEEDED ==> o == s.issued[s.rows[k].executionId.value])
  {
    o := if s.rows[k].status != SUCCEEDED then s.issued[s.rows[k].executionId.value] else id + 1;
  }

  /** While the call that took over has yet to start or is at work, superseding alone decides. */
  lemma LateStartIffSuperseded(es: seq<Event>, id: nat)
    requires var s := Run(INITIAL, es);
             && id in s.calls && s.calls[id].pc.Begun? && s.calls[id].key in s.rows
             && var row := s.rows[s.calls[id].key];
                && row.status == RUNNING && row.executionId.Some? && row.executionId.value in s.issued
                && s.issued[row.executionId.value] in s.calls
                && var owner := s.calls[s.issued[row.executionId.value]].pc;
                   owner == Begun(row.executionId.value) || owner == Operating(row.executionId.value)
    ensures var s := Run(INITIAL, es);
            (exists more :: LateAfter(s, more, id)) <==>
            s.rows[s.calls[id].key].executionId != Some(s.calls[id].pc.token)
  {
    hide Run;
    LateStartIff(es, id);
  }

  /** A late start is one: the event that starts the operation finds the stage SUCCEEDED. */
  lemma LateStartHappens(s: System, more: seq<Event>, id: nat)
    requires id in s.calls && s.calls[id].pc.Begun? && LateAfter(s, more, id)
    ensures var s' := Run(s, more);
            Step(s', StartOperation(id)).log == s'.log + [OperationStarted(s.calls[id].key, s.calls[id].pc.token)]
  {
    hide Run;
  }
}

/**
 * At-most-once dispatch. Rows created for tool operations have a negative stage index and rows created by `run_stage`
 * do not, so `_validate_state` keeps stage calls off the rows of tool operations. The reverse check does not exist: a
 * tool operation accepts whatever row its key names.
 */
module StageDispatch {
  import opened Common
  import opened StageRows
  import opened StageProtocol
  import opened StageInvariant
  import opened StageSafety
  import opened StageReplay

  /** The row of `k`, if there is one, was created for a tool operation. */
  predicate ToolKey(s: System, k: Key) { k in s.rows ==> s.rows[k].identity.stageIndex < 0 }

  predicate StagePc(pc: Pc) {
    pc.Loaded? || pc.Begun? || pc.Operating? || pc.Ended? || pc.Refused? || pc.Returned? || pc.Raised?
  }

  predicate ToolPc(pc: Pc) {
    match pc
    case Answered(_, output) => output != Null
    case Confirmed(_, output) => output != Null
    case Loaded => true
    case Claimed(_) => true
    case Cleared(_) => true
    case Calling(_) => true
    case Returned(_) => true
    case Raised => true
    case _ => false
  }

  /** Each kind of call keeps to its own path, and a tool never responds with null. */
  predicate KindOk(c: Call) {
    if c.kind.StageCall? then c.kind.identity.stageIndex >= 0 && StagePc(c.pc) else ToolPc(c.pc)
  }

  predicate OutputOk(row: Row) { row.identity.stageIndex < 0 && row.status == SUCCEEDED ==> row.output != Null }

  ghost predicate ToolInv(s: System) {
    && (forall id :: id in s.calls ==> KindOk(s.calls[id]))
    && (forall k :: k in s.rows ==> OutputOk(s.rows[k]))
  }

  lemma WriteKeepsToolInv(s: System, id: nat, token: Token, write: Write, accepted: Pc, refused: Pc)
    requires ToolInv(s) && id in s.calls
    requires KindOk(s.calls[id].(pc := accepted)) && KindOk(s.calls[id].(pc := refused))
    requires write.Success? && ToolKey(s, s.calls[id].key) ==> write.output != Null
    ensures ToolInv(WriteStep(s, id, token, write, accepted, refused))
    ensures id in WriteStep(s, id, token, write, accepted, refused).calls
  {
  }

  lemma FinishKeepsToolInv(s: System, id: nat, output: Value)
    requires ToolInv(s) && id in s.calls
    ensures ToolInv(Finish(s, id, output))
  {
    assert KindOk(s.calls[id]);
  }

  lemma MarkKeepsToolInv(s: System, id: nat, token: Token, write: Write, accepted: Pc)
    requires ToolInv(s) && id in s.calls && s.calls[id].kind.ToolCall? && (write.DispatchMark? || write.ReturnMark?)
    requires KindOk(s.calls[id].(pc := accepted))
    ensures ToolInv(MarkStep(s, id, token, write, accepted))
  {
  }

  lemma CommitKeepsToolInv(s: System, e: Event)
    requires Inv(s) && ToolInv(s) && (e.SaveCheckpoint? || e.Commit? || e.RecordSuccess?)
    ensures ToolInv(Step(s, e))
  {
    hide WriteStep; hide Finish; hide Inv; hide Run;
    if e.id in s.calls && Step(s, e) != s {
      CallFacts(s, e.id);
      assert KindOk(s.calls[e.id]);
      var pc := s.calls[e.id].pc;
      match e
      case SaveCheckpoint(id, value) => WriteKeepsToolInv(s, id, pc.token, Checkpoint(value), pc, pc);
      case RecordSuccess(id) =>
        WriteKeepsToolInv(s, id, pc.token, Success(pc.output), Returned(pc.output), Raised);
        FinishKeepsToolInv(WriteStep(s, id, pc.token, Success(pc.output), Returned(pc.output), Raised), id, pc.output);
      case Commit(id) =>
        match pc.ending
        case Produced(v) =>
          WriteKeepsToolInv(s, id, pc.token, Success(v), Returned(v), Refused(pc.token));
          FinishKeepsToolInv(WriteStep(s, id, pc.token, Success(v), Returned(v), Refused(pc.token)), id, v);
        case RunCanceled => WriteKeepsToolInv(s, id, pc.token, Cancellation, Raised, Raised);
        case OutcomeUnknown(name) => WriteKeepsToolInv(s, id, pc.token, Unknown(name), Raised, Raised);
        case Crashed(name) => WriteKeepsToolInv(s, id, pc.token, Failure(name), Raised, Raised);
    }
  }

  lemma BeginKeepsToolInv(s: System, e: Event)
    requires ToolInv(s) && (e.Begin? || e.Claim?)
    ensures ToolInv(Step(s, e))
  {
    hide Run; hide FreshToken;
    if e.id in s.calls { assert KindOk(s.calls[e.id]); }
  }

  lemma OpenStageKeepsToolInv(s: System, e: Event)
    requires ToolInv(s) && e.OpenStage?
    ensures ToolInv(Step(s, e))
  {
    hide Run;
  }

  lemma OpenToolKeepsToolInv(s: System, e: Event)
    requires ToolInv(s) && e.OpenTool?
    ensures ToolInv(Step(s, e))
  {
    hide Run;
  }

  lemma OtherKeepsToolInv(s: System, e: Event)
    requires ToolInv(s)
    requires e.StartOperation? || e.EndOperation? || e.ReadAgain? || e.Invoke? || e.Respond? || e.OperatorRetry?
    ensures ToolInv(Step(s, e))
  {
    hide Run;
    if !e.OperatorRetry? && e.id in s.calls { assert KindOk(s.calls[e.id]); }
  }

  lemma StepKeepsToolInv(s: System, e: Event)
    requires Inv(s) && ToolInv(s)
    ensures ToolInv(Step(s, e))
  {
    hide Inv; hide MarkStep; hide OpenStageStep; hide OpenToolStep; hide BeginStep; hide CommitStep;
    hide RecordSuccessStep;
    if e.SaveCheckpoint? || e.Commit? || e.RecordSuccess? { CommitKeepsToolInv(s, e); }
    else if e.Begin? || e.Claim? { BeginKeepsToolInv(s, e); }
    else if e.OpenStage? { OpenStageKeepsToolInv(s, e); }
    else if e.OpenTool? { OpenToolKeepsToolInv(s, e); }
    else if e.RecordDispatch? || e.RecordReturn? {
      if e.id in s.calls && Step(s, e) != s {
        var pc := s.calls[e.id].pc;
        assert KindOk(s.calls[e.id]);
        if e.RecordDispatch? { MarkKeepsToolInv(s, e.id, pc.token, DispatchMark, Cleared(pc.token)); }
        else { MarkKeepsToolInv(s, e.id, pc.token, ReturnMark, Confirmed(pc.token, pc.output)); }
      }
    }
    else { OtherKeepsToolInv(s, e); }
  }

  lemma {:induction false} RunKeepsToolInv(s: System, es: seq<Event>)
    requires Inv(s) && ToolInv(s)
    ensures Inv(Run(s, es)) && ToolInv(Run(s, es))
    decreases |es|
  {
    hide Inv; hide ToolInv; hide Step;
    if es != [] {
      StepKeepsInv(s, es[0]);
      StepKeepsToolInv(s, es[0]);
      RunKeepsToolInv(Step(s, es[0]), es[1..]);
    }
  }

  lemma ToolReachable(es: seq<Event>)
    ensures Inv(Run(INITIAL, es)) && ToolInv(Run(INITIAL, es))
  {
    assert Inv(INITIAL);
    RunKeepsToolInv(INITIAL, es);
  }

  // -- The guarantee -------------------------------------------------------------------------------------------

  /**
   * At-most-once dispatch: over every interleaving of stage calls, tool calls, crashes and operator retries, the
   * external operation of one (run, key) is called at most once.
   */
  lemma AtMostOneDispatch(es: seq<Event>, k: Key)
    requires ToolKey(Run(INITIAL, es), k)
    ensures Invocations(Run(INITIAL, es).log, k) <= 1
  {
    hide Run; hide Invocations; hide Charged; hide LastBegun;
    ToolReachable(es);
    var s := Run(INITIAL, es);
    assert KeyOk(s, k);
    if k in s.rows { assert OutputOk(s.rows[k]); }
  }

  /**
   * Once dispatched, a later call of the operation is answered with the recorded output, which is not null, or raises.
   */
  lemma LaterCallIsAnswered(es: seq<Event>, id: nat, k: Key, durableKey: string, identity: Identity)
    requires var s := Run(INITIAL, es); Invocations(s.log, k) > 0 && ToolKey(s, k) && id !in s.calls
    requires identity.stageIndex < 0
    ensures var s := Run(INITIAL, es);
            var pc := Step(s, OpenTool(id, k, durableKey, identity)).calls[id].pc;
            k in s.rows
            && (pc == Returned(s.rows[k].output) <==> s.rows[k].status == SUCCEEDED)
            && (pc == Raised <==> s.rows[k].status != SUCCEEDED)
            && (pc.Returned? ==> pc.output != Null)
  {
    hide Run; hide Invocations; hide Charged; hide LastBegun;
    ToolReachable(es);
    var s := Run(INITIAL, es);
    assert KeyOk(s, k);
    assert OutputOk(s.rows[k]);
  }

  predicate NoStageOn(es: seq<Event>, k: Key) {
    forall i :: 0 <= i < |es| && es[i].OpenStage? ==> es[i].key != k
  }

  lemma StepKeepsToolKey(s: System, e: Event, k: Key)
    requires ToolKey(s, k) && (e.OpenStage? ==> e.key != k)
    ensures ToolKey(Step(s, e), k)
  {
    StepKeepsKey(s, e, k);
    if k !in s.rows {
      hide BeginAttempt; hide BeginSideEffectOnce; hide CanWrite; hide Written; hide Addressed; hide Run;
    } else {
      hide Step; hide Run;
    }
  }

  lemma {:induction false} NoStageMeansToolKey(s: System, es: seq<Event>, k: Key)
    requires ToolKey(s, k) && NoStageOn(es, k)
    ensures ToolKey(Run(s, es), k)
    decreases |es|
  {
    hide Step; hide ToolKey;
    if es != [] {
      assert es[0].OpenStage? ==> es[0].key != k;
      StepKeepsToolKey(s, es[0], k);
      NoStageMeansToolKey(Step(s, es[0]), es[1..], k);
    }
  }

  /** In particular for every key that the workflow does not use for a stage of its own. */
  lemma AtMostOneDispatchUnlessStage(es: seq<Event>, k: Key)
    requires NoStageOn(es, k)
    ensures Invocations(Run(INITIAL, es).log, k) <= 1
  {
    NoStageMeansToolKey(INITIAL, es, k);
    AtMostOneDispatch(es, k);
  }

  // -- A stage on the key of a tool operation ------------------------------------------------------------------

  lemma {:induction false} Above(ids: set<nat>) returns (n: nat)
    ensures forall j :: j in ids ==> j < n
  {
    n := 0;
    if ids != {} {
      var j :| j in ids;
      var m := Above(ids - {j});
      n := if j < m then m else j + 1;
      assert forall x :: x in ids ==> x == j || x in ids - {j};
    }
  }

  lemma NullIsCalledAgain(s: System, k: Key) returns (more: seq<Event>)
    requires NullRecorded(s, k)
    ensures Invocations(Run(s, more).log, k) > Invocations(s.log, k) && NoStageOn(more, k)
  {
    hide Invocations;
    var id := Above(s.calls.Keys);
    var e1, e2 := OpenTool(id, k, "", Identity("1", "", "", -1, "", "")), Invoke(id);
    var s1 := Step(s, e1);
    assert s1.calls[id].pc.Cleared? && s1.calls[id].key == k && s1.log == s.log;
    var s2 := Step(s1, e2);
    assert s2.log == s.log + [Invoked(k)];
    Appended(s.log, Invoked(k), k);
    hide Step;
    assert [e1, e2][1..] == [e2] && [e2][1..] == [];
    assert Run(s1, [e2]) == Run(s2, []);
    more := [e1, e2];
    assert Run(s, more) == s2;
  }

  /**
   * The exact condition. When a key already holds a recorded success, a tool operation on it is called some time later
   * if and only if the recorded output is null; and then the success is that of a stage.
   */
  lemma DispatchAfterSuccessIffNull(es: seq<Event>, k: Key)
    requires k in Run(INITIAL, es).rows && Run(INITIAL, es).rows[k].status == SUCCEEDED
    ensures var s := Run(INITIAL, es);
            (exists more :: Invocations(Run(s, more).log, k) > Invocations(s.log, k)) <==> s.rows[k].output == Null
    ensures Run(INITIAL, es).rows[k].output == Null ==> !ToolKey(Run(INITIAL, es), k)
  {
    var s := Run(INITIAL, es);
    ToolReachable(es);
    assert OutputOk(s.rows[k]);
    hide Inv; hide Invocations; hide Run;
    if s.rows[k].output == Null {
      var more := NullIsCalledAgain(s, k);
    } else {
      forall more ensures Invocations(Run(s, more).log, k) == Invocations(s.log, k) {
        RunAfterSuccess(s, more, k);
      }
    }
  }

  /**
   * The collision exists for every key: a stage of that key returns nothing, and a tool operation runs again and again.
   */
  lemma CollidingStageDispatchesTwice(k: Key) returns (es: seq<Event>)
    ensures !NoStageOn(es, k) && Invocations(Run(INITIAL, es).log, k) >= 2
  {
    hide Invocations; hide Run; hide Step;
    var open, first := StageReturnsNothing(k);
    var s := Run(INITIAL, first);
    var a := NullIsCalledAgain(s, k);
    RunKeepsKey(s, a, k);
    var b := NullIsCalledAgain(Run(s, a), k);
    RunConcat(INITIAL, first, a);
    RunConcat(INITIAL, first + a, b);
    es := first + a + b;
    assert es[0] == open;
  }

  lemma StageReturnsNothing(k: Key) returns (open: Event, es: seq<Event>)
    ensures open.OpenStage? && open.key == k && es != [] && es[0] == open && NullRecorded(Run(INITIAL, es), k)
  {
    hide Run;
    var x := Identity("1", "", "", 0, "", "");
    open := OpenStage(0, k, x, "", 1);
    var row := NewRow(x, "", 1);
    var running := row.(status := RUNNING, attempts := 1, executionId := Some("a"));
    var s0 := Step(INITIAL, open);
    assert s0.rows == map[k := row] && s0.calls == map[0 := Call(k, StageCall(x), Loaded)] && s0.issued == map[];
    var s1 := Step(s0, Begin(0, "a", 0));
    assert s1.rows == map[k := running] && s1.calls == map[0 := Call(k, StageCall(x), Begun("a"))];
    var s2 := Step(s1, StartOperation(0));
    assert s2.rows == s1.rows && s2.calls == map[0 := Call(k, StageCall(x), Operating("a"))];
    RunOfThree(INITIAL, open, Begin(0, "a", 0), StartOperation(0));
    StageFinishes(s2, k, running);
    RunConcat(INITIAL, [open, Begin(0, "a", 0), StartOperation(0)], [EndOperation(0, Produced(Null)), Commit(0)]);
    es := [open, Begin(0, "a", 0), StartOperation(0)] + [EndOperation(0, Produced(Null)), Commit(0)];
  }

  lemma StageFinishes(s: System, k: Key, row: Row)
    requires k in s.rows && s.rows[k] == row && row.status == RUNNING && row.executionId == Some("a")
    requires 0 in s.calls && s.calls[0].key == k && s.calls[0].pc == Operating("a")
    ensures NullRecorded(Run(s, [EndOperation(0, Produced(Null)), Commit(0)]), k)
  {
    hide Run;
    var s1 := Step(s, EndOperation(0, Produced(Null)));
    assert s1.rows == s.rows && s1.calls[0].key == k && s1.calls[0].pc == Ended("a", Produced(Null));
    var s2 := Step(s1, Commit(0));
    assert NullRecorded(s2, k);
    RunOfOne(s, EndOperation(0, Produced(Null)));
    RunOfOne(s1, Commit(0));
    RunConcat(s, [EndOperation(0, Produced(Null))], [Commit(0)]);
    assert [EndOperation(0, Produced(Null))] + [Commit(0)] == [EndOperation(0, Produced(Null)), Commit(0)];
  }
}

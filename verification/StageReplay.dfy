/** Replay transparency, the history of a stage row, and attempt accounting, over every run of the stage protocol. */
module StageReplay {
  import opened Common
  import opened StageRows
  import opened StageProtocol
  import opened StageInvariant
  import opened StageSafety

  /** A value was returned normally by a call on `k`: by `run_stage` for `identity`, or by a tool call. */
  predicate AnsweredWith(s: System, k: Key, kind: Kind, v: Value) { Answer(k, kind, v) in s.log }

  /** Any two normal returns for one (run, key) agree, and they are the stored output of the succeeded stage. */
  lemma AnswersAgree(es: seq<Event>, k: Key, kind: Kind, kind': Kind, v: Value, v': Value)
    requires AnsweredWith(Run(INITIAL, es), k, kind, v) && AnsweredWith(Run(INITIAL, es), k, kind', v')
    ensures var s := Run(INITIAL, es);
            k in s.rows && s.rows[k].status == SUCCEEDED && s.rows[k].output == v == v'
            && (kind.StageCall? && kind'.StageCall? ==> kind == kind')
  {
    Reachable(es);
    var s := Run(INITIAL, es);
    var i :| 0 <= i < |s.log| && s.log[i] == Answer(k, kind, v);
    var j :| 0 <= j < |s.log| && s.log[j] == Answer(k, kind', v');
    assert EntryOk(s, i) && EntryOk(s, j);
  }

  lemma {:induction false} RunKeepsKey(s: System, es: seq<Event>, k: Key)
    ensures KeyKept(s, Run(s, es), k)
    decreases |es|
  {
    hide Step;
    if es != [] {
      StepKeepsKey(s, es[0], k);
      RunKeepsKey(Step(s, es[0]), es[1..], k);
    }
  }

  /** SUCCEEDED with its output, and CANCELED, are absorbing; the identity a row was created for never changes. */
  lemma FinishedRowsAreFrozen(es: seq<Event>, more: seq<Event>, k: Key)
    requires k in Run(INITIAL, es).rows
    requires Run(INITIAL, es).rows[k].status == SUCCEEDED || Run(INITIAL, es).rows[k].status == CANCELED
    ensures var s := Run(INITIAL, es); k in Run(s, more).rows && Run(s, more).rows[k] == s.rows[k]
  {
    RunKeepsKey(Run(INITIAL, es), more, k);
  }

  lemma {:induction false} RunExtendsLog(s: System, es: seq<Event>)
    ensures s.log <= Run(s, es).log
    decreases |es|
  {
    hide Step;
    if es != [] {
      if !es[0].Invoke? { StepLog(s, es[0]); } else { InvokeLog(s, es[0]); }
      RunExtendsLog(Step(s, es[0]), es[1..]);
    }
  }

  lemma InvokeLog(s: System, e: Event)
    requires e.Invoke?
    ensures s.log <= Step(s, e).log
  {
  }

  // -- Whole workflow passes ---------------------------------------------------------------------------------

  /** A deterministic workflow: from the outputs so far, the next stage to run or the final result. */
  datatype Next = RunStage(key: Key, identity: Identity) | Finished(result: Value)

  type Workflow = seq<Value> -> Next

  /** A pass is the sequence of stage outputs one `StageRunner` obtained by following the workflow to its end. */
  ghost predicate CompletedPass(s: System, w: Workflow, outputs: seq<Value>) {
    && w(outputs).Finished?
    && forall i :: 0 <= i < |outputs| ==>
         && w(outputs[..i]).RunStage?
         && AnsweredWith(s, w(outputs[..i]).key, StageCall(w(outputs[..i]).identity), outputs[i])
  }

  lemma {:induction false} PassPrefix(es: seq<Event>, w: Workflow, a: seq<Value>, b: seq<Value>, n: nat)
    requires CompletedPass(Run(INITIAL, es), w, a) && CompletedPass(Run(INITIAL, es), w, b)
    requires n <= |a| && n <= |b|
    ensures a[..n] == b[..n]
  {
    if n > 0 {
      PassPrefix(es, w, a, b, n - 1);
      var next := w(a[..n - 1]);
      assert next == w(b[..n - 1]) && next.RunStage?;
      AnswersAgree(es, next.key, StageCall(next.identity), StageCall(next.identity), a[n - 1], b[n - 1]);
      assert a[..n] == a[..n - 1] + [a[n - 1]] && b[..n] == b[..n - 1] + [b[n - 1]];
    }
  }

  lemma PassSurvives(s: System, more: seq<Event>, w: Workflow, outputs: seq<Value>)
    requires CompletedPass(s, w, outputs)
    ensures CompletedPass(Run(s, more), w, outputs)
  {
    RunExtendsLog(s, more);
  }

  lemma {:induction false} RunConcat(s: System, a: seq<Event>, b: seq<Event>)
    ensures Run(Run(s, a), b) == Run(s, a + b)
    decreases |a|
  {
    hide Step;
    if a == [] {
      assert a + b == b;
    } else {
      assert (a + b)[0] == a[0] && (a + b)[1..] == a[1..] + b;
      RunConcat(Step(s, a[0]), a[1..], b);
    }
  }

  /**
   * Replay transparency: over all crashes, restarts and overlapping executors, every completed pass of a
   * deterministic workflow obtained the same outputs and therefore the same result.
   */
  lemma CompletedPassesAgree(es: seq<Event>, more: seq<Event>, w: Workflow, a: seq<Value>, b: seq<Value>)
    requires CompletedPass(Run(INITIAL, es), w, a)
    requires CompletedPass(Run(Run(INITIAL, es), more), w, b)
    ensures a == b
  {
    PassSurvives(Run(INITIAL, es), more, w, a);
    RunConcat(INITIAL, es, more);
    var n := if |a| < |b| then |a| else |b|;
    PassPrefix(es + more, w, a, b, n);
    assert n == |a| ==> a[..n] == a;
    assert n == |b| ==> b[..n] == b;
  }

  // -- History of a row --------------------------------------------------------------------------------------

  /** Every committed output, failure, checkpoint or mark was written by the most recently begun token. */
  lemma WritesBelongToLatestToken(es: seq<Event>, i: nat)
    requires i < |Run(INITIAL, es).log| && Run(INITIAL, es).log[i].Wrote?
    ensures var log := Run(INITIAL, es).log; LastBegun(log[..i], log[i].key) == Some(log[i].token)
  {
    Reachable(es);
    assert EntryOk(Run(INITIAL, es), i);
  }

  /** The attempts field counts the charged begins since the last reset and never passes its bound. */
  lemma AttemptsAreCharged(es: seq<Event>, k: Key)
    requires k in Run(INITIAL, es).rows
    ensures var s := Run(INITIAL, es); s.rows[k].attempts == Charged(s.log, k) <= s.rows[k].maxAttempts
  {
    Reachable(es);
    assert KeyOk(Run(INITIAL, es), k);
  }

  /** Who can change a row without beginning it anew: only the call that drew the token the row carries. */
  predicate WriterOf(s: System, e: Event, k: Key, token: Token) {
    && (e.SaveCheckpoint? || e.Commit? || e.RecordSuccess? || e.RecordDispatch? || e.RecordReturn?)
    && e.id in s.calls && s.calls[e.id].key == k && Owns(s, e.id, token) && !s.calls[e.id].pc.Begun?
  }

  lemma OnlyTheOwnerWrites(s: System, e: Event, k: Key)
    requires Inv(s) && k in s.rows && k in Step(s, e).rows && Step(s, e).rows[k] != s.rows[k]
    requires s.rows[k].executionId.Some? && Step(s, e).rows[k].executionId == s.rows[k].executionId
    ensures WriterOf(s, e, k, s.rows[k].executionId.value)
  {
    hide Inv; hide Step;
    if e.SaveCheckpoint? || e.Commit? || e.RecordSuccess? {
      WriterIsOwner(s, e, k);
    } else if e.RecordDispatch? || e.RecordReturn? {
      MarkerIsOwner(s, e, k);
    } else {
      OthersChangeToken(s, e, k);
    }
  }

  lemma WriterIsOwner(s: System, e: Event, k: Key)
    requires Inv(s) && (e.SaveCheckpoint? || e.Commit? || e.RecordSuccess?)
    requires k in s.rows && k in Step(s, e).rows && Step(s, e).rows[k] != s.rows[k]
    ensures s.rows[k].executionId.Some? && WriterOf(s, e, k, s.rows[k].executionId.value)
  {
    hide Inv; hide Written; hide Accepts; hide Run;
    if e.id in s.calls { CallFacts(s, e.id); }
  }

  lemma MarkerIsOwner(s: System, e: Event, k: Key)
    requires Inv(s) && (e.RecordDispatch? || e.RecordReturn?)
    requires k in s.rows && k in Step(s, e).rows && Step(s, e).rows[k] != s.rows[k]
    ensures s.rows[k].executionId.Some? && WriterOf(s, e, k, s.rows[k].executionId.value)
  {
    hide Inv; hide Written; hide Accepts; hide Run; hide Addressed;
    CallFacts(s, e.id);
    MarkTouchesOwnRow(s, e.id, s.calls[e.id].pc.token, if e.RecordDispatch? then DispatchMark else ReturnMark);
  }

  /** Every other event leaves the row alone, begins it under a new token, or takes its token away. */
  lemma OthersChangeToken(s: System, e: Event, k: Key)
    requires Inv(s) && k in s.rows && k in Step(s, e).rows && s.rows[k].executionId.Some?
    requires !e.SaveCheckpoint? && !e.Commit? && !e.RecordSuccess? && !e.RecordDispatch? && !e.RecordReturn?
    ensures Step(s, e).rows[k] == s.rows[k] || Step(s, e).rows[k].executionId != s.rows[k].executionId
  {
    hide Run; hide CallOk; hide EntryOk; hide Invocations; hide Charged; hide LastBegun;
    assert KeyOk(s, k);
    if e.Begin? || e.Claim? { assert IssuedOk(s, e.token); }
  }

  // -- Operations and success --------------------------------------------------------------------------------

  /** No attempt begins on a succeeded stage, and an operation that starts on one was superseded before it started. */
  lemma NoOperationAfterSuccess(es: seq<Event>, id: nat, token: Token, n: int)
    requires var s := Run(INITIAL, es);
             id in s.calls && s.calls[id].key in s.rows && s.rows[s.calls[id].key].status == SUCCEEDED
    ensures var s := Run(INITIAL, es);
            s.calls[id].pc.Begun? || !Step(s, Begin(id, token, n)).calls[id].pc.Begun?
    ensures var s := Run(INITIAL, es);
            s.calls[id].pc.Begun? ==> s.rows[s.calls[id].key].executionId != Some(s.calls[id].pc.token)
  {
    Reachable(es);
    assert CallOk(Run(INITIAL, es), id);
  }

  /**
   * Such a start is possible: a second worker takes the stage over and finishes it before the first one's operation
   * runs.
   */
  lemma SupersededOperationCanStartAfterSuccess() returns (es: seq<Event>, k: Key)
    ensures var s := Run(INITIAL, es);
            && |s.log| > 0 && s.log[|s.log| - 1].OperationStarted? && s.log[|s.log| - 1].key == k
            && k in s.rows && s.rows[k].status == SUCCEEDED
            && s.rows[k].executionId != Some(s.log[|s.log| - 1].token)
  {
    k := Key("r", "k");
    es := [StartOperation(1), EndOperation(1, Produced(Null)), Commit(1)];
    var first := Takeover(k);
    var s := Run(INITIAL, first);
    var s1 := Step(s, es[0]);
    var s2 := Step(s1, es[1]);
    var s3 := Step(s2, es[2]);
    assert s3.rows[k].status == SUCCEEDED && s3.calls[0].pc == Begun("a") && s3.calls[0].key == k;
    RunOfThree(s, es[0], es[1], es[2]);
    RunOfOne(s3, StartOperation(0));
    RunConcat(INITIAL, first, es);
    RunConcat(INITIAL, first + es, [StartOperation(0)]);
    es := first + es + [StartOperation(0)];
  }

  lemma Takeover(k: Key) returns (es: seq<Event>)
    ensures var s := Run(INITIAL, es);
            && k in s.rows && s.rows[k].status == RUNNING && s.rows[k].executionId == Some("b")
            && 0 in s.calls && s.calls[0].key == k && s.calls[0].pc == Begun("a")
            && 1 in s.calls && s.calls[1].key == k && s.calls[1].pc == Begun("b")
  {
    var x := Identity("1", "", "", 0, "", "");
    var e0, e1, e2, e3 := OpenStage(0, k, x, "", 1), OpenStage(1, k, x, "", 1), Begin(0, "a", 0), Begin(1, "b", 0);
    var s0 := Step(INITIAL, e0);
    var s1 := Step(s0, e1);
    assert s1.rows == map[k := NewRow(x, "", 1)] && s1.issued == map[];
    assert s1.calls[0] == s1.calls[1] == Call(k, StageCall(x), Loaded);
    var s2 := Step(s1, e2);
    assert s2.rows[k].status == RUNNING && s2.calls[1].pc.Loaded? && s2.issued == map["a" := 0];
    RunOfThree(INITIAL, e0, e1, e2);
    RunOfOne(s2, e3);
    es := [e0, e1, e2];
    RunConcat(INITIAL, es, [e3]);
    es := es + [e3];
  }

  lemma RunOfThree(s: System, a: Event, b: Event, c: Event)
    ensures Run(s, [a, b, c]) == Step(Step(Step(s, a), b), c)
  {
    hide Step;
    RunOfOne(Step(Step(s, a), b), c);
    assert [a, b, c][1..] == [b, c] && [b, c][1..] == [c];
    assert Run(Step(s, a), [b, c]) == Run(Step(Step(s, a), b), [c]);
  }

  lemma RunOfOne(s: System, e: Event)
    ensures Run(s, [e]) == Step(s, e)
  {
    hide Step;
    assert [e][1..] == [];
    assert Run(Step(s, e), []) == Step(s, e);
  }

  // -- Leaving an unknown outcome ----------------------------------------------------------------------------

  /**
   * An unknown outcome is left only to SUCCEEDED, by the token that dispatched, after that token recorded the return.
   */
  lemma UnknownIsLeftOnlyAfterReturn(es: seq<Event>, e: Event, k: Key)
    requires var s := Run(INITIAL, es); k in s.rows && s.rows[k].status == OUTCOME_UNKNOWN
    requires var s := Run(INITIAL, es); k in Step(s, e).rows && Step(s, e).rows[k].status != OUTCOME_UNKNOWN
    ensures var s := Run(INITIAL, es);
            && Step(s, e).rows[k].status == SUCCEEDED
            && s.rows[k].executionId.Some?
            && Step(s, e).rows[k].executionId == s.rows[k].executionId
            && Wrote(k, s.rows[k].executionId.value, ReturnMark) in s.log
            && WriterOf(s, e, k, s.rows[k].executionId.value)
  {
    var s := Run(INITIAL, es);
    Reachable(es);
    assert KeyOk(s, k);
    StepKeepsKey(s, e, k);
    LeavingNeedsReturn(s, e, k);
    OnlyTheOwnerWrites(s, e, k);
  }

  lemma LeavingNeedsReturn(s: System, e: Event, k: Key)
    requires k in s.rows && s.rows[k].status == OUTCOME_UNKNOWN
    requires k in Step(s, e).rows && Step(s, e).rows[k].status != OUTCOME_UNKNOWN
    ensures s.rows[k].errorType == Some(SIDE_EFFECT_RETURNED)
  {
    hide Step;
    if e.SaveCheckpoint? || e.Commit? || e.RecordSuccess? { LeavingByWrite(s, e, k); }
    else if e.RecordDispatch? || e.RecordReturn? { MarksDoNotLeave(s, e, k); }
    else { OthersDoNotLeave(s, e, k); }
  }

  lemma LeavingByWrite(s: System, e: Event, k: Key)
    requires k in s.rows && s.rows[k].status == OUTCOME_UNKNOWN && (e.SaveCheckpoint? || e.Commit? || e.RecordSuccess?)
    requires k in Step(s, e).rows && Step(s, e).rows[k].status != OUTCOME_UNKNOWN
    ensures s.rows[k].errorType == Some(SIDE_EFFECT_RETURNED)
  {
    hide Run;
  }

  lemma MarksDoNotLeave(s: System, e: Event, k: Key)
    requires k in s.rows && s.rows[k].status == OUTCOME_UNKNOWN && (e.RecordDispatch? || e.RecordReturn?)
    ensures k in Step(s, e).rows && Step(s, e).rows[k].status == OUTCOME_UNKNOWN
  {
    hide Run;
  }

  lemma OthersDoNotLeave(s: System, e: Event, k: Key)
    requires k in s.rows && s.rows[k].status == OUTCOME_UNKNOWN
    requires !e.SaveCheckpoint? && !e.Commit? && !e.RecordSuccess? && !e.RecordDispatch? && !e.RecordReturn?
    ensures k in Step(s, e).rows && Step(s, e).rows[k].status == OUTCOME_UNKNOWN
  {
    if e.OpenStage? || e.OpenTool? {
      OpensDoNotLeave(s, e, k);
    } else {
      hide Run; hide FreshToken; hide FailedKeys; hide OpenStageStep; hide OpenToolStep;
    }
  }

  lemma OpensDoNotLeave(s: System, e: Event, k: Key)
    requires k in s.rows && s.rows[k].status == OUTCOME_UNKNOWN && (e.OpenStage? || e.OpenTool?)
    ensures k in Step(s, e).rows && Step(s, e).rows[k].status == OUTCOME_UNKNOWN
  {
    hide Run; hide NewRow;
  }
}

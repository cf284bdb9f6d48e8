/** The invariant of the stage protocol and its preservation by every event. */
module StageInvariant {
  import opened Common
  import opened StageRows
  import opened StageProtocol

  /** Begins charged to `k` since its last reset: re-entering a RUNNING stage is free. */
  function Charged(log: seq<Entry>, k: Key): nat {
    if log == [] then 0
    else
      var rest := Charged(log[..|log| - 1], k);
      match log[|log| - 1]
      case Began(key, _, found) => if key == k && found != RUNNING then rest + 1 else rest
      case ResetRows(keys) => if k in keys then 0 else rest
      case _ => rest
  }

  /** The most recently begun execution token of `k` since its last reset. */
  function LastBegun(log: seq<Entry>, k: Key): Option<Token> {
    if log == [] then None
    else
      var rest := LastBegun(log[..|log| - 1], k);
      match log[|log| - 1]
      case Began(key, token, _) => if key == k then Some(token) else rest
      case ResetRows(keys) => if k in keys then None else rest
      case _ => rest
  }

  /** How often the external operation `k` was really called. */
  function Invocations(log: seq<Entry>, k: Key): nat {
    if log == [] then 0
    else Invocations(log[..|log| - 1], k) + if log[|log| - 1] == Invoked(k) then 1 else 0
  }

  lemma Appended(log: seq<Entry>, e: Entry, k: Key)
    ensures Charged(log + [e], k) ==
            if e.Began? && e.key == k && e.found != RUNNING then Charged(log, k) + 1
            else if e.ResetRows? && k in e.keys then 0 else Charged(log, k)
    ensures LastBegun(log + [e], k) ==
            if e.Began? && e.key == k then Some(e.token)
            else if e.ResetRows? && k in e.keys then None else LastBegun(log, k)
    ensures Invocations(log + [e], k) == Invocations(log, k) + if e == Invoked(k) then 1 else 0
  {
    assert (log + [e])[..|log|] == log;
  }

  /** A null output has been recorded: the one situation in which a later tool call is not answered from the row. */
  predicate NullRecorded(s: System, k: Key) {
    k in s.rows && s.rows[k].status == SUCCEEDED && s.rows[k].output == Null
  }

  predicate KeyOk(s: System, k: Key) {
    if k in s.rows then RowOk(s, k, s.rows[k])
    else Charged(s.log, k) == 0 && LastBegun(s.log, k) == None && Invocations(s.log, k) == 0
  }

  predicate RowOk(s: System, k: Key, row: Row) {
    && row.attempts == Charged(s.log, k) <= row.maxAttempts
    && 1 <= row.maxAttempts
    && (row.status == PENDING ==> row.attempts == 0)
    && row.executionId == LastBegun(s.log, k)
    && (row.status == SUCCEEDED ==> row.executionId.Some?)
    && (row.executionId.Some? ==>
          && row.executionId.value in s.issued
          && s.issued[row.executionId.value] in s.calls
          && s.calls[s.issued[row.executionId.value]].key == k)
    && (Invocations(s.log, k) > 0 ==> row.status == OUTCOME_UNKNOWN || row.status == SUCCEEDED)
    && (Invocations(s.log, k) > 1 ==> NullRecorded(s, k))
    && (row.status == OUTCOME_UNKNOWN && row.errorType == Some(SIDE_EFFECT_RETURNED) ==>
          row.executionId.Some? && Wrote(k, row.executionId.value, ReturnMark) in s.log)
  }

  predicate Owns(s: System, id: nat, token: Token) { token in s.issued && s.issued[token] == id }

  predicate Fallthrough(s: System, k: Key, token: Token) {
    NullRecorded(s, k) && (token == "" || s.rows[k].executionId == Some(token))
  }

  predicate CallOk(s: System, id: nat) {
    id in s.calls ==>
      && s.calls[id].key in s.rows
      && PcOk(s, id, s.calls[id].key, s.calls[id].pc)
      && (Validated(s.calls[id]) ==> s.rows[s.calls[id].key].identity == s.calls[id].kind.identity)
  }

  /** A stage call that passed `_validate_state`. */
  predicate Validated(c: Call) { c.kind.StageCall? && !c.pc.Raised? }

  predicate PcOk(s: System, id: nat, key: Key, pc: Pc)
    requires key in s.rows
  {
    match pc
    case Loaded => true
    case Returned(_) => true
    case Raised => true
    case Cleared(t) => Fallthrough(s, key, t) || (Owns(s, id, t) && Pending(s, key, t))
    case Calling(t) => Fallthrough(s, key, t) || Owns(s, id, t)
    case Answered(t, _) => Fallthrough(s, key, t) || Owns(s, id, t)
    case Begun(t) => Owns(s, id, t) && StillRunning(s, key, t)
    case _ => Owns(s, id, pc.token)
  }

  /** The stage of a call whose operation has not started is RUNNING, unless another token took it over. */
  predicate StillRunning(s: System, key: Key, token: Token)
    requires key in s.rows
  {
    s.rows[key].executionId == Some(token) ==> s.rows[key].status == RUNNING
  }

  /** The dispatch of `token` is on record and the external call has not been made. */
  predicate Pending(s: System, key: Key, token: Token)
    requires key in s.rows
  {
    s.rows[key].status == OUTCOME_UNKNOWN && s.rows[key].executionId == Some(token) && Invocations(s.log, key) == 0
  }

  /** Every answer given is the stored output of a stage that has succeeded, for the input it was stored for. */
  predicate AnswerOk(s: System, e: Entry)
    requires e.Answer?
  {
    && e.key in s.rows
    && s.rows[e.key].status == SUCCEEDED
    && s.rows[e.key].output == e.output
    && (e.kind.StageCall? ==> s.rows[e.key].identity == e.kind.identity)
  }

  predicate EntryOk(s: System, i: nat) {
    i < |s.log| ==>
      match s.log[i]
      case Wrote(key, token, _) => LastBegun(s.log[..i], key) == Some(token)
      case Answer(_, _, _) => AnswerOk(s, s.log[i])
      case _ => true
  }

  predicate IssuedOk(s: System, t: Token) {
    t in s.issued ==> t != "" && s.issued[t] in s.calls
  }

  ghost predicate Inv(s: System) {
    && (forall k :: KeyOk(s, k))
    && (forall id :: CallOk(s, id))
    && (forall t :: IssuedOk(s, t))
    && (forall i: nat :: EntryOk(s, i))
  }

  /** What any sequence of events may do to a row: finished rows are frozen, unknown outcomes almost. */
  predicate RowKept(before: Row, after: Row) {
    && after.identity == before.identity
    && after.maxAttempts == before.maxAttempts
    && (before.status == SUCCEEDED || before.status == CANCELED ==> after == before)
    && (before.status == OUTCOME_UNKNOWN ==>
          after.executionId == before.executionId && (after.status == OUTCOME_UNKNOWN || after.status == SUCCEEDED))
  }

  predicate KeyKept(s: System, s': System, k: Key) {
    k in s.rows ==> k in s'.rows && RowKept(s.rows[k], s'.rows[k])
  }

  lemma RowStepsKeepRow(row: Row, n: int, token: Token, write: Write)
    ensures BeginAttempt(row, n, token).Some? ==> RowKept(row, BeginAttempt(row, n, token).value)
    ensures BeginSideEffectOnce(row, token).Some? ==> RowKept(row, BeginSideEffectOnce(row, token).value)
    ensures CanWrite(row, token, write) ==> RowKept(row, Written(row, write))
  {
  }

  lemma BeginKeepsKey(s: System, id: nat, token: Token, n: int, pc: Pc, k: Key)
    requires id in s.calls && s.calls[id].key in s.rows
    ensures KeyKept(s, BeginStep(s, id, token, BeginAttempt(s.rows[s.calls[id].key], n, token), pc), k)
    ensures KeyKept(s, BeginStep(s, id, token, BeginSideEffectOnce(s.rows[s.calls[id].key], token), pc), k)
  {
    hide BeginAttempt; hide BeginSideEffectOnce;
    RowStepsKeepRow(s.rows[s.calls[id].key], n, token, Cancellation);
  }

  lemma WriteKeepsKey(s: System, id: nat, token: Token, write: Write, accepted: Pc, refused: Pc, k: Key)
    requires id in s.calls
    ensures KeyKept(s, WriteStep(s, id, token, write, accepted, refused), k)
  {
    hide Written; hide Accepts;
    if k in s.rows { RowStepsKeepRow(s.rows[k], 0, token, write); }
  }

  lemma RowKeepsItself(s: System, k: Key)
    ensures k in s.rows ==> RowKept(s.rows[k], s.rows[k])
  {
  }

  lemma MarkKeepsKey(s: System, id: nat, token: Token, write: Write, accepted: Pc, k: Key)
    requires id in s.calls && s.calls[id].kind.ToolCall?
    ensures KeyKept(s, MarkStep(s, id, token, write, accepted), k)
  {
    hide Written; hide Accepts; hide Step; hide Run; hide RowKept; hide KeyOk;
    assert k in s.rows ==> RowKept(s.rows[k], s.rows[k]) by { RowKeepsItself(s, k); }
    if k in s.rows { RowStepsKeepRow(s.rows[k], 0, token, write); }
  }

  /** No event changes a finished row, and none takes an unknown outcome anywhere but to success. */
  lemma StepKeepsKey(s: System, e: Event, k: Key)
    ensures KeyKept(s, Step(s, e), k)
  {
    hide BeginStep; hide WriteStep; hide MarkStep; hide Run; hide BeginAttempt; hide BeginSideEffectOnce;
    hide FreshToken; hide OpenStageStep; hide OpenToolStep; hide FailedKeys;
    match e
    case Begin(id, token, n) =>
      if id in s.calls && s.calls[id].key in s.rows { BeginKeepsKey(s, id, token, n, Begun(token), k); }
    case Claim(id, token) =>
      if id in s.calls && s.calls[id].key in s.rows { BeginKeepsKey(s, id, token, 0, Claimed(token), k); }
    case SaveCheckpoint(id, value) =>
      if id in s.calls && s.calls[id].pc.Operating? {
        var pc := s.calls[id].pc;
        WriteKeepsKey(s, id, pc.token, Checkpoint(value), pc, pc, k);
      }
    case Commit(id) =>
      if id in s.calls && s.calls[id].pc.Ended? {
        var pc := s.calls[id].pc;
        match pc.ending
        case Produced(v) => WriteKeepsKey(s, id, pc.token, Success(v), Returned(v), Refused(pc.token), k);
        case RunCanceled => WriteKeepsKey(s, id, pc.token, Cancellation, Raised, Raised, k);
        case OutcomeUnknown(name) => WriteKeepsKey(s, id, pc.token, Unknown(name), Raised, Raised, k);
        case Crashed(name) => WriteKeepsKey(s, id, pc.token, Failure(name), Raised, Raised, k);
      }
    case RecordDispatch(id) =>
      if id in s.calls && s.calls[id].pc.Claimed? && s.calls[id].kind.ToolCall? {
        var t := s.calls[id].pc.token;
        MarkKeepsKey(s, id, t, DispatchMark, Cleared(t), k);
      }
    case RecordReturn(id) =>
      if id in s.calls && s.calls[id].pc.Answered? && s.calls[id].kind.ToolCall? {
        var pc := s.calls[id].pc;
        MarkKeepsKey(s, id, pc.token, ReturnMark, Confirmed(pc.token, pc.output), k);
      }
    case RecordSuccess(id) =>
      if id in s.calls && s.calls[id].pc.Confirmed? {
        var pc := s.calls[id].pc;
        WriteKeepsKey(s, id, pc.token, Success(pc.output), Returned(pc.output), Raised, k);
      }
    case OpenStage(_, _, _, _, _) => OpenKeepsKey(s, e, k);
    case OpenTool(_, _, _, _) => OpenKeepsKey(s, e, k);
    case OperatorRetry(_) =>
    case _ =>
  }

  lemma OpenKeepsKey(s: System, e: Event, k: Key)
    requires e.OpenStage? || e.OpenTool?
    ensures KeyKept(s, Step(s, e), k)
  {
    hide Run; hide NewRow;
  }

  /** Calls keep their keys and tokens keep their owners. */
  ghost predicate Extends(s: System, s': System) {
    && (forall j :: j in s.calls ==> j in s'.calls && s'.calls[j].key == s.calls[j].key)
    && (forall t :: t in s.issued ==> t in s'.issued && s'.issued[t] == s.issued[t])
    && |s.log| <= |s'.log| && s'.log[..|s.log|] == s.log
  }

  predicate SameCounters(s: System, s': System, k: Key) {
    && Charged(s'.log, k) == Charged(s.log, k)
    && LastBegun(s'.log, k) == LastBegun(s.log, k)
    && Invocations(s'.log, k) == Invocations(s.log, k)
  }

  lemma UntouchedKey(s: System, s': System, k: Key)
    requires KeyOk(s, k) && Extends(s, s') && SameCounters(s, s', k)
    requires k in s.rows <==> k in s'.rows
    requires k in s.rows ==> s'.rows[k] == s.rows[k]
    ensures KeyOk(s', k)
  {
  }

  lemma UntouchedCall(s: System, s': System, j: nat)
    requires CallOk(s, j) && Extends(s, s') && j in s.calls && s'.calls[j] == s.calls[j]
    requires KeyKept(s, s', s.calls[j].key)
    requires s.calls[j].pc.Cleared? && s.calls[j].key in s.rows && Pending(s, s.calls[j].key, s.calls[j].pc.token)
             && Owns(s, j, s.calls[j].pc.token)
             ==> s.calls[j].key in s'.rows && Pending(s', s.calls[j].key, s.calls[j].pc.token)
    requires s.calls[j].pc.Begun? && s.calls[j].key in s.rows && StillRunning(s, s.calls[j].key, s.calls[j].pc.token)
             && Owns(s, j, s.calls[j].pc.token)
             ==> s.calls[j].key in s'.rows && StillRunning(s', s.calls[j].key, s.calls[j].pc.token)
    ensures CallOk(s', j)
  {
  }

  lemma OldEntry(s: System, s': System, i: nat)
    requires EntryOk(s, i) && Extends(s, s') && i < |s.log|
    requires s.log[i].Answer? ==> KeyKept(s, s', s.log[i].key)
    ensures EntryOk(s', i)
  {
    assert s'.log[i] == s'.log[..|s.log|][i];
    assert s'.log[..i] == s'.log[..|s.log|][..i] == s.log[..i];
  }

  /** An event of call `id` that touches no row: it may note an operation start or a stored answer. */
  lemma MoveKeepsInv(s: System, id: nat, pc: Pc, notes: seq<Entry>)
    requires Inv(s) && id in s.calls
    requires |notes| <= 1
    requires forall e :: e in notes ==> e.OperationStarted? || (e.Answer? && AnswerOk(s, e))
    requires s.calls[id].key in s.rows && PcOk(s, id, s.calls[id].key, pc)
    requires !s.calls[id].pc.Raised?
    ensures Inv(Move(s, id, pc).(log := s.log + notes))
  {
    hide KeyOk; hide Charged; hide LastBegun; hide Invocations; hide Step; hide Run;
    var s' := Move(s, id, pc).(log := s.log + notes);
    assert Extends(s, s');
    forall k ensures SameCounters(s, s', k) && KeyOk(s', k) {
      if notes == [] {
        assert s'.log == s.log;
      } else {
        assert notes[0] in notes && notes == [notes[0]];
        Appended(s.log, notes[0], k);
      }
      assert KeyOk(s, k);
      UntouchedKey(s, s', k);
    }
    forall j ensures CallOk(s', j) {
      assert CallOk(s, j) && CallOk(s, id);
      if j in s.calls {
        assert SameCounters(s, s', s.calls[j].key) && SameCounters(s, s', s.calls[id].key);
        if j != id { UntouchedCall(s, s', j); }
      }
    }
    forall i: nat ensures EntryOk(s', i) {
      if i < |s.log| {
        assert EntryOk(s, i);
        OldEntry(s, s', i);
      } else if i < |s'.log| {
        assert notes[0] in notes && s'.log[i] == notes[0];
      }
    }
    forall t ensures IssuedOk(s', t) { assert IssuedOk(s, t); }
  }

  predicate AcceptedPc(pc: Pc, token: Token, write: Write) {
    match pc
    case Raised => true
    case Returned(_) => true
    case Operating(t) => t == token
    case Confirmed(t, _) => t == token
    case Cleared(t) => t == token && write == DispatchMark
    case _ => false
  }

  /** An accepted write by the owner of the token the row carries. */
  lemma WriteKeepsInv(s: System, id: nat, token: Token, write: Write, accepted: Pc)
    requires Inv(s) && id in s.calls && Owns(s, id, token) && AcceptedPc(accepted, token, write)
    requires !s.calls[id].pc.Cleared? && !s.calls[id].pc.Raised? && s.calls[id].key in s.rows
    requires CanWrite(s.rows[s.calls[id].key], token, write)
    ensures Inv(WriteStep(s, id, token, write, accepted, Raised))
  {
    hide Charged; hide LastBegun; hide Invocations;
    var s' := WriteStep(s, id, token, write, accepted, Raised);
    var key := s.calls[id].key;
    var e := Wrote(key, token, write);
    assert Extends(s, s');
    assert KeyOk(s, key);
    forall k ensures SameCounters(s, s', k) && KeyOk(s', k) {
      Appended(s.log, e, k);
      assert KeyOk(s, k);
      if k != key { UntouchedKey(s, s', k); }
    }
    forall j ensures CallOk(s', j) {
      assert CallOk(s, j);
      if j in s.calls {
        assert SameCounters(s, s', s.calls[j].key);
        WriteKeepsKey(s, id, token, write, accepted, Raised, s.calls[j].key);
        if j != id { UntouchedCall(s, s', j); }
      }
    }
    forall i: nat ensures EntryOk(s', i) {
      if i < |s.log| {
        assert EntryOk(s, i);
        if s.log[i].Answer? { WriteKeepsKey(s, id, token, write, accepted, Raised, s.log[i].key); }
        OldEntry(s, s', i);
      } else if i == |s.log| {
        assert s'.log[..i] == s.log;
      }
    }
    forall t ensures IssuedOk(s', t) { assert IssuedOk(s, t); }
  }

  /** Drawing a fresh token. */
  lemma IssueKeepsInv(s: System, id: nat, token: Token)
    requires Inv(s) && id in s.calls && FreshToken(s, token)
    ensures Inv(s.(issued := s.issued[token := id]))
  {
    hide Charged; hide LastBegun; hide Invocations;
    var s' := s.(issued := s.issued[token := id]);
    assert Extends(s, s');
    forall k ensures KeyOk(s', k) {
      assert KeyOk(s, k);
      UntouchedKey(s, s', k);
    }
    forall j ensures CallOk(s', j) {
      assert CallOk(s, j);
      if j in s.calls { UntouchedCall(s, s', j); }
    }
    forall i: nat ensures EntryOk(s', i) {
      assert EntryOk(s, i);
      if i < |s.log| { OldEntry(s, s', i); }
    }
    forall t ensures IssuedOk(s', t) { assert IssuedOk(s, t); }
  }

  /** Using it to begin: `row` is the row after the guard accepted. */
  lemma GrantKeepsInv(s: System, id: nat, token: Token, row: Row, pc: Pc)
    requires Inv(s) && id in s.calls && Owns(s, id, token) && s.calls[id].pc.Loaded?
    requires pc == Begun(token) || pc == Claimed(token)
    requires s.calls[id].key in s.rows && Begins(s.rows[s.calls[id].key], row, token)
    ensures var key := s.calls[id].key;
            Inv(Move(s.(rows := s.rows[key := row], log := s.log + [Began(key, token, s.rows[key].status)]), id, pc))
  {
    hide Charged; hide LastBegun; hide Invocations;
    var key := s.calls[id].key;
    var e := Began(key, token, s.rows[key].status);
    var s' := Move(s.(rows := s.rows[key := row], log := s.log + [e]), id, pc);
    assert Extends(s, s');
    assert KeyOk(s, key);
    forall k ensures KeyOk(s', k) {
      Appended(s.log, e, k);
      assert KeyOk(s, k);
      if k != key { UntouchedKey(s, s', k); }
    }
    forall j ensures CallOk(s', j) {
      assert CallOk(s, j);
      if j in s.calls {
        Appended(s.log, e, s.calls[j].key);
        if j != id { UntouchedCall(s, s', j); }
      }
    }
    forall i: nat ensures EntryOk(s', i) {
      if i < |s.log| {
        assert EntryOk(s, i);
        OldEntry(s, s', i);
      }
    }
    forall t ensures IssuedOk(s', t) { assert IssuedOk(s, t); }
  }

  lemma BeginKeepsInv(s: System, id: nat, token: Token, granted: Option<Row>, pc: Pc)
    requires Inv(s) && id in s.calls && FreshToken(s, token) && s.calls[id].pc.Loaded?
    requires pc == Begun(token) || pc == Claimed(token)
    requires s.calls[id].key in s.rows
    requires granted.Some? ==> Begins(s.rows[s.calls[id].key], granted.value, token)
    ensures Inv(BeginStep(s, id, token, granted, pc))
  {
    hide Inv; hide Begins;
    IssueKeepsInv(s, id, token);
    var s1 := s.(issued := s.issued[token := id]);
    if granted.Some? {
      GrantKeepsInv(s1, id, token, granted.value, pc);
    } else {
      MoveKeepsInv(s1, id, Raised, []);
      assert Move(s1, id, Raised) == Move(s1, id, Raised).(log := s1.log + []);
    }
  }

  /** What the two ways of beginning have in common. */
  predicate Begins(row: Row, row': Row, token: Token) {
    && RowKept(row, row')
    && (row.status == PENDING || row.status == FAILED || row.status == RUNNING)
    && row'.status == RUNNING
    && row'.executionId == Some(token)
    && row'.attempts == (if row.status == RUNNING then row.attempts else row.attempts + 1)
    && (row.status != RUNNING ==> row.attempts < row.maxAttempts || row.attempts == 0)
  }

  lemma BothBegin(row: Row, n: int, token: Token)
    ensures BeginAttempt(row, n, token).Some? ==> Begins(row, BeginAttempt(row, n, token).value, token)
    ensures BeginSideEffectOnce(row, token).Some? ==> Begins(row, BeginSideEffectOnce(row, token).value, token)
  {
  }

  /** Marks addressed by idempotency key touch at most the row of the call that makes them. */
  lemma MarkTouchesOwnRow(s: System, id: nat, token: Token, write: Write)
    requires Inv(s) && id in s.calls && s.calls[id].kind.ToolCall? && s.calls[id].key in s.rows
    requires Owns(s, id, token) || Fallthrough(s, s.calls[id].key, token)
    ensures var key := s.calls[id].key;
            var keys := Addressed(s.rows, key.run, s.calls[id].kind.durableKey, token, write);
            keys == {} || (keys == {key} && CanWrite(s.rows[key], token, write) && Owns(s, id, token))
  {
    var key := s.calls[id].key;
    var keys := Addressed(s.rows, key.run, s.calls[id].kind.durableKey, token, write);
    assert IssuedOk(s, "");
    assert KeyOk(s, key);
    forall k | k in keys ensures k == key && Owns(s, id, token) {
      assert KeyOk(s, k);
    }
    if k :| k in keys { assert keys == {key}; }
  }

  lemma MarkKeepsInv(s: System, id: nat, token: Token, write: Write, accepted: Pc)
    requires Inv(s) && id in s.calls && s.calls[id].kind.ToolCall? && AcceptedPc(accepted, token, write)
    requires s.calls[id].key in s.rows && !s.calls[id].pc.Cleared? && !s.calls[id].pc.Raised?
    requires Owns(s, id, token) || Fallthrough(s, s.calls[id].key, token)
    ensures Inv(MarkStep(s, id, token, write, accepted))
  {
    var key := s.calls[id].key;
    var keys := Addressed(s.rows, key.run, s.calls[id].kind.durableKey, token, write);
    MarkTouchesOwnRow(s, id, token, write);
    if keys == {} {
      assert WriteAll(s.rows, keys, write) == s.rows;
      MoveKeepsInv(s, id, Raised, []);
      assert MarkStep(s, id, token, write, accepted) == Move(s, id, Raised).(log := s.log + []);
    } else {
      assert WriteAll(s.rows, keys, write) == s.rows[key := Written(s.rows[key], write)];
      WriteKeepsInv(s, id, token, write, accepted);
    }
  }

  /** The external call itself. */
  lemma InvokeKeepsInv(s: System, id: nat)
    requires Inv(s) && id in s.calls && s.calls[id].pc.Cleared?
    ensures Inv(Step(s, Invoke(id)))
  {
    hide Charged; hide LastBegun; hide Invocations;
    var s' := Step(s, Invoke(id));
    var key := s.calls[id].key;
    var e := Invoked(key);
    assert s' == Move(s, id, Calling(s.calls[id].pc.token)).(log := s.log + [e]);
    hide Step;
    assert Extends(s, s');
    assert CallOk(s, id) && KeyOk(s, key);
    forall k ensures KeyOk(s', k) {
      Appended(s.log, e, k);
      assert KeyOk(s, k);
      if k != key { UntouchedKey(s, s', k); }
    }
    forall j ensures CallOk(s', j) {
      assert CallOk(s, j);
      if j in s.calls {
        Appended(s.log, e, s.calls[j].key);
        if j != id { UntouchedCall(s, s', j); }
      }
    }
    forall i: nat ensures EntryOk(s', i) {
      if i < |s.log| {
        assert EntryOk(s, i);
        OldEntry(s, s', i);
      }
    }
    forall t ensures IssuedOk(s', t) { assert IssuedOk(s, t); }
  }

  lemma RetryKeepsInv(s: System, run: string)
    requires Inv(s)
    ensures Inv(Step(s, OperatorRetry(run)))
  {
    hide Charged; hide LastBegun; hide Invocations;
    var s' := Step(s, OperatorRetry(run));
    var e := ResetRows(FailedKeys(s.rows, run));
    assert Extends(s, s');
    forall k ensures KeyOk(s', k) {
      Appended(s.log, e, k);
      assert KeyOk(s, k);
    }
    forall j ensures CallOk(s', j) {
      assert CallOk(s, j);
      if j in s.calls {
        Appended(s.log, e, s.calls[j].key);
        UntouchedCall(s, s', j);
      }
    }
    forall i: nat ensures EntryOk(s', i) {
      if i < |s.log| {
        assert EntryOk(s, i);
        OldEntry(s, s', i);
      }
    }
    forall t ensures IssuedOk(s', t) { assert IssuedOk(s, t); }
  }

  /** A new call, and possibly a new row in its initial state. */
  lemma OpenKeepsInv(s: System, id: nat, c: Call, row: Row)
    requires Inv(s) && id !in s.calls
    requires c.pc.Raised? || (c.pc.Loaded? && (c.kind.StageCall? ==> row.identity == c.kind.identity))
    requires c.key !in s.rows ==> exists x, i, m :: 1 <= m && row == NewRow(x, i, m)
    requires c.key in s.rows ==> row == s.rows[c.key]
    ensures Inv(s.(rows := s.rows[c.key := row], calls := s.calls[id := c]))
  {
    hide Charged; hide LastBegun; hide Invocations;
    var s' := s.(rows := s.rows[c.key := row], calls := s.calls[id := c]);
    assert Extends(s, s');
    forall k ensures KeyOk(s', k) {
      assert KeyOk(s, k);
      if k != c.key || k in s.rows { UntouchedKey(s, s', k); }
    }
    forall j ensures CallOk(s', j) {
      assert CallOk(s, j);
      if j in s.calls { UntouchedCall(s, s', j); }
    }
    forall i: nat ensures EntryOk(s', i) {
      assert EntryOk(s, i);
      if i < |s.log| { OldEntry(s, s', i); }
    }
    forall t ensures IssuedOk(s', t) { assert IssuedOk(s, t); }
  }

  lemma CommitKeepsInv(s: System, id: nat, token: Token, write: Write, accepted: Pc, refused: Pc)
    requires Inv(s) && id in s.calls && Owns(s, id, token) && AcceptedPc(accepted, token, write)
    requires refused == Raised || refused == Refused(token) || refused == Operating(token)
    requires s.calls[id].key in s.rows && !s.calls[id].pc.Cleared? && !s.calls[id].pc.Raised?
    ensures Inv(WriteStep(s, id, token, write, accepted, refused))
  {
    hide Inv; hide AcceptedPc; hide Written; hide Accepts;
    if CanWrite(s.rows[s.calls[id].key], token, write) {
      WriteKeepsInv(s, id, token, write, accepted);
    } else {
      MoveKeepsInv(s, id, refused, []);
      assert Move(s, id, refused) == Move(s, id, refused).(log := s.log + []);
    }
  }

  /** Returning the output just committed. */
  lemma SuccessKeepsInv(s: System, id: nat, token: Token, output: Value, refused: Pc)
    requires Inv(s) && id in s.calls && Owns(s, id, token)
    requires s.calls[id].key in s.rows && !s.calls[id].pc.Cleared? && !s.calls[id].pc.Raised?
    requires s.calls[id].kind.StageCall? ==> s.rows[s.calls[id].key].identity == s.calls[id].kind.identity
    requires refused == Raised || refused == Refused(token)
    ensures var s1 := WriteStep(s, id, token, Success(output), Returned(output), refused);
            Inv(if s1.calls[id].pc.Returned? then Finish(s1, id, output) else s1)
  {
    var s1 := WriteStep(s, id, token, Success(output), Returned(output), refused);
    CommitKeepsInv(s, id, token, Success(output), Returned(output), refused);
    if s1.calls[id].pc.Returned? {
      var c := s1.calls[id];
      MoveKeepsInv(s1, id, Returned(output), [Answer(c.key, c.kind, output)]);
    }
  }
}

/**
 * One Pi attempt: the loop that reads the worker's records, the capability handlers it starts, and the exit path.
 * Handlers run as tasks of one event loop, so each stretch between two awaits is one event; any order of events is
 * allowed. `Trouble` stands for what can raise inside such a stretch: bad metrics, the store, the log.
 */
module PiTurns {
  import opened Common

  datatype Limits = Limits(turns: nat, toolCalls: nat, parallel: nat)
  const MAX_PENDING := 128

  datatype Status = Started | Succeeded | Failed
  datatype Reason = Stop | ToolUse | Length | Error | Aborted
  datatype Call = Call(status: Status, reason: Option<Reason>)

  type Key = (int, string)

  /** A request record; `reason` is `None` when it is none of the five, `known` says that the tool exists. */
  datatype Record =
    | PrepareRequest(turn: int)
    | ModelEnd(turn: int, reason: Option<Reason>)
    | ToolCall(turn: int, known: bool, id: string)
    | Other(turn: int)

  /** What the handlers share; `handled` lists the tool calls taken on, in order. */
  datatype Core = Core(
    active: map<int, Call>, unfinished: set<int>, identities: set<Key>, running: set<Key>, handled: seq<Key>)

  datatype Trouble = Smooth | Early | Late | Last

  /** How the first stretch of a handler ends. */
  datatype Next = Fail | Respond | WaitForSlot(key: Key)

  function Ended(reason: Reason): Call {
    Call(if reason == Error || reason == Aborted || reason == Length then Failed else Succeeded, Some(reason))
  }

  predicate ToolCallFits(c: Core, l: Limits, r: Record)
    requires r.ToolCall?
  {
    && 1 <= r.turn <= l.turns
    && r.turn == |c.active| && r.turn !in c.unfinished && r.turn in c.active
    && c.active[r.turn].status == Succeeded && c.active[r.turn].reason == Some(ToolUse)
    && r.known && r.id != ""
    && (r.turn, r.id) !in c.identities && |c.identities| < l.toolCalls
  }

  predicate PrepareFits(c: Core, l: Limits, turn: int) {
    1 <= turn <= l.turns && turn == |c.active| + 1 && c.unfinished == {} && c.running == {}
  }

  predicate ModelEndFits(c: Core, l: Limits, r: Record)
    requires r.ModelEnd?
  {
    && 1 <= r.turn <= l.turns && r.turn in c.unfinished && r.turn in c.active
    && c.active[r.turn].status == Started && r.reason.Some?
  }

  /** `handle`, up to its first await. */
  function Handle(c: Core, l: Limits, r: Record, t: Trouble): (Core, Next) {
    match r
    case ToolCall(turn, _, id) =>
      if ToolCallFits(c, l, r) then
        (c.(identities := c.identities + {(turn, id)},
            running := c.running + {(turn, id)},
            handled := c.handled + [(turn, id)]),
         WaitForSlot((turn, id)))
      else (c, Fail)
    case PrepareRequest(turn) =>
      if PrepareFits(c, l, turn) && t != Early then
        (c.(active := c.active[turn := Call(Started, None)], unfinished := c.unfinished + {turn}),
         if t == Smooth then Respond else Fail)
      else (c, Fail)
    case ModelEnd(turn, reason) =>
      if ModelEndFits(c, l, r) && t != Early then
        var c' := c.(active := c.active[turn := Ended(reason.value)]);
        if t == Late then (c', Fail)
        else (c'.(unfinished := c.unfinished - {turn}), if t == Smooth then Respond else Fail)
      else (c, Fail)
    case Other(_) => (c, Fail)
  }

  datatype Pc = Queued(record: Record) | Waiting(key: Key) | Calling(key: Key) | Writing

  /** `Cleaning` holds the worker's turn count when the loop returned a result, nothing when it raised. */
  datatype Phase = Looping | Cleaning(result: Option<int>) | Accepted(turns: int) | Exited

  /** `answered` counts the responses written. */
  datatype State = State(
    core: Core, slots: nat, handlers: map<nat, Pc>, sequence: nat, answered: nat, failed: bool, phase: Phase)

  datatype Event =
    | Receive(id: int, record: Record)
    | Begin(h: nat, trouble: Trouble)
    | Acquire(h: nat, ok: bool)
    | Finish(h: nat, ok: bool)
    | Wrote(h: nat, ok: bool)
    | Cancel(h: nat)              // cleanup interrupts the handler at its await
    | Result(turns: int)
    | Raise                       // cancellation, a failed handler, a bad record, end of file
    | Close(ok: bool)             // cleanup is over; `ok` is false if the output is refused or the task was interrupted

  function Init(l: Limits): State {
    State(Core(map[], {}, {}, {}, []), l.parallel, map[], 0, 0, false, Looping)
  }

  /** The handler is done with its tool: the key stops running and, if it held one, the slot is free again. */
  function Drop(s: State, h: nat, next: Option<Pc>): State
    requires h in s.handlers
  {
    var pc := s.handlers[h];
    s.(core := if pc.Waiting? || pc.Calling? then s.core.(running := s.core.running - {pc.key}) else s.core,
       slots := if pc.Calling? then s.slots + 1 else s.slots,
       handlers := if next.Some? then s.handlers[h := next.value] else s.handlers - {h},
       failed := s.failed || (next.None? && !pc.Queued?))
  }

  function HandlerStep(s: State, l: Limits, e: Event): State
    requires (e.Begin? || e.Acquire? || e.Finish? || e.Wrote? || e.Cancel?) && e.h in s.handlers
  {
    var pc := s.handlers[e.h];
    match e
    case Begin(h, trouble) =>
      if !pc.Queued? then s
      else
        var (core, next) := Handle(s.core, l, pc.record, trouble);
        if next.Fail? then s.(core := core, handlers := s.handlers - {h}, failed := true)
        else s.(core := core, handlers := s.handlers[h := if next.Respond? then Writing else Waiting(next.key)])
    case Acquire(h, ok) =>
      if !pc.Waiting? || s.slots == 0 then s
      else if ok then s.(slots := s.slots - 1, handlers := s.handlers[h := Calling(pc.key)])
      else Drop(s, h, None)
    case Finish(h, ok) => if pc.Calling? then Drop(s, h, if ok then Some(Writing) else None) else s
    case Wrote(h, ok) =>
      if pc.Writing? then
        s.(handlers := s.handlers - {h},
           failed := s.failed || !ok,
           answered := if ok then s.answered + 1 else s.answered)
      else s
    case Cancel(h) => if s.phase.Cleaning? then Drop(s, h, None) else s
  }

  /** The result is accepted only if it fits the turns. */
  predicate ResultFits(c: Core, turns: int) {
    && c.active != map[] && c.unfinished == {} && turns == |c.active|
    && |c.active| in c.active
    && c.active[|c.active|] == Call(Succeeded, Some(Stop))
  }

  /** The exception path marks every unfinished call failed. */
  function Interrupted(c: Core): map<int, Call> {
    map t | t in c.active :: if t in c.unfinished then c.active[t].(status := Failed) else c.active[t]
  }

  function Step(s: State, l: Limits, e: Event): State {
    match e
    case Receive(id, record) =>
      if s.phase != Looping || s.failed then s
      else if id != s.sequence + 1 then s.(phase := Cleaning(None))
      else if |s.handlers| >= MAX_PENDING then s.(sequence := s.sequence + 1, phase := Cleaning(None))
      else s.(sequence := s.sequence + 1, handlers := s.handlers[s.sequence + 1 := Queued(record)])
    case Result(turns) =>
      if s.phase != Looping || s.failed then s
      else s.(phase := Cleaning(if s.handlers == map[] && turns >= 0 then Some(turns) else None))
    case Raise => if s.phase == Looping then s.(phase := Cleaning(None)) else s
    case Close(ok) =>
      if !s.phase.Cleaning? || s.handlers != map[] then s
      else if s.phase.result.Some? && ok && ResultFits(s.core, s.phase.result.value) then
        s.(phase := Accepted(s.phase.result.value))
      else s.(phase := Exited, core := s.core.(active := Interrupted(s.core)))
    case _ => if e.h in s.handlers then HandlerStep(s, l, e) else s
  }

  function Run(s: State, l: Limits, es: seq<Event>): State
    decreases |es|
  {
    if es == [] then s else Run(Step(s, l, es[0]), l, es[1..])
  }

  // -- Invariant ---------------------------------------------------------------------------------------------

  /** The turns are exactly 1..n, at most the last is open, and tools run only for a last turn that asked for them. */
  ghost predicate TurnsOk(c: Core, l: Limits) {
    && |c.active| <= l.turns
    && (forall t :: t in c.active <==> 1 <= t <= |c.active|)
    && (forall t :: t in c.unfinished ==> t == |c.active| && t in c.active)
    && (forall t :: t in c.active && c.active[t].status == Started ==> t in c.unfinished)
    && (forall k :: k in c.running ==> k in c.identities && k.0 == |c.active| && c.unfinished == {})
  }

  /** Each tool call is taken on once, within the budget, and for a turn that ended in tool use. */
  ghost predicate ToolsOk(c: Core, l: Limits) {
    && |c.handled| == |c.identities| <= l.toolCalls
    && (forall i :: 0 <= i < |c.handled| ==> c.handled[i] in c.identities)
    && (forall i, j :: 0 <= i < j < |c.handled| ==> c.handled[i] != c.handled[j])
    && (forall k :: k in c.identities ==>
          k.0 in c.active && k.0 !in c.unfinished && c.active[k.0] == Call(Succeeded, Some(ToolUse)))
  }

  ghost predicate CoreOk(c: Core, l: Limits) { TurnsOk(c, l) && ToolsOk(c, l) }

  predicate HasKey(pc: Pc, key: Key) { (pc.Waiting? || pc.Calling?) && pc.key == key }

  ghost predicate HandlerOk(s: State, h: nat) {
    h in s.handlers ==>
      var pc := s.handlers[h];
      && h <= s.sequence
      && (pc.Waiting? || pc.Calling? ==>
            pc.key in s.core.running && forall g: nat :: g in s.handlers && HasKey(s.handlers[g], pc.key) ==> g == h)
  }

  ghost predicate RunningOk(s: State, key: Key) {
    key in s.core.running ==> exists h: nat :: h in s.handlers && HasKey(s.handlers[h], key)
  }

  function Callers(handlers: map<nat, Pc>): set<nat> { set h | h in handlers && handlers[h].Calling? }

  predicate Returned(phase: Phase) { (phase.Cleaning? && phase.result.Some?) || phase.Accepted? }

  ghost predicate Inv(s: State, l: Limits) {
    && CoreOk(s.core, l)
    && (forall h: nat :: HandlerOk(s, h))
    && (forall key :: RunningOk(s, key))
    && |Callers(s.handlers)| + s.slots == l.parallel
    && |s.handlers| <= MAX_PENDING
    && (s.phase.Exited? || s.phase.Accepted? ==>
          && s.handlers == map[]
          && forall t :: t in s.core.active ==> s.core.active[t].status != Started)
    && (s.phase.Cleaning? && s.phase.result.Some? ==> s.handlers == map[])
    && (s.phase.Accepted? ==> ResultFits(s.core, s.phase.turns))
    && (Returned(s.phase) ==> !s.failed)
    && ((s.phase.Looping? && !s.failed) || Returned(s.phase) ==> s.answered + |s.handlers| == s.sequence)
  }

  lemma PrepareKeepsCore(c: Core, l: Limits, turn: int)
    requires CoreOk(c, l) && PrepareFits(c, l, turn)
    ensures CoreOk(c.(active := c.active[turn := Call(Started, None)], unfinished := c.unfinished + {turn}), l)
  {
    PrepareKeepsTurns(c, l, turn);
    hide TurnsOk;
    assert turn !in c.active by { TurnsCount(c, l); }
  }

  lemma TurnsCount(c: Core, l: Limits)
    requires TurnsOk(c, l)
    ensures |c.active| + 1 !in c.active
  {
  }

  lemma PrepareKeepsTurns(c: Core, l: Limits, turn: int)
    requires TurnsOk(c, l) && PrepareFits(c, l, turn)
    ensures TurnsOk(c.(active := c.active[turn := Call(Started, None)], unfinished := c.unfinished + {turn}), l)
  {
    var active := c.active[turn := Call(Started, None)];
    assert active.Keys == c.active.Keys + {turn};
    assert |active| == |c.active| + 1 == turn;
    forall t ensures t in active <==> 1 <= t <= |active| {
      assert t in active <==> t in c.active || t == turn;
    }
    forall t | t in active && active[t].status == Started ensures t in c.unfinished + {turn} {
      assert t == turn || t in c.active;
    }
  }

  lemma ModelEndKeepsCore(c: Core, l: Limits, turn: int, call: Call, closed: bool)
    requires CoreOk(c, l) && turn in c.unfinished && call.status != Started
    ensures var unfinished := if closed then c.unfinished - {turn} else c.unfinished;
            CoreOk(c.(active := c.active[turn := call], unfinished := unfinished), l)
  {
    assert c.active[turn := call].Keys == c.active.Keys;
  }

  lemma ToolCallKeepsCore(c: Core, l: Limits, r: Record)
    requires CoreOk(c, l) && r.ToolCall? && ToolCallFits(c, l, r)
    ensures CoreOk(Handle(c, l, r, Smooth).0, l)
  {
    assert forall t :: t in c.unfinished ==> t == r.turn;
  }

  lemma HandleKeepsCore(c: Core, l: Limits, r: Record, t: Trouble)
    requires CoreOk(c, l)
    ensures CoreOk(Handle(c, l, r, t).0, l)
    ensures var (c', next) := Handle(c, l, r, t);
            if next.WaitForSlot? then next.key !in c.running && c'.running == c.running + {next.key}
            else c'.running == c.running
  {
    hide CoreOk;
    match r
    case ToolCall(_, _, _) => if ToolCallFits(c, l, r) { ToolCallKeepsCore(c, l, r); Fresh(c, l, r); }
    case PrepareRequest(turn) => if PrepareFits(c, l, turn) { PrepareKeepsCore(c, l, turn); }
    case ModelEnd(turn, reason) =>
      if ModelEndFits(c, l, r) {
        ModelEndKeepsCore(c, l, turn, Ended(reason.value), true);
        ModelEndKeepsCore(c, l, turn, Ended(reason.value), false);
      }
    case Other(_) =>
  }

  lemma Fresh(c: Core, l: Limits, r: Record)
    requires CoreOk(c, l) && r.ToolCall? && (r.turn, r.id) !in c.identities
    ensures (r.turn, r.id) !in c.running
  {
  }

  lemma FewerRunning(c: Core, l: Limits, key: Key)
    requires CoreOk(c, l)
    ensures CoreOk(c.(running := c.running - {key}), l)
  {
  }

  /** A handler leaves the set, or moves to `pc`, without holding a slot before or after. */
  lemma CallersSame(handlers: map<nat, Pc>, h: nat, pc: Pc)
    requires h in handlers ==> !handlers[h].Calling?
    requires !pc.Calling?
    ensures Callers(handlers - {h}) == Callers(handlers) == Callers(handlers[h := pc])
  {
  }

  lemma CallersMore(handlers: map<nat, Pc>, h: nat, key: Key)
    requires h in handlers && !handlers[h].Calling?
    ensures |Callers(handlers[h := Calling(key)])| == |Callers(handlers)| + 1
  {
    assert Callers(handlers[h := Calling(key)]) == Callers(handlers) + {h};
  }

  lemma CallersFewer(handlers: map<nat, Pc>, h: nat, pc: Pc)
    requires h in handlers && handlers[h].Calling? && !pc.Calling?
    ensures |Callers(handlers - {h})| == |Callers(handlers)| - 1 == |Callers(handlers[h := pc])|
  {
    assert Callers(handlers - {h}) == Callers(handlers) - {h} == Callers(handlers[h := pc]);
  }

  lemma HandlerCounts(handlers: map<nat, Pc>, h: nat, pc: Pc)
    ensures h in handlers ==> |handlers - {h}| + 1 == |handlers| == |handlers[h := pc]|
    ensures h !in handlers ==> |handlers[h := pc]| == |handlers| + 1
  {
    if h in handlers {
      assert (handlers - {h}).Keys == handlers.Keys - {h};
      assert handlers[h := pc].Keys == handlers.Keys;
    } else {
      assert handlers[h := pc].Keys == handlers.Keys + {h};
    }
  }

  /** Only handler `h` changed, and only its own key came or went. */
  ghost predicate Local(s: State, s': State, h: nat) {
    && s'.sequence >= s.sequence
    && (forall g: nat :: g != h ==> (g in s.handlers <==> g in s'.handlers))
    && (forall g: nat :: g != h && g in s.handlers ==> s'.handlers[g] == s.handlers[g])
    && (forall k :: (h in s.handlers ==> !HasKey(s.handlers[h], k)) && (h in s'.handlers ==> !HasKey(s'.handlers[h], k))
                    ==> (k in s.core.running <==> k in s'.core.running))
    && (h in s.handlers && h in s'.handlers && (s'.handlers[h].Waiting? || s'.handlers[h].Calling?) ==>
          s'.handlers[h].key in s'.core.running
          && (s'.handlers[h].key in s.core.running ==> HasKey(s.handlers[h], s'.handlers[h].key)))
    && (forall k :: h in s.handlers && HasKey(s.handlers[h], k) && (h in s'.handlers ==> !HasKey(s'.handlers[h], k))
                    ==> k !in s'.core.running)
    && (h !in s.handlers && h in s'.handlers ==> s'.handlers[h].Queued? && h <= s'.sequence)
  }

  lemma LocalKeepsHandlers(s: State, s': State, h: nat)
    requires Local(s, s', h) && (forall g: nat :: HandlerOk(s, g)) && (forall key :: RunningOk(s, key))
    ensures (forall g: nat :: HandlerOk(s', g)) && (forall key :: RunningOk(s', key))
  {
    assert HandlerOk(s, h);
    forall g: nat ensures HandlerOk(s', g) {
      assert HandlerOk(s, g);
      if g == h && g in s'.handlers && (s'.handlers[g].Waiting? || s'.handlers[g].Calling?) {
        forall o: nat | o in s'.handlers && HasKey(s'.handlers[o], s'.handlers[g].key) ensures o == g {
          assert HandlerOk(s, o);
        }
      }
    }
    forall key ensures RunningOk(s', key) {
      assert RunningOk(s, key);
      if key in s'.core.running {
        if h in s'.handlers && HasKey(s'.handlers[h], key) {
        } else {
          assert key in s.core.running;
          var g: nat :| g in s.handlers && HasKey(s.handlers[g], key);
          assert g in s'.handlers && HasKey(s'.handlers[g], key);
        }
      }
    }
  }

  lemma SameHandlers(s: State, s': State)
    requires s'.handlers == s.handlers && s'.core.running == s.core.running && s'.sequence >= s.sequence
    requires (forall g: nat :: HandlerOk(s, g)) && (forall key :: RunningOk(s, key))
    ensures (forall g: nat :: HandlerOk(s', g)) && (forall key :: RunningOk(s', key))
  {
    forall g: nat ensures HandlerOk(s', g) { assert HandlerOk(s, g); }
    forall key ensures RunningOk(s', key) { assert RunningOk(s, key); }
  }

  lemma BeginKeepsInv(s: State, l: Limits, e: Event)
    requires Inv(s, l) && e.Begin? && e.h in s.handlers && !s.phase.Exited? && !s.phase.Accepted?
    ensures Inv(HandlerStep(s, l, e), l)
  {
    hide CoreOk; hide Handle; hide Callers; hide ResultFits;
    var s' := HandlerStep(s, l, e);
    if s.handlers[e.h].Queued? {
      var (core, next) := Handle(s.core, l, s.handlers[e.h].record, e.trouble);
      HandleKeepsCore(s.core, l, s.handlers[e.h].record, e.trouble);
      HandlerCounts(s.handlers, e.h, Writing);
      if next.WaitForSlot? {
        HandlerCounts(s.handlers, e.h, Waiting(next.key));
        CallersSame(s.handlers, e.h, Waiting(next.key));
      } else {
        CallersSame(s.handlers, e.h, Writing);
      }
      assert Local(s, s', e.h);
      LocalKeepsHandlers(s, s', e.h);
    }
  }

  lemma DropKeepsInv(s: State, l: Limits, h: nat, next: Option<Pc>)
    requires Inv(s, l) && h in s.handlers && !s.phase.Exited? && !s.phase.Accepted?
    requires next.Some? ==> next.value == Writing
    requires s.handlers[h].Queued? ==> s.phase.Cleaning?
    ensures Inv(Drop(s, h, next), l)
  {
    hide CoreOk; hide Callers; hide ResultFits;
    var s' := Drop(s, h, next);
    assert HandlerOk(s, h);
    HandlerCounts(s.handlers, h, Writing);
    var pc := s.handlers[h];
    if pc.Calling? { CallersFewer(s.handlers, h, Writing); } else { CallersSame(s.handlers, h, Writing); }
    if pc.Waiting? || pc.Calling? { FewerRunning(s.core, l, pc.key); }
    assert Local(s, s', h);
    LocalKeepsHandlers(s, s', h);
  }

  lemma AcquireKeepsInv(s: State, l: Limits, e: Event)
    requires Inv(s, l) && e.Acquire? && e.h in s.handlers && s.handlers[e.h].Waiting? && s.slots > 0 && e.ok
    ensures Inv(HandlerStep(s, l, e), l)
  {
    hide CoreOk; hide Callers; hide ResultFits; hide Handle; hide Drop;
    var s', key := HandlerStep(s, l, e), s.handlers[e.h].key;
    assert s.handlers != map[];
    CallersMore(s.handlers, e.h, key);
    HandlerCounts(s.handlers, e.h, Calling(key));
    assert HandlerOk(s, e.h);
    assert Local(s, s', e.h);
    LocalKeepsHandlers(s, s', e.h);
  }

  lemma WroteKeepsInv(s: State, l: Limits, e: Event)
    requires Inv(s, l) && e.Wrote? && e.h in s.handlers
    ensures Inv(HandlerStep(s, l, e), l)
  {
    hide CoreOk; hide Callers; hide ResultFits; hide Handle; hide Drop;
    var s' := HandlerStep(s, l, e);
    assert s.handlers != map[];
    if s.handlers[e.h].Writing? {
      CallersSame(s.handlers, e.h, Writing);
      HandlerCounts(s.handlers, e.h, Writing);
      assert Local(s, s', e.h);
      LocalKeepsHandlers(s, s', e.h);
    }
  }

  lemma HandlerStepKeepsInv(s: State, l: Limits, e: Event)
    requires Inv(s, l) && (e.Begin? || e.Acquire? || e.Finish? || e.Wrote? || e.Cancel?) && e.h in s.handlers
    ensures Inv(HandlerStep(s, l, e), l)
  {
    hide CoreOk; hide Callers; hide ResultFits; hide Handle; hide Drop;
    var s', pc := HandlerStep(s, l, e), s.handlers[e.h];
    assert s.handlers != map[];
    if e.Begin? { BeginKeepsInv(s, l, e); }
    else if e.Acquire? && pc.Waiting? && s.slots > 0 && e.ok { AcquireKeepsInv(s, l, e); }
    else if e.Wrote? { WroteKeepsInv(s, l, e); }
    else if s' != s { DropKeepsInv(s, l, e.h, if e.Finish? && e.ok then Some(Writing) else None); }
  }

  lemma LoopKeepsInv(s: State, l: Limits, e: Event)
    requires Inv(s, l) && (e.Receive? || e.Result? || e.Raise?)
    ensures Inv(Step(s, l, e), l)
  {
    hide CoreOk; hide Callers; hide ResultFits;
    var s' := Step(s, l, e);
    var h := s.sequence + 1;
    assert HandlerOk(s, h) && h !in s.handlers;
    if s'.handlers != s.handlers {
      CallersSame(s.handlers, h, Queued(e.record));
      HandlerCounts(s.handlers, h, Queued(e.record));
      assert Local(s, s', h);
      LocalKeepsHandlers(s, s', h);
    } else {
      SameHandlers(s, s');
    }
  }

  lemma InterruptKeepsCore(c: Core, l: Limits)
    requires CoreOk(c, l)
    ensures CoreOk(c.(active := Interrupted(c)), l)
    ensures forall t :: t in c.active ==> Interrupted(c)[t].status != Started
  {
    assert Interrupted(c).Keys == c.active.Keys;
  }

  lemma FittingHasNoneStarted(c: Core, l: Limits)
    requires CoreOk(c, l) && c.unfinished == {}
    ensures forall t :: t in c.active ==> c.active[t].status != Started
  {
  }

  lemma CloseKeepsInv(s: State, l: Limits, ok: bool)
    requires Inv(s, l)
    ensures Inv(Step(s, l, Close(ok)), l)
  {
    hide CoreOk; hide Callers;
    var s' := Step(s, l, Close(ok));
    InterruptKeepsCore(s.core, l);
    if s.core.unfinished == {} { FittingHasNoneStarted(s.core, l); }
    SameHandlers(s, s');
  }

  lemma StepKeepsInv(s: State, l: Limits, e: Event)
    requires Inv(s, l)
    ensures Inv(Step(s, l, e), l)
  {
    hide Inv; hide HandlerStep;
    if e.Receive? || e.Result? || e.Raise? { LoopKeepsInv(s, l, e); }
    else if e.Close? { CloseKeepsInv(s, l, e.ok); }
    else if e.h in s.handlers { HandlerStepKeepsInv(s, l, e); }
  }

  lemma {:induction false} RunKeepsInv(s: State, l: Limits, es: seq<Event>)
    requires Inv(s, l)
    ensures Inv(Run(s, l, es), l)
    decreases |es|
  {
    hide Inv; hide Step;
    if es != [] {
      StepKeepsInv(s, l, es[0]);
      RunKeepsInv(Step(s, l, es[0]), l, es[1..]);
    }
  }

  lemma Reachable(l: Limits, es: seq<Event>)
    ensures Inv(Run(Init(l), l, es), l)
  {
    assert Callers(Init(l).handlers) == {};
    assert Inv(Init(l), l);
    RunKeepsInv(Init(l), l, es);
  }

  // -- What every run keeps ----------------------------------------------------------------------------------

  /**
   * The turns prepared are 1..n within the budget; only the last may be open; tools run only while no model call is
   * open.
   */
  lemma TurnOrder(l: Limits, es: seq<Event>)
    ensures var c := Run(Init(l), l, es).core;
            && |c.active| <= l.turns
            && (forall t :: t in c.active <==> 1 <= t <= |c.active|)
            && (forall t :: t in c.unfinished ==> t == |c.active|)
            && (c.running != {} ==> c.unfinished == {})
            && (forall k :: k in c.running ==>
                  k.0 == |c.active| && k.0 in c.active && c.active[k.0] == Call(Succeeded, Some(ToolUse)))
  {
    hide Run;
    Reachable(l, es);
  }

  /** No tool call is taken on twice, and calls, parallel calls and pending requests stay within their limits. */
  lemma ToolBudgets(l: Limits, es: seq<Event>)
    ensures var s := Run(Init(l), l, es);
            && |s.core.handled| <= l.toolCalls
            && (forall i, j :: 0 <= i < j < |s.core.handled| ==> s.core.handled[i] != s.core.handled[j])
            && (forall i :: 0 <= i < |s.core.handled| ==>
                  var t := s.core.handled[i].0;
                  t in s.core.active && s.core.active[t] == Call(Succeeded, Some(ToolUse)))
            && |Callers(s.handlers)| <= l.parallel
            && |s.handlers| <= MAX_PENDING
  {
    hide Run; hide Callers;
    Reachable(l, es);
  }

  /** Whichever way the attempt ends, no call is left started, no handler pending and no tool running. */
  lemma ExitCloses(l: Limits, es: seq<Event>)
    requires var s := Run(Init(l), l, es); s.phase.Exited? || s.phase.Accepted?
    ensures var s := Run(Init(l), l, es);
            && (forall t :: t in s.core.active ==> s.core.active[t].status != Started)
            && s.handlers == map[] && s.core.running == {} && s.slots == l.parallel
  {
    hide Run;
    Reachable(l, es);
    var s := Run(Init(l), l, es);
    assert Callers(s.handlers) == {};
    forall k ensures k !in s.core.running { assert RunningOk(s, k); }
  }

  /**
   * An accepted result has every turn closed, the last one ended with "stop", the right count, and every request
   * answered.
   */
  lemma AcceptedResult(l: Limits, es: seq<Event>)
    requires Run(Init(l), l, es).phase.Accepted?
    ensures var s := Run(Init(l), l, es);
            && 1 <= s.phase.turns == |s.core.active| <= l.turns
            && s.core.unfinished == {} && s.core.running == {} && s.handlers == map[]
            && s.phase.turns in s.core.active && s.core.active[s.phase.turns] == Call(Succeeded, Some(Stop))
            && !s.failed && s.answered == s.sequence
  {
    hide Run;
    Reachable(l, es);
    ExitCloses(l, es);
  }

  /** `c'` keeps every finished turn of `c` as it was, and every tool call taken on. */
  ghost predicate Extends(c: Core, c': Core) {
    && (forall t :: t in c.active && t !in c.unfinished ==>
          t in c'.active && t !in c'.unfinished && c'.active[t] == c.active[t])
    && c.handled <= c'.handled
  }

  lemma HandleExtends(c: Core, l: Limits, r: Record, t: Trouble)
    requires CoreOk(c, l)
    ensures Extends(c, Handle(c, l, r, t).0)
  {
  }

  lemma StepExtends(s: State, l: Limits, e: Event)
    requires Inv(s, l)
    ensures Extends(s.core, Step(s, l, e).core)
  {
    hide Handle; hide CoreOk; hide Callers;
    if e.Begin? && e.h in s.handlers && s.handlers[e.h].Queued? {
      HandleExtends(s.core, l, s.handlers[e.h].record, e.trouble);
    }
  }

  /** A finished turn is never reopened or rewritten, whatever follows, and no tool call is forgotten. */
  lemma {:induction false} FinishedTurnsAreFrozen(s: State, l: Limits, es: seq<Event>)
    requires Inv(s, l)
    ensures Extends(s.core, Run(s, l, es).core)
    decreases |es|
  {
    hide Inv; hide Step;
    if es != [] {
      StepKeepsInv(s, l, es[0]);
      StepExtends(s, l, es[0]);
      FinishedTurnsAreFrozen(Step(s, l, es[0]), l, es[1..]);
    }
  }
}

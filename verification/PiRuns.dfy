/** Which requests a Pi attempt takes, what it records for them, and which results it accepts. */
module PiRuns {
  import opened Common
  import opened PiTurns

  // -- Requests ------------------------------------------------------------------------------------------------

  /** A request is handed to a handler exactly if its id is the next one and fewer than 128 are pending. */
  lemma RequestIsTakenIff(s: State, l: Limits, id: int, r: Record)
    requires s.phase.Looping? && !s.failed
    ensures var s' := Step(s, l, Receive(id, r));
            if id == s.sequence + 1 && |s.handlers| < 128
            then s' == s.(sequence := s.sequence + 1, handlers := s.handlers[s.sequence + 1 := Queued(r)])
            else s'.phase == Cleaning(None) && s'.core == s.core && s'.handlers == s.handlers
  {
  }

  /** A turn is opened exactly if it is the next one, within the budget, with no turn open and no tool running. */
  lemma TurnOpensIff(s: State, l: Limits, h: nat, turn: int)
    requires h in s.handlers && s.handlers[h] == Queued(PrepareRequest(turn))
    ensures var s' := Step(s, l, Begin(h, Smooth));
            if turn == |s.core.active| + 1 && turn <= l.turns && s.core.unfinished == {} && s.core.running == {}
            then && s'.core == s.core.(active := s.core.active[turn := Call(Started, None)], unfinished := {turn})
                 && s'.handlers == s.handlers[h := Writing] && s'.failed == s.failed
            else s'.core == s.core && s'.handlers == s.handlers - {h} && s'.failed
  {
  }

  /**
   * The end of a model call is taken exactly for an open turn whose call is started and with one of the five reasons.
   * The turn is closed and has succeeded exactly if the reason is stop or tool use.
   */
  lemma ModelEndIff(s: State, l: Limits, h: nat, turn: int, reason: Option<Reason>)
    requires Inv(s, l) && h in s.handlers && s.handlers[h] == Queued(ModelEnd(turn, reason))
    ensures var s' := Step(s, l, Begin(h, Smooth));
            if && turn in s.core.unfinished && turn in s.core.active
               && s.core.active[turn].status == Started && reason.Some?
            then && s'.core.active.Keys == s.core.active.Keys && s'.core.unfinished == s.core.unfinished - {turn}
                 && turn in s'.core.active && s'.core.active[turn].reason == reason
                 && (s'.core.active[turn].status == Succeeded <==> reason == Some(Stop) || reason == Some(ToolUse))
                 && (s'.core.active[turn].status == Failed <==>
                       reason == Some(Length) || reason == Some(Error) || reason == Some(Aborted))
                 && s'.handlers == s.handlers[h := Writing] && s'.failed == s.failed
            else s'.core == s.core && s'.handlers == s.handlers - {h} && s'.failed
  {
    hide ToolsOk; hide HandlerOk; hide RunningOk; hide Callers;
  }

  /** A tool call is taken exactly for the last turn, closed and ended in tool use, new and within the budget. */
  lemma ToolCallIff(s: State, l: Limits, h: nat, turn: int, known: bool, id: string)
    requires Inv(s, l) && h in s.handlers && s.handlers[h] == Queued(ToolCall(turn, known, id))
    ensures var s', key := Step(s, l, Begin(h, Smooth)), (turn, id);
            if && turn == |s.core.active| && turn >= 1 && turn in s.core.active && turn !in s.core.unfinished
               && s.core.active[turn] == Call(Succeeded, Some(ToolUse)) && known && id != ""
               && key !in s.core.identities && |s.core.identities| < l.toolCalls
            then && s'.core == s.core.(identities := s.core.identities + {key}, running := s.core.running + {key},
                                       handled := s.core.handled + [key])
                 && s'.handlers == s.handlers[h := Waiting(key)] && s'.failed == s.failed
            else s'.core == s.core && s'.handlers == s.handlers - {h} && s'.failed
  {
    hide ToolsOk; hide HandlerOk; hide RunningOk; hide Callers;
  }

  /**
   * A handler that raises sets the failure and is gone. Before any change it leaves nothing behind; after opening a
   * turn it leaves the turn open; in the middle of ending one it leaves the reason recorded and the turn open; at the
   * very end it leaves the turn closed.
   */
  lemma TroubleLeaves(s: State, l: Limits, h: nat, r: Record, t: Trouble)
    requires h in s.handlers && s.handlers[h] == Queued(r) && t != Smooth && (r.PrepareRequest? || r.ModelEnd?)
    ensures var smooth, s' := Step(s, l, Begin(h, Smooth)), Step(s, l, Begin(h, t));
            && s'.failed && s'.handlers == s.handlers - {h}
            && (t == Early ==> s'.core == s.core)
            && (r.PrepareRequest? && t != Early ==> s'.core == smooth.core)
            && (r.ModelEnd? && t == Last ==> s'.core == smooth.core)
            && (r.ModelEnd? && t == Late ==> s'.core == smooth.core.(unfinished := s.core.unfinished))
  {
  }

  /** Cancellation, a failed handler, a bad record or the end of the stream stop the loop without a result. */
  lemma RaiseCleans(s: State, l: Limits)
    requires s.phase.Looping?
    ensures Step(s, l, Raise) == s.(phase := Cleaning(None))
  {
  }

  // -- Exits ---------------------------------------------------------------------------------------------------

  /** A result is taken from the worker exactly if no handler is pending, and a negative count never. */
  lemma ResultIsTakenIff(s: State, l: Limits, turns: int)
    requires s.phase.Looping? && !s.failed
    ensures Step(s, l, Result(turns)).phase == Cleaning(if s.handlers == map[] && turns >= 0 then Some(turns) else None)
  {
  }

  /**
   * When cleanup is over the attempt is accepted exactly if a result was returned, nothing refused its output, every
   * turn is closed, their number is the worker's, and the last one succeeded with stop. Otherwise every call of an open
   * turn is marked failed and the others are left as they are.
   */
  lemma AcceptedIff(s: State, l: Limits, ok: bool)
    requires Inv(s, l) && s.phase.Cleaning? && s.handlers == map[]
    ensures var s', n := Step(s, l, Close(ok)), |s.core.active|;
            && (s'.phase.Accepted? <==>
                  && ok && s.phase.result == Some(n) && n >= 1 && s.core.unfinished == {}
                  && n in s.core.active && s.core.active[n] == Call(Succeeded, Some(Stop)))
            && (s'.phase.Accepted? ==> s'.phase.turns == n && s'.core == s.core)
            && (!s'.phase.Accepted? ==>
                  && s'.phase.Exited? && s'.core.active.Keys == s.core.active.Keys
                  && forall t :: t in s.core.active ==>
                       s'.core.active[t] == if t in s.core.unfinished then s.core.active[t].(status := Failed)
                                            else s.core.active[t])
  {
    hide ToolsOk; hide HandlerOk; hide RunningOk; hide Callers;
    if s.core.active == map[] { assert |s.core.active| == 0; }
  }

  // -- Whole exchanges -----------------------------------------------------------------------------------------

  /** Between exchanges: the loop is running, nothing has failed and no handler is pending. */
  predicate Idle(s: State) { s.phase.Looping? && !s.failed && s.handlers == map[] }

  /** Receiving, handling and answering a request that is responded to at once. */
  lemma Exchange(s: State, l: Limits, r: Record, core: Core)
    requires Idle(s) && Handle(s.core, l, r, Smooth) == (core, Respond)
    ensures var h := s.sequence + 1;
            var s' := Step(Step(Step(s, l, Receive(h, r)), l, Begin(h, Smooth)), l, Wrote(h, true));
            s' == s.(core := core, sequence := h, answered := s.answered + 1)
  {
    hide Handle;
    var h := s.sequence + 1;
    var a := Step(s, l, Receive(h, r));
    assert a == s.(sequence := h, handlers := map[h := Queued(r)]);
    var b := Step(a, l, Begin(h, Smooth));
    assert b == s.(core := core, sequence := h, handlers := map[h := Writing]);
    assert b.handlers - {h} == map[];
  }

  lemma RunOfThree(s: State, l: Limits, a: Event, b: Event, c: Event, rest: seq<Event>)
    ensures Run(s, l, [a, b, c] + rest) == Run(Step(Step(Step(s, l, a), l, b), l, c), l, rest)
  {
    hide Step;
    var es := [a, b, c] + rest;
    var s1 := Step(s, l, a);
    var s2 := Step(s1, l, b);
    assert es[0] == a && es[1..] == [b, c] + rest;
    assert ([b, c] + rest)[0] == b && ([b, c] + rest)[1..] == [c] + rest;
    assert ([c] + rest)[0] == c && ([c] + rest)[1..] == rest;
    assert Run(s1, l, [b, c] + rest) == Run(s2, l, [c] + rest);
  }

  lemma RunOfTwo(s: State, l: Limits, a: Event, b: Event)
    ensures Run(s, l, [a, b]) == Step(Step(s, l, a), l, b)
  {
    hide Step;
    assert [a, b][1..] == [b] && [b][1..] == [];
    var s1 := Step(s, l, a);
    assert Run(s1, l, [b]) == Run(Step(s1, l, b), l, []);
  }

  /** The next turn can be opened as long as the budget allows. */
  lemma NextTurnOpens(s: State, l: Limits)
    requires Inv(s, l) && Idle(s) && s.core.unfinished == {} && s.core.running == {} && |s.core.active| < l.turns
    ensures var n, h := |s.core.active| + 1, s.sequence + 1;
            var s' := Run(s, l, [Receive(h, PrepareRequest(n)), Begin(h, Smooth), Wrote(h, true)] + []);
            && Idle(s') && s'.core.unfinished == {n} && n in s'.core.active && s'.core.active[n] == Call(Started, None)
  {
    hide Inv;
    var n, h := |s.core.active| + 1, s.sequence + 1;
    var core := s.core.(active := s.core.active[n := Call(Started, None)], unfinished := s.core.unfinished + {n});
    Exchange(s, l, PrepareRequest(n), core);
    hide Step;
    RunOfThree(s, l, Receive(h, PrepareRequest(n)), Begin(h, Smooth), Wrote(h, true), []);
  }

  /** An open last turn that ends with stop, and a result with the right count, make the attempt accepted. */
  lemma StopIsAccepted(s: State, l: Limits)
    requires Inv(s, l) && Idle(s) && s.core.unfinished == {|s.core.active|}
    requires |s.core.active| in s.core.active && s.core.active[|s.core.active|].status == Started
    ensures var n, h := |s.core.active|, s.sequence + 1;
            var end := [Receive(h, ModelEnd(n, Some(Stop))), Begin(h, Smooth), Wrote(h, true)];
            Run(s, l, end + [Result(n), Close(true)]).phase == Accepted(n)
  {
    var n, h := |s.core.active|, s.sequence + 1;
    LastTurnIsWithin(s, l);
    hide Inv;
    var core := s.core.(active := s.core.active[n := Call(Succeeded, Some(Stop))], unfinished := {});
    assert s.core.unfinished - {n} == {};
    assert core.active.Keys == s.core.active.Keys;
    assert Handle(s.core, l, ModelEnd(n, Some(Stop)), Smooth) == (core, Respond);
    hide Handle;
    Exchange(s, l, ModelEnd(n, Some(Stop)), core);
    var s1 := s.(core := core, sequence := h, answered := s.answered + 1);
    assert |core.active| == n;
    ResultIsAccepted(s1, l, n);
    hide Step;
    RunOfThree(s, l, Receive(h, ModelEnd(n, Some(Stop))), Begin(h, Smooth), Wrote(h, true), [Result(n), Close(true)]);
    RunOfTwo(s1, l, Result(n), Close(true));
  }

  lemma ResultIsAccepted(s: State, l: Limits, n: nat)
    requires Idle(s) && s.core.unfinished == {} && |s.core.active| == n && n in s.core.active
    requires s.core.active[n] == Call(Succeeded, Some(Stop))
    ensures Step(Step(s, l, Result(n)), l, Close(true)).phase == Accepted(n)
  {
    var s2 := Step(s, l, Result(n));
    assert s2 == s.(phase := Cleaning(Some(n)));
  }

  lemma LastTurnIsWithin(s: State, l: Limits)
    requires Inv(s, l) && |s.core.active| in s.core.active
    ensures 1 <= |s.core.active| <= l.turns
  {
  }

  /** A tool that the last turn asked for is called in a free slot, answered, and leaves the slot free again. */
  lemma ToolIsServed(s: State, l: Limits, id: string)
    requires Inv(s, l) && Idle(s) && s.slots > 0 && s.core.unfinished == {} && |s.core.identities| < l.toolCalls
    requires var n := |s.core.active|;
             && n in s.core.active && s.core.active[n] == Call(Succeeded, Some(ToolUse))
             && id != "" && (n, id) !in s.core.identities
    ensures var n, h := |s.core.active|, s.sequence + 1;
            var s' := Run(s, l, [Receive(h, ToolCall(n, true, id)), Begin(h, Smooth), Acquire(h, true)]
                                + [Finish(h, true), Wrote(h, true)]);
            && Idle(s') && s'.slots == s.slots && s'.core.running == s.core.running - {(n, id)}
            && s'.core.handled == s.core.handled + [(n, id)] && s'.answered == s.answered + 1
            && s'.core.active == s.core.active
  {
    var n, h := |s.core.active|, s.sequence + 1;
    var key: Key := (n, id);
    LastTurnIsWithin(s, l);
    hide Inv;
    var r := ToolCall(n, true, id);
    var core := s.core.(identities := s.core.identities + {key}, running := s.core.running + {key},
                        handled := s.core.handled + [key]);
    assert Handle(s.core, l, r, Smooth) == (core, WaitForSlot(key));
    hide Step; hide Handle;
    ToolBegins(s, l, r, core, key);
    var c := s.(core := core, sequence := h, slots := s.slots - 1, handlers := map[h := Calling(key)]);
    ToolEnds(c, l, h, key);
    RunOfThree(s, l, Receive(h, r), Begin(h, Smooth), Acquire(h, true), [Finish(h, true), Wrote(h, true)]);
    RunOfTwo(c, l, Finish(h, true), Wrote(h, true));
    assert s.core.running + {key} - {key} == s.core.running - {key};
  }

  lemma ToolBegins(s: State, l: Limits, r: Record, core: Core, key: Key)
    requires Idle(s) && s.slots > 0 && Handle(s.core, l, r, Smooth) == (core, WaitForSlot(key))
    ensures var h := s.sequence + 1;
            var s' := Step(Step(Step(s, l, Receive(h, r)), l, Begin(h, Smooth)), l, Acquire(h, true));
            s' == s.(core := core, sequence := h, slots := s.slots - 1, handlers := map[h := Calling(key)])
  {
    hide Handle;
    var h := s.sequence + 1;
    var a := Step(s, l, Receive(h, r));
    assert a == s.(sequence := h, handlers := map[h := Queued(r)]);
    var b := Step(a, l, Begin(h, Smooth));
    assert b == s.(core := core, sequence := h, handlers := map[h := Waiting(key)]);
  }

  lemma ToolEnds(s: State, l: Limits, h: nat, key: Key)
    requires s.handlers == map[h := Calling(key)]
    ensures Step(Step(s, l, Finish(h, true)), l, Wrote(h, true))
         == s.(core := s.core.(running := s.core.running - {key}), slots := s.slots + 1, handlers := map[],
               answered := s.answered + 1)
  {
    var a := Step(s, l, Finish(h, true));
    assert a == s.(core := s.core.(running := s.core.running - {key}), slots := s.slots + 1,
                   handlers := map[h := Writing]);
    assert a.handlers - {h} == map[];
  }
}

/**
 * Idempotent submission: an optimistic look-up, then at most two transactions that find or create a conversation and
 * insert the run under two unique keys. Any number of submitters interleave between their database calls.
 */
module Submission {
  import opened Common

  datatype RunKey = RunKey(caller: string, route: string, request: string)
  datatype ConversationKey = ConversationKey(caller: string, external: string)

  /** An empty `external` or `conversation` was not supplied. */
  datatype Request = Request(key: RunKey, external: string, conversation: string) {
    function Conversation(): ConversationKey {
      ConversationKey(key.caller, if external == "" then key.request else external)
    }
  }

  datatype RunRecord = RunRecord(key: RunKey, conversation: string)
  datatype Tables = Tables(runs: map<string, RunRecord>, conversations: map<string, ConversationKey>)

  ghost predicate HasRun(t: Tables, key: RunKey) { exists r :: r in t.runs && t.runs[r].key == key }
  ghost predicate HasConversation(t: Tables, key: ConversationKey) {
    exists c :: c in t.conversations && t.conversations[c] == key
  }

  /** The outcomes of the two look-ups by key. */
  ghost predicate FindsRun(t: Tables, key: RunKey, found: Option<string>) {
    match found
    case Some(r) => r in t.runs && t.runs[r].key == key
    case None => !HasRun(t, key)
  }

  ghost predicate FindsConversation(t: Tables, key: ConversationKey, found: Option<string>) {
    match found
    case Some(c) => c in t.conversations && t.conversations[c] == key
    case None => !HasConversation(t, key)
  }

  /** Either unique key refuses the transaction; a conversation is inserted only when none was found. */
  ghost predicate Conflicts(t: Tables, request: Request, found: Option<string>) {
    HasRun(t, request.key) || (found.None? && HasConversation(t, request.Conversation()))
  }

  function Insert(t: Tables, request: Request, run: string, found: Option<string>, made: string): Tables {
    var conversation := if found.Some? then found.value else made;
    Tables(t.runs[run := RunRecord(request.key, conversation)],
           if found.Some? then t.conversations else t.conversations[made := request.Conversation()])
  }

  datatype Pc =
    | Checking
    | Looking(second: bool)
    | LookingByKey(second: bool)
    | Inserting(second: bool, found: Option<string>)
    | Rechecking(second: bool)
    | Returned(run: string, isNew: bool)
    | Raised

  /** `run` is the id drawn for the new run before the first transaction; both transactions use it. */
  datatype Call = Call(request: Request, run: string, pc: Pc)

  datatype State = State(tables: Tables, calls: map<nat, Call>, drawn: set<string>)

  datatype Event =
    | Submit(p: nat, request: Request, run: string)
    | Check(p: nat, found: Option<string>)
    | Look(p: nat)
    | LookByKey(p: nat, found: Option<string>)
    | Transact(p: nat, made: string)
    | Recheck(p: nat, found: Option<string>)
    | Crash(p: nat)

  function Init(): State { State(Tables(map[], map[]), map[], {}) }

  /** The next point of a call, and the tables it leaves; an event that does not fit changes nothing. */
  ghost function Act(t: Tables, c: Call, e: Event): (Tables, Pc) {
    match c.pc
    case Checking =>
      if e.Check? && FindsRun(t, c.request.key, e.found) then
        (t, if e.found.Some? then Returned(e.found.value, false) else Looking(false))
      else (t, c.pc)
    case Looking(second) =>
      if !e.Look? then (t, c.pc)
      else if c.request.conversation != "" && c.request.conversation in t.conversations then
        (t, Inserting(second, Some(c.request.conversation)))
      else (t, LookingByKey(second))
    case LookingByKey(second) =>
      if e.LookByKey? && FindsConversation(t, c.request.Conversation(), e.found) then (t, Inserting(second, e.found))
      else (t, c.pc)
    case Inserting(second, found) =>
      if !e.Transact? || e.made in t.conversations then (t, c.pc)
      else if Conflicts(t, c.request, found) then (t, Rechecking(second))
      else (Insert(t, c.request, c.run, found, e.made), Returned(c.run, true))
    case Rechecking(second) =>
      if e.Recheck? && FindsRun(t, c.request.key, e.found) then
        (t, if e.found.Some? then Returned(e.found.value, false) else if second then Raised else Looking(true))
      else (t, c.pc)
    case Returned(_, _) => (t, c.pc)
    case Raised => (t, c.pc)
  }

  predicate Done(pc: Pc) { pc.Returned? || pc.Raised? }

  ghost function Step(s: State, e: Event): State {
    if e.Submit? then
      if e.p in s.calls || e.run in s.drawn then s
      else s.(calls := s.calls[e.p := Call(e.request, e.run, Checking)], drawn := s.drawn + {e.run})
    else if e.p !in s.calls then s
    else if e.Crash? then if Done(s.calls[e.p].pc) then s else s.(calls := s.calls - {e.p})
    else
      var (tables, pc) := Act(s.tables, s.calls[e.p], e);
      s.(tables := tables, calls := s.calls[e.p := s.calls[e.p].(pc := pc)])
  }

  ghost function Run(s: State, es: seq<Event>): State
    decreases |es|
  {
    if es == [] then s else Run(Step(s, es[0]), es[1..])
  }

  // -- Invariant ---------------------------------------------------------------------------------------------

  ghost predicate SoleRun(t: Tables, r: string) {
    r in t.runs ==> forall q :: q in t.runs && t.runs[q].key == t.runs[r].key ==> q == r
  }

  ghost predicate SoleConversation(t: Tables, c: string) {
    c in t.conversations ==> forall d :: d in t.conversations && t.conversations[d] == t.conversations[c] ==> c == d
  }

  ghost predicate Unique(t: Tables) {
    && (forall r :: SoleRun(t, r))
    && (forall c :: SoleConversation(t, c))
    && (forall r :: r in t.runs ==> t.runs[r].conversation in t.conversations)
  }

  /** A run's conversation is the one asked for by id, or the one of the caller's external id. */
  predicate Belongs(t: Tables, request: Request, conversation: string) {
    && conversation in t.conversations
    && ((request.conversation != "" && conversation == request.conversation)
        || t.conversations[conversation] == request.Conversation())
  }

  /** What a call knows; a second transaction always has its conversation. */
  ghost predicate Knows(t: Tables, c: Call) {
    match c.pc
    case Checking => true
    case Looking(second) => second ==> HasConversation(t, c.request.Conversation())
    case LookingByKey(second) => second ==> HasConversation(t, c.request.Conversation())
    case Inserting(second, found) => (second ==> found.Some?) && (found.Some? ==> Belongs(t, c.request, found.value))
    case Rechecking(second) => HasRun(t, c.request.key) || (!second && HasConversation(t, c.request.Conversation()))
    case Returned(run, isNew) =>
      && run in t.runs && t.runs[run].key == c.request.key
      && isNew == (run == c.run)
      && (isNew ==> Belongs(t, c.request, t.runs[run].conversation))
    case Raised => false
  }

  ghost predicate CallOk(s: State, p: nat) {
    p in s.calls ==>
      var c := s.calls[p];
      && Knows(s.tables, c)
      && c.run in s.drawn
      && (c.run in s.tables.runs ==> c.pc == Returned(c.run, true))
      && (forall q: nat :: q in s.calls && s.calls[q].run == c.run ==> q == p)
  }

  ghost predicate Inv(s: State) {
    && Unique(s.tables)
    && s.tables.runs.Keys <= s.drawn
    && (forall p: nat :: CallOk(s, p))
  }

  /** The tables only ever gain rows. */
  ghost predicate Grows(t: Tables, u: Tables) {
    && (forall r :: r in t.runs ==> r in u.runs && u.runs[r] == t.runs[r])
    && (forall c :: c in t.conversations ==> c in u.conversations && u.conversations[c] == t.conversations[c])
  }

  /** What a call knows survives every insertion by others. */
  lemma KnowsIsStable(t: Tables, u: Tables, c: Call)
    requires Knows(t, c) && Grows(t, u)
    ensures Knows(u, c)
  {
  }

  lemma InsertKeepsUnique(t: Tables, request: Request, run: string, found: Option<string>, made: string)
    requires Unique(t) && !Conflicts(t, request, found) && run !in t.runs && made !in t.conversations
    requires found.Some? ==> found.value in t.conversations
    ensures Unique(Insert(t, request, run, found, made)) && Grows(t, Insert(t, request, run, found, made))
  {
    var u := Insert(t, request, run, found, made);
    forall r ensures SoleRun(u, r) {
      assert SoleRun(t, r) && SoleRun(t, run);
      assert r in t.runs ==> t.runs[r].key != request.key;
    }
    forall c ensures SoleConversation(u, c) { assert SoleConversation(t, c) && SoleConversation(t, made); }
  }

  /** One step of one call: the tables stay unique, and it learns what `Knows` says. */
  ghost predicate ActOk(t: Tables, c: Call, u: Tables, pc: Pc) {
    && Unique(u) && Grows(t, u) && Knows(u, c.(pc := pc))
    && u.runs.Keys <= t.runs.Keys + {c.run}
    && (c.run in u.runs ==> pc == Returned(c.run, true))
  }

  lemma ActKeepsOk(t: Tables, c: Call, e: Event)
    requires Unique(t) && Knows(t, c) && (c.run in t.runs ==> c.pc == Returned(c.run, true))
    ensures ActOk(t, c, Act(t, c, e).0, Act(t, c, e).1)
  {
    match c.pc
    case Inserting(second, found) =>
      if e.Transact? && e.made !in t.conversations && !Conflicts(t, c.request, found) {
        InsertKeepsUnique(t, c.request, c.run, found, e.made);
      }
    case Checking =>
    case Looking(_) =>
    case LookingByKey(_) =>
    case Rechecking(_) =>
    case Returned(_, _) =>
    case Raised =>
  }

  lemma StepKeepsInv(s: State, e: Event)
    requires Inv(s)
    ensures Inv(Step(s, e)) && Grows(s.tables, Step(s, e).tables)
  {
    hide Unique; hide Act; hide Knows;
    var s' := Step(s, e);
    assert CallOk(s, e.p);
    if !e.Submit? && !e.Crash? && e.p in s.calls {
      ActKeepsOk(s.tables, s.calls[e.p], e);
    }
    forall q: nat ensures CallOk(s', q) {
      assert CallOk(s, q);
      if q != e.p && q in s.calls { KnowsIsStable(s.tables, s'.tables, s.calls[q]); }
      if q == e.p && e.Submit? && e.p !in s.calls {
        KnowsAtFirst(s.tables, Call(e.request, e.run, Checking));
        forall o: nat | o in s.calls ensures s.calls[o].run in s.drawn { assert CallOk(s, o); }
      }
    }
  }

  lemma KnowsAtFirst(t: Tables, c: Call)
    requires c.pc == Checking
    ensures Knows(t, c)
  {
  }

  lemma {:induction false} RunKeepsInv(s: State, es: seq<Event>)
    requires Inv(s)
    ensures Inv(Run(s, es)) && Grows(s.tables, Run(s, es).tables)
    decreases |es|
  {
    hide Inv; hide Step;
    if es != [] {
      StepKeepsInv(s, es[0]);
      RunKeepsInv(Step(s, es[0]), es[1..]);
    }
  }

  lemma Reachable(es: seq<Event>)
    ensures Inv(Run(Init(), es))
  {
    RunKeepsInv(Init(), es);
  }

  // -- What every run keeps ----------------------------------------------------------------------------------

  /** All submissions of one key that return, return the same stored run, and at most one of them created it. */
  lemma ReturnersAgree(es: seq<Event>, p: nat, q: nat)
    requires var s := Run(Init(), es);
             && p in s.calls && s.calls[p].pc.Returned? && q in s.calls && s.calls[q].pc.Returned?
             && s.calls[p].request.key == s.calls[q].request.key
    ensures var s := Run(Init(), es);
            && s.calls[p].pc.run == s.calls[q].pc.run
            && s.calls[p].pc.run in s.tables.runs
            && s.tables.runs[s.calls[p].pc.run].key == s.calls[p].request.key
            && (s.calls[p].pc.isNew && s.calls[q].pc.isNew ==> p == q)
  {
    hide Run;
    Reachable(es);
    var s := Run(Init(), es);
    assert CallOk(s, p) && CallOk(s, q);
    assert SoleRun(s.tables, s.calls[p].pc.run);
  }

  /** No submission raises: a second conflict can only be about the run, and then the run is found. */
  lemma NeverRaises(es: seq<Event>, p: nat)
    requires p in Run(Init(), es).calls
    ensures Run(Init(), es).calls[p].pc != Raised
  {
    hide Run;
    Reachable(es);
    assert CallOk(Run(Init(), es), p);
  }

  /** One run per key, one conversation per (caller, external id), every run in an existing conversation. */
  lemma TablesStayUnique(es: seq<Event>)
    ensures var t := Run(Init(), es).tables;
            && (forall r, q :: r in t.runs && q in t.runs && t.runs[r].key == t.runs[q].key ==> r == q)
            && (forall c, d :: c in t.conversations && d in t.conversations ==>
                  t.conversations[c] == t.conversations[d] ==> c == d)
            && (forall r :: r in t.runs ==> t.runs[r].conversation in t.conversations)
  {
    hide Run;
    Reachable(es);
    var t := Run(Init(), es).tables;
    forall r, q | r in t.runs && q in t.runs && t.runs[r].key == t.runs[q].key ensures r == q { assert SoleRun(t, r); }
    forall c, d | c in t.conversations && d in t.conversations && t.conversations[c] == t.conversations[d]
      ensures c == d
    {
      assert SoleConversation(t, c);
    }
  }

  /** A new run belongs to the conversation its submission asked for. */
  lemma NewRunBelongs(es: seq<Event>, p: nat)
    requires var s := Run(Init(), es); p in s.calls && s.calls[p].pc.Returned? && s.calls[p].pc.isNew
    ensures var s := Run(Init(), es);
            var run := s.calls[p].pc.run;
            run == s.calls[p].run && run in s.tables.runs
            && Belongs(s.tables, s.calls[p].request, s.tables.runs[run].conversation)
  {
    hide Run;
    Reachable(es);
    assert CallOk(Run(Init(), es), p);
  }

  // -- Which conversation --------------------------------------------------------------------------------------

  /** The call that drew `run` asks for conversation `wanted`, which is stored, and is on its way into it. */
  ghost predicate Bound(s: State, p: nat, request: Request, run: string, wanted: string) {
    && wanted in s.tables.conversations && run in s.drawn
    && (p in s.calls && s.calls[p].run == run ==>
          && s.calls[p].request == request
          && match s.calls[p].pc
             case Inserting(_, found) => found == Some(wanted)
             case LookingByKey(_) => false
             case Returned(r, isNew) => isNew ==> r in s.tables.runs && s.tables.runs[r].conversation == wanted
             case _ => true)
  }

  lemma StepKeepsBound(s: State, e: Event, p: nat, request: Request, run: string, wanted: string)
    requires Inv(s) && Bound(s, p, request, run, wanted) && request.conversation == wanted != ""
    ensures Bound(Step(s, e), p, request, run, wanted)
  {
    StepKeepsInv(s, e);
    assert CallOk(s, p) && CallOk(s, e.p);
    hide Unique; hide Knows; hide Conflicts; hide FindsRun; hide FindsConversation;
  }

  lemma {:induction false} RunKeepsBound(
      s: State, es: seq<Event>, p: nat, request: Request, run: string, wanted: string)
    requires Inv(s) && Bound(s, p, request, run, wanted) && request.conversation == wanted != ""
    ensures Bound(Run(s, es), p, request, run, wanted)
    decreases |es|
  {
    hide Inv; hide Step; hide Bound;
    if es != [] {
      StepKeepsInv(s, es[0]);
      StepKeepsBound(s, es[0], p, request, run, wanted);
      RunKeepsBound(Step(s, es[0]), es[1..], p, request, run, wanted);
    }
  }

  /** A submission that asks for a stored conversation by its id puts its new run into that one. */
  lemma StoredConversationIsUsed(es: seq<Event>, more: seq<Event>, p: nat)
    requires var s := Run(Init(), es);
             && p in s.calls && s.calls[p].pc == Checking
             && s.calls[p].request.conversation != "" && s.calls[p].request.conversation in s.tables.conversations
    requires var s, s' := Run(Init(), es), Run(Run(Init(), es), more);
             && p in s'.calls && s'.calls[p].run == s.calls[p].run && s'.calls[p].pc.Returned? && s'.calls[p].pc.isNew
    ensures var s, s' := Run(Init(), es), Run(Run(Init(), es), more);
            var run := s'.calls[p].pc.run;
            run in s'.tables.runs && s'.tables.runs[run].conversation == s.calls[p].request.conversation
  {
    hide Run;
    var s := Run(Init(), es);
    Reachable(es);
    assert CallOk(s, p);
    RunKeepsBound(s, more, p, s.calls[p].request, s.calls[p].run, s.calls[p].request.conversation);
  }

  /** Otherwise it is the conversation of the caller and the external id, or the request id if there is none. */
  lemma OtherwiseByExternalId(es: seq<Event>, p: nat)
    requires var s := Run(Init(), es); p in s.calls && s.calls[p].pc.Returned? && s.calls[p].pc.isNew
    requires var s := Run(Init(), es);
             s.calls[p].request.conversation == "" || s.calls[p].request.conversation !in s.tables.conversations
    ensures var s := Run(Init(), es);
            var request, run := s.calls[p].request, s.calls[p].pc.run;
            var external := if request.external == "" then request.key.request else request.external;
            && run in s.tables.runs && s.tables.runs[run].conversation in s.tables.conversations
            && s.tables.conversations[s.tables.runs[run].conversation] == ConversationKey(request.key.caller, external)
  {
    hide Run;
    NewRunBelongs(es, p);
  }

  // -- Alone ---------------------------------------------------------------------------------------------------

  /** A request that is already stored is answered with its run, and nothing is written. */
  lemma DuplicateIsAnswered(s: State, p: nat, request: Request, run: string, stored: string)
    requires p !in s.calls && run !in s.drawn && stored in s.tables.runs && s.tables.runs[stored].key == request.key
    ensures var s' := Step(Step(s, Submit(p, request, run)), Check(p, Some(stored)));
            p in s'.calls && s'.calls[p].pc == Returned(stored, false) && s'.tables == s.tables
  {
  }

  /** A new request, undisturbed, creates its run, and its conversation where none is stored. */
  lemma NewRequestCreates(s: State, p: nat, request: Request, run: string, found: Option<string>, made: string)
    requires Inv(s) && p !in s.calls && run !in s.drawn && !HasRun(s.tables, request.key)
    requires made !in s.tables.conversations
    requires request.conversation == "" || request.conversation !in s.tables.conversations
    requires FindsConversation(s.tables, request.Conversation(), found)
    ensures var looked := Step(Step(Step(s, Submit(p, request, run)), Check(p, None)), Look(p));
            var s' := Step(Step(looked, LookByKey(p, found)), Transact(p, made));
            && p in s'.calls && s'.calls[p].pc == Returned(run, true)
            && s'.tables.runs == s.tables.runs[run := RunRecord(request.key, if found.Some? then found.value else made)]
            && s'.tables.conversations.Keys == s.tables.conversations.Keys + (if found.Some? then {} else {made})
  {
    hide Inv;
    var a := Step(s, Submit(p, request, run));
    assert a.tables == s.tables && a.calls[p] == Call(request, run, Checking);
    var b := Step(a, Check(p, None));
    assert b.tables == s.tables && b.calls[p] == Call(request, run, Looking(false));
    var c := Step(b, Look(p));
    assert c.tables == s.tables && c.calls[p] == Call(request, run, LookingByKey(false));
    var d := Step(c, LookByKey(p, found));
    assert d.tables == s.tables && d.calls[p] == Call(request, run, Inserting(false, found));
  }

  // -- Wait-freedom ------------------------------------------------------------------------------------------

  /** Steps a call may still take. */
  function Rank(pc: Pc): nat {
    match pc
    case Checking => 9
    case Looking(second) => if second then 4 else 8
    case LookingByKey(second) => if second then 3 else 7
    case Inserting(second, _) => if second then 2 else 6
    case Rechecking(second) => if second then 1 else 5
    case Returned(_, _) => 0
    case Raised => 0
  }

  /** How often the call `p` moved on during the run. */
  ghost function Moves(s: State, es: seq<Event>, p: nat): nat
    decreases |es|
  {
    if es == [] then 0
    else (if p in s.calls && p in Step(s, es[0]).calls && Step(s, es[0]).calls[p].pc != s.calls[p].pc then 1 else 0)
         + Moves(Step(s, es[0]), es[1..], p)
  }

  lemma ActRanks(t: Tables, c: Call, e: Event)
    ensures var pc := Act(t, c, e).1; pc == c.pc || Rank(pc) < Rank(c.pc)
  {
  }

  lemma StepRanks(s: State, e: Event, p: nat)
    requires p in s.calls && e != Crash(p)
    ensures p in Step(s, e).calls
    ensures var pc := Step(s, e).calls[p].pc; pc == s.calls[p].pc || Rank(pc) < Rank(s.calls[p].pc)
  {
    hide Act;
    if e.p in s.calls { ActRanks(s.tables, s.calls[e.p], e); }
  }

  lemma {:induction false} RankBoundsMoves(s: State, es: seq<Event>, p: nat)
    requires p in s.calls && forall i :: 0 <= i < |es| ==> es[i] != Crash(p)
    ensures p in Run(s, es).calls
    ensures Rank(Run(s, es).calls[p].pc) + Moves(s, es, p) <= Rank(s.calls[p].pc)
    decreases |es|
  {
    hide Step;
    if es != [] {
      StepRanks(s, es[0], p);
      RankBoundsMoves(Step(s, es[0]), es[1..], p);
    }
  }

  /**
   * Whatever the others do, a submission that is not cut off moves at most nine times, and as long as it has not
   * returned its next database call moves it on.
   */
  lemma SubmissionIsWaitFree(es: seq<Event>, more: seq<Event>, p: nat, made: string) returns (next: Event)
    requires p in Run(Init(), es).calls
    requires forall i :: 0 <= i < |more| ==> more[i] != Crash(p)
    requires made !in Run(Run(Init(), es), more).tables.conversations
    ensures var s := Run(Run(Init(), es), more);
            && Moves(Run(Init(), es), more, p) <= 9
            && p in s.calls
            && (s.calls[p].pc.Returned? || (p in Step(s, next).calls && Step(s, next).calls[p].pc != s.calls[p].pc))
  {
    hide Run; hide Step;
    var s0 := Run(Init(), es);
    Reachable(es);
    RunKeepsInv(s0, more);
    RankBoundsMoves(s0, more, p);
    next := NextCall(Run(s0, more), p, made);
  }

  lemma NextCall(s: State, p: nat, made: string) returns (next: Event)
    requires Inv(s) && p in s.calls && made !in s.tables.conversations
    ensures s.calls[p].pc.Returned? || (p in Step(s, next).calls && Step(s, next).calls[p].pc != s.calls[p].pc)
  {
    hide Unique;
    assert CallOk(s, p);
    var request := s.calls[p].request;
    var run: Option<string> := None;
    if HasRun(s.tables, request.key) {
      var r :| r in s.tables.runs && s.tables.runs[r].key == request.key;
      run := Some(r);
    }
    var conversation: Option<string> := None;
    if HasConversation(s.tables, request.Conversation()) {
      var c :| c in s.tables.conversations && s.tables.conversations[c] == request.Conversation();
      conversation := Some(c);
    }
    match s.calls[p].pc
    case Checking => next := Check(p, run);
    case Looking(_) => next := Look(p);
    case LookingByKey(_) => next := LookByKey(p, conversation);
    case Inserting(_, _) => next := Transact(p, made);
    case Rechecking(_) => next := Recheck(p, run);
    case Returned(_, _) => next := Crash(p);
  }
}

/**
 * Admission control: a run acquires its permits one by one and becomes active when it holds all of them.
 *
 * Nesting is structured: a child arrives while its parent is active, one level deeper and under the same root,
 * and a run leaves only when none of its children is left. Within that, arrivals, acquisitions, abandoned waits
 * and exits interleave freely. Events that are not possible in a state change nothing.
 */
module Scheduler {
  import opened Common

  /** What a run can re-enter when an ancestor already holds it. */
  datatype Lane = AgentLane(name: string) | RouteLane(tag: string)

  datatype Sem =
    | Global
    | Children(root: string)
    | Agent(name: string)
    | Route(tag: string)
    | Caller(name: string)
    | Ancestor(run: string, lane: Lane)   // the single re-entrant permit of an active ancestor

  datatype Info = Info(
    parent: Option<string>, root: string, depth: nat,
    agent: string, agentMax: nat, route: string, caller: string)

  /** A run inside `run_with_limits`: the permits it needs, in order, and how many it holds. */
  datatype Live = Live(info: Info, plan: seq<Sem>, got: nat)

  type Runs = map<string, Live>

  datatype Limits = Limits(
    globalMax: nat, routeMax: map<string, nat>, callerMax: map<string, nat>, maxDepth: nat, maxChildren: nat)

  /** `capacity` is the value each existing semaphore was created with, `free` its current value. */
  datatype State = State(live: Runs, capacity: map<Sem, nat>, free: map<Sem, nat>)

  function Init(limits: Limits): State {
    State(map[], map[Global := limits.globalMax], map[Global := limits.globalMax])
  }

  predicate Active(live: Runs, r: string) { r in live && live[r].got == |live[r].plan| }

  // -- The ancestor walk -------------------------------------------------------------------------------------

  /** The active ancestors from `parent` upwards, nearest first, as far as depth decreases below `bound`. */
  function Up(live: Runs, parent: Option<string>, bound: nat): seq<string>
    decreases bound
  {
    if parent.Some? && Active(live, parent.value) && live[parent.value].info.depth < bound then
      [parent.value] + Up(live, live[parent.value].info.parent, live[parent.value].info.depth)
    else []
  }

  function Chain(live: Runs, info: Info): seq<string> { Up(live, info.parent, info.depth) }

  predicate Plays(live: Runs, r: string, lane: Lane) {
    r in live && match lane
                 case AgentLane(name) => live[r].info.agent == name
                 case RouteLane(tag) => live[r].info.route == tag
  }

  /** The first run of a chain that plays `lane`. */
  function Nearest(live: Runs, chain: seq<string>, lane: Lane): Option<string> {
    if chain == [] then None
    else if Plays(live, chain[0], lane) then Some(chain[0])
    else Nearest(live, chain[1..], lane)
  }

  function Own(lane: Lane): Sem {
    match lane case AgentLane(name) => Agent(name) case RouteLane(tag) => Route(tag)
  }

  function LaneSem(live: Runs, chain: seq<string>, lane: Lane): Sem {
    match Nearest(live, chain, lane) case Some(x) => Ancestor(x, lane) case None => Own(lane)
  }

  predicate CallerHeld(live: Runs, chain: seq<string>, caller: string) {
    exists i :: 0 <= i < |chain| && chain[i] in live && live[chain[i]].info.caller == caller
  }

  function Plan(live: Runs, info: Info): seq<Sem> {
    var chain := Chain(live, info);
    [if info.parent.Some? then Children(info.root) else Global,
     LaneSem(live, chain, AgentLane(info.agent)),
     LaneSem(live, chain, RouteLane(info.route))]
    + if CallerHeld(live, chain, info.caller) then [] else [Caller(info.caller)]
  }

  /** What the walk has found after visiting `seen`: the first of them for each agent and tag, and all their callers. */
  ghost predicate Found(
      live: Runs, seen: seq<string>, agents: map<string, string>, routes: map<string, string>, callers: set<string>) {
    && (forall a :: (if a in agents then Some(agents[a]) else None) == Nearest(live, seen, AgentLane(a)))
    && (forall t :: (if t in routes then Some(routes[t]) else None) == Nearest(live, seen, RouteLane(t)))
    && (forall c :: c in callers <==> CallerHeld(live, seen, c))
  }

  /** A parent that is present is less deep than its child: `call_depth` is the parent's plus one. */
  predicate Below(live: Runs, info: Info) {
    info.parent.Some? && Active(live, info.parent.value) ==> live[info.parent.value].info.depth < info.depth
  }

  ghost predicate Descending(live: Runs) { forall r :: r in live ==> Below(live, live[r].info) }

  lemma StructuredDescends(live: Runs)
    requires Structured(live)
    ensures Descending(live)
  {
    forall r | r in live ensures Below(live, live[r].info) { assert RunOk(live, r); }
  }

  /** The ancestors are those seen and those from `current` upwards. */
  ghost predicate Walking(live: Runs, info: Info, seen: seq<string>, current: Option<string>, bound: nat) {
    && (current.Some? && Active(live, current.value) ==> live[current.value].info.depth < bound)
    && Chain(live, info) == seen + Up(live, current, bound)
  }

  /**
   * The source's loop over `_active_run_holders`, which keeps the first holder met for each agent and tag. It stops at
   * the first parent that is no active holder, be it the run's own.
   */
  method AncestorWalk(live: Runs, info: Info)
    returns (agents: map<string, string>, routes: map<string, string>, callers: set<string>)
    requires Descending(live) && Below(live, info)
    ensures Found(live, Chain(live, info), agents, routes, callers)
  {
    hide Found; hide Descending; hide Below; hide Walking; hide Up; hide Chain;
    agents, routes, callers := map[], map[], {};
    var current := info.parent;
    ghost var bound := info.depth;
    ghost var seen: seq<string> := [];
    WalkStarts(live, info);
    while current.Some? && Active(live, current.value)
      invariant Walking(live, info, seen, current, bound)
      invariant Found(live, seen, agents, routes, callers)
      decreases bound
    {
      var holder := live[current.value].info;
      WalkAdvances(live, info, seen, current, bound);
      FoundOneMore(live, seen, agents, routes, callers, current.value);
      if holder.agent !in agents { agents := agents[holder.agent := current.value]; }
      if holder.route !in routes { routes := routes[holder.route := current.value]; }
      callers := callers + {holder.caller};
      seen, bound, current := seen + [current.value], holder.depth, holder.parent;
    }
    WalkEnds(live, info, seen, current, bound);
  }

  lemma WalkStarts(live: Runs, info: Info)
    requires Below(live, info)
    ensures Walking(live, info, [], info.parent, info.depth) && Found(live, [], map[], map[], {})
  {
  }

  lemma WalkAdvances(live: Runs, info: Info, seen: seq<string>, current: Option<string>, bound: nat)
    requires Descending(live) && Walking(live, info, seen, current, bound)
    requires current.Some? && Active(live, current.value)
    ensures current.value in live && live[current.value].info.depth < bound
    ensures var holder := live[current.value].info;
            Walking(live, info, seen + [current.value], holder.parent, holder.depth)
  {
    var holder := live[current.value].info;
    assert Below(live, holder);
    assert Chain(live, info) == (seen + [current.value]) + Up(live, holder.parent, holder.depth);
  }

  lemma WalkEnds(live: Runs, info: Info, seen: seq<string>, current: Option<string>, bound: nat)
    requires Walking(live, info, seen, current, bound) && !(current.Some? && Active(live, current.value))
    ensures Chain(live, info) == seen
  {
  }

  lemma FoundOneMore(
      live: Runs, seen: seq<string>, agents: map<string, string>, routes: map<string, string>, callers: set<string>,
      x: string)
    requires Found(live, seen, agents, routes, callers) && x in live
    ensures var h := live[x].info;
            Found(live, seen + [x],
                  if h.agent in agents then agents else agents[h.agent := x],
                  if h.route in routes then routes else routes[h.route := x],
                  callers + {h.caller})
  {
    hide Nearest; hide CallerHeld;
    forall lane: Lane
      ensures Nearest(live, seen + [x], lane) ==
              if Nearest(live, seen, lane).Some? then Nearest(live, seen, lane)
              else if Plays(live, x, lane) then Some(x) else None
    {
      NearestAppend(live, seen, x, lane);
    }
    forall c: string
      ensures CallerHeld(live, seen + [x], c) == (CallerHeld(live, seen, c) || live[x].info.caller == c)
    {
      CallerAppend(live, seen, x, c);
    }
  }

  lemma {:induction false} NearestAppend(live: Runs, chain: seq<string>, x: string, lane: Lane)
    ensures Nearest(live, chain + [x], lane) ==
            if Nearest(live, chain, lane).Some? then Nearest(live, chain, lane)
            else if Plays(live, x, lane) then Some(x) else None
    decreases |chain|
  {
    if chain == [] {
      assert [x][1..] == [];
    } else {
      assert (chain + [x])[1..] == chain[1..] + [x];
      NearestAppend(live, chain[1..], x, lane);
    }
  }

  lemma CallerAppend(live: Runs, chain: seq<string>, x: string, c: string)
    requires x in live
    ensures CallerHeld(live, chain + [x], c) == (CallerHeld(live, chain, c) || live[x].info.caller == c)
  {
    var longer := chain + [x];
    assert longer[|chain|] == x;
    if CallerHeld(live, chain, c) {
      var i :| 0 <= i < |chain| && chain[i] in live && live[chain[i]].info.caller == c;
      assert longer[i] == chain[i];
    }
  }

  // -- Structured nesting ------------------------------------------------------------------------------------

  predicate ParentOk(live: Runs, info: Info) {
    info.parent.Some? ==>
      && Active(live, info.parent.value)
      && live[info.parent.value].info.depth + 1 == info.depth
      && live[info.parent.value].info.root == info.root
  }

  predicate RunOk(live: Runs, r: string) {
    r in live ==>
      var l := live[r];
      && l.got <= |l.plan|
      && ParentOk(live, l.info)
      && (l.info.parent.None? ==> l.info.root == r && l.info.depth == 0)
      && l.plan == Plan(live, l.info)
  }

  ghost predicate Structured(live: Runs) { forall r :: RunOk(live, r) }

  // -- Events ------------------------------------------------------------------------------------------------

  datatype Event =
    | Arrive(run: string, info: Info)   // past the depth check; the permits to take are now fixed
    | Acquire(run: string)              // take the next permit if it is free; otherwise go on waiting
    | Leave(run: string)                // finish, fail, or give up waiting

  function CapacityOf(limits: Limits, sem: Sem, info: Info): nat {
    match sem
    case Global => limits.globalMax
    case Children(_) => limits.maxChildren
    case Agent(_) => info.agentMax
    case Route(tag) => if tag in limits.routeMax then limits.routeMax[tag] else 10_000
    case Caller(name) => if name in limits.callerMax then limits.callerMax[name] else 10_000
    case Ancestor(_, _) => 1
  }

  predicate CanArrive(s: State, limits: Limits, r: string, info: Info) {
    && r !in s.live
    && info.depth <= limits.maxDepth
    && (info.parent.None? ==> info.root == r && info.depth == 0)
    && ParentOk(s.live, info)
  }

  predicate HasChild(live: Runs, r: string) { exists q :: q in live && live[q].info.parent == Some(r) }

  /** The semaphores dropped from the tables when `r` leaves: its lanes, and its pool if it is a root. */
  predicate DroppedWith(r: string, info: Info, sem: Sem) {
    match sem
    case Ancestor(x, _) => x == r
    case Children(root) => root == r && info.parent.None?
    case _ => false
  }

  predicate Holds(live: Runs, r: string, sem: Sem) {
    r in live && live[r].got <= |live[r].plan| && sem in live[r].plan[..live[r].got]
  }

  function AcquireStep(s: State, limits: Limits, r: string): State
    requires r in s.live && s.live[r].got < |s.live[r].plan|
  {
    var l := s.live[r];
    var sem := l.plan[l.got];
    var capacity := if sem in s.capacity then s.capacity else s.capacity[sem := CapacityOf(limits, sem, l.info)];
    var free := if sem in s.free then s.free else s.free[sem := CapacityOf(limits, sem, l.info)];
    if free[sem] > 0 then State(s.live[r := l.(got := l.got + 1)], capacity, free[sem := free[sem] - 1])
    else State(s.live, capacity, free)
  }

  function LeaveStep(s: State, r: string): State
    requires r in s.live
  {
    var info := s.live[r].info;
    State(s.live - {r},
          map sem | sem in s.capacity && !DroppedWith(r, info, sem) :: s.capacity[sem],
          map sem | sem in s.free && !DroppedWith(r, info, sem) ::
            if Holds(s.live, r, sem) then s.free[sem] + 1 else s.free[sem])
  }

  ghost function Step(s: State, limits: Limits, e: Event): State {
    match e
    case Arrive(r, info) =>
      if CanArrive(s, limits, r, info) then s.(live := s.live[r := Live(info, Plan(s.live, info), 0)]) else s
    case Acquire(r) =>
      if r in s.live && s.live[r].got < |s.live[r].plan| then AcquireStep(s, limits, r) else s
    case Leave(r) =>
      if r in s.live && !HasChild(s.live, r) then LeaveStep(s, r) else s
  }

  ghost function Run(s: State, limits: Limits, es: seq<Event>): State
    decreases |es|
  {
    if es == [] then s else Run(Step(s, limits, es[0]), limits, es[1..])
  }

  // -- Invariant ---------------------------------------------------------------------------------------------

  function Holders(live: Runs, sem: Sem): set<string> { set r | r in live && Holds(live, r, sem) }

  /** Permits are conserved: what is free and what is held make up the capacity. */
  predicate SemOk(s: State, limits: Limits, sem: Sem) {
    && (sem in s.capacity <==> sem in s.free)
    && (sem in s.capacity ==> s.free[sem] + |Holders(s.live, sem)| == s.capacity[sem])
    && (sem !in s.capacity ==> Holders(s.live, sem) == {})
    && (sem in s.capacity && !sem.Agent? ==>
          s.capacity[sem] == CapacityOf(limits, sem, Info(None, "", 0, "", 0, "", "")))
    && (sem == Global ==> sem in s.capacity)
  }

  predicate RootOk(live: Runs, limits: Limits, r: string) {
    r in live ==>
      && live[r].info.depth <= limits.maxDepth
      && live[r].info.root in live
      && live[live[r].info.root].info.parent.None?
      && (live[r].info.parent.Some? ==> Active(live, live[r].info.root))
  }

  ghost predicate Inv(s: State, limits: Limits) {
    && Structured(s.live)
    && (forall r :: RootOk(s.live, limits, r))
    && (forall sem :: SemOk(s, limits, sem))
  }

  /** Chains only go through parents of live runs, so they survive any change that leaves those alone. */
  ghost predicate ParentsKept(live: Runs, live': Runs) {
    forall q :: q in live && live[q].info.parent.Some? ==>
      live[q].info.parent.value in live' && live[q].info.parent.value in live
      && live'[live[q].info.parent.value] == live[live[q].info.parent.value]
  }

  lemma {:induction false} UpStable(live: Runs, live': Runs, info: Info)
    requires Structured(live) && ParentsKept(live, live')
    requires ParentOk(live, info)
    requires info.parent.Some? ==> info.parent.value in live' && live'[info.parent.value] == live[info.parent.value]
    ensures Chain(live', info) == Chain(live, info)
    ensures forall x :: x in Chain(live, info) ==> x in live && x in live' && live'[x] == live[x]
    decreases info.depth
  {
    if info.parent.Some? {
      var p := info.parent.value;
      assert RunOk(live, p);
      UpStable(live, live', live[p].info);
    }
  }

  lemma {:induction false} NearestStable(live: Runs, live': Runs, chain: seq<string>, lane: Lane)
    requires forall x :: x in chain ==> x in live && x in live' && live'[x] == live[x]
    ensures Nearest(live', chain, lane) == Nearest(live, chain, lane)
  {
    if chain != [] { NearestStable(live, live', chain[1..], lane); }
  }

  lemma PlanStable(live: Runs, live': Runs, info: Info)
    requires Structured(live) && ParentsKept(live, live')
    requires ParentOk(live, info)
    requires info.parent.Some? ==> info.parent.value in live' && live'[info.parent.value] == live[info.parent.value]
    ensures Plan(live', info) == Plan(live, info)
  {
    UpStable(live, live', info);
    NearestStable(live, live', Chain(live, info), AgentLane(info.agent));
    NearestStable(live, live', Chain(live, info), RouteLane(info.route));
  }

  /** One step of structure: every live run other than `r` is unchanged, and `r` is nobody's parent. */
  lemma StructureKept(live: Runs, live': Runs, r: string)
    requires Structured(live) && ParentsKept(live, live')
    requires forall q :: q in live' && q != r ==> q in live && live'[q] == live[q]
    requires r in live' ==> live'[r].got <= |live'[r].plan| && ParentOk(live, live'[r].info)
                            && live'[r].info.parent != Some(r)
                            && (live'[r].info.parent.Some? ==>
                                  var p := live'[r].info.parent.value;
                                  p in live' && live'[p] == live[p])
                            && (live'[r].info.parent.None? ==> live'[r].info.root == r && live'[r].info.depth == 0)
                            && live'[r].plan == Plan(live, live'[r].info)
    ensures Structured(live')
  {
    hide Plan;
    forall q ensures RunOk(live', q) {
      if q in live' {
        if q != r { assert RunOk(live, q); }
        PlanStable(live, live', live'[q].info);
      }
    }
  }

  lemma PlanShape(live: Runs, info: Info)
    ensures var plan := Plan(live, info);
            && 3 <= |plan| <= 4
            && plan[0] == (if info.parent.Some? then Children(info.root) else Global)
            && plan[1] == LaneSem(live, Chain(live, info), AgentLane(info.agent))
            && plan[2] == LaneSem(live, Chain(live, info), RouteLane(info.route))
            && (|plan| == 4 ==> plan[3] == Caller(info.caller) && !CallerHeld(live, Chain(live, info), info.caller))
            && forall i, j :: 0 <= i < j < |plan| ==> plan[i] != plan[j]
  {
  }

  lemma {:induction false} NearestFacts(live: Runs, chain: seq<string>, lane: Lane)
    ensures match Nearest(live, chain, lane)
            case Some(x) => x in chain && Plays(live, x, lane)
            case None => forall x :: x in chain ==> !Plays(live, x, lane)
  {
    if chain != [] { NearestFacts(live, chain[1..], lane); }
  }

  /** Everyone in a chain is an active run at smaller depth, under the same root, and the parent of a live run. */
  lemma {:induction false} ChainFacts(live: Runs, q: string, info: Info)
    requires Structured(live) && ParentOk(live, info)
    requires q in live && live[q].info == info
    ensures forall x :: x in Chain(live, info) ==>
              Active(live, x) && live[x].info.depth < info.depth && live[x].info.root == info.root && HasChild(live, x)
    decreases info.depth
  {
    if info.parent.Some? {
      var p := info.parent.value;
      assert RunOk(live, p);
      ChainFacts(live, p, live[p].info);
    }
  }

  lemma {:induction false} RootHasChild(live: Runs, q: string)
    requires Structured(live) && q in live && live[q].info.parent.Some?
    ensures HasChild(live, live[q].info.root)
    decreases live[q].info.depth
  {
    var p := live[q].info.parent.value;
    assert RunOk(live, q) && RunOk(live, p);
    if live[p].info.parent.Some? { RootHasChild(live, p); }
  }

  lemma ArriveKeepsInv(s: State, limits: Limits, r: string, info: Info)
    requires Inv(s, limits) && CanArrive(s, limits, r, info)
    ensures Inv(Step(s, limits, Arrive(r, info)), limits)
  {
    hide Plan;
    var s' := Step(s, limits, Arrive(r, info));
    forall q | q in s.live && s.live[q].info.parent.Some? ensures s.live[q].info.parent.value in s.live {
      assert RunOk(s.live, q);
    }
    StructureKept(s.live, s'.live, r);
    forall q ensures RootOk(s'.live, limits, q) {
      assert RootOk(s.live, limits, q);
      if q == r && info.parent.Some? {
        assert RootOk(s.live, limits, info.parent.value) && RunOk(s.live, info.parent.value);
      }
    }
    forall sem ensures SemOk(s', limits, sem) {
      assert SemOk(s, limits, sem);
      assert Holders(s'.live, sem) == Holders(s.live, sem);
    }
  }

  lemma AcquireKeepsStructure(s: State, limits: Limits, r: string)
    requires Inv(s, limits) && r in s.live && s.live[r].got < |s.live[r].plan|
    ensures Structured(AcquireStep(s, limits, r).live)
    ensures forall q :: RootOk(AcquireStep(s, limits, r).live, limits, q)
  {
    hide Plan; hide SemOk; hide CapacityOf;
    var s' := AcquireStep(s, limits, r);
    assert RunOk(s.live, r);
    if s'.live != s.live {
      assert s'.live == s.live[r := s.live[r].(got := s.live[r].got + 1)];
      hide AcquireStep;
      forall q | q in s.live && s.live[q].info.parent.Some?
        ensures s.live[q].info.parent.value in s.live && s.live[q].info.parent.value != r {
        assert RunOk(s.live, q);
      }
      StructureKept(s.live, s'.live, r);
      forall q ensures RootOk(s'.live, limits, q) { assert RootOk(s.live, limits, q); }
    }
  }

  lemma AcquireKeepsSem(s: State, limits: Limits, r: string, sem: Sem)
    requires r in s.live && s.live[r].got < |s.live[r].plan|
    requires forall i, j :: 0 <= i < j < |s.live[r].plan| ==> s.live[r].plan[i] != s.live[r].plan[j]
    requires SemOk(s, limits, sem) && SemOk(s, limits, s.live[r].plan[s.live[r].got])
    ensures SemOk(AcquireStep(s, limits, r), limits, sem)
  {
    hide Holders;
    AcquireHolders(s.live, r, sem);
  }

  lemma AcquireKeepsInv(s: State, limits: Limits, r: string)
    requires Inv(s, limits) && r in s.live && s.live[r].got < |s.live[r].plan|
    ensures Inv(AcquireStep(s, limits, r), limits)
  {
    hide SemOk; hide Plan; hide AcquireStep; hide RootOk;
    AcquireKeepsStructure(s, limits, r);
    assert RunOk(s.live, r);
    PlanShape(s.live, s.live[r].info);
    forall sem ensures SemOk(AcquireStep(s, limits, r), limits, sem) {
      assert SemOk(s, limits, s.live[r].plan[s.live[r].got]) && SemOk(s, limits, sem);
      AcquireKeepsSem(s, limits, r, sem);
    }
  }

  lemma AcquireHolders(live: Runs, r: string, sem: Sem)
    requires r in live && live[r].got < |live[r].plan|
    requires forall i, j :: 0 <= i < j < |live[r].plan| ==> live[r].plan[i] != live[r].plan[j]
    ensures var live' := live[r := live[r].(got := live[r].got + 1)];
            if sem == live[r].plan[live[r].got]
            then r !in Holders(live, sem) && Holders(live', sem) == Holders(live, sem) + {r}
            else Holders(live', sem) == Holders(live, sem)
  {
    var l := live[r];
    var live' := live[r := l.(got := l.got + 1)];
    assert l.plan[..l.got + 1] == l.plan[..l.got] + [l.plan[l.got]];
    forall q ensures q in Holders(live', sem) <==> q in Holders(live, sem) || (q == r && sem == l.plan[l.got]) {}
  }

  /** When `r` has no child left, nobody else depends on its lanes or its pool. */
  lemma NobodyUsesDropped(live: Runs, r: string, q: string, sem: Sem)
    requires Structured(live) && r in live && !HasChild(live, r)
    requires DroppedWith(r, live[r].info, sem)
    ensures !Holds(live, q, sem)
  {
    if Holds(live, q, sem) {
      assert RunOk(live, q);
      var info := live[q].info;
      PlanShape(live, info);
      NearestFacts(live, Chain(live, info), AgentLane(info.agent));
      NearestFacts(live, Chain(live, info), RouteLane(info.route));
      ChainFacts(live, q, info);
      if sem.Children? { RootHasChild(live, q); }
    }
  }

  lemma LeaveKeepsStructure(s: State, limits: Limits, r: string)
    requires Inv(s, limits) && r in s.live && !HasChild(s.live, r)
    ensures Structured(s.live - {r})
    ensures forall q :: RootOk(s.live - {r}, limits, q)
  {
    hide Plan; hide SemOk;
    var live' := s.live - {r};
    forall q | q in s.live && s.live[q].info.parent.Some?
      ensures s.live[q].info.parent.value in s.live && s.live[q].info.parent.value != r {
      assert RunOk(s.live, q);
    }
    StructureKept(s.live, live', r);
    forall q ensures RootOk(live', limits, q) {
      assert RootOk(s.live, limits, q) && RunOk(s.live, q);
      if q in live' && s.live[q].info.parent.Some? { RootHasChild(s.live, q); }
    }
  }

  lemma FewerHolders(live: Runs, r: string, sem: Sem)
    ensures Holders(live - {r}, sem) == Holders(live, sem) - {r}
  {
    forall q ensures Holds(live - {r}, q, sem) <==> q != r && Holds(live, q, sem) {}
  }

  lemma LeaveKeepsSem(s: State, limits: Limits, r: string, sem: Sem)
    requires Structured(s.live) && SemOk(s, limits, sem) && r in s.live && !HasChild(s.live, r)
    ensures SemOk(LeaveStep(s, r), limits, sem)
  {
    hide RunOk; hide Structured;
    var live' := s.live - {r};
    FewerHolders(s.live, r, sem);
    if DroppedWith(r, s.live[r].info, sem) {
      forall q ensures !Holds(s.live, q, sem) { NobodyUsesDropped(s.live, r, q, sem); }
    }
  }

  lemma LeaveKeepsInv(s: State, limits: Limits, r: string)
    requires Inv(s, limits) && r in s.live && !HasChild(s.live, r)
    ensures Inv(LeaveStep(s, r), limits)
  {
    hide SemOk; hide RunOk; hide RootOk;
    LeaveKeepsStructure(s, limits, r);
    forall sem ensures SemOk(LeaveStep(s, r), limits, sem) {
      assert SemOk(s, limits, sem);
      LeaveKeepsSem(s, limits, r, sem);
    }
  }

  lemma StepKeepsInv(s: State, limits: Limits, e: Event)
    requires Inv(s, limits)
    ensures Inv(Step(s, limits, e), limits)
  {
    hide Inv; hide AcquireStep; hide LeaveStep;
    match e
    case Arrive(r, info) => if CanArrive(s, limits, r, info) { ArriveKeepsInv(s, limits, r, info); }
    case Acquire(r) => if r in s.live && s.live[r].got < |s.live[r].plan| { AcquireKeepsInv(s, limits, r); }
    case Leave(r) => if r in s.live && !HasChild(s.live, r) { LeaveKeepsInv(s, limits, r); }
  }

  lemma {:induction false} RunKeepsInv(s: State, limits: Limits, es: seq<Event>)
    requires Inv(s, limits)
    ensures Inv(Run(s, limits, es), limits)
    decreases |es|
  {
    hide Inv; hide Step;
    if es != [] {
      StepKeepsInv(s, limits, es[0]);
      RunKeepsInv(Step(s, limits, es[0]), limits, es[1..]);
    }
  }

  lemma Reachable(limits: Limits, es: seq<Event>)
    ensures Inv(Run(Init(limits), limits, es), limits)
  {
    var s := Init(limits);
    forall sem ensures SemOk(s, limits, sem) { assert Holders(s.live, sem) == {}; }
    RunKeepsInv(s, limits, es);
  }
}

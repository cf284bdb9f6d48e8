/** Capacity bounds and the absence of self-blocking, in every reachable state of the scheduler. */
module SchedulerBounds {
  import opened Common
  import opened Scheduler

  function LaneIndex(lane: Lane): nat { if lane.AgentLane? then 1 else 2 }

  /** Runs of an agent (or of a route tag) past the point where its permit, or a lane, was acquired. */
  function Users(live: Runs, lane: Lane): set<string> {
    set r | r in live && Plays(live, r, lane) && live[r].got > LaneIndex(lane)
  }

  /** The ancestor whose single re-entrant permit `r` uses instead of one of the semaphore's. */
  function Host(live: Runs, r: string, lane: Lane): Option<string>
    requires r in live
  {
    Nearest(live, Chain(live, live[r].info), lane)
  }

  /** Follow hosts up to the run that holds a permit of the semaphore itself. */
  function Top(live: Runs, r: string, lane: Lane): string
    requires r in live
    decreases live[r].info.depth
  {
    var h := Host(live, r, lane);
    if h.Some? && h.value in live && live[h.value].info.depth < live[r].info.depth then Top(live, h.value, lane) else r
  }

  function Hops(live: Runs, r: string, lane: Lane): nat
    requires r in live
    decreases live[r].info.depth
  {
    var h := Host(live, r, lane);
    if h.Some? && h.value in live && live[h.value].info.depth < live[r].info.depth
    then 1 + Hops(live, h.value, lane) else 0
  }

  lemma HostFacts(live: Runs, r: string, lane: Lane)
    requires Structured(live) && r in Users(live, lane)
    ensures match Host(live, r, lane)
            case Some(h) =>
              && h in Users(live, lane) && live[h].info.depth < live[r].info.depth
              && Holds(live, r, Ancestor(h, lane))
            case None => Holds(live, r, Own(lane))
  {
    assert RunOk(live, r);
    var info := live[r].info;
    PlanShape(live, info);
    var i := LaneIndex(lane);
    assert live[r].plan[i] == LaneSem(live, Chain(live, info), lane);
    assert live[r].plan[..live[r].got][i] == live[r].plan[i];
    ChainFacts(live, r, info);
    NearestFacts(live, Chain(live, info), lane);
    if Host(live, r, lane).Some? {
      var h := Host(live, r, lane).value;
      assert RunOk(live, h);
      PlanShape(live, live[h].info);
    }
  }

  lemma {:induction false} TopFacts(live: Runs, r: string, lane: Lane)
    requires Structured(live) && r in Users(live, lane)
    ensures Holds(live, Top(live, r, lane), Own(lane))
    ensures Hops(live, r, lane) <= live[r].info.depth
    decreases live[r].info.depth
  {
    HostFacts(live, r, lane);
    if Host(live, r, lane).Some? { TopFacts(live, Host(live, r, lane).value, lane); }
  }

  /** Hosts form chains: a permit holder and a number of hops name at most one run. */
  lemma {:induction false} SameSpotSameRun(s: State, limits: Limits, a: string, b: string, lane: Lane)
    requires Inv(s, limits) && a in Users(s.live, lane) && b in Users(s.live, lane)
    requires Top(s.live, a, lane) == Top(s.live, b, lane) && Hops(s.live, a, lane) == Hops(s.live, b, lane)
    ensures a == b
    decreases Hops(s.live, a, lane)
  {
    HostFacts(s.live, a, lane);
    HostFacts(s.live, b, lane);
    if Host(s.live, a, lane).Some? {
      var h := Host(s.live, a, lane).value;
      SameSpotSameRun(s, limits, h, Host(s.live, b, lane).value, lane);
      LaneHoldsOne(s, limits, a, b, Ancestor(h, lane));
    }
  }

  lemma LaneHoldsOne(s: State, limits: Limits, a: string, b: string, sem: Sem)
    requires SemOk(s, limits, sem) && sem.Ancestor? && Holds(s.live, a, sem) && Holds(s.live, b, sem)
    ensures a == b
  {
    var holders := Holders(s.live, sem);
    assert a in holders && b in holders;
    SubsetSize({a, b}, holders);
    assert a != b ==> |{a, b}| == 2;
  }

  /** The runs of one agent, or of one route tag, against the semaphore as it was created. */
  lemma BoundedBySemaphore(limits: Limits, es: seq<Event>, lane: Lane)
    ensures var s := Run(Init(limits), limits, es);
            if Own(lane) in s.capacity then |Users(s.live, lane)| <= s.capacity[Own(lane)] * (limits.maxDepth + 1)
            else Users(s.live, lane) == {}
  {
    var s := Run(Init(limits), limits, es);
    Reachable(limits, es);
    var users, tops := Users(s.live, lane), Holders(s.live, Own(lane));
    assert SemOk(s, limits, Own(lane));
    var top := r => if r in s.live then Top(s.live, r, lane) else r;
    var hops := r => if r in s.live then Hops(s.live, r, lane) else 0;
    forall r | r in users ensures top(r) in tops && 0 <= hops(r) <= limits.maxDepth {
      TopFacts(s.live, r, lane);
      assert RootOk(s.live, limits, r);
    }
    forall t | t in tops ensures |Fiber(users, top, t)| <= limits.maxDepth + 1 {
      var fiber := Fiber(users, top, t);
      forall a, b | a in fiber && b in fiber && hops(a) == hops(b) ensures a == b {
        SameSpotSameRun(s, limits, a, b, lane);
      }
      InjectionBound(fiber, hops, limits.maxDepth + 1);
    }
    FiberBound(users, tops, top, limits.maxDepth + 1);
    if Own(lane) in s.capacity {
      MulMono(|tops|, s.capacity[Own(lane)], limits.maxDepth + 1);
    }
  }

  /** Every run of the agent that arrives declares a limit that is `ok`. */
  predicate AgentDeclares(es: seq<Event>, name: string, ok: nat -> bool) {
    forall i :: 0 <= i < |es| && es[i].Arrive? && es[i].info.agent == name ==> ok(es[i].info.agentMax)
  }

  /** So do the runs present, and the semaphore was created with one of their limits. */
  predicate AgentOk(s: State, name: string, ok: nat -> bool) {
    && (forall r :: r in s.live && s.live[r].info.agent == name ==> ok(s.live[r].info.agentMax))
    && (Agent(name) in s.capacity ==> ok(s.capacity[Agent(name)]))
  }

  lemma AcquireKeepsAgentOk(s: State, limits: Limits, r: string, name: string, ok: nat -> bool)
    requires Inv(s, limits) && AgentOk(s, name, ok) && Waiting(s.live, r)
    ensures AgentOk(AcquireStep(s, limits, r), name, ok)
  {
    WantedIs(s, limits, r);
    hide Inv;
  }

  lemma StepKeepsAgentOk(s: State, limits: Limits, e: Event, name: string, ok: nat -> bool)
    requires Inv(s, limits) && AgentOk(s, name, ok)
    requires e.Arrive? && e.info.agent == name ==> ok(e.info.agentMax)
    ensures AgentOk(Step(s, limits, e), name, ok)
  {
    hide Inv; hide Plan; hide Holds; hide AcquireStep; hide Run;
    if e.Acquire? && Waiting(s.live, e.run) { AcquireKeepsAgentOk(s, limits, e.run, name, ok); }
  }

  /** The limit an agent's semaphore has is one that a run of the agent declared. */
  lemma {:induction false} AgentLimitIsDeclared(s: State, limits: Limits, es: seq<Event>, name: string, ok: nat -> bool)
    requires Inv(s, limits) && AgentOk(s, name, ok) && AgentDeclares(es, name, ok)
    ensures AgentOk(Run(s, limits, es), name, ok)
    decreases |es|
  {
    hide Inv; hide Step; hide AgentOk;
    if es != [] {
      StepKeepsAgentOk(s, limits, es[0], name, ok);
      StepKeepsInv(s, limits, es[0]);
      AgentLimitIsDeclared(Step(s, limits, es[0]), limits, es[1..], name, ok);
    }
  }

  /**
   * Bounded re-entrancy of an agent: its runs never exceed its concurrency limit times the depth limit plus one. `m`
   * is the limit, or the greatest one if the agent declares different limits over time.
   */
  lemma BoundedReentrancy(limits: Limits, es: seq<Event>, name: string, m: nat)
    requires forall i :: 0 <= i < |es| && es[i].Arrive? && es[i].info.agent == name ==> es[i].info.agentMax <= m
    ensures |Users(Run(Init(limits), limits, es).live, AgentLane(name))| <= m * (limits.maxDepth + 1)
  {
    hide Run;
    var s := Run(Init(limits), limits, es);
    Reachable(limits, []);
    assert Run(Init(limits), limits, []) == Init(limits) by { EmptyRun(limits); }
    AgentLimitIsDeclared(Init(limits), limits, es, name, limit => limit <= m);
    BoundedBySemaphore(limits, es, AgentLane(name));
    if Agent(name) in s.capacity { MulMono(s.capacity[Agent(name)], m, limits.maxDepth + 1); }
  }

  lemma EmptyRun(limits: Limits)
    ensures Run(Init(limits), limits, []) == Init(limits)
  {
  }

  /** Bounded re-entrancy of a route tag: the same with the configured limit of the tag. */
  lemma BoundedRouteReentrancy(limits: Limits, es: seq<Event>, tag: string)
    ensures var limit := if tag in limits.routeMax then limits.routeMax[tag] else 10_000;
            |Users(Run(Init(limits), limits, es).live, RouteLane(tag))| <= limit * (limits.maxDepth + 1)
  {
    hide Run;
    var s := Run(Init(limits), limits, es);
    Reachable(limits, es);
    assert SemOk(s, limits, Route(tag));
    BoundedBySemaphore(limits, es, RouteLane(tag));
  }

  lemma MulMono(a: nat, b: nat, m: nat)
    requires a <= b
    ensures a * m <= b * m
  {
  }

  // -- Permits and limits --------------------------------------------------------------------------------------

  /** The configured limit of a semaphore; an agent's is the one its semaphore was created with, or will be. */
  function LimitOf(s: State, limits: Limits, sem: Sem, info: Info): nat {
    match sem
    case Global => limits.globalMax
    case Children(_) => limits.maxChildren
    case Agent(_) => if sem in s.capacity then s.capacity[sem] else info.agentMax
    case Route(tag) => if tag in limits.routeMax then limits.routeMax[tag] else 10_000
    case Caller(name) => if name in limits.callerMax then limits.callerMax[name] else 10_000
    case Ancestor(_, _) => 1
  }

  /** A waiting run gets the permit it wants if and only if fewer runs hold one than the limit allows. */
  lemma PermitIff(s: State, limits: Limits, r: string)
    requires Inv(s, limits) && Waiting(s.live, r)
    ensures var sem, info := Wanted(s.live, r), s.live[r].info;
            AcquireStep(s, limits, r).live ==
            if |Holders(s.live, sem)| < LimitOf(s, limits, sem, info)
            then s.live[r := s.live[r].(got := s.live[r].got + 1)] else s.live
  {
    assert SemOk(s, limits, Wanted(s.live, r));
    hide Structured; hide RootOk; hide Holders;
  }

  /** In every reachable state. */
  lemma PermitIsGrantedIff(limits: Limits, es: seq<Event>, r: string)
    requires Waiting(Run(Init(limits), limits, es).live, r)
    ensures var s := Run(Init(limits), limits, es);
            var sem, info := Wanted(s.live, r), s.live[r].info;
            r in Step(s, limits, Acquire(r)).live
            && (Step(s, limits, Acquire(r)).live[r].got == s.live[r].got + 1 <==>
                |Holders(s.live, sem)| < LimitOf(s, limits, sem, info))
  {
    hide Run;
    Reachable(limits, es);
    var s := Run(Init(limits), limits, es);
    PermitIff(s, limits, r);
    hide Inv; hide AcquireStep; hide Holders;
  }

  /**
   * A run is let in, to wait for its permits, if and only if its depth is within the limit; that is for a root at depth
   * zero and for the child of an active run one level below it.
   */
  lemma ArrivalIff(s: State, limits: Limits, r: string, info: Info)
    requires r !in s.live
    requires info.parent.None? ==> info.root == r && info.depth == 0
    requires info.parent.Some? ==>
               var p := info.parent.value;
               Active(s.live, p) && s.live[p].info.depth + 1 == info.depth && s.live[p].info.root == info.root
    ensures var s' := Step(s, limits, Arrive(r, info));
            && (r in s'.live <==> info.depth <= limits.maxDepth)
            && (r in s'.live ==> s'.live[r].info == info && s'.live[r].got == 0)
            && (forall q :: q in s.live ==> q in s'.live && s'.live[q] == s.live[q])
  {
    hide Plan; hide Run;
  }

  /** A run without children leaves, and every permit it held is free again. */
  lemma LeaveFrees(s: State, limits: Limits, r: string, sem: Sem)
    requires Inv(s, limits) && r in s.live && forall q :: q in s.live ==> s.live[q].info.parent != Some(r)
    ensures var s' := Step(s, limits, Leave(r));
            r !in s'.live && Holders(s'.live, sem) == Holders(s.live, sem) - {r}
  {
    hide Run; hide Inv; hide Plan;
    FewerHolders(s.live, r, sem);
  }

  // -- Callers -------------------------------------------------------------------------------------------------

  /** Active runs of the caller none of whose active ancestors is the caller's. */
  function CallerTops(live: Runs, caller: string): set<string> {
    set r | && r in live && Active(live, r) && live[r].info.caller == caller
            && !CallerHeld(live, Chain(live, live[r].info), caller)
  }

  /** From a run of the caller, or with an ancestor of the caller, up to the topmost run of the caller. */
  function TopOfCaller(live: Runs, r: string, caller: string): string
    requires r in live
    decreases live[r].info.depth
  {
    var info := live[r].info;
    if info.parent.Some? && info.parent.value in live && live[info.parent.value].info.depth < info.depth
       && CallerHeld(live, Chain(live, info), caller)
    then TopOfCaller(live, info.parent.value, caller) else r
  }

  lemma {:induction false} TopOfCallerFacts(live: Runs, r: string, caller: string)
    requires Structured(live) && Active(live, r)
    requires live[r].info.caller == caller || CallerHeld(live, Chain(live, live[r].info), caller)
    ensures TopOfCaller(live, r, caller) in CallerTops(live, caller)
    ensures live[TopOfCaller(live, r, caller)].info.root == live[r].info.root
    decreases live[r].info.depth
  {
    hide Plan;
    assert RunOk(live, r);
    var info := live[r].info;
    if CallerHeld(live, Chain(live, info), caller) {
      var chain := Chain(live, info);
      var i :| 0 <= i < |chain| && chain[i] in live && live[chain[i]].info.caller == caller;
      var p := info.parent.value;
      assert Chain(live, info) == [p] + Chain(live, live[p].info);
      if i > 0 {
        assert Chain(live, live[p].info)[i - 1] == Chain(live, info)[i];
        assert CallerHeld(live, Chain(live, live[p].info), caller);
      }
      hide Structured;
      TopOfCallerFacts(live, p, caller);
    }
  }

  lemma CallerTopHolds(live: Runs, r: string, caller: string)
    requires Structured(live) && r in CallerTops(live, caller)
    ensures r in Holders(live, Caller(caller))
  {
    hide Chain;
    assert RunOk(live, r);
    PlanShape(live, live[r].info);
    var plan := live[r].plan;
    assert plan == Plan(live, live[r].info);
    assert plan[3] == Caller(caller);
    assert live[r].plan[..live[r].got] == live[r].plan;
  }

  /**
   * The active runs of one caller: those with no active ancestor of the caller never exceed the caller's limit, and all
   * of them never exceed that limit times one more than the children a root may have.
   */
  lemma BoundedCaller(limits: Limits, es: seq<Event>, caller: string)
    ensures var live := Run(Init(limits), limits, es).live;
            var limit := if caller in limits.callerMax then limits.callerMax[caller] else 10_000;
            && |CallerTops(live, caller)| <= limit
            && |set r | r in ActiveRuns(live) && live[r].info.caller == caller| <= limit * (1 + limits.maxChildren)
  {
    hide Run;
    var s := Run(Init(limits), limits, es);
    var live := s.live;
    Reachable(limits, es);
    assert SemOk(s, limits, Caller(caller));
    var tops := CallerTops(live, caller);
    forall r | r in tops ensures r in Holders(live, Caller(caller)) { CallerTopHolds(live, r, caller); }
    SubsetSize(tops, Holders(live, Caller(caller)));
    var limit := if caller in limits.callerMax then limits.callerMax[caller] else 10_000;
    assert |tops| <= limit;
    var runs := set r | r in ActiveRuns(live) && live[r].info.caller == caller;
    var top := r => if r in live then TopOfCaller(live, r, caller) else r;
    forall r | r in runs ensures top(r) in tops { TopOfCallerFacts(live, r, caller); }
    forall t | t in tops ensures |Fiber(runs, top, t)| <= 1 + limits.maxChildren {
      CallerFiber(s, limits, caller, runs, top, t);
    }
    FiberBound(runs, tops, top, 1 + limits.maxChildren);
    MulMono(|tops|, limit, 1 + limits.maxChildren);
  }

  /** The runs under one top share its root, which has one place of its own and a pool for the rest. */
  lemma CallerFiber(s: State, limits: Limits, caller: string, runs: set<string>, top: string -> string, t: string)
    requires Inv(s, limits) && t in s.live
    requires forall r :: r in runs ==> Active(s.live, r) && s.live[r].info.caller == caller
    requires forall r :: r in runs ==> r in s.live && top(r) == TopOfCaller(s.live, r, caller)
    ensures |Fiber(runs, top, t)| <= 1 + limits.maxChildren
  {
    var live, fiber, root := s.live, Fiber(runs, top, t), s.live[t].info.root;
    var pool := Holders(live, Children(root));
    assert SemOk(s, limits, Children(root));
    hide SemOk;
    forall r | r in fiber ensures r in {root} + pool {
      TopOfCallerFacts(live, r, caller);
      ActiveUnderRoot(live, limits, r);
    }
    SubsetSize(fiber, {root} + pool);
    assert |{root} + pool| <= 1 + |pool|;
  }

  function ActiveRuns(live: Runs): set<string> { set r | r in live && Active(live, r) }

  /** All active runs together: each root takes a global slot and brings at most its pool of children. */
  lemma BoundedTotal(limits: Limits, es: seq<Event>)
    ensures |ActiveRuns(Run(Init(limits), limits, es).live)| <= limits.globalMax * (1 + limits.maxChildren)
  {
    var s := Run(Init(limits), limits, es);
    Reachable(limits, es);
    var live, active, roots := s.live, ActiveRuns(s.live), Holders(s.live, Global);
    assert SemOk(s, limits, Global);
    var root := r => if r in s.live then s.live[r].info.root else r;
    forall r | r in active ensures root(r) in roots && (r == root(r) || r in Holders(live, Children(root(r)))) {
      ActiveUnderRoot(live, limits, r);
    }
    forall t | t in roots ensures |Fiber(active, root, t)| <= 1 + limits.maxChildren {
      var fiber := Fiber(active, root, t);
      var pool := Holders(live, Children(t));
      assert SemOk(s, limits, Children(t));
      assert fiber <= {t} + pool;
      SubsetSize(fiber, {t} + pool);
    }
    FiberBound(active, roots, root, 1 + limits.maxChildren);
    MulMono(|roots|, limits.globalMax, 1 + limits.maxChildren);
  }

  lemma ActiveUnderRoot(live: Runs, limits: Limits, r: string)
    requires Structured(live) && Active(live, r) && forall q :: RootOk(live, limits, q)
    ensures var t := live[r].info.root;
            t in Holders(live, Global) && (r == t || r in Holders(live, Children(t)))
  {
    var t := live[r].info.root;
    assert RootOk(live, limits, r) && RunOk(live, r) && RunOk(live, t);
    PlanShape(live, live[r].info);
    PlanShape(live, live[t].info);
    assert live[r].plan[..live[r].got][0] == live[r].plan[0];
    assert live[t].plan[..live[t].got] == live[t].plan;
    assert live[t].plan[0] in live[t].plan;
  }

  // -- Self-blocking -----------------------------------------------------------------------------------------

  predicate Waiting(live: Runs, r: string) { r in live && live[r].got < |live[r].plan| }

  function Wanted(live: Runs, r: string): Sem
    requires Waiting(live, r)
  {
    live[r].plan[live[r].got]
  }

  function Ancestors(live: Runs, r: string): set<string>
    requires r in live
  {
    Members(Chain(live, live[r].info))
  }

  function Members(chain: seq<string>): set<string> { set x | x in chain }

  /** The walk misses nobody: the ancestors are exactly the parent and the parent's ancestors. */
  lemma AncestorsAreTransitive(limits: Limits, es: seq<Event>, r: string)
    requires r in Run(Init(limits), limits, es).live
    ensures var live := Run(Init(limits), limits, es).live;
            match live[r].info.parent
            case None => Ancestors(live, r) == {}
            case Some(p) => p in live && Ancestors(live, r) == {p} + Ancestors(live, p)
  {
    var live := Run(Init(limits), limits, es).live;
    Reachable(limits, es);
    assert RunOk(live, r);
  }

  /** Among those playing a lane in a chain, the nearest is the deepest. */
  lemma {:induction false} NearestIsDeepest(live: Runs, q: string, info: Info, lane: Lane, x: string)
    requires Structured(live) && ParentOk(live, info) && q in live && live[q].info == info
    requires x in Chain(live, info) && Plays(live, x, lane)
    ensures Nearest(live, Chain(live, info), lane).Some?
    ensures var n := Nearest(live, Chain(live, info), lane).value; n in live && live[x].info.depth <= live[n].info.depth
    decreases info.depth
  {
    var p := info.parent.value;
    assert RunOk(live, p);
    assert Chain(live, info) == [p] + Chain(live, live[p].info);
    assert Chain(live, info)[1..] == Chain(live, live[p].info);
    ChainFacts(live, q, info);
    ChainFacts(live, p, live[p].info);
    if !Plays(live, p, lane) { NearestIsDeepest(live, p, live[p].info, lane, x); }
  }

  /** What a held permit says about its holder. */
  lemma HeldSem(live: Runs, x: string, sem: Sem)
    requires Structured(live) && Holds(live, x, sem)
    ensures match sem
            case Agent(name) => Plays(live, x, AgentLane(name))
            case Route(tag) => Plays(live, x, RouteLane(tag))
            case Caller(name) => live[x].info.caller == name
            case Ancestor(y, lane) => Plays(live, x, lane) && y in live && live[y].info.depth < live[x].info.depth
            case _ => true
  {
    assert RunOk(live, x);
    var info := live[x].info;
    PlanShape(live, info);
    ChainFacts(live, x, info);
    NearestFacts(live, Chain(live, info), AgentLane(info.agent));
    NearestFacts(live, Chain(live, info), RouteLane(info.route));
  }

  lemma NotBlockedByAncestor(live: Runs, r: string, x: string)
    requires Structured(live) && Waiting(live, r) && x in Ancestors(live, r)
    ensures Wanted(live, r).Children? || !Holds(live, x, Wanted(live, r))
  {
    var sem := Wanted(live, r);
    assert RunOk(live, r);
    var info := live[r].info;
    var chain := Chain(live, info);
    PlanShape(live, info);
    ChainFacts(live, r, info);
    if Holds(live, x, sem) && !sem.Children? {
      HeldSem(live, x, sem);
      var i := live[r].got;
      if i == 1 || i == 2 {
        var lane := if i == 1 then AgentLane(info.agent) else RouteLane(info.route);
        assert sem == LaneSem(live, chain, lane);
        assert Plays(live, x, lane);
        NearestIsDeepest(live, r, info, lane, x);
      }
    }
  }

  /** No self-blocking: no run ever waits for an agent, route, caller or lane permit that one of its ancestors holds. */
  lemma NoSelfBlocking(limits: Limits, es: seq<Event>, r: string, x: string)
    requires var live := Run(Init(limits), limits, es).live; Waiting(live, r) && x in Ancestors(live, r)
    ensures var live := Run(Init(limits), limits, es).live;
            Wanted(live, r).Children? || !Holds(live, x, Wanted(live, r))
  {
    Reachable(limits, es);
    NotBlockedByAncestor(Run(Init(limits), limits, es).live, r, x);
  }

  lemma {:induction false} ChainSize(live: Runs, q: string, info: Info)
    requires Structured(live) && ParentOk(live, info) && q in live && live[q].info == info
    ensures |Members(Chain(live, info))| == info.depth
    ensures info.depth > 0 ==> info.root in Chain(live, info)
    decreases info.depth
  {
    hide Plan; hide Members;
    assert RunOk(live, q);
    if info.parent.Some? {
      var p := info.parent.value;
      assert RunOk(live, p);
      hide Structured;
      ChainFacts(live, p, live[p].info);
      ChainSize(live, p, live[p].info);
      assert Chain(live, info) == [p] + Chain(live, live[p].info);
      OneMember(p, Chain(live, live[p].info));
    } else {
      assert Members([]) == {} by { NoMembers(); }
    }
  }

  lemma OneMember(p: string, chain: seq<string>)
    requires p !in chain
    ensures |Members([p] + chain)| == |Members(chain)| + 1
  {
    assert Members([p] + chain) == {p} + Members(chain);
  }

  lemma NoMembers()
    ensures Members([]) == {}
  {
  }

  lemma PoolMember(live: Runs, x: string)
    requires Structured(live) && Active(live, x)
    ensures Holds(live, x, Children(live[x].info.root)) <==> live[x].info.parent.Some?
  {
    assert RunOk(live, x);
    var info := live[x].info;
    PlanShape(live, info);
    assert live[x].plan[..live[x].got] == live[x].plan;
    assert live[x].plan[0] in live[x].plan;
    assert LaneSem(live, Chain(live, info), AgentLane(info.agent)) != Children(info.root);
    assert LaneSem(live, Chain(live, info), RouteLane(info.route)) != Children(info.root);
  }

  /** The ancestors of a run that take a place in its root's pool are all of them but the root. */
  lemma PoolHolders(live: Runs, limits: Limits, r: string)
    requires Structured(live) && RootOk(live, limits, r) && r in live && live[r].info.parent.Some? && live[r].got == 0
    requires live.Keys == {r} + Ancestors(live, r)
    ensures |Holders(live, Children(live[r].info.root))| == live[r].info.depth - 1
  {
    hide Plan; hide Up;
    assert RunOk(live, r);
    var info := live[r].info;
    ChainSize(live, r, info);
    ChainFacts(live, r, info);
    forall x | x in live ensures Holds(live, x, Children(info.root)) <==> x in Ancestors(live, r) && x != info.root {
      if x in Ancestors(live, r) {
        PoolMember(live, x);
        assert RunOk(live, x);
      }
    }
    assert Holders(live, Children(info.root)) == Ancestors(live, r) - {info.root};
  }

  /** Only the run and its own ancestors are present. */
  predicate Lone(live: Runs, r: string) { r in live && live.Keys == {r} + Ancestors(live, r) }

  /** The semaphores the run may need, the children's pool aside, have room for at least one run. */
  predicate PositivePlan(s: State, limits: Limits, r: string)
    requires r in s.live
  {
    var info := s.live[r].info;
    && limits.globalMax > 0
    && (if Agent(info.agent) in s.capacity then s.capacity[Agent(info.agent)] else info.agentMax) > 0
    && (info.route in limits.routeMax ==> limits.routeMax[info.route] > 0)
    && (info.caller in limits.callerMax ==> limits.callerMax[info.caller] > 0)
  }

  predicate FitsPool(limits: Limits, info: Info) { info.parent.Some? ==> info.depth <= limits.maxChildren }

  /** What a run wants is one of its own. */
  lemma WantedIs(s: State, limits: Limits, r: string)
    requires Inv(s, limits) && Waiting(s.live, r)
    ensures var sem, info := Wanted(s.live, r), s.live[r].info;
            match sem
            case Agent(name) => name == info.agent
            case Route(tag) => tag == info.route
            case Caller(name) => name == info.caller
            case Children(root) => root == info.root && info.parent.Some?
            case Global => info.parent.None?
            case Ancestor(_, _) => true
  {
    assert RunOk(s.live, r);
    PlanShape(s.live, s.live[r].info);
  }

  /** Nobody holds what a lone run wants, except that its ancestors below the root have their places in the pool. */
  lemma LoneHolders(s: State, limits: Limits, r: string)
    requires Inv(s, limits) && Lone(s.live, r) && Waiting(s.live, r)
    ensures var sem, info := Wanted(s.live, r), s.live[r].info;
            && |Holders(s.live, sem)| == (if sem.Children? then info.depth - 1 else 0)
            && (sem.Children? ==> info.parent.Some?)
  {
    hide SemOk; hide Holders; hide Up; hide Plan;
    var sem := Wanted(s.live, r);
    assert RunOk(s.live, r);
    PlanShape(s.live, s.live[r].info);
    if sem.Children? {
      assert RootOk(s.live, limits, r);
      PoolHolders(s.live, limits, r);
    } else {
      forall x | x in s.live ensures !Holds(s.live, x, sem) {
        if x != r { NotBlockedByAncestor(s.live, r, x); }
      }
      NoHolders(s.live, sem);
    }
  }

  lemma NoHolders(live: Runs, sem: Sem)
    requires forall x :: x in live ==> !Holds(live, x, sem)
    ensures |Holders(live, sem)| == 0
  {
    assert Holders(live, sem) == {};
  }

  /** A lone run gets the permit it wants at once, unless that is a place in a pool its own ancestors fill. */
  lemma LonePermit(s: State, limits: Limits, r: string)
    requires Inv(s, limits) && Lone(s.live, r) && Waiting(s.live, r) && PositivePlan(s, limits, r)
    ensures AcquireStep(s, limits, r).live ==
            if Wanted(s.live, r).Children? && !FitsPool(limits, s.live[r].info) then s.live
            else s.live[r := s.live[r].(got := s.live[r].got + 1)]
  {
    LoneHolders(s, limits, r);
    WantedIs(s, limits, r);
    PermitIff(s, limits, r);
    hide Inv; hide Lone; hide Holders; hide AcquireStep;
  }

  lemma LoneStays(s: State, limits: Limits, r: string)
    requires Inv(s, limits) && Lone(s.live, r) && Waiting(s.live, r) && PositivePlan(s, limits, r)
    ensures var s' := AcquireStep(s, limits, r);
            && Lone(s'.live, r) && PositivePlan(s', limits, r)
            && s'.live[r].info == s.live[r].info && s'.live[r].plan == s.live[r].plan
  {
    hide Lone;
    WantedIs(s, limits, r);
    var s' := AcquireStep(s, limits, r);
    if s'.live != s.live { LoneStaysLone(s.live, s'.live, r); }
  }

  lemma LoneStaysLone(live: Runs, live': Runs, r: string)
    requires Structured(live) && Lone(live, r) && live' == live[r := live[r].(got := live[r].got + 1)]
    requires Waiting(live, r)
    ensures Lone(live', r)
  {
    hide Plan; hide Up;
    assert RunOk(live, r);
    forall q | q in live && live[q].info.parent.Some?
      ensures live[q].info.parent.value in live && live[q].info.parent.value != r {
      assert RunOk(live, q);
    }
    UpStable(live, live', live[r].info);
    assert live'.Keys == live.Keys;
  }

  function Acquires(r: string, n: nat): seq<Event> { if n == 0 then [] else [Acquire(r)] + Acquires(r, n - 1) }

  /** Under way, past the pool or with room in it, a lone run is active after as many permits as it still lacks. */
  lemma {:induction false} LoneRunIsAdmitted(s: State, limits: Limits, r: string, n: nat)
    requires Inv(s, limits) && r in s.live && Lone(s.live, r) && PositivePlan(s, limits, r)
    requires FitsPool(limits, s.live[r].info) && s.live[r].got + n == |s.live[r].plan|
    ensures Active(Run(s, limits, Acquires(r, n)).live, r)
    decreases n
  {
    hide Inv; hide Lone; hide PositivePlan; hide AcquireStep; hide FitsPool;
    if n > 0 {
      LonePermit(s, limits, r);
      LoneStays(s, limits, r);
      AcquireKeepsInv(s, limits, r);
      LoneRunIsAdmitted(AcquireStep(s, limits, r), limits, r, n - 1);
      assert Acquires(r, n)[0] == Acquire(r) && Acquires(r, n)[1..] == Acquires(r, n - 1);
      assert Step(s, limits, Acquire(r)) == AcquireStep(s, limits, r);
    }
  }

  /** With the pool full of its own ancestors it never gets past the first permit. */
  lemma {:induction false} LoneRunIsStuck(s: State, limits: Limits, r: string, n: nat)
    requires Inv(s, limits) && r in s.live && Lone(s.live, r) && PositivePlan(s, limits, r)
    requires !FitsPool(limits, s.live[r].info) && s.live[r].got == 0
    ensures var live := Run(s, limits, Acquires(r, n)).live;
            r in live && live[r].got == 0 && live[r].plan == s.live[r].plan
    decreases n
  {
    hide Inv; hide Lone; hide PositivePlan; hide AcquireStep;
    if n > 0 {
      assert Waiting(s.live, r) && Wanted(s.live, r).Children? by { FirstWanted(s, limits, r); }
      LonePermit(s, limits, r);
      LoneStays(s, limits, r);
      AcquireKeepsInv(s, limits, r);
      LoneRunIsStuck(AcquireStep(s, limits, r), limits, r, n - 1);
      assert Acquires(r, n)[0] == Acquire(r) && Acquires(r, n)[1..] == Acquires(r, n - 1);
      assert Step(s, limits, Acquire(r)) == AcquireStep(s, limits, r);
    }
  }

  lemma FirstWanted(s: State, limits: Limits, r: string)
    requires Inv(s, limits) && r in s.live && s.live[r].info.parent.Some? && s.live[r].got == 0
    ensures Waiting(s.live, r) && Wanted(s.live, r).Children?
  {
    assert RunOk(s.live, r);
    PlanShape(s.live, s.live[r].info);
  }

  lemma PlanIsNotEmpty(s: State, limits: Limits, r: string)
    requires Inv(s, limits) && r in s.live
    ensures |s.live[r].plan| > 0
  {
    assert RunOk(s.live, r);
    PlanShape(s.live, s.live[r].info);
  }

  /**
   * A lone chain: when only its own ancestors are present, a run that has just arrived is active after exactly as many
   * acquisitions as its plan has permits, without ever waiting, if and only if its depth fits the root's pool.
   */
  lemma LoneChainIsAdmitted(limits: Limits, es: seq<Event>, r: string)
    requires var s := Run(Init(limits), limits, es);
             r in s.live && s.live[r].got == 0 && Lone(s.live, r) && PositivePlan(s, limits, r)
    ensures var s := Run(Init(limits), limits, es);
            Active(Run(s, limits, Acquires(r, |s.live[r].plan|)).live, r) <==> FitsPool(limits, s.live[r].info)
  {
    var s := Run(Init(limits), limits, es);
    Reachable(limits, es);
    hide Run; hide Inv; hide Lone; hide PositivePlan; hide FitsPool;
    PlanIsNotEmpty(s, limits, r);
    if FitsPool(limits, s.live[r].info) {
      LoneRunIsAdmitted(s, limits, r, |s.live[r].plan|);
    } else {
      LoneRunIsStuck(s, limits, r, |s.live[r].plan|);
    }
  }
}

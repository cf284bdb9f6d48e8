/** Reloading: making the in-memory registries agree with the stored tables, and counting the changes. */
module ConfigWatcher {
  import opened Common
  import opened Versions
  import A = AgentRegistries
  import S = SkillRegistries

  /** Entries that are missing, surplus or different. */
  function Stale<T(==)>(current: map<Key, T>, stored: map<Key, T>): set<Key> {
    (set k | k in current && k !in stored) + (set k | k in stored && !(k in current && current[k] == stored[k]))
  }

  /** The registry once the surplus is gone and the entries in `done` are reloaded. */
  function Mixed<T>(current: map<Key, T>, stored: map<Key, T>, done: set<Key>): map<Key, T> {
    map k | k in stored && (k in done || k in current) :: if k in done then stored[k] else current[k]
  }

  /** No tag is listed by enabled agents of two names, among the stored ones and those they replace. */
  ghost predicate OneNamePerTag(current: A.Agents, stored: A.Agents) {
    forall k, l, t ::
      k in stored && l in stored && stored[k].enabled && t in stored[k].tags
      && ((stored[l].enabled && t in stored[l].tags) || (l in current && current[l].enabled && t in current[l].tags))
      ==> k.0 == l.0
  }

  /** Nothing is surplus, and the first stored agent is new or changed and wants a tag routed to another name. */
  ghost predicate FirstRefused(current: A.Agents, routes: A.Routes, stored: A.Agents, order: seq<Key>) {
    && current.Keys <= stored.Keys
    && order != [] && order[0] in stored
    && !(order[0] in current && current[order[0]] == stored[order[0]])
    && Refused(routes, stored[order[0]])
  }

  ghost predicate Refused(routes: A.Routes, agent: A.Agent) {
    agent.enabled && exists t :: t in agent.tags && A.Taken(routes, agent, t)
  }

  /** `order` lists the stored keys, each once. */
  ghost predicate Enumerates<T>(order: seq<Key>, stored: map<Key, T>) {
    && (forall k :: k in order <==> k in stored)
    && (forall i, j :: 0 <= i < j < |order| ==> order[i] != order[j])
  }

  lemma {:induction false} OneNameRegisters(
      current: A.Agents, stored: A.Agents, done: set<Key>, routes: A.Routes, k: Key)
    requires A.Keyed(current) && A.Keyed(stored) && OneNamePerTag(current, stored) && k in stored
    requires A.Routed(Mixed(current, stored, done), routes)
    ensures !Refused(routes, stored[k])
  {
    forall t | stored[k].enabled && t in stored[k].tags ensures !A.Taken(routes, stored[k], t) {
      if t in routes {
        var a := routes[t];
        assert A.Candidate(Mixed(current, stored, done), t, a);
        var l := A.KeyOf(a);
        assert l in stored;
      }
    }
  }

  lemma MixedOneMore<T>(current: map<Key, T>, stored: map<Key, T>, done: set<Key>, k: Key)
    requires k in stored
    ensures Mixed(current, stored, done + {k}) == Mixed(current, stored, done)[k := stored[k]]
    ensures k in current && current[k] == stored[k] ==>
              Mixed(current, stored, done + {k}) == Mixed(current, stored, done)
  {
  }

  lemma MixedAll<T>(current: map<Key, T>, stored: map<Key, T>, order: seq<Key>)
    requires Enumerates(order, stored)
    ensures Elements(order[..|order|]) == stored.Keys && Mixed(current, stored, stored.Keys) == stored
  {
    assert order[..|order|] == order;
  }

  function Surplus<T>(current: map<Key, T>, stored: map<Key, T>): set<Key> { current.Keys - stored.Keys }

  function Differing<T(==)>(current: map<Key, T>, stored: map<Key, T>, keys: set<Key>): set<Key> {
    set k | k in keys && k in stored && !(k in current && current[k] == stored[k])
  }

  lemma StaleSplits<T>(current: map<Key, T>, stored: map<Key, T>)
    ensures Stale(current, stored) == Surplus(current, stored) + Differing(current, stored, stored.Keys)
    ensures |Stale(current, stored)| == |Surplus(current, stored)| + |Differing(current, stored, stored.Keys)|
    ensures Stale(current, stored) == {} <==> current == stored
  {
    assert Stale(current, stored) == Surplus(current, stored) + Differing(current, stored, stored.Keys);
    assert Surplus(current, stored) !! Differing(current, stored, stored.Keys);
    if Stale(current, stored) == {} {
      forall k | k in stored ensures k in current && current[k] == stored[k] { assert k !in Stale(current, stored); }
      forall k | k in current ensures k in stored { assert k !in Stale(current, stored); }
    }
  }

  lemma DifferingOneMore<T>(current: map<Key, T>, stored: map<Key, T>, done: set<Key>, k: Key)
    requires k in stored && k !in done
    ensures |Differing(current, stored, done + {k})|
         == |Differing(current, stored, done)| + if k in current && current[k] == stored[k] then 0 else 1
  {
    if k in current && current[k] == stored[k] {
      assert Differing(current, stored, done + {k}) == Differing(current, stored, done);
    } else {
      assert Differing(current, stored, done + {k}) == Differing(current, stored, done) + {k};
    }
  }

  function Elements(order: seq<Key>): set<Key> { set k | k in order }

  lemma NextElement<T>(order: seq<Key>, stored: map<Key, T>, i: nat)
    requires Enumerates(order, stored) && i < |order|
    ensures order[i] in stored && order[i] !in Elements(order[..i])
    ensures Elements(order[..i + 1]) == Elements(order[..i]) + {order[i]}
  {
    assert order[..i + 1] == order[..i] + [order[i]];
    assert order[i] in order;
  }

  lemma OnlyOne(removed: set<Key>, keys: set<Key>, k: Key)
    requires k in keys && forall q :: q in removed <==> q in keys && q.0 == k.0 && k.1 == q.1
    ensures removed == {k}
  {
  }

  function Minus<T>(entries: map<Key, T>, keys: set<Key>): map<Key, T> { entries - keys }

  lemma RemoveOne<T>(was: map<Key, T>, gone: set<Key>, left: set<Key>, k: Key)
    requires k in left && left <= was.Keys && gone !! left
    ensures k in Minus(was, gone) && Minus(Minus(was, gone), {k}) == Minus(was, gone + {k})
    ensures |gone + {k}| == |gone| + 1 && (gone + {k}) !! (left - {k})
    ensures gone + {k} + (left - {k}) == gone + left
  {
  }

  /** Removes the agents that are not stored. */
  method RemoveSurplus(reg: A.AgentRegistry, stored: A.Agents) returns (n: nat)
    requires reg.Valid()
    modifies reg`agents, reg`routes
    ensures reg.Valid() && n == |Surplus(old(reg.agents), stored)|
    ensures reg.agents == old(reg.agents) - Surplus(old(reg.agents), stored)
    ensures Surplus(old(reg.agents), stored) == {} ==> reg.routes == old(reg.routes)
    ensures A.Rerouted(reg.rank, reg.agents, old(reg.routes), reg.routes, Surplus(old(reg.agents), stored))
  {
    hide A.Rerouted; hide A.Shrinks; hide A.AgentRegistry.Valid; hide Matching; hide Minus; hide Surplus;
    n := 0;
    ghost var was, before := reg.agents, reg.routes;
    var left := Surplus(reg.agents, stored);
    ghost var all, gone := left, {};
    SurplusIsKnown(was, stored);
    A.RerouteNone(reg.rank, was, before);
    while left != {}
      invariant reg.Valid() && left <= was.Keys && gone !! left && gone + left == all
      invariant reg.agents == Minus(was, gone) && n == |gone|
      invariant gone == {} ==> reg.routes == old(reg.routes)
      invariant A.Rerouted(reg.rank, reg.agents, before, reg.routes, gone)
      decreases |left|
    {
      var k :| k in left;
      RemoveOne(was, gone, left, k);
      MinusIs(reg.agents, {k});
      ghost var mid, midRoutes := reg.agents, reg.routes;
      assert A.Shrinks(mid, mid - {k}, k) by { ValidShrinks(reg, k); }
      var removed := reg.Deregister(k.0, Some(k.1));
      OnlyOne(removed, mid.Keys, k);
      A.RerouteMore(reg.rank, mid, reg.agents, before, midRoutes, reg.routes, gone, k);
      left := left - {k};
      gone := gone + {k};
      n := n + 1;
    }
    assert gone == all;
    MinusIs(was, all);
  }

  lemma ValidShrinks(reg: A.AgentRegistry, k: Key)
    requires reg.Valid()
    ensures A.Shrinks(reg.agents, reg.agents - {k}, k)
  {
    A.RemoveShrinks(reg.agents, k);
  }

  lemma MinusIs<T>(entries: map<Key, T>, keys: set<Key>)
    ensures Minus(entries, keys) == entries - keys
  {
  }

  lemma SurplusIsKnown<T>(current: map<Key, T>, stored: map<Key, T>)
    ensures Surplus(current, stored) <= current.Keys && Minus(current, {}) == current
  {
  }

  // -- When a reload of agents raises --------------------------------------------------------------------------

  /** What a reload starts from: the registry, its routes, and the table with the order its rows come in. */
  datatype Reload = Reload(current: A.Agents, routes: A.Routes, stored: A.Agents, order: seq<Key>) {
    ghost predicate Valid() {
      A.Keyed(current) && A.Keyed(stored) && A.Routed(current, routes) && Enumerates(order, stored)
    }

    /** Row `i` is new or different. */
    predicate Upserts(i: nat) {
      i < |order| && order[i] in stored && !(order[i] in current && current[order[i]] == stored[order[i]])
    }

    /** Row `i` will want the tag. */
    predicate Claims(i: nat, tag: string) { Upserts(i) && stored[order[i]].enabled && tag in stored[order[i]].tags }

    /** No version is disabled in place, so that no upsert makes a tag fall back to a latest candidate. */
    ghost predicate NoneDisabled() {
      forall i: nat :: Upserts(i) && order[i] in current ==> stored[order[i]].enabled
    }

    /** The route of the tag when row `i` comes up, if none before it was refused. */
    function RouteAt(i: nat, tag: string): Option<A.Agent>
      decreases i
    {
      if i == 0 then Lookup(routes, tag)
      else if Upserts(i - 1) then After(RouteAt(i - 1, tag), stored[order[i - 1]], tag)
      else RouteAt(i - 1, tag)
    }

    predicate ClashesAt(i: nat, tag: string) {
      Claims(i, tag) && RouteAt(i, tag).Some? && RouteAt(i, tag).value.name != stored[order[i]].name
    }

    ghost predicate Clashes(i: nat) { exists tag :: ClashesAt(i, tag) }

    predicate RivalAt(i: nat, j: nat, tag: string) {
      j < i && Claims(j, tag) && Claims(i, tag) && order[j].0 != order[i].0
    }

    predicate ReplacedBefore(i: nat, key: Key) { exists j: nat :: j < i && Upserts(j) && order[j] == key }

    predicate HolderAt(i: nat, tag: string) {
      && Claims(i, tag) && tag in routes && routes[tag].name != order[i].0
      && !ReplacedBefore(i, A.KeyOf(routes[tag]))
    }

    /**
     * Some new or changed row wants a tag that an earlier new or changed row of another name wants too, or that is
     * routed to another name whose own row does not come earlier with a change.
     */
    ghost predicate Contested() {
      || (exists i: nat, j: nat, tag :: RivalAt(i, j, tag))
      || (exists i: nat, tag :: HolderAt(i, tag))
    }
  }

  /** The route of a tag after an upsert that needs no fallback. */
  function After(route: Option<A.Agent>, a: A.Agent, tag: string): Option<A.Agent> {
    if a.enabled && tag in a.tags then Some(a)
    else if route.Some? && A.KeyOf(route.value) == A.KeyOf(a) then None
    else route
  }

  /** The last of the rows before `i` that claim the tag has it; failing that, the first holder, unless replaced. */
  lemma {:induction false} RouteAtIs(l: Reload, i: nat, tag: string) returns (last: Option<nat>)
    requires l.Valid() && i <= |l.order|
    ensures last.Some? ==> last.value < i && l.Claims(last.value, tag)
    ensures last.Some? ==> l.RouteAt(i, tag) == Some(l.stored[l.order[last.value]])
    ensures last.Some? ==> forall j: nat :: last.value < j < i ==> !l.Claims(j, tag)
    ensures last.None? ==> forall j: nat :: j < i ==> !l.Claims(j, tag)
    ensures last.None? ==>
              l.RouteAt(i, tag) ==
              if tag in l.routes && !l.ReplacedBefore(i, A.KeyOf(l.routes[tag])) then Some(l.routes[tag]) else None
    decreases i
  {
    if i == 0 { return None; }
    last := RouteAtIs(l, i - 1, tag);
    if l.Claims(i - 1, tag) { return Some(i - 1); }
    if last.Some? {
      StoredKey(l, last.value);
      if l.Upserts(i - 1) { StoredKey(l, i - 1); }
    } else if tag in l.routes {
      var key := A.KeyOf(l.routes[tag]);
      if l.Upserts(i - 1) { StoredKey(l, i - 1); }
      assert l.ReplacedBefore(i, key) <==> l.ReplacedBefore(i - 1, key) || (l.Upserts(i - 1) && l.order[i - 1] == key);
    }
  }

  lemma StoredKey(l: Reload, i: nat)
    requires l.Valid() && i < |l.order|
    ensures l.order[i] in l.stored && A.KeyOf(l.stored[l.order[i]]) == l.order[i]
  {
    assert l.order[i] in l.order;
  }

  lemma {:induction false} RivalsClash(l: Reload, i: nat, j: nat, tag: string) returns (c: nat)
    requires l.Valid() && l.RivalAt(i, j, tag)
    ensures c < |l.order| && l.Clashes(c)
    decreases i
  {
    StoredKey(l, i);
    var last := RouteAtIs(l, i, tag);
    assert last.Some?;
    StoredKey(l, last.value);
    if l.order[last.value].0 != l.order[i].0 {
      assert l.ClashesAt(i, tag);
      c := i;
    } else {
      assert l.RivalAt(last.value, j, tag);
      c := RivalsClash(l, last.value, j, tag);
    }
  }

  lemma HolderClashes(l: Reload, i: nat, tag: string) returns (c: nat)
    requires l.Valid() && l.HolderAt(i, tag)
    ensures c < |l.order| && l.Clashes(c)
  {
    StoredKey(l, i);
    if j: nat :| j < i && l.Claims(j, tag) {
      var first := FirstClaim(l, j, tag);
      StoredKey(l, first);
      if l.order[first].0 != l.order[i].0 {
        assert l.RivalAt(i, first, tag);
        c := RivalsClash(l, i, first, tag);
      } else {
        var none := RouteAtIs(l, first, tag);
        assert !l.ReplacedBefore(first, A.KeyOf(l.routes[tag]));
        assert l.ClashesAt(first, tag);
        c := first;
      }
    } else {
      var none := RouteAtIs(l, i, tag);
      assert l.ClashesAt(i, tag);
      c := i;
    }
  }

  lemma {:induction false} FirstClaim(l: Reload, j: nat, tag: string) returns (first: nat)
    requires l.Claims(j, tag)
    ensures first <= j && l.Claims(first, tag) && forall k: nat :: k < first ==> !l.Claims(k, tag)
    decreases j
  {
    if k: nat :| k < j && l.Claims(k, tag) { first := FirstClaim(l, k, tag); } else { first := j; }
  }

  /** A clash at some row is the same as a contest in the tables. */
  lemma ClashIffContested(l: Reload)
    requires l.Valid()
    ensures (exists i: nat :: i < |l.order| && l.Clashes(i)) <==> l.Contested()
  {
    if i: nat :| i < |l.order| && l.Clashes(i) {
      var tag :| l.ClashesAt(i, tag);
      StoredKey(l, i);
      var last := RouteAtIs(l, i, tag);
      if last.Some? {
        StoredKey(l, last.value);
        assert l.RivalAt(i, last.value, tag);
      } else {
        assert l.HolderAt(i, tag);
      }
    }
    if l.Contested() {
      if i: nat, j: nat, tag :| l.RivalAt(i, j, tag) {
        var c := RivalsClash(l, i, j, tag);
      } else {
        var i: nat, tag :| l.HolderAt(i, tag);
        var c := HolderClashes(l, i, tag);
      }
    }
  }

  // -- Reloading agents ----------------------------------------------------------------------------------------

  /** One stored agent: left alone if the registry already had it, registered otherwise. */
  method Upsert(reg: A.AgentRegistry, existing: Option<A.Agent>, agent: A.Agent) returns (n: Option<nat>)
    requires reg.Valid()
    modifies reg`agents, reg`routes
    ensures reg.Valid()
    ensures existing == Some(agent) ==> n == Some(0) && reg.agents == old(reg.agents) && reg.routes == old(reg.routes)
    ensures existing != Some(agent) ==> n == if Refused(old(reg.routes), agent) then None else Some(1)
    ensures n == Some(1) ==> reg.agents == old(reg.agents)[A.KeyOf(agent) := agent]
    ensures n.None? ==> reg.agents == old(reg.agents) && reg.routes == old(reg.routes)
    ensures n == Some(1) && (agent.enabled || A.KeyOf(agent) !in old(reg.agents)) ==>
              Follows(old(reg.routes), reg.routes, agent)
  {
    hide A.RoutedTo; hide A.Refreshed; hide A.Without; hide A.AgentRegistry.Valid; hide Follows;
    if existing == Some(agent) { return Some(0); }
    ghost var before := reg.routes;
    ghost var isNew := A.KeyOf(agent) !in reg.agents;
    var ok := reg.Register(agent, true);
    if ok && agent.enabled { RoutedToFollows(before, reg.routes, agent); }
    if ok && !agent.enabled && isNew { RefreshedFollows(reg.rank, reg.agents, before, reg.routes, agent); }
    return if ok then Some(1) else None;
  }

  /** Every route is what `After` makes of it. */
  ghost predicate Follows(before: A.Routes, after: A.Routes, a: A.Agent) {
    forall t :: Lookup(after, t) == After(Lookup(before, t), a, t)
  }

  lemma RoutedToFollows(before: A.Routes, after: A.Routes, a: A.Agent)
    requires a.enabled && A.RoutedTo(A.Without(before, A.KeyOf(a)), after, a, |a.tags|)
    ensures Follows(before, after, a)
  {
    assert a.tags[..|a.tags|] == a.tags;
    forall t ensures Lookup(after, t) == After(Lookup(before, t), a, t) {
      assert Lookup(after, t) == if t in a.tags then Some(a) else Lookup(A.Without(before, A.KeyOf(a)), t);
    }
  }

  lemma RefreshedFollows(rank: string -> real, agents: A.Agents, before: A.Routes, after: A.Routes, a: A.Agent)
    requires !a.enabled && A.Refreshed(rank, agents, A.Without(before, A.KeyOf(a)), after, [])
    ensures Follows(before, after, a)
  {
    forall t ensures Lookup(after, t) == After(Lookup(before, t), a, t) {
      assert Lookup(after, t) == Lookup(A.Without(before, A.KeyOf(a)), t);
    }
  }

  /** The loop invariant about routes: before row `i` they are as foretold, and no earlier row clashed. */
  ghost predicate Foretold(l: Reload, i: nat, routes: A.Routes) {
    && (forall t :: Lookup(routes, t) == l.RouteAt(i, t))
    && (forall j: nat :: j < i ==> !l.Clashes(j))
  }

  lemma ForetoldStarts(l: Reload)
    ensures Foretold(l, 0, l.routes)
  {
  }

  lemma RefusedIffClash(l: Reload, i: nat, routes: A.Routes)
    requires l.Valid() && l.Upserts(i) && Foretold(l, i, routes)
    ensures Refused(routes, l.stored[l.order[i]]) <==> l.Clashes(i)
  {
    var a := l.stored[l.order[i]];
    if Refused(routes, a) {
      var t :| t in a.tags && A.Taken(routes, a, t);
      assert Lookup(routes, t) == l.RouteAt(i, t);
      assert l.ClashesAt(i, t);
    }
    if l.Clashes(i) {
      var t :| l.ClashesAt(i, t);
      assert Lookup(routes, t) == l.RouteAt(i, t);
      assert A.Taken(routes, a, t);
    }
  }

  lemma ForetoldOneMore(l: Reload, i: nat, before: A.Routes, after: A.Routes)
    requires l.Valid() && i < |l.order| && Foretold(l, i, before) && !l.Clashes(i)
    requires l.Upserts(i) ==> Follows(before, after, l.stored[l.order[i]])
    requires !l.Upserts(i) ==> after == before
    ensures Foretold(l, i + 1, after)
  {
    forall t ensures Lookup(after, t) == l.RouteAt(i + 1, t) { assert Lookup(before, t) == l.RouteAt(i, t); }
  }

  lemma UnchangedDoesNotClash(l: Reload, i: nat)
    requires !l.Upserts(i)
    ensures !l.Clashes(i)
  {
  }

  lemma NewRowIsAbsent<T>(current: map<Key, T>, stored: map<Key, T>, done: set<Key>, k: Key)
    requires k !in done && k !in current
    ensures k !in Mixed(current, stored, done)
  {
  }

  lemma NoneDisabledHere(l: Reload, i: nat)
    requires l.NoneDisabled() && l.Upserts(i)
    ensures l.stored[l.order[i]].enabled || l.order[i] !in l.current
  {
  }

  /** `None`: a registration was refused and the rest not attempted. `freed` are the routes after the removals. */
  method ReloadAgents(reg: A.AgentRegistry, stored: A.Agents, order: seq<Key>)
    returns (count: Option<nat>, ghost freed: A.Routes)
    requires reg.Valid() && A.Keyed(stored) && Enumerates(order, stored)
    modifies reg`agents, reg`routes
    ensures reg.Valid()
    ensures count.Some? ==> reg.agents == stored && count.value == |Stale(old(reg.agents), stored)|
    ensures old(reg.agents) == stored ==> count == Some(0) && reg.routes == old(reg.routes)
    ensures OneNamePerTag(old(reg.agents), stored) ==> count.Some?
    ensures var surplus := Surplus(old(reg.agents), stored);
            var l := Reload(old(reg.agents) - surplus, freed, stored, order);
            && A.Rerouted(reg.rank, l.current, old(reg.routes), freed, surplus)
            && (surplus == {} ==> l.current == old(reg.agents) && freed == old(reg.routes))
            && (l.NoneDisabled() ==> (count.None? <==> l.Contested()))
    ensures FirstRefused(old(reg.agents), old(reg.routes), stored, order) ==>
              count.None? && reg.agents == old(reg.agents) && reg.routes == old(reg.routes)
  {
    hide A.Routed; hide A.Keyed; hide Mixed; hide Differing; hide Stale; hide Elements; hide OneNamePerTag;
    hide Refused; hide Surplus; hide Enumerates;
    hide Foretold; hide Follows; hide Reload.Contested; hide Reload.NoneDisabled; hide Reload.RouteAt;
    hide Reload.Clashes; hide A.Rerouted;
    var was := reg.agents;
    ghost var before := reg.routes;
    var n := RemoveSurplus(reg, stored);
    StaleSplits(was, stored);
    MixedStart(was, stored);
    freed := reg.routes;
    ghost var l := Reload(reg.agents, freed, stored, order);
    KeptAll(was, stored);
    ClashIffContested(l);
    ForetoldStarts(l);
    var i := 0;
    while i < |order|
      invariant 0 <= i <= |order| && reg.Valid()
      invariant l.NoneDisabled() ==> Foretold(l, i, reg.routes)
      invariant reg.agents == Mixed(was, stored, Elements(order[..i]))
      invariant n == |Surplus(was, stored)| + |Differing(was, stored, Elements(order[..i]))|
      invariant i == 0 || was == stored ==> Surplus(was, stored) == {} ==> reg.routes == before && reg.agents == was
      invariant i > 0 ==> !FirstRefused(was, before, stored, order)
    {
      NextElement(order, stored, i);
      var k := order[i];
      assert A.KeyOf(stored[k]) == k by { KeyOfStored(stored, k); }
      MixedOneMore(was, stored, Elements(order[..i]), k);
      DifferingOneMore(was, stored, Elements(order[..i]), k);
      if OneNamePerTag(was, stored) { OneNameRegisters(was, stored, Elements(order[..i]), reg.routes, k); }
      if FirstRefused(was, before, stored, order) { NothingSurplus(was, stored); }
      ghost var routes := reg.routes;
      KeptIsSame(was, stored, k);
      if l.NoneDisabled() {
        if l.Upserts(i) {
          NoneDisabledHere(l, i);
          RefusedIffClash(l, i, routes);
          if k !in was { NewRowIsAbsent(was, stored, Elements(order[..i]), k); }
        } else {
          UnchangedDoesNotClash(l, i);
        }
      }
      var more := Upsert(reg, if k in was then Some(was[k]) else None, stored[k]);
      if more.None? { return None, freed; }
      if l.NoneDisabled() { ForetoldOneMore(l, i, routes, reg.routes); }
      n := n + more.value;
      i := i + 1;
    }
    MixedAll(was, stored, order);
    if l.NoneDisabled() { ForetoldEnds(l, reg.routes); }
    return Some(n), freed;
  }

  lemma KeptAll<T>(current: map<Key, T>, stored: map<Key, T>)
    ensures Surplus(current, stored) == {} ==> current - Surplus(current, stored) == current
  {
  }

  lemma KeptIsSame<T>(current: map<Key, T>, stored: map<Key, T>, k: Key)
    requires k in stored
    ensures var kept := current - Surplus(current, stored);
            (k in kept <==> k in current) && (k in current ==> kept[k] == current[k])
  {
  }

  lemma ForetoldEnds(l: Reload, routes: A.Routes)
    requires Foretold(l, |l.order|, routes)
    ensures forall i: nat :: i < |l.order| ==> !l.Clashes(i)
  {
  }

  lemma KeyOfStored(stored: A.Agents, k: Key)
    requires A.Keyed(stored) && k in stored
    ensures A.KeyOf(stored[k]) == k
  {
  }

  lemma NothingSurplus<T>(current: map<Key, T>, stored: map<Key, T>)
    requires current.Keys <= stored.Keys
    ensures Surplus(current, stored) == {}
  {
  }

  lemma MixedStart<T>(current: map<Key, T>, stored: map<Key, T>)
    ensures Mixed(current, stored, Elements([])) == current - Surplus(current, stored)
    ensures Differing(current, stored, Elements([])) == {}
  {
  }

  /**
   * A tag that moves between two agents in one edit can block every reload: the stored table is free of contest, but
   * the agent that gains the tag comes first and is refused while the old holder is still routed.
   */
  lemma TagMoveIsRefused(tag: string) returns (current: A.Agents, stored: A.Agents, routes: A.Routes, order: seq<Key>)
    ensures A.Keyed(current) && A.Keyed(stored) && A.Routed(current, routes) && Enumerates(order, stored)
    ensures OneNamePerTag(stored, stored) && FirstRefused(current, routes, stored, order)
    ensures var l := Reload(current, routes, stored, order); l.NoneDisabled() && l.Contested()
  {
    var holder := A.Agent("b", "1", true, [tag], "");
    var gainer := A.Agent("a", "1", true, [tag], "");
    var a, b := ("a", "1"), ("b", "1");
    current := map[b := holder];
    stored := map[a := gainer, b := holder.(tags := [])];
    routes := map[tag := holder];
    order := [a, b];
    assert tag in gainer.tags && A.Taken(routes, gainer, tag);
    assert Reload(current, routes, stored, order).HolderAt(0, tag);
  }

  // -- Skills --------------------------------------------------------------------------------------------------

  method RemoveSurplusSkills(reg: S.SkillRegistry, stored: S.Skills) returns (n: nat)
    requires reg.Valid()
    modifies reg`skills, reg`defaults
    ensures reg.Valid() && n == |Surplus(old(reg.skills), stored)|
    ensures reg.skills == old(reg.skills) - Surplus(old(reg.skills), stored)
    ensures Surplus(old(reg.skills), stored) == {} ==> reg.defaults == old(reg.defaults)
  {
    hide S.Redefaulted; hide S.SkillRegistry.Valid; hide Matching; hide Minus; hide Surplus;
    n := 0;
    ghost var was := reg.skills;
    var left := Surplus(reg.skills, stored);
    ghost var all, gone := left, {};
    SurplusIsKnown(was, stored);
    while left != {}
      invariant reg.Valid() && left <= was.Keys && gone !! left && gone + left == all
      invariant reg.skills == Minus(was, gone) && n == |gone|
      invariant gone == {} ==> reg.defaults == old(reg.defaults)
      decreases |left|
    {
      var k :| k in left;
      RemoveOne(was, gone, left, k);
      MinusIs(reg.skills, {k});
      ghost var mid := reg.skills;
      var removed := reg.Deregister(k.0, Some(k.1));
      OnlyOne(removed, mid.Keys, k);
      left := left - {k};
      gone := gone + {k};
      n := n + 1;
    }
    assert gone == all;
    MinusIs(was, all);
  }

  method UpsertSkill(reg: S.SkillRegistry, existing: Option<S.Skill>, skill: S.Skill) returns (n: nat)
    requires reg.Valid()
    modifies reg`skills, reg`defaults
    ensures reg.Valid()
    ensures existing == Some(skill) ==> n == 0 && reg.skills == old(reg.skills) && reg.defaults == old(reg.defaults)
    ensures existing != Some(skill) ==> n == 1 && reg.skills == old(reg.skills)[(skill.name, skill.version) := skill]
  {
    hide S.SkillRegistry.Valid; hide S.IsNewest;
    if existing == Some(skill) { return 0; }
    reg.Register(skill, forall k :: k in reg.skills ==> k.0 != skill.name);
    return 1;
  }

  /** `verified`: every stored artifact passed verification; otherwise the reload raises before it changes anything. */
  method ReloadSkills(reg: S.SkillRegistry, stored: S.Skills, order: seq<Key>, verified: bool)
    returns (count: Option<nat>)
    requires reg.Valid() && Enumerates(order, stored)
    requires forall k :: k in stored ==> k == (stored[k].name, stored[k].version)
    modifies reg`skills, reg`defaults
    ensures reg.Valid()
    ensures count.Some? <==> verified
    ensures !verified ==> reg.skills == old(reg.skills) && reg.defaults == old(reg.defaults)
    ensures verified ==> reg.skills == stored && count.value == |Stale(old(reg.skills), stored)|
    ensures old(reg.skills) == stored && verified ==> count == Some(0) && reg.defaults == old(reg.defaults)
  {
    hide S.SkillRegistry.Valid; hide Mixed; hide Differing; hide Stale; hide Elements; hide Surplus; hide Enumerates;
    if !verified { return None; }
    var was := reg.skills;
    ghost var before := reg.defaults;
    var n := RemoveSurplusSkills(reg, stored);
    StaleSplits(was, stored);
    MixedStart(was, stored);
    if was == stored { NothingSurplus(was, stored); }
    var i := 0;
    while i < |order|
      invariant 0 <= i <= |order| && reg.Valid()
      invariant reg.skills == Mixed(was, stored, Elements(order[..i]))
      invariant n == |Surplus(was, stored)| + |Differing(was, stored, Elements(order[..i]))|
      invariant was == stored ==> reg.defaults == before
    {
      NextElement(order, stored, i);
      var k := order[i];
      MixedOneMore(was, stored, Elements(order[..i]), k);
      DifferingOneMore(was, stored, Elements(order[..i]), k);
      var more := UpsertSkill(reg, if k in was then Some(was[k]) else None, stored[k]);
      n := n + more;
      i := i + 1;
    }
    MixedAll(was, stored, order);
    return Some(n);
  }
}

/** The agent registry: versions of named agents, and the route of each tag to one of them. */
module AgentRegistries {
  import opened Common
  import opened Versions

  datatype Agent = Agent(name: string, version: string, enabled: bool, tags: seq<string>, body: string)
  type Agents = map<Key, Agent>
  type Routes = map<string, Agent>

  function KeyOf(a: Agent): Key { (a.name, a.version) }

  function Disabled(a: Agent): Agent { a.(enabled := false) }

  /** A registered, enabled agent that lists the tag. */
  predicate Candidate(agents: Agents, tag: string, a: Agent) {
    KeyOf(a) in agents && agents[KeyOf(a)] == a && a.enabled && tag in a.tags
  }

  /** The newest candidate, if there is one; `rank` orders version strings. */
  ghost predicate IsLatest(rank: string -> real, agents: Agents, tag: string, choice: Option<Agent>) {
    match choice
    case None => forall a :: !Candidate(agents, tag, a)
    case Some(a) =>
      && Candidate(agents, tag, a)
      && forall b :: Candidate(agents, tag, b) ==> rank(b.version) <= rank(a.version)
  }

  ghost predicate Keyed(agents: Agents) { forall k :: k in agents ==> KeyOf(agents[k]) == k }

  ghost predicate Routed(agents: Agents, routes: Routes) { forall t :: t in routes ==> Candidate(agents, t, routes[t]) }

  function Without(routes: Routes, key: Key): Routes { map t | t in routes && KeyOf(routes[t]) != key :: routes[t] }

  predicate Taken(routes: Routes, a: Agent, tag: string) { tag in routes && routes[tag].name != a.name }

  /** Routes to `a` for its first `n` tags, the others as before. */
  ghost predicate RoutedTo(before: Routes, after: Routes, a: Agent, n: nat)
    requires n <= |a.tags|
  {
    forall t :: Lookup(after, t) == if t in a.tags[..n] then Some(a) else Lookup(before, t)
  }

  /** Tags in `tags` follow the latest candidate if there is one; all else is as before. */
  ghost predicate Refreshed(rank: string -> real, agents: Agents, before: Routes, after: Routes, tags: seq<string>) {
    forall t ::
      if t in tags && exists a :: Candidate(agents, t, a) then IsLatest(rank, agents, t, Lookup(after, t))
      else Lookup(after, t) == Lookup(before, t)
  }

  /** Tags routed to a key in `gone` now follow the latest candidate or nothing; all else is as before. */
  ghost predicate Rerouted(rank: string -> real, agents: Agents, before: Routes, after: Routes, gone: set<Key>) {
    forall t ::
      if t in before && KeyOf(before[t]) in gone then IsLatest(rank, agents, t, Lookup(after, t))
      else Lookup(after, t) == Lookup(before, t)
  }

  /** The candidates that remain are as before, less those of `key`. */
  ghost predicate Shrinks(was: Agents, now: Agents, key: Key) {
    forall t, a :: Candidate(now, t, a) <==> Candidate(was, t, a) && KeyOf(a) != key
  }

  lemma LatestShrinks(rank: string -> real, was: Agents, now: Agents, key: Key, tag: string, choice: Option<Agent>)
    requires Shrinks(was, now, key) && IsLatest(rank, was, tag, choice) && (choice.Some? ==> KeyOf(choice.value) != key)
    ensures IsLatest(rank, now, tag, choice)
  {
  }

  /** Taking out one more key keeps the routes right: what follows the latest candidate still does. */
  lemma RerouteMore(
      rank: string -> real, was: Agents, now: Agents, before: Routes, mid: Routes, after: Routes, gone: set<Key>,
      key: Key)
    requires Shrinks(was, now, key)
    requires Rerouted(rank, was, before, mid, gone) && Rerouted(rank, now, mid, after, {key})
    ensures Rerouted(rank, now, before, after, gone + {key})
  {
    forall t ensures if t in before && KeyOf(before[t]) in gone + {key} then IsLatest(rank, now, t, Lookup(after, t))
                     else Lookup(after, t) == Lookup(before, t)
    {
      if t in before && KeyOf(before[t]) in gone && !(t in mid && KeyOf(mid[t]) == key) {
        LatestShrinks(rank, was, now, key, t, Lookup(mid, t));
      }
    }
  }

  /** Routes that were right stay right when the routes of the keys taken out are renewed. */
  lemma RerouteKeepsRouted(rank: string -> real, was: Agents, now: Agents, before: Routes, after: Routes, key: Key)
    requires Routed(was, before) && Shrinks(was, now, key) && Rerouted(rank, now, before, after, {key})
    ensures Routed(now, after)
  {
    forall t | t in after ensures Candidate(now, t, after[t]) {
      assert Lookup(after, t) == Some(after[t]);
      if t in before && KeyOf(before[t]) == key { assert IsLatest(rank, now, t, Some(after[t])); }
    }
  }

  lemma DisableShrinks(agents: Agents, key: Key)
    requires Keyed(agents) && key in agents
    ensures Shrinks(agents, agents[key := Disabled(agents[key])], key) && Keyed(agents[key := Disabled(agents[key])])
  {
  }

  lemma RemoveShrinks(agents: Agents, key: Key)
    requires Keyed(agents)
    ensures Shrinks(agents, agents - {key}, key) && Keyed(agents - {key})
  {
  }

  /** An empty version counts as none in `disable`, but not in `deregister`. */
  function GivenVersion(version: Option<string>): Option<string> { if version == Some("") then None else version }

  class AgentRegistry {
    const rank: string -> real
    var agents: Agents
    var routes: Routes

    ghost predicate Valid() reads this { Keyed(agents) && Routed(agents, routes) }

    constructor (rank: string -> real)
      ensures Valid() && this.rank == rank && agents == map[] && routes == map[]
    {
      this.rank := rank;
      agents, routes := map[], map[];
    }

    method LatestEnabledForTag(tag: string) returns (best: Option<Agent>)
      requires Keyed(agents)
      ensures IsLatest(rank, agents, tag, best)
    {
      best := None;
      var left := agents.Keys;
      while left != {}
        invariant left <= agents.Keys
        invariant best.Some? ==> Candidate(agents, tag, best.value)
        invariant forall a :: Candidate(agents, tag, a) && KeyOf(a) !in left ==>
                    best.Some? && rank(a.version) <= rank(best.value.version)
        decreases |left|
      {
        var k :| k in left;
        var a := agents[k];
        if a.enabled && tag in a.tags && (best.None? || rank(best.value.version) < rank(a.version)) { best := Some(a); }
        left := left - {k};
      }
    }

    /** Removes every route to `key`. */
    method Unroute(key: Key)
      modifies this`routes
      ensures routes == Without(old(routes), key)
    {
      var left := routes.Keys;
      while left != {}
        invariant left <= old(routes).Keys
        invariant forall t :: Lookup(routes, t) ==
                    if t in left then Lookup(old(routes), t) else Lookup(Without(old(routes), key), t)
        decreases |left|
      {
        var t :| t in left;
        assert Lookup(routes, t) == Lookup(old(routes), t);
        if KeyOf(routes[t]) == key { routes := routes - {t}; }
        left := left - {t};
      }
      SameLookups(routes, Without(old(routes), key));
    }

    /** Replaces every route to `key`, whose agent is gone or disabled, by the latest candidate. */
    method Reroute(key: Key)
      requires Keyed(agents)
      modifies this`routes
      ensures Rerouted(rank, agents, old(routes), routes, {key})
    {
      hide IsLatest; hide Keyed;
      ghost var before := routes;
      var left := routes.Keys;
      while left != {}
        invariant left <= before.Keys
        invariant forall t :: t in left || !(t in before && KeyOf(before[t]) == key) ==>
                    Lookup(routes, t) == Lookup(before, t)
        invariant forall t :: t !in left && t in before && KeyOf(before[t]) == key ==>
                    IsLatest(rank, agents, t, Lookup(routes, t))
        decreases |left|
      {
        var t :| t in left;
        assert Lookup(routes, t) == Lookup(before, t);
        if KeyOf(routes[t]) == key {
          var replacement := LatestEnabledForTag(t);
          SetOne(routes, t, replacement);
          routes := if replacement.Some? then routes[t := replacement.value] else routes - {t};
        }
        left := left - {t};
      }
    }

    /** Registers or replaces; refused, without any change, if a tag is routed to another name. */
    method Register(agent: Agent, makeDefault: bool) returns (ok: bool)
      requires Valid()
      modifies this`agents, this`routes
      ensures Valid()
      ensures !ok <==>
                && agent.enabled && makeDefault
                && exists t :: t in agent.tags && t in old(routes) && old(routes)[t].name != agent.name
      ensures !ok ==> agents == old(agents) && routes == old(routes)
      ensures ok ==> agents == old(agents)[KeyOf(agent) := agent]
      ensures ok && agent.enabled && makeDefault ==>
                RoutedTo(Without(old(routes), KeyOf(agent)), routes, agent, |agent.tags|)
      ensures ok && !(agent.enabled && makeDefault) ==>
                Refreshed(rank, agents, Without(old(routes), KeyOf(agent)), routes,
                          if KeyOf(agent) in old(agents) then old(agents)[KeyOf(agent)].tags else [])
    {
      hide IsLatest; hide RoutedTo; hide Refreshed; hide Without; hide Routed; hide Keyed;
      var key := KeyOf(agent);
      if agent.enabled && makeDefault {
        var taken := AnyTaken(agent);
        if taken { return false; }
      }
      ghost var was, before := agents, routes;
      var previous := if key in agents then Some(agents[key]) else None;
      if previous.Some? { Unroute(key); } else { NothingRouted(agents, routes, key); }
      agents := agents[key := agent];
      ReplaceKeepsRouted(was, before, agent);
      if agent.enabled && makeDefault {
        RouteTo(agent);
      } else if previous.Some? {
        Refresh(previous.value.tags);
      } else {
        RefreshNothing(rank, agents, routes);
      }
      return true;
    }

    method AnyTaken(agent: Agent) returns (taken: bool)
      ensures taken <==> exists t :: t in agent.tags && Taken(routes, agent, t)
    {
      for i := 0 to |agent.tags|
        invariant forall k :: 0 <= k < i ==> !Taken(routes, agent, agent.tags[k])
      {
        if Taken(routes, agent, agent.tags[i]) { return true; }
      }
      return false;
    }

    method RouteTo(agent: Agent)
      requires Keyed(agents) && Routed(agents, routes)
      requires KeyOf(agent) in agents && agents[KeyOf(agent)] == agent && agent.enabled
      modifies this`routes
      ensures RoutedTo(old(routes), routes, agent, |agent.tags|) && Routed(agents, routes)
    {
      for i := 0 to |agent.tags|
        invariant RoutedTo(old(routes), routes, agent, i) && Routed(agents, routes)
      {
        assert agent.tags[..i + 1] == agent.tags[..i] + [agent.tags[i]];
        routes := routes[agent.tags[i] := agent];
      }
    }

    /** Points each of the tags to its latest candidate, where there is one. */
    method Refresh(tags: seq<string>)
      requires Keyed(agents) && Routed(agents, routes)
      modifies this`routes
      ensures Refreshed(rank, agents, old(routes), routes, tags) && Routed(agents, routes)
    {
      hide Keyed;
      for i := 0 to |tags|
        invariant Refreshed(rank, agents, old(routes), routes, tags[..i]) && Routed(agents, routes)
      {
        assert tags[..i + 1] == tags[..i] + [tags[i]];
        var replacement := LatestEnabledForTag(tags[i]);
        RefreshOne(rank, agents, old(routes), routes, tags[..i], tags[i], replacement);
        if replacement.Some? { routes := routes[tags[i] := replacement.value]; }
      }
      assert tags[..|tags|] == tags;
    }

    method Disable(name: string, version: Option<string>) returns (changed: set<Key>)
      requires Valid()
      modifies this`agents, this`routes
      ensures Valid()
      ensures forall k :: k in changed <==>
                k in old(agents) && k.0 == name && (version.None? || version.value == "" || version.value == k.1)
      ensures agents.Keys == old(agents).Keys
      ensures forall k :: k in agents ==>
                agents[k] == if k in changed then old(agents)[k].(enabled := false) else old(agents)[k]
      ensures Rerouted(rank, agents, old(routes), routes, changed)
    {
      hide IsLatest; hide Rerouted; hide Routed; hide Shrinks; hide Matches; hide Changed; hide Keyed;
      ghost var was, before := agents, routes;
      changed := {};
      var left := Matching(agents, name, GivenVersion(version));
      ghost var all := left;
      RerouteNone(rank, agents, routes);
      ChangeNone(agents, Disabled);
      while left != {}
        invariant left <= all && changed == all - left && all <= was.Keys
        invariant Keyed(agents) && agents == Changed(was, changed, Disabled)
        invariant Routed(agents, routes)
        invariant Rerouted(rank, agents, before, routes, changed)
        decreases |left|
      {
        var k :| k in left;
        ghost var mid, midRoutes := agents, routes;
        ChangeOneMore(was, changed, Disabled, k);
        DisableShrinks(agents, k);
        agents := agents[k := Disabled(agents[k])];
        Reroute(k);
        RerouteKeepsRouted(rank, mid, agents, midRoutes, routes, k);
        RerouteMore(rank, mid, agents, before, midRoutes, routes, changed, k);
        left := left - {k};
        changed := changed + {k};
      }
      ChangedIs(was, changed, Disabled);
      MatchingIs(was, name, GivenVersion(version));
    }

    method Deregister(name: string, version: Option<string>) returns (removed: set<Key>)
      requires Valid()
      modifies this`agents, this`routes
      ensures Valid()
      ensures forall k :: k in removed <==> k in old(agents) && k.0 == name && (version.None? || version.value == k.1)
      ensures agents == old(agents) - removed
      ensures Rerouted(rank, agents, old(routes), routes, removed)
    {
      hide IsLatest; hide Rerouted; hide Routed; hide Shrinks; hide Matches;
      ghost var was, before := agents, routes;
      removed := {};
      var left := Matching(agents, name, version);
      ghost var all := left;
      RerouteNone(rank, agents, routes);
      while left != {}
        invariant left <= all && removed == all - left && all <= was.Keys
        invariant Keyed(agents) && agents == was - removed
        invariant Routed(agents, routes)
        invariant Rerouted(rank, agents, before, routes, removed)
        decreases |left|
      {
        var k :| k in left;
        ghost var mid, midRoutes := agents, routes;
        RemoveShrinks(agents, k);
        agents := agents - {k};
        Reroute(k);
        RerouteKeepsRouted(rank, mid, agents, midRoutes, routes, k);
        RerouteMore(rank, mid, agents, before, midRoutes, routes, removed, k);
        left := left - {k};
        removed := removed + {k};
        assert agents == was - removed;
      }
      MatchingIs(was, name, version);
    }

    /** Routes all its tags to an enabled version; refused, without any change, if it cannot. */
    method SetDefault(name: string, version: string) returns (found: Option<Agent>, ok: bool)
      requires Valid()
      modifies this`routes
      ensures Valid() && IsBest(rank, agents, name, version, found)
      ensures ok <==>
                && found.Some? && found.value.enabled
                && forall t :: t in found.value.tags && t in old(routes) ==> old(routes)[t].name == found.value.name
      ensures ok ==> RoutedTo(old(routes), routes, found.value, |found.value.tags|)
      ensures !ok ==> routes == old(routes)
    {
      ok := false;
      found := Get(name, version);
      if found.None? || !found.value.enabled { return; }
      var taken := AnyTaken(found.value);
      if taken { return; }
      RouteTo(found.value);
      ok := true;
    }

    /** The newest enabled version, or the newest if none is enabled; a non-empty version picks that one. */
    method Get(name: string, version: string) returns (best: Option<Agent>)
      requires Keyed(agents)
      ensures IsBest(rank, agents, name, version, best)
    {
      best := None;
      var left := agents.Keys;
      while left != {}
        invariant left <= agents.Keys
        invariant best.Some? ==> KeyOf(best.value) in agents && agents[KeyOf(best.value)] == best.value
        invariant best.Some? ==> Asked(KeyOf(best.value), name, version)
        invariant forall k :: k in agents && k !in left && Asked(k, name, version) ==>
                    best.Some? && !Better(rank, agents[k], best.value)
        decreases |left|
      {
        var k :| k in left;
        if Asked(k, name, version) && (best.None? || Better(rank, agents[k], best.value)) { best := Some(agents[k]); }
        left := left - {k};
      }
    }

    /** An agent is resolved only if it is registered, enabled and lists the tag. */
    method Resolve(tag: string, version: string) returns (found: Option<Agent>)
      requires Valid()
      ensures found.Some? ==> Candidate(agents, tag, found.value) && (version != "" ==> found.value.version == version)
      ensures version == "" ==> found == Lookup(routes, tag)
      ensures version != "" && found.None? ==> forall a :: Candidate(agents, tag, a) ==> a.version != version
    {
      if version == "" { return if tag in routes then Some(routes[tag]) else None; }
      found := None;
      var left := agents.Keys;
      while left != {} && found.None?
        invariant left <= agents.Keys
        invariant found.Some? ==> Candidate(agents, tag, found.value) && found.value.version == version
        invariant found.None? ==> forall a :: Candidate(agents, tag, a) && KeyOf(a) !in left ==> a.version != version
        decreases |left|
      {
        var k :| k in left;
        if tag in agents[k].tags && agents[k].version == version && agents[k].enabled { found := Some(agents[k]); }
        left := left - {k};
      }
    }
  }

  predicate Asked(key: Key, name: string, version: string) { key.0 == name && (version == "" || key.1 == version) }

  predicate Better(rank: string -> real, a: Agent, b: Agent) {
    (a.enabled && !b.enabled) || (a.enabled == b.enabled && rank(a.version) > rank(b.version))
  }

  /** A match, enabled if any is and the newest of those, or nothing exactly when there is no match. */
  ghost predicate IsBest(rank: string -> real, agents: Agents, name: string, version: string, best: Option<Agent>) {
    && (best.Some? ==> KeyOf(best.value) in agents && agents[KeyOf(best.value)] == best.value)
    && (best.Some? ==> best.value.name == name && (version != "" ==> best.value.version == version))
    && (forall k :: k in agents && k.0 == name && (version != "" ==> k.1 == version) ==>
          && best.Some?
          && (agents[k].enabled ==> best.value.enabled)
          && (agents[k].enabled == best.value.enabled ==> rank(agents[k].version) <= rank(best.value.version)))
  }

  lemma SetOne(routes: Routes, t: string, choice: Option<Agent>)
    ensures var after := if choice.Some? then routes[t := choice.value] else routes - {t};
            forall u :: Lookup(after, u) == if u == t then choice else Lookup(routes, u)
  {
    var after := if choice.Some? then routes[t := choice.value] else routes - {t};
    forall u ensures Lookup(after, u) == if u == t then choice else Lookup(routes, u) {
      assert u != t ==> (u in after <==> u in routes);
    }
  }

  lemma SameLookups(a: Routes, b: Routes)
    requires forall t :: Lookup(a, t) == Lookup(b, t)
    ensures a == b
  {
    forall t ensures t in a <==> t in b { assert Lookup(a, t) == Lookup(b, t); }
    forall t | t in a ensures a[t] == b[t] { assert Lookup(a, t) == Lookup(b, t); }
  }

  lemma NothingRouted(agents: Agents, routes: Routes, key: Key)
    requires Routed(agents, routes) && key !in agents
    ensures Without(routes, key) == routes
  {
  }

  lemma ReplaceKeepsRouted(agents: Agents, routes: Routes, a: Agent)
    requires Keyed(agents) && Routed(agents, routes)
    ensures Keyed(agents[KeyOf(a) := a]) && Routed(agents[KeyOf(a) := a], Without(routes, KeyOf(a)))
  {
  }

  lemma RefreshNothing(rank: string -> real, agents: Agents, routes: Routes)
    ensures Refreshed(rank, agents, routes, routes, [])
  {
  }

  lemma RefreshOne(
      rank: string -> real, agents: Agents, before: Routes, mid: Routes, tags: seq<string>, tag: string,
      choice: Option<Agent>)
    requires Refreshed(rank, agents, before, mid, tags) && Routed(agents, mid) && IsLatest(rank, agents, tag, choice)
    ensures var after := if choice.Some? then mid[tag := choice.value] else mid;
            Refreshed(rank, agents, before, after, tags + [tag]) && Routed(agents, after)
  {
    var after := if choice.Some? then mid[tag := choice.value] else mid;
    forall t
      ensures if t in tags + [tag] && exists a :: Candidate(agents, t, a)
              then IsLatest(rank, agents, t, Lookup(after, t))
              else Lookup(after, t) == Lookup(before, t)
    {
      if t == tag { assert choice.Some? ==> Candidate(agents, t, choice.value); }
    }
  }

  lemma RerouteNone(rank: string -> real, agents: Agents, routes: Routes)
    ensures Rerouted(rank, agents, routes, routes, {})
  {
  }

  // -- Tags without a route ------------------------------------------------------------------------------------

  /** No request for the tag is routed, although a registered, enabled agent lists it. */
  ghost predicate Orphaned(agents: Agents, routes: Routes, tag: string) {
    tag !in routes && exists a :: Candidate(agents, tag, a)
  }

  /**
   * A default registration orphans a routed tag if and only if the tag was routed to the version being replaced, the
   * new spec does not list it, and some other version does: unlike disabling and deregistering, registering an enabled
   * default does not fall back to the latest candidate.
   */
  lemma OrphanedByRegisterIff(agents: Agents, before: Routes, after: Routes, a: Agent, tag: string)
    requires Keyed(agents) && Routed(agents, before) && tag in before && a.enabled
    requires RoutedTo(Without(before, KeyOf(a)), after, a, |a.tags|)
    ensures Orphaned(agents[KeyOf(a) := a], after, tag) <==>
            && KeyOf(before[tag]) == KeyOf(a) && tag !in a.tags
            && exists c :: Candidate(agents, tag, c) && KeyOf(c) != KeyOf(a)
  {
    var now := agents[KeyOf(a) := a];
    assert a.tags[..|a.tags|] == a.tags;
    assert Lookup(after, tag) == if tag in a.tags then Some(a) else Lookup(Without(before, KeyOf(a)), tag);
    forall c
      ensures Candidate(now, tag, c) <==>
              (c == a && tag in a.tags) || (Candidate(agents, tag, c) && KeyOf(c) != KeyOf(a))
    {
    }
    if Orphaned(now, after, tag) {
      var c :| Candidate(now, tag, c);
      assert Candidate(agents, tag, c) && KeyOf(c) != KeyOf(a);
    }
  }

  /**
   * It happens: two versions list the tag, and the newer one, to which it is routed, is registered again without it.
   */
  method RetaggingOrphans(rank: string -> real, tag: string) returns (registry: AgentRegistry)
    ensures registry.Valid() && Orphaned(registry.agents, registry.routes, tag)
  {
    hide Refreshed;
    var old1, old2 := Agent("a", "1", true, [tag], ""), Agent("a", "2", true, [tag], "");
    var new2 := Agent("a", "2", true, [], "");
    registry := new AgentRegistry(rank);
    var ok := registry.Register(old1, true);
    RoutesOnlyTo(map[], registry.routes, old1);
    ok := registry.Register(old2, true);
    assert old2.tags[..1] == [tag];
    assert Lookup(registry.routes, tag) == Some(old2);
    ghost var agents, routes := registry.agents, registry.routes;
    assert agents == map[KeyOf(old1) := old1, KeyOf(old2) := old2];
    ok := registry.Register(new2, true);
    assert Candidate(agents, tag, old1);
    OrphanedByRegisterIff(agents, routes, registry.routes, new2, tag);
  }

  lemma RoutesOnlyTo(before: Routes, after: Routes, a: Agent)
    requires before == map[] && RoutedTo(Without(before, KeyOf(a)), after, a, |a.tags|)
    ensures forall t :: t in after ==> t in a.tags && after[t] == a
  {
    assert a.tags[..|a.tags|] == a.tags;
    forall t | t in after ensures t in a.tags && after[t] == a {
      assert Lookup(after, t) == if t in a.tags then Some(a) else Lookup(Without(before, KeyOf(a)), t);
    }
  }

  /** Registering a disabled version, or one that is not to be the default, never orphans a routed tag. */
  lemma RefreshNeverOrphans(
      rank: string -> real, agents: Agents, before: Routes, after: Routes, a: Agent, tag: string)
    requires Routed(agents, before) && tag in before
    requires Refreshed(rank, agents[KeyOf(a) := a], Without(before, KeyOf(a)), after,
                       if KeyOf(a) in agents then agents[KeyOf(a)].tags else [])
    ensures !Orphaned(agents[KeyOf(a) := a], after, tag)
  {
    var now := agents[KeyOf(a) := a];
    var tags := if KeyOf(a) in agents then agents[KeyOf(a)].tags else [];
    assert Candidate(agents, tag, before[tag]);
    if tag in tags && exists c :: Candidate(now, tag, c) {
      assert IsLatest(rank, now, tag, Lookup(after, tag));
    } else {
      assert Lookup(after, tag) == Lookup(Without(before, KeyOf(a)), tag);
    }
  }

  /** Nor does choosing a default, which takes no route away. */
  lemma SetDefaultNeverOrphans(agents: Agents, before: Routes, after: Routes, a: Agent, tag: string)
    requires RoutedTo(before, after, a, |a.tags|) && tag in before
    ensures !Orphaned(agents, after, tag)
  {
    assert Lookup(after, tag) == if tag in a.tags[..|a.tags|] then Some(a) else Lookup(before, tag);
  }

  /** Disabling and deregistering never orphan a routed tag. */
  lemma RerouteNeverOrphans(
      rank: string -> real, agents: Agents, before: Routes, after: Routes, gone: set<Key>, tag: string)
    requires Rerouted(rank, agents, before, after, gone) && tag in before
    ensures !Orphaned(agents, after, tag)
  {
    UnroutedAfterRerouteIff(rank, agents, before, after, gone, tag);
  }

  /** After disabling or deregistering, a tag is left unrouted only if it was not routed or no candidate remains. */
  lemma UnroutedAfterRerouteIff(
      rank: string -> real, agents: Agents, before: Routes, after: Routes, gone: set<Key>, tag: string)
    requires Rerouted(rank, agents, before, after, gone)
    requires tag in before
    ensures tag !in after <==> KeyOf(before[tag]) in gone && forall a :: !Candidate(agents, tag, a)
  {
    if KeyOf(before[tag]) in gone { assert IsLatest(rank, agents, tag, Lookup(after, tag)); }
    else { assert Lookup(after, tag) == Lookup(before, tag); }
  }
}

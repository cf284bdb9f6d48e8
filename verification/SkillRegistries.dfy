/** The Skill registry: versions of named Skills, and the default version of each name. */
module SkillRegistries {
  import opened Common
  import opened Versions

  datatype Skill = Skill(name: string, version: string, enabled: bool, body: string)
  type Skills = map<Key, Skill>
  type Defaults = map<string, string>

  function Disabled(s: Skill): Skill { s.(enabled := false) }

  predicate Enabled(skills: Skills, name: string, version: string) {
    (name, version) in skills && skills[(name, version)].enabled
  }

  /** A name has a default exactly when some version is enabled, and then the default is enabled. */
  ghost predicate DefaultOk(skills: Skills, defaults: Defaults, name: string) {
    && (name in defaults ==> Enabled(skills, name, defaults[name]))
    && (name !in defaults ==> forall v :: !Enabled(skills, name, v))
  }

  /** The newest enabled version, if there is one. */
  ghost predicate IsNewest(rank: string -> real, skills: Skills, name: string, choice: Option<string>) {
    match choice
    case None => forall v :: !Enabled(skills, name, v)
    case Some(v) => Enabled(skills, name, v) && forall u :: Enabled(skills, name, u) ==> rank(u) <= rank(v)
  }

  /**
   * The default of `name` becomes the newest enabled version if it was among the versions taken out, and stays
   * otherwise.
   */
  ghost predicate Redefaulted(
      rank: string -> real, skills: Skills, before: Defaults, after: Defaults, name: string, gone: set<Key>) {
    && (forall n :: n != name ==> Lookup(after, n) == Lookup(before, n))
    && (if name in before && (name, before[name]) in gone then IsNewest(rank, skills, name, Lookup(after, name))
        else Lookup(after, name) == Lookup(before, name))
  }

  lemma RedefaultKeepsOk(
      rank: string -> real, was: Skills, now: Skills, before: Defaults, after: Defaults, name: string, gone: set<Key>)
    requires forall n :: DefaultOk(was, before, n)
    requires Redefaulted(rank, now, before, after, name, gone)
    requires forall n, v :: Enabled(now, n, v) <==> Enabled(was, n, v) && (n, v) !in gone
    requires forall k :: k in gone ==> k.0 == name
    ensures forall n :: DefaultOk(now, after, n)
  {
    forall n ensures DefaultOk(now, after, n) {
      assert DefaultOk(was, before, n);
      assert n != name ==> Lookup(after, n) == Lookup(before, n);
    }
  }

  /**
   * What registering does to the defaults: those of other names stay; an enabled version becomes the default if asked
   * to or if there is none; a disabled one gives the default up to the newest enabled version, if it had it.
   */
  ghost predicate DefaultMoves(
      rank: string -> real, skills: Skills, before: Defaults, after: Defaults, skill: Skill, makeDefault: bool)
  {
    && (forall n :: n != skill.name ==> Lookup(after, n) == Lookup(before, n))
    && (if skill.enabled && (makeDefault || skill.name !in before) then Lookup(after, skill.name) == Some(skill.version)
        else if !skill.enabled && Lookup(before, skill.name) == Some(skill.version)
        then IsNewest(rank, skills, skill.name, Lookup(after, skill.name))
        else Lookup(after, skill.name) == Lookup(before, skill.name))
  }

  lemma DefaultMovesKeepsOk(
      rank: string -> real, was: Skills, now: Skills, before: Defaults, after: Defaults, skill: Skill,
      makeDefault: bool)
    requires forall n :: DefaultOk(was, before, n)
    requires now == was[(skill.name, skill.version) := skill]
    requires DefaultMoves(rank, now, before, after, skill, makeDefault)
    ensures forall n :: DefaultOk(now, after, n)
  {
    assert forall n, v :: (n, v) != (skill.name, skill.version) ==> (Enabled(now, n, v) <==> Enabled(was, n, v));
    forall n ensures DefaultOk(now, after, n) {
      assert DefaultOk(was, before, n);
      assert n != skill.name ==> Lookup(after, n) == Lookup(before, n);
    }
  }

  /** Without an enabled version, nothing is the newest one. */
  lemma NoneIsNewest(rank: string -> real, skills: Skills, name: string)
    ensures (forall v :: !Enabled(skills, name, v)) ==> IsNewest(rank, skills, name, None)
  {
  }

  /** The first enabled version of a name is the newest. */
  lemma OnlyOneEnabled(
      rank: string -> real, was: Skills, now: Skills, before: Defaults, skill: Skill, choice: Option<string>)
    requires DefaultOk(was, before, skill.name) && skill.name !in before && skill.enabled
    requires now == was[(skill.name, skill.version) := skill]
    requires (exists v :: Enabled(now, skill.name, v)) ==> IsNewest(rank, now, skill.name, choice)
    ensures choice == Some(skill.version)
  {
    assert Enabled(now, skill.name, skill.version);
    assert forall v :: v != skill.version ==> (Enabled(now, skill.name, v) <==> Enabled(was, skill.name, v));
  }

  class SkillRegistry {
    const rank: string -> real
    var skills: Skills
    var defaults: Defaults

    ghost predicate Valid() reads this {
      && (forall k :: k in skills ==> k == (skills[k].name, skills[k].version))
      && (forall name :: DefaultOk(skills, defaults, name))
    }

    constructor (rank: string -> real)
      ensures Valid() && this.rank == rank && skills == map[] && defaults == map[]
    {
      this.rank := rank;
      skills, defaults := map[], map[];
    }

    method SelectDefault(name: string)
      modifies this`defaults
      ensures forall n :: n != name ==> Lookup(defaults, n) == Lookup(old(defaults), n)
      ensures if exists v :: Enabled(skills, name, v) then IsNewest(rank, skills, name, Lookup(defaults, name))
              else Lookup(defaults, name) == Lookup(old(defaults), name)
    {
      var best: Option<string> := None;
      var left := skills.Keys;
      while left != {}
        invariant left <= skills.Keys
        invariant best.Some? ==> Enabled(skills, name, best.value)
        invariant forall v :: Enabled(skills, name, v) && (name, v) !in left ==>
                    best.Some? && rank(v) <= rank(best.value)
        decreases |left|
      {
        var k :| k in left;
        if k.0 == name && skills[k].enabled && (best.None? || rank(best.value) < rank(k.1)) { best := Some(k.1); }
        left := left - {k};
      }
      if best.Some? { defaults := defaults[name := best.value]; }
    }

    method Register(skill: Skill, makeDefault: bool)
      requires Valid()
      modifies this`skills, this`defaults
      ensures Valid()
      ensures skills == old(skills)[(skill.name, skill.version) := skill]
      ensures DefaultMoves(rank, skills, old(defaults), defaults, skill, makeDefault)
    {
      hide DefaultOk; hide IsNewest;
      ghost var was, before := skills, defaults;
      skills := skills[(skill.name, skill.version) := skill];
      if !skill.enabled {
        if skill.name in defaults && defaults[skill.name] == skill.version {
          defaults := defaults - {skill.name};
          SelectDefault(skill.name);
          NoneIsNewest(rank, skills, skill.name);
        }
      } else if makeDefault {
        defaults := defaults[skill.name := skill.version];
      } else if skill.name !in defaults {
        SelectDefault(skill.name);
        OnlyOneEnabled(rank, was, skills, before, skill, Lookup(defaults, skill.name));
      }
      DefaultMovesKeepsOk(rank, was, skills, before, defaults, skill, makeDefault);
    }

    /** The versions disabled; none means that the call raises. */
    method Disable(name: string, version: Option<string>) returns (changed: set<Key>)
      requires Valid()
      modifies this`skills, this`defaults
      ensures Valid()
      ensures forall k :: k in changed <==> k in old(skills) && k.0 == name && (version.None? || version.value == k.1)
      ensures skills.Keys == old(skills).Keys
      ensures forall k :: k in skills ==>
                skills[k] == if k in changed then old(skills)[k].(enabled := false) else old(skills)[k]
      ensures Redefaulted(rank, skills, old(defaults), defaults, name, changed)
    {
      ghost var was, before := skills, defaults;
      changed := Matching(skills, name, version);
      DisableAll(changed);
      assert forall n, v :: Enabled(skills, n, v) <==> Enabled(was, n, v) && (n, v) !in changed;
      Redefault(name, changed);
      RedefaultKeepsOk(rank, was, skills, before, defaults, name, changed);
    }

    method DisableAll(keys: set<Key>)
      modifies this`skills
      ensures skills == Changed(old(skills), keys, Disabled)
    {
      var left := keys * skills.Keys;
      while left != {}
        invariant left <= keys * old(skills).Keys
        invariant skills == Changed(old(skills), keys - left, Disabled)
        decreases |left|
      {
        var k :| k in left;
        skills := skills[k := Disabled(skills[k])];
        left := left - {k};
      }
    }

    method Deregister(name: string, version: Option<string>) returns (removed: set<Key>)
      requires Valid()
      modifies this`skills, this`defaults
      ensures Valid()
      ensures forall k :: k in removed <==> k in old(skills) && k.0 == name && (version.None? || version.value == k.1)
      ensures skills == old(skills) - removed
      ensures Redefaulted(rank, skills, old(defaults), defaults, name, removed)
    {
      ghost var was, before := skills, defaults;
      removed := Matching(skills, name, version);
      skills := skills - removed;
      assert forall n, v :: Enabled(skills, n, v) <==> Enabled(was, n, v) && (n, v) !in removed;
      Redefault(name, removed);
      RedefaultKeepsOk(rank, was, skills, before, defaults, name, removed);
    }

    method Redefault(name: string, gone: set<Key>)
      modifies this`defaults
      ensures Redefaulted(rank, skills, old(defaults), defaults, name, gone)
    {
      if name in defaults && (name, defaults[name]) in gone {
        defaults := defaults - {name};
        SelectDefault(name);
      }
    }

    /** Only an enabled version is ever returned; without a version, exactly when the name has an enabled one. */
    method Get(name: string, version: string) returns (skill: Option<Skill>)
      requires Valid()
      ensures skill.Some? ==>
                && (name, skill.value.version) in skills
                && skills[(name, skill.value.version)] == skill.value && skill.value.enabled
      ensures version != "" ==>
                (skill.Some? <==> Enabled(skills, name, version)) && (skill.Some? ==> skill.value.version == version)
      ensures version == "" ==> (skill.Some? <==> exists v :: Enabled(skills, name, v))
    {
      assert DefaultOk(skills, defaults, name);
      var resolved := if version != "" then Some(version) else Lookup(defaults, name);
      if resolved.None? || (name, resolved.value) !in skills || !skills[(name, resolved.value)].enabled { return None; }
      return Some(skills[(name, resolved.value)]);
    }
  }
}

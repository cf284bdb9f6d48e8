/** What the registries of versioned entries have in common. */
module Versions {
  import opened Common

  /** Name and version. */
  type Key = (string, string)

  function Lookup<K, V>(m: map<K, V>, k: K): Option<V> { if k in m then Some(m[k]) else None }

  predicate Matches(key: Key, name: string, version: Option<string>) {
    key.0 == name && (version.None? || version.value == key.1)
  }

  function Matching<T>(entries: map<Key, T>, name: string, version: Option<string>): set<Key> {
    set k | k in entries && Matches(k, name, version)
  }

  /** The entries, those in `keys` changed by `f`. */
  function Changed<T>(entries: map<Key, T>, keys: set<Key>, f: T -> T): map<Key, T> {
    map k | k in entries :: if k in keys then f(entries[k]) else entries[k]
  }

  lemma MatchingIs<T>(entries: map<Key, T>, name: string, version: Option<string>)
    ensures forall k :: k in Matching(entries, name, version) <==>
              k in entries && k.0 == name && (version.None? || version.value == k.1)
  {
  }

  lemma ChangedIs<T>(entries: map<Key, T>, keys: set<Key>, f: T -> T)
    ensures Changed(entries, keys, f).Keys == entries.Keys
    ensures forall k :: k in entries ==> Changed(entries, keys, f)[k] == if k in keys then f(entries[k]) else entries[k]
  {
  }

  lemma ChangeNone<T>(entries: map<Key, T>, f: T -> T)
    ensures Changed(entries, {}, f) == entries
  {
  }

  lemma ChangeOneMore<T>(entries: map<Key, T>, keys: set<Key>, f: T -> T, key: Key)
    requires key in entries && key !in keys
    ensures key in Changed(entries, keys, f)
    ensures Changed(entries, keys + {key}, f) == Changed(entries, keys, f)[key := f(Changed(entries, keys, f)[key])]
  {
  }
}
